# Paperless companion: verified model

A Dafny model of the Paperless companion and its hosted control plane, with proofs of what they
promise. `dafny verify dfyconfig.toml` checks everything.

The files follow the program.

**The hosted job protocol.** `JobQueue`, `ResultCache` and `ControlPlaneStore` are the control
plane's leased queue and bounded result cache; `HostedState` is the agent's two durable files.
`Protocol` puts them together as a step machine in which every file write, request and response
is a step, a crash or a raising runner may come between any two, and a request or response may
be lost, arrive late or arrive again. `AgentInvariant`, `ServerInvariant` and `ProtocolSafety`
hold the invariant; `ProtocolTheorems` and `ProtocolLiveness` the results, `ProtocolResults` where
a result's content comes from; `RunnerInvariant` and `UnreadableJobs` deal with jobs the runner
cannot read. `HostedAgent` is the agent's code as it
runs, in place, in a world that may submit jobs, let time pass, deliver late messages and kill
it between any two of its steps; each execution is shown to be a run of that machine.

**The sweep.** `Documents` has the custom fields, the stage predicates and the writes,
`SweepTick` the actions a stage performs on a document and the queues, which `Queues` tells by
what is stored in a document and, after a triage, by what its text scores. `WorkerPool` is a stage's
thread pool as a step machine: workers take documents, look at the abort flag once, act one
action at a time and return, in any interleaving, and a collector looks at outcomes as late as
it likes. `PoolCalls` says what the pool asks the provider, before and after a fatal failure,
`Faults` which errors are fatal. `StageRun` is the pool at work on the library; a schedule may
break off anywhere. How far handling a document gets is its fate, any fate at all in the
theorems; `Pipelines` and the three pipelines in `Sweep` show which fate the answers of the
calls make, and `Refusals` what one refused request does to a tick. `SweepTheorems` and
`Snapshots` hold the results over ticks and nudges, `Sweep` the program in place.

**Money.** `Spend` is the governor, the period ledger, the workers and the collector as a step
machine, and in place; `Extraction` the validated retry loop; `Billing` and `Inference` the
vendor's side.

**Smaller pieces.** `Taxonomy` (double-checked creation), `Nudges` (webhook queue and debounce),
`StrictSchema` (OpenAI's strict dialect) and `GarbageScore`.

Conventions. Ids, labels, texts and names that are only compared are numbers, so their equality
is all that is known of them; `GarbageScore`, `Faults` and the persisted queue key work on real
strings. Clocks give reals, money is whole micro-dollars. What a provider, Paperless, the wire
or the clock does is a parameter or an arbitrary choice. Assumed throughout: one agent process
and unique job ids; one sweep at a time and no human edits inside it; stage labels, option ids
and the three field ids pairwise distinct, and a select field that offers every stage label,
which the program demands too (`src/paperless_assistant/fields.py:125-135`); snapshot retention
off.

Where the code and its documentation part, the model follows the code:

- `_prune_results` promises that the entry just acked is always retained. It is if and only if
  `results_max` is at least 1 and the entry has not outlived a positive TTL between the two
  clock readings of its own ack (`ResultCache.JustAckedSurvives`).
- A limit on triage counts documents that are already handled, so it can keep triage from ever
  reaching the others (`Snapshots.LimitStarvesTriage`).
- The cost of rejected attempts is said always to reach the governor. It does unless a later
  attempt raises (`Extraction.ChargeIsExactUnlessRaised`).
- The debounce window slides: a debounced nudge restarts it, so nudges that keep coming faster
  than the window stay debounced (`Nudges.AcceptedIffQuietBefore`).
- A persisted queue is found again only if its tenant's name holds no NUL
  (`ControlPlane.PersistedKeyRoundTrip`).
- An ordinary error of one document is said not to abort the batch. The classifier reads the
  exception and not who raised it, so one request that Paperless refuses with 401, 402 or 403, or
  an error that quotes a marker, stops the run like a rejected provider key
  (`Refusals.FatalStatusIff`, `Refusals.ForbiddenDocumentStopsTick`,
  `Refusals.QuotedAnswerStopsRun`).
- The control plane takes jobs of any type and payload. One the runner cannot read raises at each
  delivery and stays queued for ever (`ProtocolLiveness.DrainsIffRunnable`,
  `RunnerInvariant.UnknownKindWedges`); the others drain past it if the visibility timeout is
  positive (`UnreadableJobs.OthersDrain`, `UnreadableJobs.HeadBlocksOthers`).
- A nudge that is accepted while its document is being processed is marked done with it
  (`Nudges.ProcessedUnlessSwallowed`, `Nudges.SwallowedNudge`).
- A fatal provider error is said to short-circuit the rest of its stage. The flag is raised only
  once the collector sees the failure, so one more document per worker may still be asked about,
  with a single worker too (`PoolCalls.AsksAfterFatalIff`, `PoolCalls.OneWorkerAsksOn`,
  `PoolCalls.AtMostOnePerWorker`).
- Configuring 'metadata_done' as an eligible stage makes every tick process such documents again
  (`SweepTheorems.LeavesQueueIffWritten`).

## Model

| member | source | states |
|---|---|---|
| ControlPlane.ControlPlaneStore.Enqueue | src/paperless_control_plane/store.py:251-270 | An enqueued job goes to the end of its agent's own queue, never delivered, under the given id or, if that is empty, the minted one; no other queue changes. |
| ControlPlane.ControlPlaneStore.ReclaimExpired | src/paperless_control_plane/store.py:272-280 | Exactly the dispatched jobs whose lease ran out become deliverable again, in place. |
| ControlPlane.ControlPlaneStore.LeaseNext | src/paperless_control_plane/store.py:282-296 | The loop over the queue, with its two clock readings, does what the recursive reference `Lease` says. |
| JobQueue.LeaseHandsOutEarliest | src/paperless_control_plane/store.py:282-296 | A lease goes to the earliest-enqueued job nobody holds, stamps that job alone, and is refused only while every job is held. |
| JobQueue.GrantsDetermines | src/paperless_control_plane/store.py:282-296 | That description, by position, leaves room for one queue and one answer only. |
| ControlPlane.ControlPlaneStore.Ack | src/paperless_control_plane/store.py:298-312 | An ack removes the job from its own queue, says whether it was there, and with a result records and prunes the cache. |
| ControlPlane.ControlPlaneStore.KeepOthers | src/paperless_control_plane/store.py:309-312 | The rebuilt queue lacks exactly the acknowledged id, and got shorter exactly if it was there. |
| ControlPlane.ControlPlaneStore.PruneResults | src/paperless_control_plane/store.py:314-334 | The in-place pruning equals the reference `Prune` and keeps the cache's ids distinct. |
| ControlPlane.ControlPlaneStore.EvictStale | src/paperless_control_plane/store.py:323-327 | Exactly the entries past a positive TTL are popped. |
| ControlPlane.ControlPlaneStore.EvictSurplus | src/paperless_control_plane/store.py:328-334 | Exactly the surplus oldest entries are popped. |
| ControlPlane.ControlPlaneStore.Select | src/paperless_control_plane/store.py:324-326 | The collected victims are exactly the stale entries. |
| ControlPlane.ControlPlaneStore.PopAll | src/paperless_control_plane/store.py:326-334 | Popping victims one by one removes exactly their ids. |
| ResultCache.PruneBoundsCache | src/paperless_control_plane/store.py:314-334 | After pruning the cache holds at most `results_max` entries, none past a positive TTL, all of them old entries with distinct ids. |
| ResultCache.SurplusIsOldest | src/paperless_control_plane/store.py:328-334 | Size eviction takes the oldest by ack time: nothing evicted is newer than anything kept. |
| ResultCache.JustAckedSurvives | src/paperless_control_plane/store.py:304-334 | The entry just acked survives its own pruning if and only if `results_max` is at least 1 and its ack did not itself outlast a positive TTL; ties and an old dictionary position do not matter. |
| ResultCache.NewestSortsLast | src/paperless_control_plane/store.py:330-332 | An entry recorded last and not older than any other sorts last, even among ties. |
| ControlPlane.PersistedKeyRoundTrip | src/paperless_control_plane/store.py:132-133 | A queue is found under its own key after a restart if and only if the tenant name holds no NUL. |
| HostedState.AdvanceIsMonotone | src/paperless_assistant/hosted_state.py:129-141 | An advance sets exactly the later of the old and the new stage, touches no other job, is idempotent, and advances of one job commute. |
| HostedState.JobCursor.AdvanceTo | src/paperless_assistant/hosted_state.py:129-141 | The in-place cursor write is that advance. |
| HostedState.JobCursor.IsAtLeast | src/paperless_assistant/hosted_state.py:122-127 | The stage comparison of a job, unseen jobs below every stage. |
| HostedState.ResultQueue.Put | src/paperless_assistant/hosted_state.py:159-166 | Queueing a result replaces an older one of the same job and goes to the end. |
| HostedState.ResultQueue.Remove | src/paperless_assistant/hosted_state.py:171-174 | Removing a result takes exactly its job's entry. |
| HostedState.ResultQueue.Contains | src/paperless_assistant/hosted.py:288-289 | Whether a job has a result queued. |
| HostedState.EnqueueKeepsDistinct | src/paperless_assistant/hosted_state.py:159-166 | No job ever has two results queued. |
| ProtocolSafety.EventKeepsFull | src/paperless_assistant/hosted.py:257-344 | The joint invariant of server queue, cache, both agent files, wire and program counter is kept by every step, loss, crash, late arrival, submission and passage of time. |
| ProtocolSafety.ReachableIsFull | src/paperless_assistant/hosted.py:257-344 | So it holds in every reachable state. |
| ProtocolTheorems.NoJobLost | src/paperless_assistant/hosted.py:279-344 | In every reachable state the server queue is the enqueue order minus the acknowledged jobs; every enqueued job is still there or executed; 'acked' implies it has left; every queued result is of an executed job. |
| ProtocolTheorems.OneBodyPerJob | src/paperless_assistant/hosted.py:284-319 | All pushes of a job carry one body, the cache holds that body or none, and the body is 'already_done' exactly for jobs that crashed between the 'executed' write and queueing the result. |
| ProtocolTheorems.ResultIsNeverOverwritten | src/paperless_assistant/hosted.py:284-319 | Two cache entries of one job, however far apart in a run, have the same body. |
| ProtocolResults.ResultsAreTheRunners | src/paperless_assistant/hosted.py:93-120 | Over every run, a body pushed, queued or cached under a job's id carries that id and the kind it was submitted with; a completed one carries the report the runner returned for that very job at some step of the run. |
| ProtocolResults.AnyPushMayArriveLate | src/paperless_assistant/hosted.py:322-344 | A push may reach the control plane, late or again, at any time if and only if it was ever sent: what is sent is what travels. |
| ProtocolResults.EveryPollAsks | src/paperless_assistant/hosted.py:257-277 | However many of its pushes fail, a poll that is not cut short asks for work before it rests. |
| ProtocolTheorems.BoundedReexecution | src/paperless_assistant/hosted.py:296-307 | The runner is called at most once plus once per crash or exception between 'executing' and 'executed', and exactly so often once executed. |
| ProtocolTheorems.ExecutedNeverRerun | src/paperless_assistant/hosted.py:284-307 | Once 'executed' is recorded no continuation calls the runner for that job or takes the record back. |
| ProtocolTheorems.RedeliveryIsPushed | src/paperless_assistant/hosted.py:284-292 | An executed job delivered again ends with its result queued and a flush under way, and is not run. |
| ProtocolTheorems.LeaseDiscipline | src/paperless_control_plane/store.py:272-296 | With a clock that never goes back, two deliveries of a job are at least the visibility timeout apart, and `deliveries` counts the leases granted. |
| ProtocolTheorems.AckedResultIsQueryable | src/paperless_control_plane/store.py:304-334 | In every run the cache is within its bound, and an arriving push can be queried right after its ack exactly under the condition of `JustAckedSurvives`. |
| ProtocolLiveness.FaultFreePoll | src/paperless_assistant/hosted.py:257-277 | A fault-free poll from any reachable idle state leaves nothing to push and takes from the server queue exactly the queued results' jobs and the one job it leased. |
| ProtocolLiveness.RipePollShortens | src/paperless_assistant/hosted.py:257-277 | Once leases have run out, each such poll shortens a non-empty queue. |
| ProtocolLiveness.DrainsInAsManyPollsAsJobs | src/paperless_assistant/hosted.py:257-311 | N queued jobs drain in at most N polls spaced by the visibility timeout that each run to their end without a fault, whatever stage a crash left each job in. |
| ProtocolLiveness.AsManyPollsAsJobsExist | src/paperless_assistant/hosted.py:257-311 | As many such polls exist, from any reachable idle state in which the runner can read every queued job. |
| ProtocolLiveness.DrainsIffRunnable | src/paperless_assistant/hosted.py:175-192 | From every reachable state some fault-free continuation empties both queues if and only if the runner can read every job queued: a known type, and for one document an id that is a number. Whether it can is seen when the job is submitted. |
| ProtocolLiveness.OneJobDrainsIff | src/paperless_assistant/hosted.py:175-192 | Spelled out for one job: it drains if and only if its payload is a dictionary and it is a sweep, or names a document by a number under `document_id`, or under `doc_id` where the former counts as false. |
| RunnerInvariant.ReachableRunner | src/paperless_assistant/hosted.py:279-311 | In every reachable state what the agent holds is what was submitted, and no queued job the runner cannot read has been executed. |
| RunnerInvariant.UnreadableNeverLeaves | src/paperless_assistant/hosted.py:175-192 | A queued job the runner cannot read is queued for ever and never executed, over any continuation with any faults. |
| RunnerInvariant.UnknownKindWedges | src/paperless_control_plane/app.py:252-272 | Concretely: the admin endpoint takes a job of any type; one of an unknown type, the first ever submitted, keeps the queue from ever being empty. |
| UnreadableJobs.OthersDrain | src/paperless_control_plane/store.py:272-296 | With a positive visibility timeout, from every reachable state some continuation in which nothing fails but the runner on such jobs pushes every result and drains every other job; exactly the unreadable ones stay. |
| UnreadableJobs.HeadBlocksOthers | src/paperless_control_plane/store.py:272-296 | With a timeout of 0, once an unreadable job is first, no job behind it that is neither executed nor in hand is ever executed, over any continuation. |
| HostedLoop.HostedAgent.FlushResults | src/paperless_assistant/hosted.py:322-344 | The flush loop, while jobs are submitted, time passes, late messages arrive and the process may die between any two of its requests and file writes, is a continuation of the step machine's run; if nothing went wrong it pushed everything. |
| HostedLoop.HostedAgent.ExecuteAndPush | src/paperless_assistant/hosted.py:279-311 | So is executing and pushing one job, with or without a redelivery, a raising runner or a crash anywhere inside. |
| HostedLoop.HostedAgent.Deduplicate | src/paperless_assistant/hosted.py:284-292 | The redelivery branch queues the placeholder exactly if the result is neither queued nor acknowledged, and runs nothing. |
| HostedLoop.HostedAgent.Execute | src/paperless_assistant/hosted.py:294-310 | The cursor writes around the runner, each atomic, a crash possible between any two; the runner may raise on any job, and does on one it cannot read; otherwise the result queued has this job's id and kind and the report the engine returned. |
| HostedLoop.HostedAgent.RunJob | src/paperless_assistant/hosted.py:175-192 | The dispatch on the job's type: a body, if there is one, is the engine's own report under the job's id and kind; none if the engine raised, the job cannot be read or the process died. |
| HostedLoop.HostedAgent.Pull | src/paperless_assistant/hosted.py:266-275 | The pull, with the job the store really handed out, whether or not the request or the response got through. |
| HostedLoop.HostedAgent.PollOnce | src/paperless_assistant/hosted.py:257-277 | Every poll, whatever happens around it, continues a run of the step machine. It is calm, nothing but the agent's own steps, if and only if nothing happened around it, every request was delivered and answered and the runner did not raise; then it leaves nothing to push and has taken exactly the queued ids and the pulled job from the store. |
| HostedLoop.HostedAgent.Around | src/paperless_assistant/hosted.py:257-344 | Between any two of the agent's requests and writes: any number of submissions, passages of time, late pushes and late pulls, and possibly its death, all of which the run records. |
| HostedLoop.HostedAgent.Submit | src/paperless_control_plane/store.py:251-270 | A job submitted to the live store extends the run by just that event. |
| HostedLoop.HostedAgent.LatePush | src/paperless_control_plane/store.py:298-312 | A push the agent gave up on, or a repeated one, reaches the live store and extends the run by just that event. |
| HostedLoop.HostedAgent.LatePull | src/paperless_control_plane/store.py:282-296 | So does a request for work whose answer nobody reads. |
| HostedLoop.HostedAgent.Restart | src/paperless_assistant/hosted.py:148-170 | A new process on the files of an earlier one, wherever that was, goes on with the same run after a crash. |
| HostedLoop.HostedAgent.LosesNothing | src/paperless_assistant/hosted.py:257-344 | Of such an agent at any moment: its queue in the live store is the enqueue order minus the acknowledged jobs, each job is there or executed in the real cursor file, and every result in the real result file is of an executed job. |
| HostedLoop.CalmPoll | src/paperless_assistant/hosted.py:257-277 | The step from the machine's outcome of a fault-free poll to the program's. |
| Documents.RoleRoundTrip | src/paperless_assistant/fields.py:94-143 | A stored stage value reads back as a role if and only if it is the value that role writes, for select and for text fields. |
| Documents.OptionInverse | src/paperless_assistant/fields.py:125-143 | Label to option id and back are inverse when both are pairwise distinct. |
| Documents.SetStageFacts | src/paperless_assistant/metadata.py:219-230 | Advancing the stage leaves the stage field exactly once, with the new role, and every other field as it was and in order. |
| Documents.MergeTriageFacts | src/paperless_assistant/safety.py:76-99 | The triage merge sets its three fields, the stage exactly once, and keeps every foreign field. |
| Documents.CarryFacts | src/paperless_assistant/ocr.py:288-311 | The re-consumed document gets the 'reocr_done' stage once, the old score, a note made of the old one and the old id, and is otherwise as it arrived. |
| Documents.AlreadyTriagedReads | src/paperless_assistant/stages.py:52-70 | With the stage field at most once, the first-entry test of triage agrees with what every other reader of the field sees. |
| Queues.QueueIsByStoredScore | src/paperless_assistant/stages.py:83-138 | Without a limit re-OCR's queue is exactly the documents stored at 'triaged' whose score reads as a number at or above its threshold; metadata's exactly those at an eligible stage whose score does not read as one at or above the garbage threshold. |
| Queues.ScoreDecides | src/paperless_assistant/stages.py:83-138 | Of a triaged document: with a score x, re-OCR takes it if and only if x reaches its threshold, so a higher score never takes it out, and metadata, where 'triaged' is eligible, if and only if x is below its own; without a readable score re-OCR never takes it and metadata does. |
| Queues.TriagedHolds | src/paperless_assistant/sweep.py:434-463 | After a completed writing triage without limit, each document it took is at 'triaged' with the heuristic's score of its own text stored, its text as it was. |
| Queues.TriageSorts | src/paperless_assistant/stages.py:83-138 | So, stored scores reading as what was stored: of these re-OCR then takes exactly those whose text scores at or above its threshold, metadata, where 'triaged' is eligible, exactly those below its own. |
| Queues.TakesTheFirst | src/paperless_assistant/stages.py:97-109 | Every stage takes the first min(limit, matching) matching documents in listing order, all of them without a limit. |
| Queues.MatchesByStored | src/paperless_assistant/stages.py:83-138 | And for the billable stages matching is the condition on what is stored. |
| Faults.FatalIff | src/paperless_assistant/sweep.py:42-123 | The classifier stops the run exactly for an exception with status 401, 402 or 403, with a marker anywhere in its text, or with an auth or billing type or code, whoever raised it; it fails the stage for those and for capability errors. |
| Faults.QuotingIsFatal | src/paperless_assistant/sweep.py:66-96 | Any text that quotes a marker stops the run. |
| Faults.VendorsAccountErrors | src/paperless_assistant/sweep.py:42-63 | Exhausted accounts and rejected keys as the vendors word them stop the run, whatever stands around the wording. |
| Faults.RateLimitIsOrdinary | src/paperless_assistant/sweep.py:66-123 | A plain 429 rate limit stays one document's own error. |
| WorkerPool.ReachableIsTidy | src/paperless_assistant/sweep.py:796-822 | Wherever the workers and the collector stand, every document taken is in exactly one hand, no more are held than there are workers, a document is skipped only under the flag, and the flag is up exactly when a fatal outcome was collected. |
| WorkerPool.PoolDrains | src/paperless_assistant/sweep.py:815-849 | Every schedule begun can be carried to its end, every document handled or skipped and every outcome collected; no schedule is longer than the moves its documents need (`EveryMoveCounts`). |
| PoolCalls.TakenOnce | src/paperless_assistant/sweep.py:815-816 | Over every interleaving the documents are taken in queue order, none twice. |
| PoolCalls.CallsPerDocument | src/paperless_assistant/sweep.py:810-813 | Over every interleaving the provider is asked about a document exactly as often as its handling got to a call, never more than its handling holds. |
| PoolCalls.FlagStops | src/paperless_assistant/sweep.py:810-830 | Once the collector has raised the abort flag, only documents already past their look at it are still asked about. |
| PoolCalls.AtMostOnePerWorker | src/paperless_assistant/sweep.py:810-830 | So after the flag is up at most one further document per worker is asked about, each up to its own number of attempts. |
| PoolCalls.OnePerWorkerIsAttained | src/paperless_assistant/sweep.py:810-830 | Some schedule asks about that many: no smaller bound holds. |
| PoolCalls.AsksAfterFatalIff | src/paperless_assistant/sweep.py:810-830 | Some schedule asks the provider after a document has failed fatally if and only if some other document gets as far as a call, a later one if there is one worker: worker and collector race for the flag. |
| StageRun.StageAsksLateIff | src/paperless_assistant/sweep.py:796-830 | The same in the stage's terms: the condition reads off the queue, the number of workers, who fails fatally and who gets past its snapshot. |
| StageRun.StageAsksFewMore | src/paperless_assistant/sweep.py:796-830 | And in them: once a fatal outcome was collected, at most one more document per worker, at least one worker being used, is asked about. |
| PoolCalls.OneWorkerAsksOn | src/paperless_assistant/sweep.py:810-830 | Concretely: one worker, two documents, the first one's call rejected with a fatal error; the second is asked about all the same. |
| StageRun.ReachableShape | src/paperless_assistant/sweep.py:434-463 | Wherever a stage's schedule stands, cut short or not: the library is told by how far each document is. A document differs from what was fetched only if its own write landed, a new one is a re-consumed document, carried over or not yet, every snapshot is of a document as fetched, and nothing is written of a document without one. |
| StageRun.CallsAreLogged | src/paperless_assistant/sweep.py:815-817 | The provider log of a stage is the calls its pool makes, in that order. |
| StageRun.AskedAtMost | src/paperless_assistant/metadata.py:152-179 | Over every schedule a document is asked about at most as often as its own work says. |
| Pipelines.AttemptsBoundCalls | src/paperless_assistant/providers/base.py:147-168 | So at most once in re-OCR and at most `max_attempts` times in metadata, however the workers interleave. |
| StageRun.FlagFollowsFailure | src/paperless_assistant/sweep.py:209-221 | On any schedule the stage's flag is up if and only if a fatal outcome was collected, and the run's if and only if it was up before or the first one collected is account-level. |
| StageRun.FinishedMeetsFatal | src/paperless_assistant/sweep.py:815-833 | Once a stage is finished, one was collected if and only if some queued document's handling ends in one: the flag spares others, never the first to fail. |
| Pipelines.OnlyValidIsApplied | src/paperless_assistant/metadata.py:152-235 | Over every schedule of a metadata stage a document is unchanged, or written from the first answer that passed validation, field by field: title, correspondent and type each from its own name, by the id the taxonomy gives that name, or as before; the tags the old ones, those named, and the review tag if and only if something was created; nothing else. |
| Pipelines.NothingBlankIsUploaded | src/paperless_assistant/ocr.py:220-276 | Under any schedule of a re-OCR stage: a document is consumed only from a downloaded, non-blank, overlaid transcription in a wet run under no cap, and an original changes only by being marked superseded, after an upload that was found and carried over. |
| Pipelines.MetadataSays | src/paperless_assistant/metadata.py:238-289 | Each status of metadata has its condition over the answers, both ways. |
| Pipelines.MetadataFaults | src/paperless_assistant/metadata.py:152-235 | Which error metadata ends in: the provider's, one quoting the last rejected answer, that of the first name denied in the order correspondent, type, tags, or the patch's. |
| SweepTheorems.LeavesQueueIffWritten | src/paperless_assistant/stages.py:52-138 | Under any schedule, a queued document leaves its stage's queue if and only if its own write landed and, for metadata, 'metadata_done' is not itself eligible. |
| SweepTheorems.OwnWriteKeeps | src/paperless_assistant/safety.py:76-124 | A write of any stage takes the role no further back and keeps foreign fields, existing tags and the text. |
| SweepTheorems.OwnWriteLands | src/paperless_assistant/metadata.py:182-235 | After a stage's write the document is at that stage's role, the stage field once; triage has stored the heuristic's score and note of its text, which later stages keep; re-OCR has added the superseded tag alone; metadata has added its tags and flags the document for review exactly when it created taxonomy; and no stage changes anything it does not name. |
| SweepTheorems.StagesOnlyAdvance | src/paperless_assistant/sweep.py:345-422 | Over any sequence of ticks and nudges without force, whole or cut short, with any outcomes and any schedules of the workers, no document disappears or goes back, foreign fields and tags survive, and every written document has the stage field exactly once. |
| SweepTheorems.PassKeeps | src/paperless_assistant/sweep.py:369-380 | The same for one stage of a tick or a nudge. |
| SweepTheorems.PassCompletes | src/paperless_assistant/sweep.py:815-849 | Every stage begun can be completed, so the results about completed stages are about something. |
| SweepTheorems.OneTickIsFixpoint | src/paperless_assistant/sweep.py:369-380 | After one successful writing tick without force or limit and with 'metadata_done' not eligible, the next tick, on whatever schedule and with whatever answers, changes nothing at all: no write, no provider call, no snapshot, whichever of the stages are enabled and counting documents re-OCR created. |
| SweepTheorems.DuplicateNudgeIsNoOp | src/paperless_assistant/sweep.py:717-793 | After a successful nudge a second one for the same document leaves the whole world as it is, on any schedule. |
| Queues.NudgeWithoutText | src/paperless_assistant/sweep.py:717-793 | A nudge for a document that is not there, or has no text yet, changes nothing and asks nothing. |
| SweepTheorems.DryWritesNothing | src/paperless_assistant/sweep.py:453-458 | Any sequence of dry ticks and nudges, forced or not, changes no document and sends no document write. |
| SweepTheorems.PassAsks | src/paperless_assistant/sweep.py:369-380 | What a stage asks is what its pool's schedule logs, at most once per attempt and document; triage asks nothing, and once an account-level failure was collected the billable stages of the tick that have not begun ask nothing. |
| Snapshots.SnapshotsAreForever | src/paperless_assistant/safety.py:46-51 | Over any sequence of ticks and nudges no snapshot is ever replaced or dropped. |
| Snapshots.PassRecords | src/paperless_assistant/safety.py:46-51 | A stage's new snapshots are of the documents as it found them, old ones stay, and no document it was given changed without one. |
| Snapshots.SnapshotIsFirstSeen | src/paperless_assistant/safety.py:46-51 | In a run where all stages interleave, a stage's snapshot of a document is the document as it stood before the first pass of that stage that handled it. |
| Snapshots.RestoreUndoesStage | src/paperless_assistant/safety.py:59-73 | After any number of passes of one stage, cut short anywhere, forced or not, restoring gives back the whole document as first found; with no snapshot it never changed. |
| Snapshots.RestoreIsExact | src/paperless_assistant/safety.py:59-73 | In a run where all stages interleave, restoring from a stage's snapshot brings every field that stage writes back to what it was when the stage first found the document. |
| Snapshots.TriageTakesTheFront | src/paperless_assistant/stages.py:72-80 | Triage's limit counts documents already handled: its queue is the first `limit` listed. |
| Snapshots.LimitStarvesTriage | src/paperless_assistant/stages.py:72-80 | So once those are triaged, triage under that limit does nothing, however many untriaged documents follow. |
| Sweeping.Sweep.HandledAlready | src/paperless_assistant/stages.py:65-70 | The loop over the custom fields computes the predicate. |
| Sweeping.Sweep.Matches | src/paperless_assistant/stages.py:83-138 | Each stage's test of a document, by way of its custom-field dictionary, is the reference predicate. |
| Sweeping.Sweep.FetchQueue | src/paperless_assistant/stages.py:97-109 | The paging loop with its early stop yields the reference queue. |
| Sweeping.Sweep.TriageOne | src/paperless_assistant/sweep.py:434-463 | Triage of one document in place, told by its answers alone: skipped if and only if handled already and not forced, a dry run writes nothing, otherwise one patch that lands if accepted; and the fate the pool theorems are told is fatal exactly if the classifier says so of the error it ends in. |
| Sweeping.Sweep.Transcribe | src/paperless_assistant/ocr.py:220-258 | Re-OCR up to the overlay, in place: caps, vision, snapshot, download, call, blank text, overlay in the program's order; whether the fate goes on to an upload. |
| Sweeping.Sweep.Replace | src/paperless_assistant/ocr.py:266-276 | Re-OCR from the upload on: a lost answer, a consumption that fails, an unknown new id, the carried-over fields, the superseded original, each refusal with the error it raises. |
| Sweeping.Sweep.ReocrOne | src/paperless_assistant/ocr.py:220-276 | Re-OCR of one document in place, told by its answers alone: when each status is reached, if and only if; one call, made if and only if no cap, vision and the download allow it; an upload only of an overlaid, non-blank transcription in a wet run; the original superseded only if the new id was found and the carry-over accepted. |
| Sweeping.Sweep.MetadataOne | src/paperless_assistant/metadata.py:238-289 | Metadata of one document in place, told the same way: when each status is reached; a call per attempt up to the deciding one; the document written if and only if no cap is reached, the run is not dry, some answer is valid, every name of the first valid one resolves and the patch lands; and then with that answer, field by field. |
| Sweeping.Sweep.ResolveNames | src/paperless_assistant/metadata.py:182-218 | The names of an answer, each looked up or created at its own endpoint and in the program's order, up to the first one denied. |
| Refusals.FatalStatusIff | src/paperless_assistant/sweep.py:99-118 | A document's handling is fatal if and only if the error it ends in has status 401, 402 or 403, an auth or billing marker, type or code, or is a capability error. |
| Refusals.StageStopsRunIff | src/paperless_assistant/sweep.py:815-833 | A completed stage whose fatal errors are account-level stops the run, on every schedule, if and only if some queued document's handling ends in one. |
| Refusals.OneRefusedPatchStopsTick | src/paperless_assistant/sweep.py:369-380 | After a completed triage the tick's billable stages run if and only if the patch of no queued document failed with such an error; if one did, the rest of the tick does nothing. |
| Refusals.ForbiddenDocumentStopsTick | src/paperless_assistant/client.py:94-103 | Concretely: one document the token may not change, its patch answered 403, keeps a tick from asking the provider anything, though the provider was never asked. |
| Refusals.QuotedAnswerStopsRun | src/paperless_assistant/providers/base.py:118-168 | An extraction that is never valid stops the run if the answer quoted in its error holds a marker. |
| Sweeping.Sweep.Drain | src/paperless_assistant/sweep.py:796-849 | Whatever move the pool makes next, the library follows the stage's step machine until everything is handled and collected, or a crash. |
| Sweeping.Sweep.RunStage | src/paperless_assistant/sweep.py:425-469 | A stage in place, of a tick or a nudge, is a pass of the reference, a complete one unless it crashed. |
| Sweeping.Sweep.RunOnce | src/paperless_assistant/sweep.py:345-422 | A tick in place, for all answers of the provider and of Paperless, is a run of passes, all of a tick unless it crashed; from a sound library it leaves a sound one in which nothing went back; a dry one changes no document. |
| Sweeping.Sweep.ProcessNudge | src/paperless_assistant/sweep.py:717-793 | The same for a nudge. |
| Sweeping.Sweep.RestoreFrom | src/paperless_assistant/safety.py:59-73 | Restoring in place; an error, and nothing sent, without a snapshot. |
| Spend.SpendGovernor.Add | src/paperless_assistant/spend.py:44-48 | The total rises by the cost. |
| Spend.SpendGovernor.ShouldAbort | src/paperless_assistant/spend.py:50-59 | The gate closes exactly at a non-zero cap. |
| Spend.SpendLedger.Add | src/paperless_assistant/obs.py:125-133 | One period's spend rises by the cost, every other stays. |
| Spend.SpendLedger.WouldExceed | src/paperless_assistant/obs.py:135-138 | The period gate closes exactly at a non-zero cap. |
| Spend.StepKeepsBalance | src/paperless_assistant/sweep.py:622-630 | Every step of a worker or the collector keeps the caps' potential and the agreement of governor, ledger and report up to what is in hand. |
| Spend.SpendStaysNearCap | src/paperless_assistant/sweep.py:858-863 | Over every interleaving of W workers' checks, calls and additions and any number of stages, the governor stays below its cap plus W times a document's cost; so does the ledger, unless it opened at or past its cap, and then it does not move. |
| Spend.OvershootIsAttained | src/paperless_assistant/sweep.py:858-863 | For any caps (0 for none, at least one positive), cost and W some interleaving takes governor and ledger both to one below the bound of the smaller cap. |
| Spend.BooksAgreeAtRest | src/paperless_assistant/sweep.py:820-847 | With the workers at rest and every outcome collected the ledger increase equals the reported spend, and the governor exceeds it by exactly what documents ending in ERROR cost. |
| Spend.ReportIsWhatCallsCost | src/paperless_assistant/sweep.py:820-847 | Then the reported spend is the sum of what the calls of documents that did not fail cost; the governor also holds the others'. |
| Spend.StageSpend.PassRunGate | src/paperless_assistant/sweep.py:858-863 | The governor's gate, in place, is the machine's step. |
| Spend.StageSpend.PassPeriodGate | src/paperless_assistant/sweep.py:858-863 | So is the ledger's. |
| Spend.StageSpend.Bill | src/paperless_assistant/metadata.py:152-179 | So is the charge to the governor. |
| Spend.StageSpend.Settle | src/paperless_assistant/sweep.py:622-630 | So is booking a document's cost, or losing it to an error. |
| Spend.StageSpend.Collect | src/paperless_assistant/sweep.py:846-847 | So is the collector's report, any time later. |
| Extraction.ExtractValidated | src/paperless_assistant/providers/base.py:128-168 | The retry loop returns the first schema-valid answer with the usage of every attempt made, or an error carrying the whole cost; never invalid data, never an attempt after a deciding one. |
| Extraction.UsageAddsUp | src/paperless_assistant/providers/base.py:140-168 | The usage summed is the sum over the attempts of what each answer reported, an exception adding nothing. |
| Extraction.MetadataExtractor.Extract | src/paperless_assistant/metadata.py:152-179 | The governor rises by the charge, the returned data is valid and its cost is the charge. |
| Extraction.ChargeIsExactUnlessRaised | src/paperless_assistant/providers/base.py:150-168 | The charge equals what the vendor billed if and only if no attempt raised after one that cost something. |
| Billing.BillingStore.SetSubscription | src/paperless_control_plane/billing.py:116-132 | A tenant's subscription is created or replaced, no other's. |
| Billing.BillingStore.SetStatus | src/paperless_control_plane/billing.py:134-143 | The status of a known tenant changes, its cap stays; an unknown one is reported. |
| Billing.BillingStore.CheckEntitled | src/paperless_control_plane/billing.py:151-165 | Entitled means a subscription that is active; unknown tenants are refused. |
| Billing.BillingStore.CheckSpendCap | src/paperless_control_plane/billing.py:167-179 | The cap gate closes exactly when the ledger's total reaches a positive cap. |
| Billing.BillingStore.RecordUsage | src/paperless_control_plane/billing.py:182-199 | Metering appends one record to its tenant and raises that tenant's spend by its cost. |
| Billing.BillingStore.SpendTotal | src/paperless_control_plane/billing.py:201-206 | The summing loop. |
| Billing.BillingStore.ResetUsage | src/paperless_control_plane/billing.py:240-244 | A reset clears one tenant's ledger. |
| Billing.BillingStore.UsageSummary | src/paperless_control_plane/billing.py:213-238 | The totals equal the sums over the per-task split, which has one bucket for each task that occurs, holding that task's own calls and cost. |
| Billing.AddToSplit | src/paperless_control_plane/billing.py:223-227 | Adding a record keeps the split exact. |
| Billing.LedgerAddsUp | src/paperless_control_plane/billing.py:201-238 | Costs, tokens and a task's records of two stretches of the ledger add up to those of the whole, each record counting once, input as input and output as output. |
| Inference.InferenceEndpoint.Run | src/paperless_control_plane/inference.py:183-243 | The vendor is called only for a known, complete request, and for one model: the hinted one, priced, or without a hint the default of the request's own kind, priced. An answered call is metered once, under that model, at its price, as a transcription exactly if it was asked for one; for the tenant's account that is the machine's metering or failing step. |
| Inference.InferenceEndpoint.Gate | src/paperless_control_plane/app.py:222-233 | The entitlement and cap gates answer 402, 429 or pass, and passing is the machine's admission. |
| Inference.InferenceEndpoint.Infer | src/paperless_control_plane/app.py:191-244 | The vendor runs if and only if every check passes, with the model of `Run`; the first failing check gives the code; only the agent's own tenant is metered; one request takes a tenant past its cap by less than its own cost. |
| Inference.OverlapStaysNearCap | src/paperless_control_plane/app.py:222-244 | With at most k requests between gate and metering, in any interleaving with changes of status and cap and resets, the spend of a tenant that always has a cap stays below its highest cap plus k calls, or where it was if past that already. |
| Inference.OverlapIsAttained | src/paperless_control_plane/app.py:222-244 | For every cap, price and k some interleaving reaches one below that bound. |
| Taxonomy.StepKeepsSound | src/paperless_assistant/taxonomy.py:51-67 | Every step of every call keeps the lock, the index and the accepted creations consistent. |
| Taxonomy.CreatedAtMostOnce | src/paperless_assistant/taxonomy.py:51-67 | For any interleaving and any failing creations, a folded name's creation is answered at most once and never made if it existed, and all finished calls for it return the same id. |
| Taxonomy.MadeOnceIff | src/paperless_assistant/taxonomy.py:57-67 | Counting creations whose answer was lost, a name is made at most once if and only if no answer for it was lost, or one was and it was not made again. |
| Taxonomy.ExactlyOneReportsCreated | src/paperless_assistant/taxonomy.py:51-67 | With nobody in the lock, a name is new if and only if a call reported it created, and only one did. |
| Taxonomy.TaxonomyResolver.ResolveOrCreate | src/paperless_assistant/taxonomy.py:51-67 | A call nobody disturbs is a run of the step machine: reuse first, create only what is missing, an absent or empty name (not one of spaces, which is looked up and created under the empty folded name) gives nothing, a failed creation changes nothing. |
| Taxonomy.TaxonomyResolver.LookUp | src/paperless_assistant/taxonomy.py:52-56 | The unlocked look, in place, is the machine's step. |
| Taxonomy.TaxonomyResolver.LookAgain | src/paperless_assistant/taxonomy.py:57-59 | So is the second look under the lock. |
| Taxonomy.TaxonomyResolver.Create | src/paperless_assistant/taxonomy.py:60-64 | So is the creation, which may fail and then gives the lock back. |
| Taxonomy.TaxonomyResolver.Enter | src/paperless_assistant/taxonomy.py:65-67 | So is entering the new id. |
| Nudges.NudgeQueue.Enqueue | src/paperless_assistant/webhook.py:129-146 | A nudge is accepted unless one came within the window; pending stays free of duplicates; the time is kept either way; and the queue is at any time where its history leads. |
| Nudges.NudgeQueue.NextPending | src/paperless_assistant/webhook.py:148-153 | The next id is looked at, not removed. |
| Nudges.NudgeQueue.MarkDone | src/paperless_assistant/webhook.py:155-163 | Pending loses exactly that id, done gains it once, and the history goes on. |
| Nudges.NudgeProcessor.Drain | src/paperless_assistant/webhook.py:188-205 | The drain ends, having processed every pending id once and in order even where processing raises, all of them done. |
| Nudges.AcceptedIffQuietBefore | src/paperless_assistant/webhook.py:136-146 | A nudge is accepted if and only if it comes at least the window after every earlier nudge of its id, debounced ones included; so accepted ones are at least the window apart. |
| Nudges.DebouncedFollowsAccepted | src/paperless_assistant/webhook.py:136-146 | Every debounced nudge follows an accepted one of the same id. |
| Nudges.PendingUntilDone | src/paperless_assistant/webhook.py:129-163 | Pending never holds duplicates, and an accepted id stays pending until marked done, over any history. |
| Nudges.ProcessedUnlessSwallowed | src/paperless_assistant/webhook.py:129-205 | Over any history of one drain that ends with nothing pending: an accepted nudge is followed by a processing of its id that began after it if and only if it, or a later accepted nudge of the id, did not come during a processing that then ended in the id's being marked done. Restarts lose none. |
| Nudges.SwallowedNudge | src/paperless_assistant/webhook.py:155-205 | Such a history: a nudge accepted while its document is being processed is never processed. |
| Nudges.RemembersLatest | src/paperless_assistant/webhook.py:135-138 | The file remembers the latest nudge of each id. |
| StrictSchema.StrictCloses | src/paperless_assistant/providers/openai.py:63-79 | For every input, each object node of the translation allows no other property and requires exactly its listed ones. |
| StrictSchema.StrictIsIdempotent | src/paperless_assistant/providers/openai.py:63-79 | The translation changes nothing if and only if the schema is closed already, and so is idempotent, for every input. |
| StrictSchema.StrictRefines | src/paperless_assistant/providers/openai.py:63-79 | Over the fragment used, nested to any depth, every instance the translation accepts the schema accepts. |
| StrictSchema.StrictAcceptsIff | src/paperless_assistant/providers/openai.py:63-79 | And exactly which: the translation accepts an instance if and only if the schema does and at every object node it holds each listed property and no other. |
| StrictSchema.NodeRefinesIff | src/paperless_assistant/providers/openai.py:73-75 | For any accepted instance, a node accepts it too if and only if it requires only properties it lists. |
| StrictSchema.UnlistedRequirementIsDropped | src/paperless_assistant/providers/openai.py:73-75 | A schema and an instance for which refinement fails. |
| StrictSchema.MetadataAnswersValidate | src/paperless_assistant/metadata.py:37-86 | The metadata schema is in the fragment, so refinement holds for it. |
| StrictSchema.MetadataSchemaSays | src/paperless_assistant/metadata.py:37-86 | What the engine's schema admits, spelled out: three texts, two lists of texts and two truth values, all seven present. |
| GarbageScore.WordsAreMaximalRuns | src/paperless_assistant/ocr.py:54-54 | The pattern's matches are exactly the maximal runs of at least two letters. |
| GarbageScore.LettersAmongNonSpace | src/paperless_assistant/ocr.py:58-60 | The words hold at least two letters each and no more letters than there are non-space characters, as many exactly when they cover them all. |
| GarbageScore.ScoreNeedsNoClamp | src/paperless_assistant/ocr.py:71-76 | With non-negative weights that sum to one the exact score is in [0, 1] before any clamp, and the average word length of a text with words is at least 2. |
| GarbageScore.ZeroIffAllPlausible | src/paperless_assistant/ocr.py:42-82 | The default score is 0 if and only if the text has 40 characters when trimmed and every non-space character lies in a plausible word. |
| GarbageScore.OneIffNothingToRead | src/paperless_assistant/ocr.py:42-82 | The default score is 1 if and only if the text has fewer than 40 characters when trimmed or no two letters in a row. |
| GarbageScore.ScoreIsWeightedShares | src/paperless_assistant/ocr.py:54-76 | In between, for any weights: one minus the weighted share of non-space characters inside words, share of words that are plausible, and reward for a sufficient average length, all counted over the text's maximal runs of letters. |
| GarbageScore.PlausibleWordsLowerTheScore | src/paperless_assistant/ocr.py:62-76 | Changing letters for letters changes the score by the change in the number of plausible words alone, times its share, downward as they grow. |
| GarbageScore.PlausibleReplacement | src/paperless_assistant/ocr.py:62-76 | In particular a plausible word in the place of another as long never raises the score, and lowers it by one word's share if that one was not plausible. |
| GarbageScore.RunEnd | src/paperless_assistant/ocr.py:54-54 | Where a run of letters ends. |

## Left out

- Enrolment, credentials, tokens, revocation and egress checks: a rejected credential ends the agent, and a new enrolment uses another queue.
- Heartbeats, backoff delays and the long-poll wait: they decide when a poll happens, and the protocol results hold for polls at any time.
- Re-using a job id that the agent already recorded as 'acked': ids are unique in the model; the code drops such a delivery without pushing.
- The control plane without a state file, and its file's write: a restart without one loses the queue; with one the store's state is what was saved.
- Readable: a `run_sweep` job's limit is not read; one that is not a number makes the runner raise, but only once the sweep fetches a document.
- Legacy result entries without an ack time, and the clock reading given to them on load.
- HTTP, SQLite, the dashboard, activity log, progress tracker and reports: they observe and do not decide.
- PDF building, rasterising and the providers' own calls: unseen; what they return is arbitrary.
- The pipelines in `Sweep` run one document alone; the pool interleaves their actions with other documents' in `StageRun`. Documents are fetched before the pool starts and not read again, so nothing more happens between two actions.
- Submissions under a caller's own job id: the agent's world mints them, unique as assumed.
- A write that Paperless applied although its answer was lost counts as landed, with the document stopped after it; retries inside the client are not modelled.
- Snapshot files that cannot be written, and errors before a stage's queue is fetched: the latter end the tick, as a crash does.
- Paperless refusing a second creation of a name whose first answer was lost: refusals are arbitrary.
- Documents that Paperless finishes consuming after the wait for them was given up: they arrive outside the tick.
- The first-run marker and the pause switch: whether a tick is dry, and whether one happens, is given.
- Snapshot and activity retention: off, as by default.
- Numbers as texts: which texts read as numbers, how a score is stored for each field type, and NaN, are parameters; stored and computed scores are not compared.
- How the notes are put together and cut to 255 characters: a note is some function of what it is made from.
- The order and duplicates of a document's tags: tags are a set.
- Tag creation by a dry run: the review tags may be created in Paperless even then; the claim is about documents.
- Rounding of dollars and of the displayed score: sums are exact.
- The spelling kept in the name map beside the folded index: only folded names decide.
- Two sweeps sharing a ledger file, a change of period within a run, and overlapping nudge drains.
- JSON Schema keywords beyond type, properties, required, items and additionalProperties: under negation or in literal values the translation is not a refinement.
- Prompt building, file names, configuration layers, `doctor`, provisioning and the frozen root scripts: easy members or superseded code.
