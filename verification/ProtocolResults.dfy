/** Where a result's content comes from: a body that was ever pushed, or that the control plane
    answers with, is the runner's report of that very job, or that job's placeholder. */
module ProtocolResults {
  import opened Messages
  import opened JobQueue
  import opened Protocol
  import opened AgentInvariant
  import opened ServerInvariant
  import opened ProtocolSafety
  import opened RunnerInvariant
  import HS = HostedState

  /** The job was submitted with this kind and payload. */
  ghost predicate SubmittedAs(run: seq<Event>, id: JobId, kind: JobKind) {
    exists m: nat :: SubmittedAt(run, m, id, kind)
  }

  predicate SubmittedAt(run: seq<Event>, m: nat, id: JobId, kind: JobKind) {
    m < |run| && run[m].Submit? && run[m].id == id && run[m].kind == kind
  }

  /** At the `n`-th event the runner returned this report for this job. */
  ghost predicate ReportedAt(c: Settings, s0: State, run: seq<Event>, n: nat, id: JobId, kind: JobKind, report: Report) {
    && n < |run| && run[n].Step? && run[n].report == report
    && var s := After(c, s0, run[..n]);
       s.pc.Running? && s.pc.job.id == id && s.pc.job.kind == kind
  }

  /** The body is of this job: what its runner reported at some event, or its placeholder. */
  ghost predicate Sourced(c: Settings, s0: State, run: seq<Event>, id: JobId, body: Body) {
    && body.jobId == id && SubmittedAs(run, id, body.kind)
    && (body.Completed? ==> exists n: nat :: ReportedAt(c, s0, run, n, id, body.kind, body.report))
  }

  ghost predicate JobsSourced(run: seq<Event>, queue: seq<Job>, held: Option<Job>) {
    && (forall j :: j in queue ==> SubmittedAs(run, j.id, j.kind))
    && (held.Some? ==> SubmittedAs(run, held.value.id, held.value.kind))
  }

  ghost predicate BodiesSourced(c: Settings, s0: State, run: seq<Event>, body: map<JobId, Body>, pc: PC) {
    && (forall id :: id in body ==> Sourced(c, s0, run, id, body[id]))
    && (pc.Ran? || pc.CursorExecuted? ==> Sourced(c, s0, run, pc.job.id, pc.body))
  }

  // ----- more of the run ---------------------------------------------------

  lemma MoreSubmitted(run: seq<Event>, e: Event, id: JobId, kind: JobKind)
    requires SubmittedAs(run, id, kind)
    ensures SubmittedAs(run + [e], id, kind)
  {
    var m: nat :| SubmittedAt(run, m, id, kind);
    assert SubmittedAt(run + [e], m, id, kind);
  }

  lemma MoreJobs(run: seq<Event>, e: Event, queue: seq<Job>, held: Option<Job>)
    requires JobsSourced(run, queue, held)
    ensures JobsSourced(run + [e], queue, held)
  {
    forall j | j in queue
      ensures SubmittedAs(run + [e], j.id, j.kind)
    {
      MoreSubmitted(run, e, j.id, j.kind);
    }
    if held.Some? {
      MoreSubmitted(run, e, held.value.id, held.value.kind);
    }
  }

  lemma MoreSourced(c: Settings, s0: State, run: seq<Event>, e: Event, id: JobId, body: Body)
    requires Sourced(c, s0, run, id, body)
    ensures Sourced(c, s0, run + [e], id, body)
  {
    MoreSubmitted(run, e, id, body.kind);
    if body.Completed? {
      var n: nat :| ReportedAt(c, s0, run, n, id, body.kind, body.report);
      assert (run + [e])[..n] == run[..n];
      assert ReportedAt(c, s0, run + [e], n, id, body.kind, body.report);
    }
  }

  lemma MoreBodies(c: Settings, s0: State, run: seq<Event>, e: Event, body: map<JobId, Body>, pc: PC)
    requires BodiesSourced(c, s0, run, body, pc)
    ensures BodiesSourced(c, s0, run + [e], body, pc)
  {
    forall id | id in body
      ensures Sourced(c, s0, run + [e], id, body[id])
    {
      MoreSourced(c, s0, run, e, id, body[id]);
    }
    if pc.Ran? || pc.CursorExecuted? {
      MoreSourced(c, s0, run, e, pc.job.id, pc.body);
    }
  }

  // ----- the jobs ----------------------------------------------------------

  lemma FromSourced(run: seq<Event>, q: seq<Job>, r: seq<Job>, held: Option<Job>)
    requires JobsSourced(run, q, held) && From(q, r)
    ensures JobsSourced(run, r, held) && JobsSourced(run, r, None)
  {
  }

  lemma StepKeepsJobs(c: Settings, s: State, report: Report, lag: Time, run: seq<Event>)
    requires JobsSourced(run, s.queue, HeldJob(s.pc))
    ensures var t := AgentStep(c, s, report, lag); JobsSourced(run, t.queue, HeldJob(t.pc))
  {
    var t := AgentStep(c, s, report, lag);
    if s.pc.PullSent? {
      var (q, got) := Lease(s.queue, s.now, s.now + lag, c.visibilityTimeout);
      PullUnfolds(c, s, report, lag, q, got);
      LeasedFrom(s.queue, s.now, s.now + lag, c.visibilityTimeout);
      LeasedAt(s.queue, s.now, s.now + lag, c.visibilityTimeout);
      FromSourced(run, s.queue, q, HeldJob(s.pc));
    } else if s.pc.PushSent? {
      StepAddsNone(c, s, report, lag);
      FromSourced(run, s.queue, t.queue, HeldJob(s.pc));
    } else {
      OwnStepHolds(c, s, report, lag);
    }
  }

  lemma EventKeepsJobs(c: Settings, s: State, e: Event, run: seq<Event>)
    requires Enabled(s, e) && JobsSourced(run, s.queue, HeldJob(s.pc))
    ensures var t := Next(c, s, e); JobsSourced(run + [e], t.queue, HeldJob(t.pc))
  {
    MoreJobs(run, e, s.queue, HeldJob(s.pc));
    match e
    case Submit(id, kind, payload) => assert SubmittedAt(run + [e], |run|, id, kind);
    case Tick(_) =>
    case Step(report, lag) => StepKeepsJobs(c, s, report, lag, run + [e]);
    case Lose =>
    case Crash =>
    case LatePush(item, lag) =>
      RemovedFrom(s.queue, item.id);
      FromSourced(run + [e], s.queue, Next(c, s, e).queue, HeldJob(s.pc));
    case LatePull(lag) =>
      LeasedFrom(s.queue, s.now, s.now + lag, c.visibilityTimeout);
      FromSourced(run + [e], s.queue, Next(c, s, e).queue, HeldJob(s.pc));
  }

  // ----- the bodies --------------------------------------------------------

  /** Where a step takes a body from. */
  lemma StepBodies(c: Settings, s: State, report: Report, lag: Time)
    ensures var t := AgentStep(c, s, report, lag);
            && (forall id :: id in t.hist.body ==>
                  || (id in s.hist.body && t.hist.body[id] == s.hist.body[id])
                  || (s.pc.CursorExecuted? && id == s.pc.job.id && t.hist.body[id] == s.pc.body)
                  || (s.pc.Received? && id == s.pc.job.id && t.hist.body[id] == AlreadyDone(id, s.pc.job.kind)))
            && (t.pc.Ran? || t.pc.CursorExecuted? ==>
                  || (s.pc.Ran? && t.pc.job == s.pc.job && t.pc.body == s.pc.body)
                  || (s.pc.Running? && t.pc.job == s.pc.job && t.pc.body == Completed(s.pc.job.id, s.pc.job.kind, report)))
  {
  }

  lemma OthersBodies(c: Settings, s: State, e: Event)
    requires !e.Step?
    ensures Next(c, s, e).hist.body == s.hist.body
    ensures Next(c, s, e).pc == s.pc || !(Next(c, s, e).pc.Ran? || Next(c, s, e).pc.CursorExecuted?)
  {
  }

  lemma {:induction false} RunnerReports(c: Settings, s0: State, run: seq<Event>, e: Event, job: Job)
    requires e.Step? && After(c, s0, run).pc == Running(job) && SubmittedAs(run + [e], job.id, job.kind)
    ensures Sourced(c, s0, run + [e], job.id, Completed(job.id, job.kind, e.report))
  {
    assert (run + [e])[..|run|] == run;
    assert ReportedAt(c, s0, run + [e], |run|, job.id, job.kind, e.report);
  }

  lemma {:induction false} StepKeepsBodies(c: Settings, s0: State, run: seq<Event>, e: Event)
    requires e.Step?
    requires var s := After(c, s0, run);
             BodiesSourced(c, s0, run + [e], s.hist.body, s.pc) && JobsSourced(run + [e], s.queue, HeldJob(s.pc))
    ensures var t := Next(c, After(c, s0, run), e); BodiesSourced(c, s0, run + [e], t.hist.body, t.pc)
  {
    var s := After(c, s0, run);
    StepBodies(c, s, e.report, e.lag);
    if s.pc.Running? {
      assert HeldJob(s.pc) == Some(s.pc.job);
      RunnerReports(c, s0, run, e, s.pc.job);
    }
    assert s.pc.Received? ==> HeldJob(s.pc) == Some(s.pc.job);
  }

  lemma {:induction false} RunIsSourced(c: Settings, s0: State, run: seq<Event>)
    requires s0.queue == [] && s0.pc.Idle? && s0.hist.body == map[] && Possible(c, s0, run)
    ensures var s := After(c, s0, run); JobsSourced(run, s.queue, HeldJob(s.pc)) && BodiesSourced(c, s0, run, s.hist.body, s.pc)
  {
    if run != [] {
      var front, e := run[..|run| - 1], run[|run| - 1];
      assert run == front + [e];
      RunIsSourced(c, s0, front);
      var s := After(c, s0, front);
      EventKeepsJobs(c, s, e, front);
      MoreJobs(front, e, s.queue, HeldJob(s.pc));
      MoreBodies(c, s0, front, e, s.hist.body, s.pc);
      if e.Step? {
        StepKeepsBodies(c, s0, front, e);
      } else {
        OthersBodies(c, s, e);
      }
    }
  }

  /** Over every run, whatever is lost, late, repeated or crashed: each result ever pushed, still
      queued, or held by the control plane names its own job and the kind it was submitted with;
      and if it is a real result, its counts and spend are those the runner returned, for that
      job, at an event of the run. */
  lemma {:induction false} ResultsAreTheRunners(c: Settings, now: Time, run: seq<Event>, id: JobId, body: Body)
    requires Possible(c, Init(now), run)
    requires var s := After(c, Init(now), run);
             || Item(id, body) in s.hist.pushed || Item(id, body) in s.outbox
             || exists e :: e in s.cache && e.id == id && e.body == body
    ensures body.jobId == id && exists m: nat :: m < |run| && run[m].Submit? && run[m].id == id && run[m].kind == body.kind
    ensures body.Completed? ==>
              exists n: nat ::
                && n < |run| && run[n].Step? && run[n].report == body.report
                && After(c, Init(now), run[..n]).pc.Running? && After(c, Init(now), run[..n]).pc.job.id == id
  {
    ReachableIsFull(c, now, run);
    RunIsSourced(c, Init(now), run);
    var s := After(c, Init(now), run);
    assert Canonical(s.hist.body, Item(id, body));
    var m: nat :| SubmittedAt(run, m, id, body.kind);
    if body.Completed? {
      var n: nat :| ReportedAt(c, Init(now), run, n, id, body.kind, body.report);
    }
  }

  // ----- what the wire and the poll may do ---------------------------------

  lemma WireKeeps(c: Settings, s: State, e: Event)
    requires s.wire == s.hist.pushed
    ensures Next(c, s, e).wire == Next(c, s, e).hist.pushed
  {
  }

  /** Every push ever sent may arrive, again or late, at any later time. */
  lemma {:induction false} AnyPushMayArriveLate(c: Settings, now: Time, run: seq<Event>, item: Item, lag: Time)
    requires lag >= 0.0
    ensures item in After(c, Init(now), run).hist.pushed <==> Enabled(After(c, Init(now), run), LatePush(item, lag))
  {
    WireIsPushed(c, now, run);
  }

  lemma {:induction false} WireIsPushed(c: Settings, now: Time, run: seq<Event>)
    ensures After(c, Init(now), run).wire == After(c, Init(now), run).hist.pushed
  {
    if run != [] {
      WireIsPushed(c, now, run[..|run| - 1]);
      WireKeeps(c, After(c, Init(now), run[..|run| - 1]), run[|run| - 1]);
    }
  }

  /** Before its request for work a poll is in the flush that precedes it. */
  predicate StillFlushing(pc: PC) {
    match pc
    case Flush(_, pull) => pull
    case PushSent(_, pull) => pull
    case PushAnswered(_, pull) => pull
    case PushOk(_, pull) => pull
    case Unqueued(_, pull) => pull
    case _ => false
  }

  lemma FlushLeadsToPull(c: Settings, s: State, e: Event)
    requires StillFlushing(s.pc) && (e.Step? || e.Lose?)
    ensures StillFlushing(Next(c, s, e).pc) || Next(c, s, e).pc.PullSent?
  {
  }

  /** However many pushes fail, a poll that is not cut short asks for work: it does not come to
      rest without a request having been sent. */
  lemma {:induction false} EveryPollAsks(c: Settings, s: State, run: seq<Event>)
    requires s.pc.Idle? && run != [] && run[0].Step? && Possible(c, s, run)
    requires forall i :: 0 <= i < |run| ==> run[i].Step? || run[i].Lose?
    requires forall n :: 0 < n <= |run| ==> !After(c, s, run[..n]).pc.PullSent?
    ensures StillFlushing(After(c, s, run).pc)
  {
    if |run| == 1 {
      assert run[..0] == [];
    } else {
      var front := run[..|run| - 1];
      forall n | 0 < n <= |front|
        ensures !After(c, s, front[..n]).pc.PullSent?
      {
        assert front[..n] == run[..n];
      }
      EveryPollAsks(c, s, front);
      assert run[..|run|] == run;
      FlushLeadsToPull(c, After(c, s, front), run[|run| - 1]);
    }
  }
}
