/** The hosted job protocol never wedges: a poll without faults pushes everything
    queued and removes from the server exactly what it pushed, and from every
    reachable state fault-free polls empty both queues. */
module ProtocolLiveness {
  import opened Messages
  import opened JobQueue
  import opened Protocol
  import opened AgentInvariant
  import opened ServerInvariant
  import opened ProtocolSafety
  import opened RunnerInvariant
  import HS = HostedState

  predicate Calm(run: seq<Event>) {
    forall i :: 0 <= i < |run| ==> run[i].Step?
  }

  /** One fault-free `poll_once`: from idle, only steps, until idle again. */
  predicate PollRun(c: Settings, s: State, run: seq<Event>) {
    && run != [] && Calm(run) && Possible(c, s, run)
    && s.pc.Idle? && After(c, s, run).pc.Idle?
    && forall n :: 0 < n < |run| ==> !After(c, s, run[..n]).pc.Idle?
  }

  /** Every lease has run out. */
  predicate Ripe(c: Settings, s: State) {
    forall j :: j in s.queue ==> !LiveLease(j, s.now, c.visibilityTimeout)
  }

  // ----- how far a fault-free poll has come --------------------------------

  /** Before the pull, `a` is what the acknowledged set will be. */
  predicate Flushing(s0: State, s: State, todo: seq<Item>) {
    && s.hist.log == s0.hist.log
    && s.hist.acked + HS.Held(todo) == s0.hist.acked + HS.Held(s0.outbox)
  }

  predicate Flushed(s0: State, s: State) {
    s.hist.log == s0.hist.log && s.outbox == [] && s.hist.acked == s0.hist.acked + HS.Held(s0.outbox)
  }

  /** A job was leased and is being handled. */
  predicate Handling(s0: State, s: State, id: JobId) {
    && s.outbox == []
    && s.hist.acked == s0.hist.acked + HS.Held(s0.outbox)
    && id in s.hist.known - s.hist.acked
    && |s.hist.log| == |s0.hist.log| + 1 && s0.hist.log < s.hist.log
    && s.hist.log[|s0.hist.log|].id == id
  }

  /** Its result is being pushed. */
  predicate Pushing(s0: State, s: State, todo: seq<Item>) {
    && |s.hist.log| == |s0.hist.log| + 1 && s0.hist.log < s.hist.log
    && s.hist.log[|s0.hist.log|].id in s.hist.known - (s0.hist.acked + HS.Held(s0.outbox))
    && s.hist.acked + HS.Held(todo) == s0.hist.acked + HS.Held(s0.outbox) + {s.hist.log[|s0.hist.log|].id}
  }

  predicate FlushPart(s0: State, s: State, todo: seq<Item>, pull: bool) {
    if pull then Flushing(s0, s, todo) else Pushing(s0, s, todo)
  }

  predicate Progress(s0: State, s: State) {
    && s.hist.issued == s0.hist.issued && s.hist.known == s0.hist.known
    && match s.pc
       case Idle => s.outbox == [] && (Flushed(s0, s) || Pushing(s0, s, []))
       case Flush(todo, pull) => FlushPart(s0, s, todo, pull)
       case PushSent(todo, pull) => FlushPart(s0, s, todo, pull)
       case PushAnswered(todo, pull) => FlushPart(s0, s, todo, pull)
       case PushOk(todo, pull) => FlushPart(s0, s, todo, pull)
       case Unqueued(todo, pull) => FlushPart(s0, s, todo, pull)
       case PullSent => Flushed(s0, s)
       case PullAnswered(reply) =>
         if reply.None? then Flushed(s0, s) else Handling(s0, s, reply.value.id)
       case Received(job) => Handling(s0, s, job.id)
       case CursorPulled(job) => Handling(s0, s, job.id)
       case CursorExecuting(job) => Handling(s0, s, job.id)
       case Running(job) => Handling(s0, s, job.id)
       case Ran(job, body) => Handling(s0, s, job.id)
       case CursorExecuted(job, body) => Handling(s0, s, job.id)
  }

  lemma PollStarts(c: Settings, s: State, report: Report, lag: Time)
    requires s.pc.Idle?
    ensures Progress(s, AgentStep(c, s, report, lag))
  {
  }

  lemma UnqueuedProgress(s0: State, s: State, t: State, todo: seq<Item>, pull: bool)
    requires todo != [] && todo[0].id in s.hist.acked && t.hist == s.hist
    requires FlushPart(s0, s, todo, pull)
    ensures FlushPart(s0, t, todo[1..], pull)
  {
    HS.HeldTail(todo);
  }

  lemma PushedProgress(s0: State, s: State, t: State, todo: seq<Item>, pull: bool)
    requires todo != [] && t.hist == s.hist.(acked := s.hist.acked + {todo[0].id})
    requires FlushPart(s0, s, todo, pull)
    ensures FlushPart(s0, t, todo, pull)
  {
    HS.HeldTail(todo);
  }

  lemma FlushProgress(c: Settings, s0: State, s: State, report: Report, lag: Time)
    requires AgentInvariant.Inv(s) && Progress(s0, s)
    requires s.pc.Flush? || s.pc.PushSent? || s.pc.PushAnswered? || s.pc.PushOk? || s.pc.Unqueued?
    ensures Progress(s0, AgentStep(c, s, report, lag))
  {
    var t := AgentStep(c, s, report, lag);
    match s.pc
    case PushSent(todo, pull) => PushedProgress(s0, s, t, todo, pull);
    case Unqueued(todo, pull) => UnqueuedProgress(s0, s, t, todo, pull);
    case _ =>
  }

  lemma QueueProgress(c: Settings, s0: State, s: State, report: Report, lag: Time)
    requires AgentInvariant.Inv(s) && Progress(s0, s)
    requires s.pc.Received? || s.pc.CursorExecuted?
    ensures Progress(s0, AgentStep(c, s, report, lag))
  {
  }

  lemma PullProgress(c: Settings, s0: State, s: State, report: Report, lag: Time)
    requires Full(c, s) && Progress(s0, s) && s.pc.PullSent? && lag >= 0.0
    ensures Progress(s0, AgentStep(c, s, report, lag))
  {
    PullKeepsFull(c, s, lag);
  }

  lemma StepProgress(c: Settings, s0: State, s: State, report: Report, lag: Time)
    requires Full(c, s) && Progress(s0, s) && !s.pc.Idle? && lag >= 0.0
    ensures Progress(s0, AgentStep(c, s, report, lag))
  {
    if s.pc.Flush? || s.pc.PushSent? || s.pc.PushAnswered? || s.pc.PushOk? || s.pc.Unqueued? {
      FlushProgress(c, s0, s, report, lag);
    } else if s.pc.Received? || s.pc.CursorExecuted? {
      QueueProgress(c, s0, s, report, lag);
    } else if s.pc.PullSent? {
      PullProgress(c, s0, s, report, lag);
    }
  }

  lemma {:induction false} PollProgress(c: Settings, s: State, run: seq<Event>)
    requires Full(c, s) && s.pc.Idle? && run != [] && Calm(run) && Possible(c, s, run)
    requires forall n :: 0 < n < |run| ==> !After(c, s, run[..n]).pc.Idle?
    ensures Progress(s, After(c, s, run))
  {
    var front, last := run[..|run| - 1], run[|run| - 1];
    if front == [] {
      PollStarts(c, s, last.report, last.lag);
    } else {
      forall n | 0 < n < |front| ensures !After(c, s, front[..n]).pc.Idle? {
        assert front[..n] == run[..n];
      }
      PollProgress(c, s, front);
      RunKeepsFull(c, s, front);
      assert run[..|front|] == front;
      StepProgress(c, s, After(c, s, front), last.report, last.lag);
    }
  }

  // ----- what one fault-free poll does -------------------------------------

  /** The jobs a poll took from the server besides what was queued for pushing:
      none, or the one it leased. */
  function Taken(s: State, t: State): set<JobId> {
    if |t.hist.log| == |s.hist.log| + 1 then {t.hist.log[|s.hist.log|].id} else {}
  }

  /** What a completed fault-free poll, from `s` to `t`, has done: nothing is left to
      push; at most one job was leased, one that was on the server and not among
      those already queued for pushing; and the server queue lost exactly the jobs
      whose results were queued and the job leased. */
  predicate PollOutcome(s: State, t: State) {
    && t.outbox == []
    && (t.hist.log == s.hist.log || |t.hist.log| == |s.hist.log| + 1)
    && (forall id :: id in Taken(s, t) ==> id in s.hist.known - (s.hist.acked + HS.Held(s.outbox)))
    && Ids(t.queue) == Without(Ids(s.queue), HS.Held(s.outbox) + Taken(s, t))
  }

  lemma CompletedPoll(c: Settings, s: State, t: State)
    requires Full(c, s) && Full(c, t) && Progress(s, t) && t.pc.Idle?
    ensures PollOutcome(s, t)
  {
    assert t.hist.acked == s.hist.acked + (HS.Held(s.outbox) + Taken(s, t));
    WithoutTwice(s.hist.issued, s.hist.acked, HS.Held(s.outbox) + Taken(s, t));
  }

  /** Every fault-free poll has exactly that outcome. */
  lemma {:induction false} FaultFreePoll(c: Settings, s: State, run: seq<Event>)
    requires Full(c, s) && PollRun(c, s, run)
    ensures var t := After(c, s, run); Full(c, t) && t.pc.Idle? && PollOutcome(s, t)
  {
    PollProgress(c, s, run);
    RunKeepsFull(c, s, run);
    CompletedPoll(c, s, After(c, s, run));
  }

  // ----- a poll after the leases ran out -----------------------------------

  /** Until a job is leased every lease stays run out, so a refusal means an empty
      queue. */
  predicate RipeProgress(c: Settings, s0: State, s: State) {
    s.hist.log == s0.hist.log ==>
      if s.pc.Idle? || s.pc.PullAnswered? then s.queue == [] else Ripe(c, s)
  }

  lemma AckKeepsRipe(c: Settings, s: State, item: Item, lag: Time)
    requires Ripe(c, s) && lag >= 0.0
    ensures Ripe(c, ServerAck(c, s, item, lag))
  {
    RemoveJobMembers(s.queue, item.id);
  }

  lemma RefusedMeansEmpty(c: Settings, s: State, lag: Time)
    requires Ripe(c, s)
    ensures ServerLease(c, s, lag).1.None? ==> ServerLease(c, s, lag).0.queue == []
    ensures ServerLease(c, s, lag).1.Some? ==> |ServerLease(c, s, lag).0.hist.log| == |s.hist.log| + 1
  {
    LeaseHandsOutEarliest(s.queue, s.now, s.now + lag, c.visibilityTimeout);
    if s.queue != [] {
      assert s.queue[0] in s.queue;
    }
  }

  lemma StepRipe(c: Settings, s0: State, s: State, report: Report, lag: Time)
    requires Progress(s0, s) && RipeProgress(c, s0, s) && !s.pc.Idle? && lag >= 0.0
    ensures RipeProgress(c, s0, AgentStep(c, s, report, lag))
  {
    match s.pc
    case PushSent(todo, pull) =>
      if todo != [] && s.hist.log == s0.hist.log { AckKeepsRipe(c, s, todo[0], lag); }
    case PullSent => RefusedMeansEmpty(c, s, lag);
    case Flush(todo, pull) =>
    case _ =>
  }

  lemma {:induction false} PollRipe(c: Settings, s: State, run: seq<Event>)
    requires Full(c, s) && s.pc.Idle? && run != [] && Calm(run) && Possible(c, s, run) && Ripe(c, s)
    requires forall n :: 0 < n < |run| ==> !After(c, s, run[..n]).pc.Idle?
    ensures RipeProgress(c, s, After(c, s, run))
  {
    var front, last := run[..|run| - 1], run[|run| - 1];
    if front != [] {
      forall n | 0 < n < |front| ensures !After(c, s, front[..n]).pc.Idle? {
        assert front[..n] == run[..n];
      }
      PollRipe(c, s, front);
      PollProgress(c, s, front);
      assert run[..|front|] == front;
      StepRipe(c, s, After(c, s, front), last.report, last.lag);
    }
  }

  /** A fault-free poll with every lease run out shortens a non-empty queue. */
  lemma {:induction false} RipePollShortens(c: Settings, s: State, run: seq<Event>)
    requires Full(c, s) && PollRun(c, s, run) && Ripe(c, s)
    ensures var t := After(c, s, run);
            t.outbox == [] && (t.queue == [] || |t.queue| < |s.queue|)
  {
    FaultFreePoll(c, s, run);
    PollRipe(c, s, run);
    var t := After(c, s, run);
    if t.queue != [] {
      var id :| id in Taken(s, t);
      var gone := HS.Held(s.outbox) + Taken(s, t);
      OpenIsQueued(s.hist.issued, s.hist.known, s.hist.acked, s.queue, id);
      var i :| 0 <= i < |s.queue| && s.queue[i].id == id;
      IdAt(s.queue, i);
      ShorterWithout(Ids(s.queue), gone, id);
    }
  }

  lemma ShorterWithout(ids: seq<JobId>, gone: set<JobId>, id: JobId)
    requires id in ids && id in gone
    ensures |Without(ids, gone)| < |ids|
  {
    WithoutLength(ids, gone);
  }

  // ----- N jobs drain in N polls -------------------------------------------

  /** The visibility timeout passes, then one fault-free poll. */
  predicate Round(c: Settings, s: State, round: seq<Event>) {
    && round != [] && round[0].Tick? && Enabled(s, round[0]) && round[0].dt >= c.visibilityTimeout
    && PollRun(c, Next(c, s, round[0]), round[1..])
  }

  function AfterRound(c: Settings, s: State, round: seq<Event>): State
    requires Round(c, s, round)
  {
    After(c, Next(c, s, round[0]), round[1..])
  }

  /** `rounds` in sequence, ending in `t`. */
  predicate Rounds(c: Settings, s: State, rounds: seq<seq<Event>>, t: State)
    decreases |rounds|
  {
    if rounds == [] then t == s
    else Round(c, s, rounds[0]) && Rounds(c, AfterRound(c, s, rounds[0]), rounds[1..], t)
  }

  lemma TickRipens(c: Settings, s: State, dt: Time)
    requires Full(c, s) && dt >= 0.0 && dt >= c.visibilityTimeout
    ensures Ripe(c, s.(now := s.now + dt))
  {
    forall j | j in s.queue ensures !LiveLease(j, s.now + dt, c.visibilityTimeout) {
      var i :| 0 <= i < |s.queue| && s.queue[i] == j;
      RecordOf(c, s.queue, s.hist.log, s.now, i);
    }
  }

  lemma RoundShortens(c: Settings, s: State, round: seq<Event>)
    requires Full(c, s) && Round(c, s, round)
    ensures var t := AfterRound(c, s, round);
            Full(c, t) && t.pc.Idle? && t.outbox == [] && (t.queue == [] || |t.queue| < |s.queue|)
  {
    TickKeepsFull(c, s, round[0].dt);
    TickRipens(c, s, round[0].dt);
    FaultFreePoll(c, Next(c, s, round[0]), round[1..]);
    RipePollShortens(c, Next(c, s, round[0]), round[1..]);
  }

  lemma {:induction false} RoundsDrain(c: Settings, s: State, rounds: seq<seq<Event>>, t: State)
    requires Full(c, s) && Rounds(c, s, rounds, t)
    requires rounds != [] && |rounds| >= |s.queue|
    ensures t.queue == [] && t.outbox == [] && t.pc.Idle?
    decreases |rounds|
  {
    var u := AfterRound(c, s, rounds[0]);
    RoundShortens(c, s, rounds[0]);
    if |rounds| > 1 {
      RoundsDrain(c, u, rounds[1..], t);
    } else {
      assert rounds[1..] == [];
    }
  }

  /** N queued jobs drain in at most N fault-free polls spaced by the visibility
      timeout, whatever has happened before: however often each was delivered and
      whatever stage a crash left it in; and the results queued on the way are all
      pushed. */
  lemma {:induction false} DrainsInAsManyPollsAsJobs(c: Settings, now: Time, history: seq<Event>, rounds: seq<seq<Event>>, t: State)
    requires Possible(c, Init(now), history) && Rounds(c, After(c, Init(now), history), rounds, t)
    requires rounds != [] && |rounds| >= |After(c, Init(now), history).queue|
    ensures t.queue == [] && t.outbox == [] && t.pc.Idle?
  {
    ReachableIsFull(c, now, history);
    RoundsDrain(c, After(c, Init(now), history), rounds, t);
  }

  // ----- such polls exist from everywhere ----------------------------------

  /** More steps than this no fault-free poll needs to come to rest. */
  function Remaining(s: State): int {
    match s.pc
    case Idle => 0
    case Flush(todo, pull) => 5 * |todo| + 1 + if pull then 15 else 0
    case PushSent(todo, pull) => 5 * |todo| + if pull then 15 else 0
    case PushAnswered(todo, pull) => 5 * |todo| - 1 + if pull then 15 else 0
    case PushOk(todo, pull) => 5 * |todo| - 2 + if pull then 15 else 0
    case Unqueued(todo, pull) => 5 * |todo| - 3 + if pull then 15 else 0
    case PullSent => 5 * |s.outbox| + 14
    case PullAnswered(reply) => 5 * |s.outbox| + 13
    case Received(job) => 5 * |s.outbox| + 12
    case CursorPulled(job) => 5 * |s.outbox| + 11
    case CursorExecuting(job) => 5 * |s.outbox| + 10
    case Running(job) => 5 * |s.outbox| + 9
    case Ran(job, body) => 5 * |s.outbox| + 8
    case CursorExecuted(job, body) => 5 * |s.outbox| + 7
  }

  lemma StepShortens(c: Settings, s: State, report: Report, lag: Time)
    requires PcInv(s.pc, s.cursor, s.outbox, s.hist.known, s.hist.acked, s.hist.body, s.hist.orphaned)
    requires !s.pc.Idle?
    ensures 0 <= Remaining(AgentStep(c, s, report, lag)) < Remaining(s)
  {
    match s.pc
    case Received(job) => HS.EnqueueLength(s.outbox, Item(job.id, AlreadyDone(job.id, job.kind)));
    case CursorExecuted(job, body) => HS.EnqueueLength(s.outbox, Item(job.id, body));
    case _ =>
  }

  const STEP := Step(Report(map[], 0), 0.0)

  lemma {:induction false} FirstEvent(c: Settings, s: State, e: Event, rest: seq<Event>)
    requires Enabled(s, e) && Possible(c, Next(c, s, e), rest)
    ensures Possible(c, s, [e] + rest) && After(c, s, [e] + rest) == After(c, Next(c, s, e), rest)
  {
    assert [e][..0] == [];
    assert After(c, s, [e]) == Next(c, s, e) && Possible(c, s, [e]);
    Chain(c, s, [e], rest);
  }

  lemma {:induction false} PrefixPossible(c: Settings, s: State, run: seq<Event>, n: nat)
    requires Possible(c, s, run) && n <= |run|
    ensures Possible(c, s, run[..n])
    decreases |run|
  {
    if n == |run| {
      assert run[..n] == run;
    } else {
      PrefixPossible(c, s, run[..|run| - 1], n);
      assert run[..|run| - 1][..n] == run[..n];
    }
  }

  /** A step, and a run that is busy until its end, are busy from that step on. */
  lemma {:induction false} BusyUntilDone(c: Settings, s: State, rest: seq<Event>)
    requires Enabled(s, STEP) && Possible(c, Next(c, s, STEP), rest)
    requires forall n :: 0 <= n < |rest| ==> !After(c, Next(c, s, STEP), rest[..n]).pc.Idle?
    ensures forall n :: 0 < n < |[STEP] + rest| ==> !After(c, s, ([STEP] + rest)[..n]).pc.Idle?
  {
    forall n | 0 < n < |[STEP] + rest|
      ensures !After(c, s, ([STEP] + rest)[..n]).pc.Idle?
    {
      BusyAt(c, s, Next(c, s, STEP), rest, n - 1);
    }
  }

  lemma {:induction false} BusyAt(c: Settings, s: State, t: State, rest: seq<Event>, n: nat)
    requires Enabled(s, STEP) && t == Next(c, s, STEP) && Possible(c, t, rest) && n < |rest| && !After(c, t, rest[..n]).pc.Idle?
    ensures !After(c, s, ([STEP] + rest)[..n + 1]).pc.Idle?
  {
    assert ([STEP] + rest)[..n + 1] == [STEP] + rest[..n];
    PrefixPossible(c, t, rest, n);
    FirstEvent(c, s, STEP, rest[..n]);
  }

  /** The runner can read every queued job. */
  predicate AllRunnable(queue: seq<Job>) {
    forall j :: j in queue ==> Runnable(j)
  }

  ghost predicate Able(c: Settings, s: State) {
    Full(c, s) && RunnerInv(s) && AllRunnable(s.queue)
  }

  lemma AbleCanStep(c: Settings, s: State)
    requires Able(c, s)
    ensures Enabled(s, STEP)
  {
    if s.pc.Running? {
      var j := RunningIsQueued(c, s);
    }
  }

  lemma StepKeepsAble(c: Settings, s: State, e: Event)
    requires Able(c, s) && Enabled(s, e) && (e.Step? || e.Tick?)
    ensures Able(c, Next(c, s, e))
  {
    EventKeepsFull(c, s, e);
    EventKeepsRunner(c, s, e);
    if e.Step? {
      StepAddsNone(c, s, e.report, e.lag);
    }
  }

  lemma {:induction false} RunKeepsAble(c: Settings, s: State, run: seq<Event>)
    requires Able(c, s) && Possible(c, s, run) && FaultFree(run)
    ensures Able(c, After(c, s, run))
  {
    if run != [] {
      RunKeepsAble(c, s, run[..|run| - 1]);
      StepKeepsAble(c, After(c, s, run[..|run| - 1]), run[|run| - 1]);
    }
  }

  lemma StepOn(c: Settings, s: State) returns (t: State)
    requires Able(c, s) && !s.pc.Idle?
    ensures Enabled(s, STEP) && t == Next(c, s, STEP) && Able(c, t) && 0 <= Remaining(t) < Remaining(s)
  {
    t := Next(c, s, STEP);
    AbleCanStep(c, s);
    StepShortens(c, s, STEP.report, STEP.lag);
    StepKeepsAble(c, s, STEP);
  }

  /** A step, and a run that comes to rest. */
  ghost predicate ComesToRest(c: Settings, s: State, run: seq<Event>) {
    && Calm(run) && Possible(c, s, run) && After(c, s, run).pc.Idle?
    && forall n :: 0 <= n < |run| ==> !After(c, s, run[..n]).pc.Idle?
  }

  lemma {:induction false} OneStepMore(c: Settings, s: State, t: State, rest: seq<Event>)
    requires Enabled(s, STEP) && t == Next(c, s, STEP) && !s.pc.Idle? && ComesToRest(c, t, rest)
    ensures ComesToRest(c, s, [STEP] + rest)
  {
    FirstEvent(c, s, STEP, rest);
    BusyUntilDone(c, s, rest);
    assert ([STEP] + rest)[..0] == [];
  }

  /** The poll under way comes to rest by itself. */
  lemma {:induction false} FinishPoll(c: Settings, s: State) returns (run: seq<Event>)
    requires Able(c, s) && !s.pc.Idle?
    ensures ComesToRest(c, s, run)
    decreases Remaining(s)
  {
    var t := StepOn(c, s);
    var rest := [];
    if !t.pc.Idle? {
      rest := FinishPoll(c, t);
    }
    OneStepMore(c, s, t, rest);
    run := [STEP] + rest;
  }

  lemma {:induction false} APoll(c: Settings, s: State) returns (run: seq<Event>)
    requires Able(c, s) && s.pc.Idle?
    ensures PollRun(c, s, run)
  {
    var t := Next(c, s, STEP);
    StepKeepsAble(c, s, STEP);
    var rest := FinishPoll(c, t);
    run := [STEP] + rest;
    FirstEvent(c, s, STEP, rest);
    BusyUntilDone(c, s, rest);
  }

  /** Nothing goes wrong any more: only steps, and time passing. */
  predicate FaultFree(run: seq<Event>) {
    forall i :: 0 <= i < |run| ==> run[i].Step? || run[i].Tick?
  }

  predicate Drained(s: State) {
    s.queue == [] && s.outbox == [] && s.pc.Idle?
  }

  /** Time passes, then one fault-free poll. */
  lemma {:induction false} ARound(c: Settings, s: State) returns (round: seq<Event>)
    requires Able(c, s) && s.pc.Idle?
    ensures Round(c, s, round) && FaultFree(round) && Possible(c, s, round) && After(c, s, round) == AfterRound(c, s, round)
  {
    var wait := Tick(if c.visibilityTimeout > 0.0 then c.visibilityTimeout else 0.0);
    StepKeepsAble(c, s, wait);
    var poll := APoll(c, Next(c, s, wait));
    round := [wait] + poll;
    assert round[1..] == poll;
    FirstEvent(c, s, wait, poll);
  }

  lemma {:induction false} NextRound(c: Settings, s: State) returns (round: seq<Event>, t: State)
    requires Able(c, s) && s.pc.Idle?
    ensures Round(c, s, round) && t == AfterRound(c, s, round) && Able(c, t) && t.pc.Idle?
  {
    round := ARound(c, s);
    RunKeepsAble(c, s, round);
    t := After(c, s, round);
  }

  /** While the runner can read every queued job, there are any number of such rounds. */
  lemma {:induction false} RoundsExist(c: Settings, s: State, n: nat) returns (rounds: seq<seq<Event>>, t: State)
    requires Able(c, s) && s.pc.Idle?
    ensures |rounds| == n && Rounds(c, s, rounds, t)
    decreases n
  {
    if n == 0 {
      return [], s;
    }
    var round, u := NextRound(c, s);
    var rest;
    rest, t := RoundsExist(c, u, n - 1);
    FirstRound(c, s, round, u, rest, t);
    rounds := [round] + rest;
  }

  lemma {:induction false} FirstRound(c: Settings, s: State, round: seq<Event>, u: State, rest: seq<seq<Event>>, t: State)
    requires Round(c, s, round) && u == AfterRound(c, s, round) && Rounds(c, u, rest, t)
    ensures Rounds(c, s, [round] + rest, t)
  {
    var rounds := [round] + rest;
    assert rounds[0] == round && rounds[1..] == rest;
  }

  /** So from a reachable idle state with such jobs only, as many polls as there are jobs (or
      one, to push what is left) exist and drain everything. */
  lemma {:induction false} AsManyPollsAsJobsExist(c: Settings, now: Time, history: seq<Event>)
    returns (rounds: seq<seq<Event>>, t: State)
    requires Possible(c, Init(now), history)
    requires After(c, Init(now), history).pc.Idle? && AllRunnable(After(c, Init(now), history).queue)
    ensures var s := After(c, Init(now), history);
            |rounds| == (if s.queue == [] then 1 else |s.queue|) && Rounds(c, s, rounds, t) && Drained(t)
  {
    ReachableRunner(c, now, history);
    var s := After(c, Init(now), history);
    rounds, t := RoundsExist(c, s, if s.queue == [] then 1 else |s.queue|);
    DrainsInAsManyPollsAsJobs(c, now, history, rounds, t);
  }

  lemma {:induction false} IdleDrains(c: Settings, s: State) returns (run: seq<Event>)
    requires Able(c, s) && s.pc.Idle?
    ensures FaultFree(run) && Possible(c, s, run) && Drained(After(c, s, run))
    decreases |s.queue|
  {
    run := ARound(c, s);
    RoundShortens(c, s, run);
    var t := After(c, s, run);
    if t.queue != [] {
      RunKeepsAble(c, s, run);
      var more := IdleDrains(c, t);
      Chain(c, s, run, more);
      run := run + more;
    }
  }

  lemma {:induction false} AbleDrains(c: Settings, s: State) returns (run: seq<Event>)
    requires Able(c, s)
    ensures FaultFree(run) && Possible(c, s, run) && Drained(After(c, s, run))
  {
    run := [];
    if !s.pc.Idle? {
      run := FinishPoll(c, s);
      RunKeepsAble(c, s, run);
    }
    var rest := IdleDrains(c, After(c, s, run));
    Chain(c, s, run, rest);
    run := run + rest;
  }

  /** From a reachable state, whatever the agent was doing and whatever had gone wrong, some
      fault-free continuation empties both queues exactly if the runner can read every job
      queued, which can be seen when a job is submitted. (The jobs executed already, and the
      one in the runner, are among them or gone.) */
  lemma {:induction false} DrainsIffRunnable(c: Settings, now: Time, history: seq<Event>)
    requires Possible(c, Init(now), history)
    ensures var s := After(c, Init(now), history);
            (exists run :: FaultFree(run) && Possible(c, s, run) && Drained(After(c, s, run))) <==> AllRunnable(s.queue)
  {
    ReachableRunner(c, now, history);
    var s := After(c, Init(now), history);
    if AllRunnable(s.queue) {
      var run := AbleDrains(c, s);
    }
    if run :| FaultFree(run) && Possible(c, s, run) && Drained(After(c, s, run)) {
      forall j | j in s.queue
        ensures Runnable(j)
      {
        if !Runnable(j) {
          UnreadableNeverLeaves(c, now, history, run, j);
          assert false;
        }
      }
    }
  }

  /** What counts as false: an absent value, 0, an empty text. */
  predicate CountsFalse(a: Arg) {
    a == Missing || a == Number(0) || a == Other(false)
  }

  /** One submitted job, then, drains exactly if its payload is a dictionary and it is a sweep, or
      names a document by a number: the one under `document_id`, or, if what is there counts as
      false, the one under `doc_id`. */
  lemma {:induction false} OneJobDrainsIff(c: Settings, now: Time, id: JobId, kind: JobKind, payload: Payload)
    requires id != NO_ID
    ensures var s := After(c, Init(now), [Submit(id, kind, payload)]);
            (exists run :: FaultFree(run) && Possible(c, s, run) && Drained(After(c, s, run)))
            <==> payload.Dictionary?
                 && (kind == RunSweep
                     || (kind == ProcessDocument
                         && ((payload.documentId.Number? && payload.documentId.n != 0)
                             || (CountsFalse(payload.documentId) && payload.docId.Number?))))
  {
    var e := Submit(id, kind, payload);
    OneEvent(c, Init(now), e);
    DrainsIffRunnable(c, now, [e]);
    var job := NewJob(id, kind, payload, now);
    assert Next(c, Init(now), e).queue == [] + [job] && job in [] + [job];
  }
}
