/** Safety of the hosted job protocol over every run: whatever crashes, losses, late
    arrivals and redeliveries occur, no job is lost or acknowledged unexecuted,
    each job has one result body, re-execution is bounded, leases are spaced. */
module ProtocolSafety {
  import opened Messages
  import opened JobQueue
  import opened ResultCache
  import opened Protocol
  import opened AgentInvariant
  import opened ServerInvariant
  import HS = HostedState

  // ----- runner calls ------------------------------------------------------

  predicate InRunner(pc: PC, id: JobId) {
    (pc.Running? || pc.Ran?) && pc.job.id == id
  }

  /** Calls of the runner for one job: the ones cut short, and the one that counts. */
  ghost predicate CountInv(starts: multiset<JobId>, aborts: multiset<JobId>, cursor: HS.Cursor, pc: PC) {
    forall id :: starts[id] == aborts[id] + if Done(cursor, id) || InRunner(pc, id) then 1 else 0
  }

  /** The runner only works on jobs not yet executed, and only finished ones are
      marked acknowledged. */
  predicate RunnerReady(pc: PC, cursor: HS.Cursor) {
    match pc
    case Unqueued(todo, pull) => todo != [] && Done(cursor, todo[0].id)
    case CursorPulled(job) => !Done(cursor, job.id)
    case CursorExecuting(job) => !Done(cursor, job.id)
    case Running(job) => !Done(cursor, job.id)
    case Ran(job, body) => !Done(cursor, job.id)
    case _ => true
  }

  lemma InvIsRunnerReady(s: State)
    requires AgentInvariant.Inv(s)
    ensures RunnerReady(s.pc, s.cursor)
  {
  }

  lemma CountFlushStep(c: Settings, s: State, report: Report, lag: Time)
    requires CountInv(s.hist.starts, s.hist.aborts, s.cursor, s.pc) && RunnerReady(s.pc, s.cursor)
    requires s.pc.Flush? || s.pc.PushSent? || s.pc.PushAnswered? || s.pc.PushOk? || s.pc.Unqueued?
    ensures var t := AgentStep(c, s, report, lag);
            CountInv(t.hist.starts, t.hist.aborts, t.cursor, t.pc)
  {
  }

  lemma CountQueueStep(c: Settings, s: State, report: Report, lag: Time)
    requires CountInv(s.hist.starts, s.hist.aborts, s.cursor, s.pc) && RunnerReady(s.pc, s.cursor)
    requires s.pc.Received? || s.pc.CursorExecuted?
    ensures var t := AgentStep(c, s, report, lag);
            CountInv(t.hist.starts, t.hist.aborts, t.cursor, t.pc)
  {
  }

  lemma CountRunStep(c: Settings, s: State, report: Report, lag: Time)
    requires CountInv(s.hist.starts, s.hist.aborts, s.cursor, s.pc) && RunnerReady(s.pc, s.cursor)
    requires s.pc.CursorPulled? || s.pc.CursorExecuting? || s.pc.Running? || s.pc.Ran?
    ensures var t := AgentStep(c, s, report, lag);
            CountInv(t.hist.starts, t.hist.aborts, t.cursor, t.pc)
  {
  }

  lemma CountCrash(s: State)
    requires CountInv(s.hist.starts, s.hist.aborts, s.cursor, s.pc) && RunnerReady(s.pc, s.cursor)
    ensures var t := Crashed(s); CountInv(t.hist.starts, t.hist.aborts, t.cursor, t.pc)
  {
  }

  ghost predicate Full(c: Settings, s: State) {
    && AgentInvariant.Inv(s)
    && SrvInv(c, s)
    && CountInv(s.hist.starts, s.hist.aborts, s.cursor, s.pc)
  }

  // ----- every event keeps everything --------------------------------------

  lemma PushKeepsFull(c: Settings, s: State, item: Item, lag: Time)
    requires Full(c, s) && lag >= 0.0 && Canonical(s.hist.body, item)
    ensures Full(c, ServerAck(c, s, item, lag))
  {
    assert Done(s.cursor, item.id);
    AckKeepsSrvInv(c, s, item, lag);
    AckKeepsInv(s, ServerAck(c, s, item, lag), item.id);
  }

  lemma PullKeepsFull(c: Settings, s: State, lag: Time)
    requires Full(c, s) && lag >= 0.0
    ensures var (t, got) := ServerLease(c, s, lag);
            && Full(c, t)
            && (got.Some? ==> got.value.id in s.hist.known - s.hist.acked)
  {
    LeaseKeepsSrvInv(c, s, lag);
  }

  lemma PullStepKeepsFull(c: Settings, s: State, report: Report, lag: Time)
    requires Full(c, s) && lag >= 0.0 && s.pc.PullSent?
    ensures Full(c, AgentStep(c, s, report, lag))
  {
    PullKeepsFull(c, s, lag);
    var (t, got) := ServerLease(c, s, lag);
    PulledKeepsInv(s, t.(pc := PullAnswered(got)), got);
  }

  lemma FlushStepKeepsFull(c: Settings, s: State, report: Report, lag: Time)
    requires Full(c, s) && lag >= 0.0
    requires s.pc.Flush? || s.pc.PushSent? || s.pc.PushAnswered? || s.pc.PushOk? || s.pc.Unqueued?
    ensures Full(c, AgentStep(c, s, report, lag))
  {
    FlushKeepsInv(c, s, report, lag);
    InvIsRunnerReady(s);
    CountFlushStep(c, s, report, lag);
    if s.pc.PushSent? {
      PushKeepsFull(c, s, s.pc.todo[0], lag);
    }
  }

  lemma QueueStepKeepsFull(c: Settings, s: State, report: Report, lag: Time)
    requires Full(c, s) && (s.pc.Received? || s.pc.CursorExecuted?)
    ensures Full(c, AgentStep(c, s, report, lag))
  {
    InvIsRunnerReady(s);
    CountQueueStep(c, s, report, lag);
    if s.pc.Received? {
      ReceivedKeepsInv(c, s, report, lag);
      if Done(s.cursor, s.pc.job.id) && s.pc.job.id !in HS.Held(s.outbox)
         && !HS.AtLeast(s.cursor, s.pc.job.id, HS.Acked) {
        NewBodyKeepsSrvInv(c, s, Item(s.pc.job.id, AlreadyDone(s.pc.job.id, s.pc.job.kind)));
      }
    } else {
      QueueResultKeepsInv(s, Item(s.pc.job.id, s.pc.body));
      NewBodyKeepsSrvInv(c, s, Item(s.pc.job.id, s.pc.body));
    }
  }

  lemma RunStepKeepsFull(c: Settings, s: State, report: Report, lag: Time)
    requires Full(c, s)
    requires s.pc.CursorPulled? || s.pc.CursorExecuting? || s.pc.Running? || s.pc.Ran?
    ensures Full(c, AgentStep(c, s, report, lag))
  {
    RunKeepsInv(c, s, report, lag);
    InvIsRunnerReady(s);
    CountRunStep(c, s, report, lag);
  }

  lemma AgentStepKeepsFull(c: Settings, s: State, report: Report, lag: Time)
    requires Full(c, s) && lag >= 0.0
    ensures Full(c, AgentStep(c, s, report, lag))
  {
    match s.pc
    case Idle =>
    case PullSent => PullStepKeepsFull(c, s, report, lag);
    case PullAnswered(reply) =>
    case Received(job) => QueueStepKeepsFull(c, s, report, lag);
    case CursorExecuted(job, body) => QueueStepKeepsFull(c, s, report, lag);
    case CursorPulled(job) => RunStepKeepsFull(c, s, report, lag);
    case CursorExecuting(job) => RunStepKeepsFull(c, s, report, lag);
    case Running(job) => RunStepKeepsFull(c, s, report, lag);
    case Ran(job, body) => RunStepKeepsFull(c, s, report, lag);
    case Flush(todo, pull) => FlushStepKeepsFull(c, s, report, lag);
    case PushSent(todo, pull) => FlushStepKeepsFull(c, s, report, lag);
    case PushAnswered(todo, pull) => FlushStepKeepsFull(c, s, report, lag);
    case PushOk(todo, pull) => FlushStepKeepsFull(c, s, report, lag);
    case Unqueued(todo, pull) => FlushStepKeepsFull(c, s, report, lag);
  }

  lemma TickKeepsFull(c: Settings, s: State, dt: Time)
    requires Full(c, s) && dt >= 0.0
    ensures Full(c, s.(now := s.now + dt))
  {
    LaterKeepsLeases(c, s.queue, s.queue, s.hist.log, s.now, s.now + dt, s.hist.known);
  }

  lemma SubmitKeepsFull(c: Settings, s: State, id: JobId, kind: JobKind, payload: Payload)
    requires Full(c, s) && id !in s.hist.known
    ensures Full(c, Next(c, s, Submit(id, kind, payload)))
  {
    SubmitKeepsSrvInv(c, s, id, kind, payload);
  }

  lemma CrashKeepsFull(c: Settings, s: State)
    requires Full(c, s)
    ensures Full(c, Crashed(s))
  {
    CrashKeepsInv(s);
    InvIsRunnerReady(s);
    CountCrash(s);
  }

  lemma LossKeepsInv(s: State)
    requires AgentInvariant.Inv(s) && Enabled(s, Lose)
    ensures AgentInvariant.Inv(Lost(s))
  {
  }

  lemma LossKeepsCount(s: State)
    requires CountInv(s.hist.starts, s.hist.aborts, s.cursor, s.pc) && Enabled(s, Lose)
    ensures CountInv(s.hist.starts, s.hist.aborts, s.cursor, Lost(s).pc)
  {
  }

  lemma LossKeepsFull(c: Settings, s: State)
    requires Full(c, s) && Enabled(s, Lose)
    ensures Full(c, Lost(s))
  {
    LossKeepsInv(s);
    LossKeepsCount(s);
    assert Lost(s) == s.(pc := Lost(s).pc);
  }

  lemma {:induction false} EventKeepsFull(c: Settings, s: State, e: Event)
    requires Full(c, s) && Enabled(s, e)
    ensures Full(c, Next(c, s, e))
  {
    match e
    case Submit(id, kind, payload) => SubmitKeepsFull(c, s, id, kind, payload);
    case Tick(dt) => TickKeepsFull(c, s, dt);
    case Step(report, lag) => AgentStepKeepsFull(c, s, report, lag);
    case Lose => LossKeepsFull(c, s);
    case Crash => CrashKeepsFull(c, s);
    case LatePush(item, lag) => PushKeepsFull(c, s, item, lag);
    case LatePull(lag) => PullKeepsFull(c, s, lag);
  }

  lemma {:induction false} RunKeepsFull(c: Settings, s: State, run: seq<Event>)
    requires Full(c, s) && Possible(c, s, run)
    ensures Full(c, After(c, s, run))
  {
    if run != [] {
      RunKeepsFull(c, s, run[..|run| - 1]);
      EventKeepsFull(c, After(c, s, run[..|run| - 1]), run[|run| - 1]);
    }
  }

  lemma InitIsFull(c: Settings, now: Time)
    ensures Full(c, Init(now))
  {
  }

  lemma {:induction false} ReachableIsFull(c: Settings, now: Time, run: seq<Event>)
    requires Possible(c, Init(now), run)
    ensures Full(c, After(c, Init(now), run))
  {
    InitIsFull(c, now);
    RunKeepsFull(c, Init(now), run);
  }
}
