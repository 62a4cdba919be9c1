/** The jobs the runner cannot read: such a job is never executed, so it stays on the server
    for ever, whatever happens. */
module RunnerInvariant {
  import opened Messages
  import opened JobQueue
  import opened Protocol
  import opened AgentInvariant
  import opened ServerInvariant
  import opened ProtocolSafety
  import HS = HostedState

  /** The same submission; only lease records differ. */
  predicate Same(j: Job, k: Job) {
    j.id == k.id && j.kind == k.kind && j.payload == k.payload
  }

  /** The job the agent, or the answer on the wire, holds. */
  function HeldJob(pc: PC): Option<Job> {
    match pc
    case PullAnswered(reply) => reply
    case Received(job) => Some(job)
    case CursorPulled(job) => Some(job)
    case CursorExecuting(job) => Some(job)
    case Running(job) => Some(job)
    case Ran(job, _) => Some(job)
    case CursorExecuted(job, _) => Some(job)
    case _ => None
  }

  /** What is held is what was submitted. */
  ghost predicate Matches(queue: seq<Job>, held: Option<Job>) {
    held.Some? ==> forall j :: j in queue && j.id == held.value.id ==> Same(j, held.value)
  }

  predicate Finishing(pc: PC, id: JobId) {
    (pc.Ran? || pc.CursorExecuted?) && pc.job.id == id
  }

  /** Nobody has executed a queued job the runner cannot read. */
  ghost predicate Untouched(queue: seq<Job>, cursor: HS.Cursor, pc: PC) {
    forall j :: j in queue && !Runnable(j) ==> !Done(cursor, j.id) && !Finishing(pc, j.id)
  }

  ghost predicate RunnerInv(s: State) {
    Matches(s.queue, HeldJob(s.pc)) && Untouched(s.queue, s.cursor, s.pc)
  }

  // ----- what the server does to its jobs ----------------------------------

  /** Every job of `r` is one of `q`, but for lease records. */
  ghost predicate From(q: seq<Job>, r: seq<Job>) {
    forall j :: j in r ==> exists k :: k in q && Same(j, k)
  }

  lemma RemovedFrom(q: seq<Job>, id: JobId)
    ensures From(q, RemoveJob(q, id))
  {
    RemoveJobMembers(q, id);
  }

  lemma {:induction false} LeasedAt(q: seq<Job>, t1: Time, t2: Time, timeout: Time)
    ensures var (r, got) := Lease(q, t1, t2, timeout);
            && |r| == |q| && (forall i :: 0 <= i < |q| ==> Same(r[i], q[i]))
            && (got.Some? ==> got.value in r)
  {
    LeaseHandsOutEarliest(q, t1, t2, timeout);
  }

  lemma {:induction false} LeasedFrom(q: seq<Job>, t1: Time, t2: Time, timeout: Time)
    ensures From(q, Lease(q, t1, t2, timeout).0)
  {
    LeasedAt(q, t1, t2, timeout);
    var r := Lease(q, t1, t2, timeout).0;
    forall j | j in r
      ensures exists k :: k in q && Same(j, k)
    {
      var i :| 0 <= i < |r| && r[i] == j;
      assert q[i] in q && Same(j, q[i]);
    }
  }

  lemma {:induction false} GotMatches(q: seq<Job>, t1: Time, t2: Time, timeout: Time)
    requires DistinctJobs(q)
    ensures var (r, got) := Lease(q, t1, t2, timeout); Matches(r, got)
  {
    LeasedAt(q, t1, t2, timeout);
    var (r, got) := Lease(q, t1, t2, timeout);
    if got.Some? {
      var k :| 0 <= k < |r| && r[k] == got.value;
      forall j | j in r && j.id == got.value.id
        ensures Same(j, got.value)
      {
        var i :| 0 <= i < |r| && r[i] == j;
        assert i == k;
      }
    }
  }

  lemma FromMatches(q: seq<Job>, r: seq<Job>, held: Option<Job>)
    requires From(q, r) && Matches(q, held)
    ensures Matches(r, held)
  {
  }

  lemma FromUntouched(q: seq<Job>, r: seq<Job>, cursor: HS.Cursor, pc: PC)
    requires From(q, r) && Untouched(q, cursor, pc)
    ensures Untouched(r, cursor, pc)
  {
  }

  // ----- every event keeps it ----------------------------------------------

  /** The server's part of an event, on the agent's as it was. */
  lemma ServerKeepsRunner(s: State, t: State)
    requires RunnerInv(s) && From(s.queue, t.queue) && t.cursor == s.cursor && t.pc == s.pc
    ensures RunnerInv(t)
  {
    FromMatches(s.queue, t.queue, HeldJob(s.pc));
    FromUntouched(s.queue, t.queue, s.cursor, s.pc);
  }

  lemma HeldIsKnown(s: State)
    requires AgentInvariant.Inv(s)
    ensures HeldJob(s.pc).Some? ==> HeldJob(s.pc).value.id in s.hist.known
    ensures forall id :: Done(s.cursor, id) || Finishing(s.pc, id) ==> id in s.hist.known
  {
  }

  lemma NewKeepsRunner(queue: seq<Job>, cursor: HS.Cursor, pc: PC, known: set<JobId>, job: Job)
    requires Matches(queue, HeldJob(pc)) && Untouched(queue, cursor, pc) && job.id !in known
    requires HeldJob(pc).Some? ==> HeldJob(pc).value.id in known
    requires forall id :: Done(cursor, id) || Finishing(pc, id) ==> id in known
    ensures Matches(queue + [job], HeldJob(pc)) && Untouched(queue + [job], cursor, pc)
  {
  }

  lemma SubmitKeepsRunner(c: Settings, s: State, e: Event)
    requires Full(c, s) && RunnerInv(s) && e.Submit? && Enabled(s, e)
    ensures RunnerInv(Next(c, s, e))
  {
    HeldIsKnown(s);
    NewKeepsRunner(s.queue, s.cursor, s.pc, s.hist.known, NewJob(e.id, e.kind, e.payload, s.now));
  }

  lemma QueuedIsOpenJob(c: Settings, s: State, j: Job)
    requires Full(c, s) && j in s.queue
    ensures j.id in s.hist.known - s.hist.acked
  {
    QueuedIsOpen(s.hist.issued, s.hist.known, s.hist.acked, s.queue);
  }

  /** The agent's own steps, the server's aside. */
  lemma OwnStepHolds(c: Settings, s: State, report: Report, lag: Time)
    requires !s.pc.PushSent? && !s.pc.PullSent?
    ensures var t := AgentStep(c, s, report, lag);
            t.queue == s.queue && (HeldJob(t.pc) == HeldJob(s.pc) || HeldJob(t.pc) == None)
  {
  }

  lemma OwnStepFinishes(c: Settings, s: State, report: Report, lag: Time, id: JobId)
    requires !s.pc.PushSent? && !s.pc.PullSent?
    ensures var t := AgentStep(c, s, report, lag);
            && (Done(t.cursor, id) ==>
                  Done(s.cursor, id) || Finishing(s.pc, id) || (s.pc.Unqueued? && s.pc.todo != [] && s.pc.todo[0].id == id))
            && (Finishing(t.pc, id) ==> Finishing(s.pc, id) || (s.pc.Running? && s.pc.job.id == id))
  {
  }

  /** None of them can be on a queued job the runner cannot read. */
  lemma NotItsTurn(c: Settings, s: State, report: Report, lag: Time, j: Job)
    requires Full(c, s) && RunnerInv(s) && Enabled(s, Step(report, lag)) && j in s.queue && !Runnable(j)
    ensures s.pc.Running? ==> s.pc.job.id != j.id
    ensures s.pc.Unqueued? && s.pc.todo != [] ==> s.pc.todo[0].id != j.id
  {
    QueuedIsOpenJob(c, s, j);
    assert s.pc.Running? ==> HeldJob(s.pc) == Some(s.pc.job);
  }

  lemma OwnStepKeepsRunner(c: Settings, s: State, report: Report, lag: Time)
    requires Full(c, s) && RunnerInv(s) && Enabled(s, Step(report, lag)) && !s.pc.PushSent? && !s.pc.PullSent?
    ensures RunnerInv(AgentStep(c, s, report, lag))
  {
    OwnStepHolds(c, s, report, lag);
    OwnStepKeepsUntouched(c, s, report, lag, AgentStep(c, s, report, lag));
  }

  lemma OwnStepKeepsUntouched(c: Settings, s: State, report: Report, lag: Time, t: State)
    requires Full(c, s) && RunnerInv(s) && Enabled(s, Step(report, lag)) && !s.pc.PushSent? && !s.pc.PullSent?
    requires t == AgentStep(c, s, report, lag)
    ensures Untouched(s.queue, t.cursor, t.pc)
  {
    forall j | j in s.queue && !Runnable(j)
      ensures !Done(t.cursor, j.id) && !Finishing(t.pc, j.id)
    {
      NotItsTurn(c, s, report, lag, j);
      OwnStepFinishes(c, s, report, lag, j.id);
    }
  }

  lemma PullUnfolds(c: Settings, s: State, report: Report, lag: Time, q: seq<Job>, got: Option<Job>)
    requires s.pc.PullSent? && Lease(s.queue, s.now, s.now + lag, c.visibilityTimeout) == (q, got)
    ensures var t := AgentStep(c, s, report, lag); t.queue == q && t.pc == PullAnswered(got) && t.cursor == s.cursor
  {
  }

  lemma PulledKeepsRunner(s: State, t: State, got: Option<Job>)
    requires RunnerInv(s) && s.pc.PullSent? && From(s.queue, t.queue) && Matches(t.queue, got)
    requires t.pc == PullAnswered(got) && t.cursor == s.cursor
    ensures RunnerInv(t)
  {
    FromUntouched(s.queue, t.queue, s.cursor, s.pc);
  }

  lemma GrantMatches(c: Settings, s: State, t2: Time, q: seq<Job>, got: Option<Job>)
    requires Full(c, s) && (q, got) == Lease(s.queue, s.now, t2, c.visibilityTimeout)
    ensures From(s.queue, q) && Matches(q, got)
  {
    QueuedJobs(s.hist.issued, s.hist.known, s.hist.acked, s.queue);
    GotMatches(s.queue, s.now, t2, c.visibilityTimeout);
    LeasedFrom(s.queue, s.now, t2, c.visibilityTimeout);
  }

  lemma PullKeepsRunner(c: Settings, s: State, report: Report, lag: Time)
    requires Full(c, s) && RunnerInv(s) && s.pc.PullSent?
    ensures RunnerInv(AgentStep(c, s, report, lag))
  {
    var (q, got) := Lease(s.queue, s.now, s.now + lag, c.visibilityTimeout);
    GrantMatches(c, s, s.now + lag, q, got);
    PullUnfolds(c, s, report, lag, q, got);
    PulledKeepsRunner(s, AgentStep(c, s, report, lag), got);
  }

  lemma PushKeepsRunner(c: Settings, s: State, report: Report, lag: Time)
    requires RunnerInv(s) && s.pc.PushSent?
    ensures RunnerInv(AgentStep(c, s, report, lag))
  {
    if s.pc.todo != [] {
      RemovedFrom(s.queue, s.pc.todo[0].id);
      FromUntouched(s.queue, RemoveJob(s.queue, s.pc.todo[0].id), s.cursor, s.pc);
    }
  }

  lemma StepKeepsRunner(c: Settings, s: State, report: Report, lag: Time)
    requires Full(c, s) && RunnerInv(s) && Enabled(s, Step(report, lag))
    ensures RunnerInv(AgentStep(c, s, report, lag))
  {
    if s.pc.PullSent? {
      PullKeepsRunner(c, s, report, lag);
    } else if s.pc.PushSent? {
      PushKeepsRunner(c, s, report, lag);
    } else {
      OwnStepKeepsRunner(c, s, report, lag);
    }
  }

  lemma LateKeepsRunner(c: Settings, s: State, e: Event)
    requires RunnerInv(s) && (e.LatePush? || e.LatePull?)
    ensures RunnerInv(Next(c, s, e))
  {
    if e.LatePush? {
      RemovedFrom(s.queue, e.item.id);
    } else {
      LeasedFrom(s.queue, s.now, s.now + e.lag, c.visibilityTimeout);
    }
    ServerKeepsRunner(s, Next(c, s, e));
  }

  lemma EventKeepsRunner(c: Settings, s: State, e: Event)
    requires Full(c, s) && RunnerInv(s) && Enabled(s, e)
    ensures RunnerInv(Next(c, s, e))
  {
    match e
    case Submit(id, kind, payload) => SubmitKeepsRunner(c, s, e);
    case Tick(dt) =>
    case Step(report, lag) => StepKeepsRunner(c, s, report, lag);
    case Lose =>
    case Crash =>
    case LatePush(item, lag) => LateKeepsRunner(c, s, e);
    case LatePull(lag) => LateKeepsRunner(c, s, e);
  }

  /** In a reachable state the job in the runner, not being executed yet, is queued. */
  lemma RunningIsQueued(c: Settings, s: State) returns (j: Job)
    requires Full(c, s) && RunnerInv(s) && s.pc.Running?
    ensures j in s.queue && Same(j, s.pc.job)
  {
    assert HeldJob(s.pc) == Some(s.pc.job);
    OpenIsQueued(s.hist.issued, s.hist.known, s.hist.acked, s.queue, s.pc.job.id);
    var i :| 0 <= i < |s.queue| && s.queue[i].id == s.pc.job.id;
    j := s.queue[i];
  }

  lemma {:induction false} RunKeepsRunner(c: Settings, s: State, run: seq<Event>)
    requires Full(c, s) && RunnerInv(s) && Possible(c, s, run)
    ensures Full(c, After(c, s, run)) && RunnerInv(After(c, s, run))
  {
    RunKeepsFull(c, s, run);
    if run != [] {
      RunKeepsRunner(c, s, run[..|run| - 1]);
      EventKeepsRunner(c, After(c, s, run[..|run| - 1]), run[|run| - 1]);
    }
  }

  lemma {:induction false} ReachableRunner(c: Settings, now: Time, run: seq<Event>)
    requires Possible(c, Init(now), run)
    ensures Full(c, After(c, Init(now), run)) && RunnerInv(After(c, Init(now), run))
  {
    ReachableIsFull(c, now, []);
    RunKeepsRunner(c, Init(now), run);
  }

  /** A step of the agent or the wire adds no job. */
  lemma StepAddsNone(c: Settings, s: State, report: Report, lag: Time)
    ensures From(s.queue, AgentStep(c, s, report, lag).queue)
  {
    if s.pc.PullSent? {
      LeasedFrom(s.queue, s.now, s.now + lag, c.visibilityTimeout);
    } else if s.pc.PushSent? {
      if s.pc.todo != [] {
        RemovedFrom(s.queue, s.pc.todo[0].id);
      }
    } else {
      OwnStepHolds(c, s, report, lag);
    }
  }

  // ----- it never leaves ---------------------------------------------------

  /** A job submitted as this, which the runner cannot read, is queued. */
  ghost predicate Stuck(queue: seq<Job>, j: Job) {
    !Runnable(j) && exists k :: k in queue && Same(k, j)
  }

  lemma StuckSurvivesAck(c: Settings, s: State, id: JobId, j: Job)
    requires Full(c, s) && RunnerInv(s) && Stuck(s.queue, j) && id in s.hist.body
    ensures Stuck(RemoveJob(s.queue, id), j)
  {
    RemoveJobMembers(s.queue, id);
    assert Done(s.cursor, id);
  }

  lemma {:induction false} StuckSurvivesLease(q: seq<Job>, t1: Time, t2: Time, timeout: Time, j: Job)
    requires Stuck(q, j)
    ensures Stuck(Lease(q, t1, t2, timeout).0, j)
  {
    LeasedAt(q, t1, t2, timeout);
    var k :| k in q && Same(k, j);
    var i :| 0 <= i < |q| && q[i] == k;
    assert Same(Lease(q, t1, t2, timeout).0[i], j);
  }

  lemma StepKeepsStuck(c: Settings, s: State, report: Report, lag: Time, j: Job)
    requires Full(c, s) && RunnerInv(s) && Stuck(s.queue, j)
    ensures Stuck(AgentStep(c, s, report, lag).queue, j)
  {
    if s.pc.PullSent? {
      StuckSurvivesLease(s.queue, s.now, s.now + lag, c.visibilityTimeout, j);
    } else if s.pc.PushSent? {
      StuckSurvivesAck(c, s, s.pc.todo[0].id, j);
    } else {
      OwnStepHolds(c, s, report, lag);
    }
  }

  lemma EventKeepsStuck(c: Settings, s: State, e: Event, j: Job)
    requires Full(c, s) && RunnerInv(s) && Enabled(s, e) && Stuck(s.queue, j)
    ensures Stuck(Next(c, s, e).queue, j)
  {
    match e
    case Submit(id, kind, payload) =>
    case Tick(dt) =>
    case Step(report, lag) => StepKeepsStuck(c, s, report, lag, j);
    case Lose =>
    case Crash =>
    case LatePush(item, lag) => StuckSurvivesAck(c, s, item.id, j);
    case LatePull(lag) => StuckSurvivesLease(s.queue, s.now, s.now + lag, c.visibilityTimeout, j);
  }

  lemma {:induction false} RunKeepsStuck(c: Settings, s: State, run: seq<Event>, j: Job)
    requires Full(c, s) && RunnerInv(s) && Possible(c, s, run) && Stuck(s.queue, j)
    ensures Stuck(After(c, s, run).queue, j)
  {
    if run != [] {
      var front := run[..|run| - 1];
      RunKeepsStuck(c, s, front, j);
      RunKeepsRunner(c, s, front);
      EventKeepsStuck(c, After(c, s, front), run[|run| - 1], j);
    }
  }

  /** A job the runner cannot read stays queued for ever, over any continuation, and is never
      recorded as executed. */
  lemma {:induction false} UnreadableNeverLeaves(c: Settings, now: Time, history: seq<Event>, more: seq<Event>, j: Job)
    requires Possible(c, Init(now), history) && Possible(c, After(c, Init(now), history), more)
    requires j in After(c, Init(now), history).queue && !Runnable(j)
    ensures var t := After(c, After(c, Init(now), history), more);
            (exists k :: k in t.queue && Same(k, j)) && !Done(t.cursor, j.id)
  {
    ReachableRunner(c, now, history);
    var s := After(c, Init(now), history);
    RunKeepsStuck(c, s, more, j);
    RunKeepsRunner(c, s, more);
  }

  /** For instance: one job of an unknown kind, and nothing else ever submitted before it. */
  lemma {:induction false} UnknownKindWedges(c: Settings, now: Time, id: JobId, tag: nat, payload: Payload, more: seq<Event>)
    requires id != NO_ID
    requires Possible(c, After(c, Init(now), [Submit(id, Unknown(tag), payload)]), more)
    ensures Possible(c, Init(now), [Submit(id, Unknown(tag), payload)])
    ensures After(c, After(c, Init(now), [Submit(id, Unknown(tag), payload)]), more).queue != []
  {
    var e := Submit(id, Unknown(tag), payload);
    OneEvent(c, Init(now), e);
    var job := NewJob(id, Unknown(tag), payload, now);
    assert Next(c, Init(now), e).queue == [] + [job] && job in [] + [job];
    UnreadableNeverLeaves(c, now, [e], more, job);
  }

  lemma {:induction false} OneEvent(c: Settings, s: State, e: Event)
    requires Enabled(s, e)
    ensures Possible(c, s, [e]) && After(c, s, [e]) == Next(c, s, e)
  {
    assert [e][..0] == [];
  }
}
