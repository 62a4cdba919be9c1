/** Jobs the runner cannot read next to jobs it can: with a positive visibility timeout the
    others all drain past them; without one the first of them blocks whatever is behind it. */
module UnreadableJobs {
  import opened Messages
  import opened JobQueue
  import opened Protocol
  import opened AgentInvariant
  import opened ServerInvariant
  import opened ProtocolSafety
  import opened RunnerInvariant
  import opened ProtocolLiveness
  import HS = HostedState

  /** The runner is about to raise because it cannot read its job. */
  predicate Refuses(s: State) {
    s.pc.Running? && !Runnable(s.pc.job)
  }

  /** Nothing goes wrong but that; the agent is started again each time. */
  ghost predicate OnlyRefusals(c: Settings, s: State, run: seq<Event>) {
    run == [] ||
    (var front, e := run[..|run| - 1], run[|run| - 1];
     && OnlyRefusals(c, s, front)
     && (e.Step? || e.Tick? || (e.Crash? && Refuses(After(c, s, front)))))
  }

  lemma {:induction false} ChainRefusals(c: Settings, s: State, a: seq<Event>, b: seq<Event>)
    requires Possible(c, s, a) && Possible(c, After(c, s, a), b)
    requires OnlyRefusals(c, s, a) && OnlyRefusals(c, After(c, s, a), b)
    ensures Possible(c, s, a + b) && After(c, s, a + b) == After(c, After(c, s, a), b) && OnlyRefusals(c, s, a + b)
  {
    Chain(c, s, a, b);
    if b == [] {
      assert a + b == a;
    } else {
      var front := b[..|b| - 1];
      ChainRefusals(c, s, a, front);
      assert (a + b)[..|a + b| - 1] == a + front;
    }
  }

  lemma {:induction false} OneRefusal(c: Settings, s: State, e: Event)
    requires Enabled(s, e) && (e.Step? || e.Tick? || (e.Crash? && Refuses(s)))
    ensures Possible(c, s, [e]) && After(c, s, [e]) == Next(c, s, e) && OnlyRefusals(c, s, [e])
  {
    OneEvent(c, s, e);
    assert [e][..0] == [];
  }

  ghost predicate Good(c: Settings, s: State) {
    Full(c, s) && RunnerInv(s)
  }

  lemma EventKeepsGood(c: Settings, s: State, e: Event)
    requires Good(c, s) && Enabled(s, e)
    ensures Good(c, Next(c, s, e))
  {
    EventKeepsFull(c, s, e);
    EventKeepsRunner(c, s, e);
  }

  // ----- who is free to be leased ------------------------------------------

  ghost function FreeIds(queue: seq<Job>, now: Time, timeout: Time): set<JobId> {
    set j | j in queue && !LiveLease(j, now, timeout) :: j.id
  }

  /** Whoever holds a lease, apart from `taken`, holds one on a job nobody can run. */
  ghost predicate LiveUnreadable(queue: seq<Job>, now: Time, timeout: Time, taken: set<JobId>) {
    forall j :: j in queue && LiveLease(j, now, timeout) ==> !Runnable(j) || j.id in taken
  }

  lemma RemovalShrinks(q: seq<Job>, id: JobId, now: Time, timeout: Time, taken: set<JobId>)
    requires LiveUnreadable(q, now, timeout, taken)
    ensures LiveUnreadable(RemoveJob(q, id), now, timeout, taken)
    ensures FreeIds(RemoveJob(q, id), now, timeout) <= FreeIds(q, now, timeout)
  {
    RemoveJobMembers(q, id);
  }

  /** A lease granted in no time goes to a free job and leaves it held; the others are as free
      as before. A refusal means that none is free. */
  lemma {:induction false} LeaseInNoTime(q: seq<Job>, r: seq<Job>, got: Option<Job>, now: Time, timeout: Time)
    requires DistinctJobs(q) && timeout > 0.0 && Lease(q, now, now, timeout) == (r, got)
    requires LiveUnreadable(q, now, timeout, {})
    ensures got.None? ==> r == q && FreeIds(q, now, timeout) == {}
    ensures got.Some? ==>
              var id := got.value.id;
              && id in FreeIds(q, now, timeout) && id !in FreeIds(r, now, timeout)
              && FreeIds(r, now, timeout) <= FreeIds(q, now, timeout)
              && LiveUnreadable(r, now, timeout, {id})
  {
    LeaseHandsOutEarliest(q, now, now, timeout);
    var k := FirstFree(q, now, timeout);
    if got.Some? {
      var id := got.value.id;
      assert q[k] in q && q[k].id == id;
      forall i | 0 <= i < |q|
        ensures r[i].id == q[i].id && (i != k ==> LiveLease(r[i], now, timeout) == LiveLease(q[i], now, timeout) && r[i].id != id)
        ensures i != k ==> Runnable(r[i]) == Runnable(q[i])
        ensures i == k ==> LiveLease(r[i], now, timeout)
      {
      }
      GrantedLeaves(q, r, k, now, timeout);
    }
  }

  lemma GrantedLeaves(q: seq<Job>, r: seq<Job>, k: nat, now: Time, timeout: Time)
    requires |r| == |q| && k < |q| && LiveUnreadable(q, now, timeout, {})
    requires forall i :: 0 <= i < |q| && i != k ==>
               && r[i].id == q[i].id && LiveLease(r[i], now, timeout) == LiveLease(q[i], now, timeout)
               && r[i].id != r[k].id && Runnable(r[i]) == Runnable(q[i])
    requires r[k].id == q[k].id && LiveLease(r[k], now, timeout)
    ensures r[k].id !in FreeIds(r, now, timeout) && FreeIds(r, now, timeout) <= FreeIds(q, now, timeout)
    ensures LiveUnreadable(r, now, timeout, {r[k].id})
  {
    forall j | j in r
      ensures !LiveLease(j, now, timeout) ==> j.id != r[k].id && j.id in FreeIds(q, now, timeout)
      ensures LiveLease(j, now, timeout) ==> !Runnable(j) || j.id == r[k].id
    {
      var i :| 0 <= i < |r| && r[i] == j;
      assert q[i] in q;
    }
  }

  // ----- one turn: a poll in no time ---------------------------------------

  /** Within a poll begun in `s0`, its steps taking no time. */
  ghost predicate Turn(c: Settings, s0: State, s: State) {
    && Progress(s0, s) && s.now == s0.now
    && var free, free0 := FreeIds(s.queue, s.now, c.visibilityTimeout), FreeIds(s0.queue, s0.now, c.visibilityTimeout);
       && free <= free0
       && (forall id :: id in Taken(s0, s) ==> id in free0 && id !in free)
       && LiveUnreadable(s.queue, s.now, c.visibilityTimeout, Taken(s0, s))
       && ((s.pc.Idle? || s.pc.PullAnswered?) && s.hist.log == s0.hist.log ==> free == {})
  }

  lemma TurnBegins(c: Settings, s: State)
    requires s.pc.Idle? && LiveUnreadable(s.queue, s.now, c.visibilityTimeout, {})
    ensures Turn(c, s, Next(c, s, STEP))
  {
    PollStarts(c, s, STEP.report, STEP.lag);
  }

  lemma OwnStepSettles(c: Settings, s: State)
    requires !s.pc.PushSent? && !s.pc.PullSent?
    ensures var t := AgentStep(c, s, STEP.report, STEP.lag);
            && t.queue == s.queue && t.now == s.now && t.hist.log == s.hist.log
            && (t.pc.Idle? ==> s.pc.Idle? || (s.pc.Flush? && !s.pc.pull) || s.pc.PullAnswered?)
            && !t.pc.PullAnswered?
  {
  }

  lemma OwnStepTurns(c: Settings, s0: State, s: State)
    requires Good(c, s) && Turn(c, s0, s) && !s.pc.Idle? && !s.pc.PushSent? && !s.pc.PullSent?
    ensures Turn(c, s0, AgentStep(c, s, STEP.report, STEP.lag))
  {
    OwnStepSettles(c, s);
    StepProgress(c, s0, s, STEP.report, STEP.lag);
  }

  lemma PushTurns(c: Settings, s0: State, s: State)
    requires Good(c, s) && Turn(c, s0, s) && s.pc.PushSent?
    ensures Turn(c, s0, AgentStep(c, s, STEP.report, STEP.lag))
  {
    StepProgress(c, s0, s, STEP.report, STEP.lag);
    var id := s.pc.todo[0].id;
    RemovalShrinks(s.queue, id, s.now, c.visibilityTimeout, Taken(s0, s));
    PushUnfolds(c, s, AgentStep(c, s, STEP.report, STEP.lag));
  }

  lemma PushUnfolds(c: Settings, s: State, t: State)
    requires s.pc.PushSent? && s.pc.todo != [] && t == AgentStep(c, s, STEP.report, STEP.lag)
    ensures t.queue == RemoveJob(s.queue, s.pc.todo[0].id) && t.now == s.now && t.hist.log == s.hist.log && t.pc.PushAnswered?
  {
  }

  lemma PullTakes(c: Settings, s: State, t: State, q: seq<Job>, got: Option<Job>)
    requires s.pc.PullSent? && t == AgentStep(c, s, STEP.report, STEP.lag)
    requires Lease(s.queue, s.now, s.now, c.visibilityTimeout) == (q, got)
    ensures t.queue == q && t.now == s.now && t.pc == PullAnswered(got)
    ensures t.hist.log == if got.None? then s.hist.log else s.hist.log + [Delivery(got.value.id, s.now)]
  {
    assert s.now + STEP.lag == s.now;
  }

  lemma PullTurns(c: Settings, s0: State, s: State)
    requires Good(c, s) && Turn(c, s0, s) && s.pc.PullSent? && c.visibilityTimeout > 0.0
    ensures Turn(c, s0, AgentStep(c, s, STEP.report, STEP.lag))
  {
    StepProgress(c, s0, s, STEP.report, STEP.lag);
    QueuedJobs(s.hist.issued, s.hist.known, s.hist.acked, s.queue);
    var (q, got) := Lease(s.queue, s.now, s.now, c.visibilityTimeout);
    LeaseInNoTime(s.queue, q, got, s.now, c.visibilityTimeout);
    PullTakes(c, s, AgentStep(c, s, STEP.report, STEP.lag), q, got);
  }

  lemma StepTurns(c: Settings, s0: State, s: State)
    requires Good(c, s) && Turn(c, s0, s) && !s.pc.Idle? && !Refuses(s) && c.visibilityTimeout > 0.0
    ensures Turn(c, s0, Next(c, s, STEP)) && Good(c, Next(c, s, STEP)) && Enabled(s, STEP)
  {
    EventKeepsGood(c, s, STEP);
    if s.pc.PushSent? {
      PushTurns(c, s0, s);
    } else if s.pc.PullSent? {
      PullTurns(c, s0, s);
    } else {
      OwnStepTurns(c, s0, s);
    }
  }

  /** Between turns: nothing to push, and only unreadable jobs are held. */
  ghost predicate Between(c: Settings, s: State) {
    && Good(c, s) && s.pc.Idle? && s.outbox == []
    && LiveUnreadable(s.queue, s.now, c.visibilityTimeout, {})
  }

  /** A turn has used up one free job, or there was none. */
  ghost predicate Fewer(c: Settings, s0: State, t: State) {
    var free, free0 := FreeIds(t.queue, t.now, c.visibilityTimeout), FreeIds(s0.queue, s0.now, c.visibilityTimeout);
    free == {} || free < free0
  }

  lemma TurnPushes(c: Settings, s0: State, s: State)
    requires Good(c, s) && Turn(c, s0, s) && s.pc.Idle?
    ensures Between(c, s) && Fewer(c, s0, s)
  {
    if s.hist.log != s0.hist.log {
      QueuedIsOpen(s.hist.issued, s.hist.known, s.hist.acked, s.queue);
      assert Taken(s0, s) <= s.hist.acked;
    }
  }

  lemma TurnRefuses(c: Settings, s0: State, s: State)
    requires Good(c, s) && Turn(c, s0, s) && Refuses(s)
    ensures Between(c, Next(c, s, Crash)) && Fewer(c, s0, Next(c, s, Crash))
  {
    EventKeepsGood(c, s, Crash);
    assert HeldJob(s.pc) == Some(s.pc.job);
    assert Taken(s0, s) == {s.pc.job.id};
  }

  lemma {:induction false} FinishTurn(c: Settings, s0: State, s: State) returns (run: seq<Event>)
    requires Good(c, s) && Turn(c, s0, s) && !s.pc.Idle? && c.visibilityTimeout > 0.0
    ensures Possible(c, s, run) && OnlyRefusals(c, s, run)
    ensures Between(c, After(c, s, run)) && Fewer(c, s0, After(c, s, run))
    decreases Remaining(s)
  {
    if Refuses(s) {
      run := [Crash];
      OneRefusal(c, s, Crash);
      TurnRefuses(c, s0, s);
      return;
    }
    StepTurns(c, s0, s);
    OneRefusal(c, s, STEP);
    StepShortens(c, s, STEP.report, STEP.lag);
    var t := Next(c, s, STEP);
    run := [STEP];
    if t.pc.Idle? {
      TurnPushes(c, s0, t);
    } else {
      var rest := FinishTurn(c, s0, t);
      ChainRefusals(c, s, [STEP], rest);
      run := [STEP] + rest;
    }
  }

  /** One poll. */
  lemma {:induction false} ATurn(c: Settings, s: State) returns (run: seq<Event>)
    requires Good(c, s) && s.pc.Idle? && LiveUnreadable(s.queue, s.now, c.visibilityTimeout, {}) && c.visibilityTimeout > 0.0
    ensures Possible(c, s, run) && OnlyRefusals(c, s, run)
    ensures Between(c, After(c, s, run)) && Fewer(c, s, After(c, s, run))
  {
    TurnBegins(c, s);
    OneRefusal(c, s, STEP);
    EventKeepsGood(c, s, STEP);
    var rest := FinishTurn(c, s, Next(c, s, STEP));
    ChainRefusals(c, s, [STEP], rest);
    run := [STEP] + rest;
  }

  // ----- enough of them ----------------------------------------------------

  lemma {:induction false} FewerElements(a: set<JobId>, b: set<JobId>)
    requires a < b
    ensures |a| < |b|
  {
    assert |b - a| > 0;
    assert b == a + (b - a);
  }

  lemma {:induction false} TurnsDrain(c: Settings, s: State) returns (run: seq<Event>)
    requires Good(c, s) && s.pc.Idle? && LiveUnreadable(s.queue, s.now, c.visibilityTimeout, {}) && c.visibilityTimeout > 0.0
    ensures Possible(c, s, run) && OnlyRefusals(c, s, run)
    ensures var t := After(c, s, run); t.pc.Idle? && t.outbox == [] && forall j :: j in t.queue ==> !Runnable(j)
    decreases |FreeIds(s.queue, s.now, c.visibilityTimeout)|
  {
    run := ATurn(c, s);
    var t := After(c, s, run);
    var free := FreeIds(t.queue, t.now, c.visibilityTimeout);
    if free == {} {
      NoneFree(t.queue, t.now, c.visibilityTimeout);
    } else {
      FewerElements(free, FreeIds(s.queue, s.now, c.visibilityTimeout));
      var rest := TurnsDrain(c, t);
      ChainRefusals(c, s, run, rest);
      run := run + rest;
    }
  }

  lemma NoneFree(queue: seq<Job>, now: Time, timeout: Time)
    requires FreeIds(queue, now, timeout) == {} && LiveUnreadable(queue, now, timeout, {})
    ensures forall j :: j in queue ==> !Runnable(j)
  {
    assert forall j :: j in queue && !LiveLease(j, now, timeout) ==> j.id in FreeIds(queue, now, timeout);
  }

  /** The poll under way comes to rest, one way or the other. */
  lemma {:induction false} ComeToRest(c: Settings, s: State) returns (run: seq<Event>)
    requires Good(c, s)
    ensures Possible(c, s, run) && OnlyRefusals(c, s, run) && Good(c, After(c, s, run)) && After(c, s, run).pc.Idle?
    decreases Remaining(s), if s.pc.Idle? then 0 else 1
  {
    if s.pc.Idle? {
      return [];
    }
    var e := if Refuses(s) then Crash else STEP;
    OneRefusal(c, s, e);
    EventKeepsGood(c, s, e);
    run := [e];
    if e == STEP {
      StepShortens(c, s, STEP.report, STEP.lag);
      var rest := ComeToRest(c, Next(c, s, STEP));
      ChainRefusals(c, s, [e], rest);
      run := [e] + rest;
    }
  }

  /** With a positive visibility timeout, from every reachable state some continuation in which
      nothing fails but the runner on jobs it cannot read pushes every result and drains every
      other job; exactly those stay. */
  lemma {:induction false} OthersDrain(c: Settings, now: Time, history: seq<Event>) returns (run: seq<Event>)
    requires Possible(c, Init(now), history) && c.visibilityTimeout > 0.0
    ensures var s := After(c, Init(now), history);
            var t := After(c, s, run);
            && Possible(c, s, run) && OnlyRefusals(c, s, run)
            && t.pc.Idle? && t.outbox == []
            && (forall j :: j in t.queue ==> !Runnable(j))
            && (forall j :: j in s.queue && !Runnable(j) ==> exists k :: k in t.queue && Same(k, j))
  {
    ReachableRunner(c, now, history);
    var s := After(c, Init(now), history);
    run := ComeToRest(c, s);
    var rested := After(c, s, run);
    var wait := Tick(c.visibilityTimeout);
    OneRefusal(c, rested, wait);
    EventKeepsGood(c, rested, wait);
    TickRipens(c, rested, wait.dt);
    var rest := TurnsDrain(c, Next(c, rested, wait));
    ChainRefusals(c, rested, [wait], rest);
    ChainRefusals(c, s, run, [wait] + rest);
    run := run + ([wait] + rest);
    forall j | j in s.queue && !Runnable(j)
      ensures exists k :: k in After(c, s, run).queue && Same(k, j)
    {
      UnreadableNeverLeaves(c, now, history, run, j);
    }
  }

  // ----- without a visibility timeout --------------------------------------

  /** An unreadable job is first; `id` is another's, not executed and not in hand. */
  ghost predicate Blocked(queue: seq<Job>, cursor: HS.Cursor, pc: PC, id: JobId) {
    && queue != [] && !Runnable(queue[0]) && queue[0].id != id
    && !Done(cursor, id) && (HeldJob(pc).Some? ==> HeldJob(pc).value.id != id)
  }

  lemma {:induction false} HeadStays(q: seq<Job>, id: JobId)
    requires q != [] && q[0].id != id
    ensures RemoveJob(q, id) != [] && RemoveJob(q, id)[0] == q[0]
  {
    if |q| > 1 {
      HeadStays(q[..|q| - 1], id);
    }
  }

  lemma AckKeepsHead(c: Settings, s: State, id: JobId)
    requires Good(c, s) && s.queue != [] && !Runnable(s.queue[0]) && id in s.hist.body
    ensures RemoveJob(s.queue, id) != [] && RemoveJob(s.queue, id)[0] == s.queue[0]
  {
    assert s.queue[0] in s.queue && Done(s.cursor, id);
    HeadStays(s.queue, id);
  }

  /** Every lease has run out at once, so the first job is handed out, again and again. */
  lemma LeaseTakesHead(c: Settings, s: State, lag: Time)
    requires Full(c, s) && s.queue != [] && c.visibilityTimeout <= 0.0
    ensures var (q, got) := Lease(s.queue, s.now, s.now + lag, c.visibilityTimeout);
            q != [] && Same(q[0], s.queue[0]) && got.Some? && got.value.id == s.queue[0].id
  {
    RecordOf(c, s.queue, s.hist.log, s.now, 0);
  }

  lemma OwnStepStaysBlocked(c: Settings, s: State, report: Report, lag: Time, id: JobId)
    requires Good(c, s) && !s.pc.PushSent? && !s.pc.PullSent? && Blocked(s.queue, s.cursor, s.pc, id) && id !in s.hist.acked
    ensures var t := AgentStep(c, s, report, lag); Blocked(t.queue, t.cursor, t.pc, id)
  {
    OwnStepHolds(c, s, report, lag);
    OwnStepFinishes(c, s, report, lag, id);
  }

  lemma StepStaysBlocked(c: Settings, s: State, report: Report, lag: Time, id: JobId)
    requires Good(c, s) && Blocked(s.queue, s.cursor, s.pc, id) && c.visibilityTimeout <= 0.0
    ensures var t := AgentStep(c, s, report, lag); Blocked(t.queue, t.cursor, t.pc, id)
  {
    if s.pc.PullSent? {
      LeaseTakesHead(c, s, lag);
      var (q, got) := Lease(s.queue, s.now, s.now + lag, c.visibilityTimeout);
      PullUnfolds(c, s, report, lag, q, got);
    } else if s.pc.PushSent? {
      AckKeepsHead(c, s, s.pc.todo[0].id);
    } else {
      OwnStepStaysBlocked(c, s, report, lag, id);
    }
  }

  lemma EventStaysBlocked(c: Settings, s: State, e: Event, id: JobId)
    requires Good(c, s) && Enabled(s, e) && Blocked(s.queue, s.cursor, s.pc, id) && c.visibilityTimeout <= 0.0
    ensures var t := Next(c, s, e); Blocked(t.queue, t.cursor, t.pc, id)
  {
    match e
    case Submit(_, _, _) =>
    case Tick(_) =>
    case Step(report, lag) => StepStaysBlocked(c, s, report, lag, id);
    case Lose =>
    case Crash =>
    case LatePush(item, lag) => AckKeepsHead(c, s, item.id);
    case LatePull(lag) => LeaseTakesHead(c, s, lag);
  }

  lemma {:induction false} RunStaysBlocked(c: Settings, s: State, run: seq<Event>, id: JobId)
    requires Good(c, s) && Possible(c, s, run) && Blocked(s.queue, s.cursor, s.pc, id) && c.visibilityTimeout <= 0.0
    ensures var t := After(c, s, run); Good(c, t) && Blocked(t.queue, t.cursor, t.pc, id)
  {
    if run != [] {
      var front := run[..|run| - 1];
      RunStaysBlocked(c, s, front, id);
      EventStaysBlocked(c, After(c, s, front), run[|run| - 1], id);
      EventKeepsGood(c, After(c, s, front), run[|run| - 1]);
    }
  }

  /** Without one (a timeout of 0), once an unreadable job is first no job behind it that the
      agent has neither executed nor in hand is ever executed, over any continuation. */
  lemma {:induction false} HeadBlocksOthers(c: Settings, now: Time, history: seq<Event>, more: seq<Event>, j: Job)
    requires Possible(c, Init(now), history) && Possible(c, After(c, Init(now), history), more) && c.visibilityTimeout <= 0.0
    requires var s := After(c, Init(now), history);
             && s.queue != [] && j in s.queue[1..] && !Runnable(s.queue[0])
             && !Done(s.cursor, j.id) && (HeldJob(s.pc).Some? ==> HeldJob(s.pc).value.id != j.id)
    ensures var t := After(c, After(c, Init(now), history), more);
            !Done(t.cursor, j.id) && exists i :: 0 <= i < |t.queue| && t.queue[i].id == j.id
  {
    ReachableRunner(c, now, history);
    var s := After(c, Init(now), history);
    QueuedJobs(s.hist.issued, s.hist.known, s.hist.acked, s.queue);
    RunStaysBlocked(c, s, more, j.id);
    QueuedIsOpenJob(c, s, j);
    StillOpen(c, s, more, j.id);
  }

  /** A job not executed has not left. */
  lemma {:induction false} StillOpen(c: Settings, s: State, run: seq<Event>, id: JobId)
    requires Full(c, s) && Possible(c, s, run) && id in s.hist.known && !Done(After(c, s, run).cursor, id)
    ensures var t := After(c, s, run); exists i :: 0 <= i < |t.queue| && t.queue[i].id == id
  {
    RunKeepsFull(c, s, run);
    KnownStays(c, s, run, id);
    var t := After(c, s, run);
    OpenIsQueued(t.hist.issued, t.hist.known, t.hist.acked, t.queue, id);
  }

  lemma KnownGrows(c: Settings, s: State, e: Event)
    ensures s.hist.known <= Next(c, s, e).hist.known
  {
  }

  lemma {:induction false} KnownStays(c: Settings, s: State, run: seq<Event>, id: JobId)
    requires id in s.hist.known
    ensures id in After(c, s, run).hist.known
  {
    if run != [] {
      KnownStays(c, s, run[..|run| - 1], id);
      KnownGrows(c, After(c, s, run[..|run| - 1]), run[|run| - 1]);
    }
  }
}
