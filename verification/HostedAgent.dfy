/** The pull loop of the hosted agent, as the program runs it, against the control
    plane's store, over a wire that may lose any request or response, in a world that
    submits jobs, lets time pass and delivers late messages between any two of its steps,
    and may kill it there. Every execution is a run of the step machine, so what is proved
    of runs holds of it. */
module HostedLoop {
  import opened Messages
  import opened JobQueue
  import opened ResultCache
  import opened ControlPlane
  import opened HostedState
  import P = Protocol
  import Safety = ProtocolSafety
  import Theorems = ProtocolTheorems
  import Live = ProtocolLiveness

  /** What the transport made of one request. */
  datatype Outcome = Delivered | RequestLost | ResponseLost

  /** What the agent's poll met with: the outcome of a request, whether the runner raised,
      something happening around it, its own death. */
  datatype Signal = Wire(outcome: Outcome) | Runner(raised: bool) | Meanwhile | Died

  predicate Good(s: Signal) {
    s == Wire(Delivered) || s == Runner(false)
  }

  predicate AllGood(heard: seq<Signal>) {
    heard == [] || (AllGood(heard[..|heard| - 1]) && Good(heard[|heard| - 1]))
  }

  lemma {:induction false} AllGoodMeansEach(heard: seq<Signal>)
    ensures AllGood(heard) <==> forall s :: s in heard ==> Good(s)
  {
    if heard != [] {
      AllGoodMeansEach(heard[..|heard| - 1]);
      assert heard == heard[..|heard| - 1] + [heard[|heard| - 1]];
    }
  }

  datatype PollResult = NoWork | Processed(job: Job) | Unreachable | RunnerRaised(job: Job) | Killed

  /** Something around the agent. */
  datatype Happening =
    | Submitted(kind: JobKind, payload: Payload)
    | Passes(dt: Time)
    | PushArrivesLate(item: Item, lag: Time)
    | PullArrivesLate(lag: Time)

  /** A step that is not the runner's reports nothing. */
  const NO_REPORT := Report(map[], 0)

  function AfterFlush(pull: bool): P.PC {
    if pull then P.PullSent else P.Idle
  }

  /** Where a step without effect on files or store leads. */
  function Settled(pc: P.PC): P.PC {
    match pc
    case Flush(todo, pull) => if todo == [] then AfterFlush(pull) else P.PushSent(todo, pull)
    case PushAnswered(todo, pull) => P.PushOk(todo, pull)
    case PullAnswered(reply) => if reply.None? then P.Idle else P.Received(reply.value)
    case _ => pc
  }

  /** Where a transport error leads. */
  function LostAt(pc: P.PC): P.PC {
    match pc
    case PushSent(todo, pull) => AfterFlush(pull)
    case PushAnswered(todo, pull) => AfterFlush(pull)
    case PullSent => P.Idle
    case PullAnswered(reply) => P.Idle
    case _ => pc
  }

  /** `log` goes on to `log'` by the lease of `got`, if any. */
  ghost predicate Logs(log: seq<P.Delivery>, log': seq<P.Delivery>, got: Option<Job>) {
    if got.None? then log' == log
    else log < log' && |log'| == |log| + 1 && log'[|log|].id == got.value.id
  }

  /** From its `n`-th event on the run is steps of the agent only. */
  ghost predicate OnlySteps(run: seq<P.Event>, n: nat) {
    |run| <= n || (run[|run| - 1].Step? && OnlySteps(run[..|run| - 1], n))
  }

  lemma {:induction false} OnlyStepsMeansEach(run: seq<P.Event>, n: nat)
    ensures OnlySteps(run, n) <==> forall i :: n <= i < |run| ==> run[i].Step?
  {
    if |run| > n {
      OnlyStepsMeansEach(run[..|run| - 1], n);
      assert forall i :: n <= i < |run| - 1 ==> run[..|run| - 1][i] == run[i];
    }
  }

  /** `st` is where `run` leads; the poll begun in `began` with the `begun`-th event is calm
      if since then the run is steps only, and then on schedule. */
  ghost predicate OnTrack(c: P.Settings, start: Time, run: seq<P.Event>, st: P.State, began: P.State, begun: nat, calm: bool) {
    && P.Possible(c, P.Init(start), run) && st == P.After(c, P.Init(start), run)
    && (calm <==> OnlySteps(run, begun)) && (calm && begun < |run| ==> Live.Progress(began, st))
    && begun <= |run| && (!st.pc.Idle? ==> begun < |run|)
  }

  /** Ids yet to be minted. */
  ghost predicate Unminted(known: set<JobId>, mint: JobId) {
    NO_ID < mint && forall id :: id in known ==> id < mint
  }

  /** Is the agent where it writes this stage of this job, and where does that lead? */
  ghost predicate Markable(s: P.State, job: Job, stage: Stage) {
    match stage
    case Pulled => s.pc == P.Received(job) && !AtLeast(s.cursor, job.id, Executed)
    case Executing => s.pc == P.CursorPulled(job)
    case Executed => s.pc.Ran? && s.pc.job == job
    case Acked => false
  }

  ghost function MarkedAt(pc: P.PC, job: Job, stage: Stage): P.PC {
    match stage
    case Pulled => P.CursorPulled(job)
    case Executing => P.CursorExecuting(job)
    case Executed => if pc.Ran? then P.CursorExecuted(job, pc.body) else pc
    case Acked => pc
  }

  class HostedAgent {
    const store: ControlPlaneStore
    const key: Key
    const cursor: JobCursor
    const results: ResultQueue
    var clock: Time

    /** Every result ever sent, any of which may still arrive; the next id the store mints;
        and what this poll met with. */
    var sent: set<Item>
    var mint: JobId
    var heard: seq<Signal>

    /** The run so far, from the empty state at `start`, and where it has led. */
    ghost const start: Time
    ghost var run: seq<P.Event>
    ghost var st: P.State

    /** Where the current poll began, and whether only its own steps have happened since. */
    ghost var began: P.State
    ghost var begun: nat
    ghost var calm: bool

    ghost function Settings(): P.Settings {
      P.Settings(store.visibilityTimeout, store.resultsMax, store.resultsTtl)
    }

    ghost predicate OnRun()
      reads this`run, this`st, this`began, this`begun, this`calm
    {
      OnTrack(Settings(), start, run, st, began, begun, calm)
    }

    /** The objects hold what the run says they hold. */
    ghost predicate Mirrors()
      reads this, store, cursor, results
    {
      && store.Valid()
      && clock == st.now && sent == st.wire && Unminted(st.hist.known, mint)
      && store.QueueOf(key) == st.queue && store.results == st.cache
      && cursor.stages == st.cursor && results.items == st.outbox
      && calm == AllGood(heard)
    }

    ghost predicate Valid()
      reads this, store, cursor, results
    {
      OnRun() && Mirrors()
    }

    /** The run has gone on inside the same poll. */
    twostate predicate GoesOn()
      reads this, store, cursor, results
    {
      Valid() && old(run) <= run && began == old(began) && begun == old(begun) && (calm ==> old(calm))
    }

    // ----- the run ---------------------------------------------------------

    /** The run goes on with `e`. */
    ghost method Happens(e: P.Event)
      requires OnRun() && P.Enabled(st, e) && (e.Step? ==> !st.pc.Idle?)
      modifies this`run, this`st, this`calm
      ensures OnRun() && run == old(run) + [e] && st == P.Next(Settings(), old(st), e)
      ensures calm == (old(calm) && e.Step?)
      ensures !e.Submit? ==> st.hist.known == old(st.hist.known)
    {
      TrackGoesOn(Settings(), start, run, st, began, begun, calm, e, P.Next(Settings(), st, e));
      KnownStays(Settings(), st, e);
      calm := calm && e.Step?;
      run := run + [e];
      st := P.Next(Settings(), st, e);
    }

    /** The agent, or what it talks to, does the next thing. */
    ghost method Steps(report: Report, lag: Time)
      requires OnRun() && !st.pc.Idle? && lag >= 0.0 && (st.pc.Running? ==> P.Runnable(st.pc.job))
      modifies this`run, this`st, this`calm
      ensures OnRun() && run == old(run) + [P.Step(report, lag)] && calm == old(calm)
      ensures st == P.AgentStep(Settings(), old(st), report, lag)
      ensures st.hist.known == old(st.hist.known)
    {
      Happens(P.Step(report, lag));
    }

    /** The store is about to take `item`: by the agent's push, or by one arriving late. */
    ghost method PushArrives(item: Item, lag: Time, late: bool)
      requires OnRun() && lag >= 0.0
      requires if late then item in st.wire else st.pc.PushSent? && st.pc.todo != [] && st.pc.todo[0] == item
      modifies this`run, this`st, this`calm
      ensures OnRun() && old(run) <= run && (late ==> run == old(run) + [P.LatePush(item, lag)])
      ensures calm == (old(calm) && !late)
      ensures PushTaken(Settings(), old(st), st, item, lag)
      ensures st.pc == if late then old(st.pc) else P.PushAnswered(old(st.pc).todo, old(st.pc).pull)
    {
      PushStep(Settings(), st, lag, item, late);
      Happens(if late then P.LatePush(item, lag) else P.Step(NO_REPORT, lag));
    }

    /** The store is about to grant or refuse a lease, `got`. */
    ghost method PullArrives(lag: Time, queue: seq<Job>, got: Option<Job>, late: bool)
      requires OnRun() && lag >= 0.0 && (!late ==> st.pc.PullSent?)
      requires (queue, got) == Lease(st.queue, st.now, st.now + lag, store.visibilityTimeout)
      modifies this`run, this`st, this`calm
      ensures OnRun() && old(run) <= run && (late ==> run == old(run) + [P.LatePull(lag)])
      ensures calm == (old(calm) && !late)
      ensures LeaseGiven(old(st), st, queue, got, lag)
      ensures st.pc == if late then old(st.pc) else P.PullAnswered(got)
    {
      PullStep(Settings(), st, lag, queue, got, late);
      Happens(if late then P.LatePull(lag) else P.Step(NO_REPORT, lag));
    }

    method Hear(s: Signal)
      modifies this`heard
      ensures heard == old(heard) + [s] && AllGood(heard) == (old(AllGood(heard)) && Good(s))
    {
      heard := heard + [s];
      assert heard[..|heard| - 1] == old(heard);
    }

    // ----- a process, new or after a crash ---------------------------------

    constructor (store: ControlPlaneStore, key: Key, cursor: JobCursor, results: ResultQueue, now: Time)
      requires store.Valid() && store.QueueOf(key) == [] && store.results == []
      requires cursor.stages == map[] && results.items == []
      ensures Valid() && st.pc.Idle? && run == [] && start == now
      ensures this.store == store && this.key == key && this.cursor == cursor && this.results == results
    {
      this.store, this.key, this.cursor, this.results := store, key, cursor, results;
      this.clock, this.sent, this.mint, this.heard := now, {}, NO_ID + 1, [];
      this.start, this.run, this.st := now, [], P.Init(now);
      this.began, this.begun, this.calm := P.Init(now), 0, true;
    }

    /** A new process on the files an earlier one left, wherever that was: its run goes on. */
    constructor Restart(earlier: HostedAgent)
      requires earlier.Valid()
      ensures Valid() && st.pc.Idle? && start == earlier.start && run == earlier.run + [P.Crash]
      ensures store == earlier.store && key == earlier.key && cursor == earlier.cursor && results == earlier.results
    {
      store, key, cursor, results := earlier.store, earlier.key, earlier.cursor, earlier.results;
      clock, sent, mint, heard := earlier.clock, earlier.sent, earlier.mint, earlier.heard;
      start, run, st := earlier.start, earlier.run, earlier.st;
      began, begun, calm := earlier.began, earlier.begun, earlier.calm;
      new;
      Dies();
    }

    // ----- what happens around it ------------------------------------------

    /** Only the files survive. */
    method Dies()
      requires Valid()
      modifies this
      ensures GoesOn() && run == old(run) + [P.Crash]
      ensures st.pc.Idle? && !calm
    {
      Happens(P.Crash);
      Hear(Died);
    }

    /** An admin enqueues a job under a minted id. */
    method Submit(kind: JobKind, payload: Payload)
      requires Valid()
      modifies this, store
      ensures GoesOn() && run == old(run) + [P.Submit(old(mint), kind, payload)]
      ensures st.pc == old(st.pc) && !calm
      ensures store.QueueOf(key) == old(store.QueueOf(key)) + [NewJob(old(mint), kind, payload, clock)]
    {
      var job := store.Enqueue(key, kind, payload, NO_ID, mint, clock);
      Happens(P.Submit(mint, kind, payload));
      mint := mint + 1;
      Hear(Meanwhile);
    }

    method Tick(dt: Time)
      requires Valid() && dt >= 0.0
      modifies this
      ensures GoesOn() && run == old(run) + [P.Tick(dt)]
      ensures st.pc == old(st.pc) && !calm && clock == old(clock) + dt
    {
      clock := clock + dt;
      Happens(P.Tick(dt));
      Hear(Meanwhile);
    }

    /** A push arrives that the agent gave up on, or arrives again. */
    method LatePush(item: Item, lag: Time)
      requires Valid() && item in sent && lag >= 0.0
      modifies this, store
      ensures GoesOn() && run == old(run) + [P.LatePush(item, lag)]
      ensures st.pc == old(st.pc) && !calm
      ensures store.QueueOf(key) == RemoveJob(old(store.QueueOf(key)), item.id)
    {
      ReachAck(item, lag, true);
      Hear(Meanwhile);
    }

    /** A request for work arrives that the agent gave up on. */
    method LatePull(lag: Time)
      requires Valid() && lag >= 0.0
      modifies this, store
      ensures GoesOn() && run == old(run) + [P.LatePull(lag)]
      ensures st.pc == old(st.pc) && !calm
    {
      var got := ReachLease(lag, true);
      Hear(Meanwhile);
    }

    method Befalls(h: Happening)
      requires Valid()
      modifies this, store
      ensures GoesOn() && st.pc == old(st.pc)
      ensures calm ==> st == old(st)
    {
      match h {
        case Submitted(kind, payload) => Submit(kind, payload);
        case Passes(dt) => if dt >= 0.0 { Tick(dt); }
        case PushArrivesLate(item, lag) => if item in sent && lag >= 0.0 { LatePush(item, lag); }
        case PullArrivesLate(lag) => if lag >= 0.0 { LatePull(lag); }
      }
    }

    /** Before the agent's next step anything may happen around it, and it may die. */
    method Around() returns (alive: bool)
      requires Valid()
      modifies this, store
      ensures GoesOn() && (calm ==> alive && st == old(st))
      ensures st.pc == if alive then old(st.pc) else P.Idle
    {
      var n: nat :| true;
      for i := 0 to n
        invariant GoesOn() && st.pc == old(st.pc) && (calm ==> st == old(st))
      {
        var h: Happening := *;
        Befalls(h);
      }
      alive := *;
      if !alive {
        Dies();
      }
    }

    // ----- the server's two operations -------------------------------------

    method AckAtStore(item: Item, lag: Time)
      requires store.Valid() && lag >= 0.0
      modifies this`clock, store
      ensures store.Valid() && clock == old(clock) + lag
      ensures store.QueueOf(key) == RemoveJob(old(store.QueueOf(key)), item.id)
      ensures store.results == Prune(Record(old(store.results), Entry(item.id, item.body, old(clock))), clock,
                                     store.resultsTtl, store.resultsMax)
    {
      var removed := store.Ack(key, item.id, Some(item.body), clock, clock + lag);
      clock := clock + lag;
    }

    method LeaseAtStore(lag: Time, ghost queue: seq<Job>, ghost now: Time) returns (got: Option<Job>)
      requires store.Valid() && lag >= 0.0 && store.QueueOf(key) == queue && clock == now
      modifies this`clock, store
      ensures store.Valid() && clock == old(clock) + lag
      ensures (store.QueueOf(key), got) == Lease(queue, now, now + lag, store.visibilityTimeout)
      ensures store.results == old(store.results)
    {
      got := store.LeaseNext(key, clock, clock + lag);
      clock := clock + lag;
    }

    /** The store as the run has it. */
    ghost predicate StoreMirrors()
      reads this`clock, this`st, store
    {
      store.Valid() && clock == st.now && store.QueueOf(key) == st.queue && store.results == st.cache
    }

    /** A push reaches the store. */
    method ReachAck(item: Item, lag: Time, ghost late: bool)
      requires OnRun() && StoreMirrors() && lag >= 0.0
      requires if late then item in st.wire else st.pc.PushSent? && st.pc.todo != [] && st.pc.todo[0] == item
      modifies this`run, this`st, this`calm, this`clock, store
      ensures OnRun() && StoreMirrors() && old(run) <= run && (late ==> run == old(run) + [P.LatePush(item, lag)])
      ensures calm == (old(calm) && !late) && Beside(old(st), st) && st.hist.log == old(st.hist.log)
      ensures st.queue == RemoveJob(old(st.queue), item.id)
      ensures st.pc == if late then old(st.pc) else P.PushAnswered(old(st.pc).todo, old(st.pc).pull)
    {
      PushArrives(item, lag, late);
      AckAtStore(item, lag);
    }

    /** A request for work reaches the store. */
    method ReachLease(lag: Time, ghost late: bool) returns (got: Option<Job>)
      requires OnRun() && StoreMirrors() && lag >= 0.0 && (!late ==> st.pc.PullSent?)
      modifies this`run, this`st, this`calm, this`clock, store
      ensures OnRun() && StoreMirrors() && old(run) <= run && (late ==> run == old(run) + [P.LatePull(lag)])
      ensures calm == (old(calm) && !late) && Beside(old(st), st) && Logs(old(st.hist.log), st.hist.log, got)
      ensures st.pc == if late then old(st.pc) else P.PullAnswered(got)
    {
      got := LeaseAtStore(lag, st.queue, st.now);
      PullArrives(lag, store.QueueOf(key), got, late);
    }

    // ----- pushing ---------------------------------------------------------

    /** The agent's next step touches neither a file nor the store, nor is it a request. */
    method Moves()
      requires Valid() && (st.pc.PushAnswered? || st.pc.PullAnswered? || (st.pc.Flush? && st.pc.todo == []))
      modifies this
      ensures GoesOn() && st.pc == Settled(old(st.pc))
      ensures calm == old(calm) && st.hist.log == old(st.hist.log)
    {
      Steps(NO_REPORT, 0.0);
    }

    method IsLost(outcome: Outcome)
      requires Valid() && P.Enabled(st, P.Lose) && !outcome.Delivered?
      modifies this
      ensures GoesOn() && !calm && st.pc == LostAt(old(st.pc))
    {
      Happens(P.Lose);
      Hear(Wire(outcome));
    }

    /** The response comes, or not. */
    method Reads(outcome: Outcome)
      requires Valid() && (st.pc.PushAnswered? || st.pc.PullAnswered?) && !outcome.RequestLost?
      modifies this
      ensures GoesOn() && (calm ==> outcome.Delivered? && st.hist.log == old(st.hist.log))
      ensures st.pc == if outcome.Delivered? then Settled(old(st.pc)) else LostAt(old(st.pc))
    {
      if outcome.ResponseLost? {
        IsLost(outcome);
      } else {
        Moves();
        Hear(Wire(outcome));
      }
    }

    method SendPush(item: Item)
      requires Valid() && st.pc.Flush? && st.pc.todo != [] && st.pc.todo[0] == item
      modifies this
      ensures GoesOn() && st.pc == P.PushSent(old(st.pc).todo, old(st.pc).pull)
      ensures calm == old(calm) && st.hist.log == old(st.hist.log)
    {
      Steps(NO_REPORT, 0.0);
      sent := sent + {item};
    }

    /** The store handles the push. */
    method ServePush(item: Item)
      requires Valid() && st.pc.PushSent? && st.pc.todo != [] && st.pc.todo[0] == item
      modifies this, store
      ensures GoesOn() && st.pc == P.PushAnswered(old(st.pc).todo, old(st.pc).pull)
      ensures calm == old(calm) && st.hist.log == old(st.hist.log)
    {
      var lag :| lag >= 0.0;
      ReachAck(item, lag, false);
    }

    /** The request of a push, on the wire. */
    method Request(item: Item) returns (alive: bool)
      requires Valid() && st.pc.Flush? && st.pc.todo != [] && st.pc.todo[0] == item
      modifies this, store
      ensures GoesOn() && (calm ==> alive && st.hist.log == old(st.hist.log))
      ensures st.pc == if alive then P.PushSent(old(st.pc).todo, old(st.pc).pull) else P.Idle
    {
      alive := Around();
      if alive {
        SendPush(item);
        alive := Around();
      }
    }

    /** Its response, if it got through. */
    method Response(item: Item, outcome: Outcome) returns (alive: bool)
      requires Valid() && st.pc.PushSent? && st.pc.todo != [] && st.pc.todo[0] == item && !outcome.RequestLost?
      modifies this, store
      ensures GoesOn() && (calm ==> alive && outcome.Delivered? && st.hist.log == old(st.hist.log))
      ensures st.pc == var (todo, pull) := (old(st.pc).todo, old(st.pc).pull);
                       if !alive then P.Idle else if outcome.Delivered? then P.PushOk(todo, pull) else AfterFlush(pull)
    {
      ServePush(item);
      alive := Around();
      if alive {
        Reads(outcome);
      }
    }

    /** POST one queued result; a 200 or not. */
    method Push(item: Item) returns (alive: bool, ok: bool)
      requires Valid() && st.pc.Flush? && st.pc.todo != [] && st.pc.todo[0] == item
      modifies this, store
      ensures GoesOn() && (calm ==> alive && ok && st.hist.log == old(st.hist.log))
      ensures st.pc == var (todo, pull) := (old(st.pc).todo, old(st.pc).pull);
                       if !alive then P.Idle else if ok then P.PushOk(todo, pull) else AfterFlush(pull)
    {
      ok := false;
      alive := Request(item);
      if !alive {
        return;
      }
      var outcome: Outcome := *;
      if outcome.RequestLost? {
        IsLost(outcome);
        return;
      }
      alive := Response(item, outcome);
      ok := outcome.Delivered?;
    }

    /** A 200 was read: the result leaves the queue and its job is marked. */
    method MarkPushed(item: Item) returns (alive: bool)
      requires Valid() && st.pc.PushOk? && st.pc.todo != [] && st.pc.todo[0] == item
      modifies this, store, results, cursor
      ensures GoesOn() && (calm ==> alive && st.hist.log == old(st.hist.log))
      ensures st.pc == if alive then P.Flush(old(st.pc).todo[1..], old(st.pc).pull) else P.Idle
    {
      alive := Around();
      if !alive {
        return;
      }
      Unqueue(item);
      alive := Around();
      if !alive {
        return;
      }
      MarkAcked(item);
    }

    method Unqueue(item: Item)
      requires Valid() && st.pc.PushOk? && st.pc.todo != [] && st.pc.todo[0] == item
      modifies this, results
      ensures GoesOn() && calm == old(calm) && st.hist.log == old(st.hist.log)
      ensures st.pc == P.Unqueued(old(st.pc).todo, old(st.pc).pull)
    {
      results.Remove(item.id);
      Steps(NO_REPORT, 0.0);
    }

    method MarkAcked(item: Item)
      requires Valid() && st.pc.Unqueued? && st.pc.todo != [] && st.pc.todo[0] == item
      modifies this, cursor
      ensures GoesOn() && calm == old(calm) && st.hist.log == old(st.hist.log)
      ensures st.pc == P.Flush(old(st.pc).todo[1..], old(st.pc).pull)
    {
      cursor.AdvanceTo(item.id, Stage.Acked);
      Steps(NO_REPORT, 0.0);
    }

    /** Pushes what is queued, oldest first, until a push fails. */
    method FlushResults(ghost pull: bool) returns (alive: bool, flushed: nat)
      requires Valid() && st.pc == P.Flush(results.items, pull)
      modifies this, store, results, cursor
      ensures GoesOn() && st.pc == if alive then AfterFlush(pull) else P.Idle
      ensures flushed <= |old(results.items)|
      ensures calm ==> alive && flushed == |old(results.items)| && st.hist.log == old(st.hist.log)
    {
      alive, flushed := true, 0;
      var items := results.items;
      assert items[0..] == items;
      for i := 0 to |items|
        invariant GoesOn() && flushed == i && st.pc == P.Flush(items[i..], pull)
        invariant calm ==> st.hist.log == old(st.hist.log)
      {
        var ok;
        alive, ok := PushOne(items[i]);
        if !ok {
          return;
        }
        flushed := flushed + 1;
      }
      alive := Around();
      if alive {
        Moves();
      }
    }

    /** One queued result: pushed, and on a 200 dropped and marked. */
    method PushOne(item: Item) returns (alive: bool, ok: bool)
      requires Valid() && st.pc.Flush? && st.pc.todo != [] && st.pc.todo[0] == item
      modifies this, store, results, cursor
      ensures GoesOn() && (ok ==> alive) && (calm ==> ok && st.hist.log == old(st.hist.log))
      ensures st.pc == var (todo, pull) := (old(st.pc).todo, old(st.pc).pull);
                       if !alive then P.Idle else if ok then P.Flush(todo[1..], pull) else AfterFlush(pull)
    {
      alive, ok := Push(item);
      if alive && ok {
        alive := MarkPushed(item);
      }
      ok := ok && alive;
    }

    // ----- pulling ---------------------------------------------------------

    /** The store handles the request for work. */
    method ServePull() returns (got: Option<Job>)
      requires Valid() && st.pc.PullSent?
      modifies this, store
      ensures GoesOn() && st.pc == P.PullAnswered(got)
      ensures calm == old(calm) && Logs(old(st.hist.log), st.hist.log, got)
    {
      var lag :| lag >= 0.0;
      got := ReachLease(lag, false);
    }

    /** GET one job; the outer None is a transport error. */
    method Pull() returns (alive: bool, reply: Option<Option<Job>>)
      requires Valid() && st.pc.PullSent?
      modifies this, store
      ensures GoesOn()
      ensures st.pc == if !alive || reply == None || reply == Some(None) then P.Idle else P.Received(reply.value.value)
      ensures calm ==> alive && reply.Some? && Logs(old(st.hist.log), st.hist.log, reply.value)
    {
      reply := None;
      alive := Around();
      if !alive {
        return;
      }
      var outcome: Outcome := *;
      if outcome.RequestLost? {
        IsLost(outcome);
        return;
      }
      alive, reply := Answer(outcome);
    }

    method Answer(outcome: Outcome) returns (alive: bool, reply: Option<Option<Job>>)
      requires Valid() && st.pc.PullSent? && !outcome.RequestLost?
      modifies this, store
      ensures GoesOn()
      ensures st.pc == if !alive || reply == None || reply == Some(None) then P.Idle else P.Received(reply.value.value)
      ensures calm ==> alive && reply.Some? && Logs(old(st.hist.log), st.hist.log, reply.value)
    {
      reply := None;
      var got := ServePull();
      alive := Around();
      if !alive {
        return;
      }
      Reads(outcome);
      reply := if outcome.Delivered? then Some(got) else None;
    }

    // ----- executing -------------------------------------------------------

    /** One more cursor write of the job being run. */
    method Mark(job: Job, stage: Stage) returns (alive: bool)
      requires Valid() && Markable(st, job, stage)
      modifies this, store, cursor
      ensures GoesOn() && (calm ==> alive && st.hist.log == old(st.hist.log))
      ensures st.pc == if alive then MarkedAt(old(st.pc), job, stage) else P.Idle
    {
      alive := Around();
      if alive {
        WriteStage(job, stage);
      }
    }

    method WriteStage(job: Job, stage: Stage)
      requires Valid() && Markable(st, job, stage)
      modifies this, cursor
      ensures GoesOn() && calm == old(calm) && st.hist.log == old(st.hist.log)
      ensures st.pc == MarkedAt(old(st.pc), job, stage)
    {
      Marks(job, stage);
      cursor.AdvanceTo(job.id, stage);
    }

    ghost method Marks(job: Job, stage: Stage)
      requires OnRun() && Markable(st, job, stage)
      modifies this`run, this`st, this`calm
      ensures OnRun() && old(run) <= run && calm == old(calm)
      ensures st == old(st).(pc := MarkedAt(old(st.pc), job, stage), cursor := Advance(old(st.cursor), job.id, stage))
    {
      MarkStep(Settings(), st, job, stage);
      Steps(NO_REPORT, 0.0);
    }

    method StartJob(job: Job) returns (alive: bool)
      requires Valid() && st.pc == P.Received(job) && !AtLeast(st.cursor, job.id, Executed)
      modifies this, store, cursor
      ensures GoesOn() && (calm ==> alive && st.hist.log == old(st.hist.log))
      ensures st.pc == if alive then P.CursorExecuting(job) else P.Idle
    {
      alive := Mark(job, Pulled);
      if alive {
        alive := Mark(job, Executing);
      }
    }

    method EntersRunner(job: Job) returns (alive: bool)
      requires Valid() && st.pc == P.CursorExecuting(job)
      modifies this, store
      ensures GoesOn() && (calm ==> alive && st.hist.log == old(st.hist.log))
      ensures st.pc == if alive then P.Running(job) else P.Idle
    {
      alive := Around();
      if alive {
        Steps(NO_REPORT, 0.0);
        alive := Around();
      }
    }

    /** The engine runs the job: `engine` is its report, None if it raises, which it does anyway
        if it cannot read the job. The body holds that report and the job's own id and kind. */
    method RunJob(job: Job, engine: Option<Report>) returns (alive: bool, body: Option<Body>)
      requires Valid() && st.pc == P.CursorExecuting(job)
      modifies this, store
      ensures GoesOn() && (body.Some? ==> P.Runnable(job)) && (calm ==> alive && body.Some? && st.hist.log == old(st.hist.log))
      ensures st.pc == if alive && body.Some? then P.Ran(job, body.value) else P.Idle
      ensures body.Some? ==> engine.Some? && body.value == Completed(job.id, job.kind, engine.value)
      ensures alive && body.None? ==> engine.None? || !P.Runnable(job)
    {
      body := None;
      alive := EntersRunner(job);
      if !alive {
        return;
      }
      if engine.None? || !P.Runnable(job) {
        Raises();
      } else {
        body := Returns(job, engine.value);
      }
    }

    method Raises()
      requires Valid()
      modifies this
      ensures GoesOn() && st.pc.Idle? && !calm
    {
      Happens(P.Crash);
      Hear(Runner(true));
    }

    method Returns(job: Job, report: Report) returns (body: Option<Body>)
      requires Valid() && st.pc == P.Running(job) && P.Runnable(job)
      modifies this
      ensures GoesOn() && calm == old(calm) && st.hist.log == old(st.hist.log)
      ensures body == Some(Completed(job.id, job.kind, report)) && st.pc == P.Ran(job, body.value)
    {
      Steps(report, 0.0);
      Hear(Runner(false));
      body := Some(Completed(job.id, job.kind, report));
    }

    /** The finished job's result becomes durable. */
    method QueueResult(job: Job, body: Body) returns (alive: bool)
      requires Valid() && st.pc == P.CursorExecuted(job, body)
      modifies this, store, results
      ensures GoesOn() && (calm ==> alive && st.hist.log == old(st.hist.log))
      ensures st.pc == if alive then P.Flush(results.items, false) else P.Idle
      ensures alive ==> Item(job.id, body) in results.items
    {
      alive := Around();
      if alive {
        results.Put(job.id, body);
        Steps(NO_REPORT, 0.0);
      }
    }

    method FinishJob(job: Job, body: Body) returns (alive: bool)
      requires Valid() && st.pc == P.Ran(job, body)
      modifies this, store, results, cursor
      ensures GoesOn() && (calm ==> alive && st.hist.log == old(st.hist.log))
      ensures st.pc == if alive then P.Flush(results.items, false) else P.Idle
      ensures alive ==> Item(job.id, body) in results.items
    {
      alive := Mark(job, Executed);
      if alive {
        alive := QueueResult(job, body);
      }
    }

    /** A redelivered job that was executed before is not run again: it gets the placeholder,
        unless its result is queued or was acknowledged. */
    method Deduplicate(job: Job) returns (alive: bool)
      requires Valid() && st.pc == P.Received(job) && AtLeast(st.cursor, job.id, Executed)
      modifies this, store, results
      ensures GoesOn() && (calm ==> alive && st.hist.log == old(st.hist.log))
      ensures st.pc == if alive then P.Flush(results.items, false) else P.Idle
      ensures results.items == if alive && job.id !in Held(old(results.items)) && !AtLeast(cursor.stages, job.id, Stage.Acked)
                               then Enqueue(old(results.items), Item(job.id, AlreadyDone(job.id, job.kind)))
                               else old(results.items)
    {
      alive := Around();
      if alive {
        QueuePlaceholder(job);
      }
    }

    method QueuePlaceholder(job: Job)
      requires Valid() && st.pc == P.Received(job) && AtLeast(st.cursor, job.id, Executed)
      modifies this, results
      ensures GoesOn() && calm == old(calm) && st.hist.log == old(st.hist.log)
      ensures st.pc == P.Flush(results.items, false)
      ensures results.items == if job.id !in Held(old(results.items)) && !AtLeast(cursor.stages, job.id, Stage.Acked)
                               then Enqueue(old(results.items), Item(job.id, AlreadyDone(job.id, job.kind)))
                               else old(results.items)
    {
      Redelivers(job);
      var queued := results.Contains(job.id);
      var acked := cursor.IsAtLeast(job.id, Stage.Acked);
      if !queued && !acked {
        results.Put(job.id, AlreadyDone(job.id, job.kind));
      }
    }

    ghost method Redelivers(job: Job)
      requires OnRun() && st.pc == P.Received(job) && AtLeast(st.cursor, job.id, Executed)
      modifies this`run, this`st, this`calm
      ensures OnRun() && old(run) <= run && calm == old(calm)
      ensures Placed(old(st), st, job)
    {
      PlaceholderStep(Settings(), st, job);
      Steps(NO_REPORT, 0.0);
    }

    /** Runs a job that is not recorded as executed, up to its queued result. */
    method Execute(job: Job, engine: Option<Report>) returns (alive: bool, raised: bool)
      requires Valid() && st.pc == P.Received(job) && !AtLeast(st.cursor, job.id, Executed)
      modifies this, store, results, cursor
      ensures GoesOn() && (calm ==> alive && !raised && st.hist.log == old(st.hist.log))
      ensures st.pc == if alive && !raised then P.Flush(results.items, false) else P.Idle
      ensures alive && !raised ==> engine.Some? && Item(job.id, Completed(job.id, job.kind, engine.value)) in results.items
      ensures raised ==> engine.None? || !P.Runnable(job)
    {
      raised := false;
      alive := StartJob(job);
      if !alive {
        return;
      }
      var body;
      alive, body := RunJob(job, engine);
      if !alive {
        return;
      }
      if body.None? {
        return true, true;
      }
      alive := FinishJob(job, body.value);
    }

    method ExecuteAndPush(job: Job, engine: Option<Report>) returns (alive: bool, raised: bool)
      requires Valid() && st.pc == P.Received(job)
      modifies this, store, results, cursor
      ensures GoesOn() && st.pc.Idle? && (calm ==> alive && !raised && st.hist.log == old(st.hist.log))
      ensures raised ==> engine.None? || !P.Runnable(job)
    {
      raised := false;
      var done := cursor.IsAtLeast(job.id, Executed);
      if done {
        alive := Deduplicate(job);
      } else {
        alive, raised := Execute(job, engine);
      }
      if alive && !raised {
        var flushed;
        alive, flushed := FlushResults(false);
      }
    }

    /** A poll begins: the flush of everything queued comes first. */
    method PollBegins()
      requires Valid() && st.pc.Idle?
      modifies this
      ensures Valid() && old(run) < run && calm && heard == [] && began == old(st) && begun == |old(run)|
      ensures st.pc == P.Flush(results.items, true) && st.hist.log == old(st.hist.log)
    {
      heard := [];
      BeginsAt();
    }

    ghost method BeginsAt()
      requires OnRun() && st.pc.Idle?
      modifies this`run, this`st, this`calm, this`began, this`begun
      ensures OnRun() && run == old(run) + [P.Step(NO_REPORT, 0.0)] && calm && began == old(st) && begun == |old(run)|
      ensures st == old(st).(pc := P.Flush(old(st.outbox), true))
    {
      Live.PollStarts(Settings(), st, NO_REPORT, 0.0);
      began, begun, calm := st, |run|, true;
      run := run + [P.Step(NO_REPORT, 0.0)];
      assert run[..|run| - 1] == old(run);
      st := P.Next(Settings(), st, P.Step(NO_REPORT, 0.0));
    }

    method PullAndExecute(engine: Option<Report>) returns (r: PollResult)
      requires Valid() && st.pc.PullSent?
      modifies this, store, results, cursor
      ensures GoesOn() && st.pc.Idle? && (calm ==> r.NoWork? || r.Processed?)
      ensures r.RunnerRaised? ==> engine.None? || !P.Runnable(r.job)
      ensures calm ==> Logs(old(st.hist.log), st.hist.log, if r.Processed? then Some(r.job) else None)
    {
      var alive, reply := Pull();
      if !alive {
        return Killed;
      }
      match reply {
        case None => r := Unreachable;
        case Some(None) => r := NoWork;
        case Some(Some(job)) =>
          var raised;
          alive, raised := ExecuteAndPush(job, engine);
          r := if !alive then Killed else if raised then RunnerRaised(job) else Processed(job);
      }
    }

    /** One poll: flush, pull one job, execute it, push its result. Whatever the world around
        it, the wire and the runner do, the poll is a continuation of the run. It is calm, which
        means that it is nothing but the agent's own steps, exactly if nothing happened around
        it, every request was delivered and answered, and the runner did not raise; and then it
        leaves nothing to push, and the server queue has lost exactly the jobs whose results
        were queued and the job pulled. `engine` is what the engine comes to if it is called. */
    method PollOnce(engine: Option<Report>) returns (r: PollResult)
      requires Valid() && st.pc.Idle?
      modifies this, store, results, cursor
      ensures Valid() && old(run) < run && st.pc.Idle?
      ensures r.RunnerRaised? ==> engine.None? || !P.Runnable(r.job)
      ensures calm <==> forall s :: s in heard ==> Good(s)
      ensures calm <==> forall i :: |old(run)| <= i < |run| ==> run[i].Step?
      ensures calm ==>
                && (r.NoWork? || r.Processed?) && results.items == []
                && Ids(store.QueueOf(key)) ==
                   Without(Ids(old(store.QueueOf(key))),
                           Held(old(results.items)) + if r.Processed? then {r.job.id} else {})
    {
      PollBegins();
      var alive, flushed := FlushResults(true);
      r := Killed;
      if alive {
        r := PullAndExecute(engine);
      }
      AllGoodMeansEach(heard);
      OnlyStepsMeansEach(run, |old(run)|);
      if calm {
        CalmPoll(Settings(), start, old(run), old(st), run, st, if r.Processed? then Some(r.job) else None);
      }
    }

    /** What is proved of runs, of this agent: at any moment, mid-poll or after a crash, every
        job ever submitted is on the server or was executed, no job the cursor has as
        acknowledged is still on the server, and every queued result is of an executed job. */
    lemma LosesNothing()
      requires Valid()
      ensures Ids(store.QueueOf(key)) == Without(st.hist.issued, st.hist.acked)
      ensures forall id :: id in st.hist.issued ==> id in Ids(store.QueueOf(key)) || AtLeast(cursor.stages, id, Executed)
      ensures forall j :: j in store.QueueOf(key) ==> !AtLeast(cursor.stages, j.id, Stage.Acked)
      ensures forall x :: x in results.items ==> AtLeast(cursor.stages, x.id, Executed)
    {
      Theorems.NoJobLost(Settings(), start, run);
      IdsAt(st.queue);
    }
  }

  lemma {:induction false} CalmPoll(c: P.Settings, start: Time, before: seq<P.Event>, s: P.State,
                 run: seq<P.Event>, t: P.State, got: Option<Job>)
    requires P.Possible(c, P.Init(start), before) && s == P.After(c, P.Init(start), before)
    requires P.Possible(c, P.Init(start), run) && t == P.After(c, P.Init(start), run)
    requires Live.Progress(s, t) && t.pc.Idle? && Logs(s.hist.log, t.hist.log, got)
    ensures t.outbox == []
    ensures Ids(t.queue) == Without(Ids(s.queue), Held(s.outbox) + if got.Some? then {got.value.id} else {})
  {
    Safety.ReachableIsFull(c, start, before);
    Safety.ReachableIsFull(c, start, run);
    Live.CompletedPoll(c, s, t);
  }

  lemma {:induction false} TrackGoesOn(c: P.Settings, start: Time, run: seq<P.Event>, st: P.State, began: P.State, begun: nat, calm: bool,
                                       e: P.Event, next: P.State)
    requires OnTrack(c, start, run, st, began, begun, calm) && P.Enabled(st, e) && (e.Step? ==> !st.pc.Idle?)
    requires next == P.Next(c, st, e)
    ensures OnTrack(c, start, run + [e], next, began, begun, calm && e.Step?)
  {
    assert (run + [e])[..|run|] == run;
    StepKeepsSchedule(c, start, run, st, began, calm && e.Step? && begun < |run|, e, next);
    RestKeeps(st, e, next, c);
  }

  lemma RestKeeps(s: P.State, e: P.Event, t: P.State, c: P.Settings)
    requires t == P.Next(c, s, e) && (e.Step? ==> !s.pc.Idle?)
    ensures s.pc.Idle? ==> t.pc.Idle?
  {
  }

  lemma {:induction false} StepKeepsSchedule(c: P.Settings, start: Time, run: seq<P.Event>, s: P.State, began: P.State, calm: bool,
                                             e: P.Event, t: P.State)
    requires P.Possible(c, P.Init(start), run) && s == P.After(c, P.Init(start), run)
    requires calm ==> Live.Progress(began, s) && e.Step? && e.lag >= 0.0 && !s.pc.Idle?
    requires t == P.Next(c, s, e)
    ensures calm ==> Live.Progress(began, t)
  {
    if calm {
      Safety.ReachableIsFull(c, start, run);
      Live.StepProgress(c, began, s, e.report, e.lag);
    }
  }

  lemma KnownStays(c: P.Settings, s: P.State, e: P.Event)
    ensures !e.Submit? ==> P.Next(c, s, e).hist.known == s.hist.known
  {
  }

  /** What the store's work leaves alone. */
  ghost predicate Beside(s: P.State, t: P.State) {
    t.cursor == s.cursor && t.outbox == s.outbox && t.wire == s.wire && t.hist.known == s.hist.known
  }

  /** What an arriving push makes of the state, apart from where the agent stands. */
  ghost predicate PushTaken(c: P.Settings, s: P.State, t: P.State, item: Item, lag: Time) {
    && t.now == s.now + lag && t.queue == RemoveJob(s.queue, item.id)
    && t.cache == Prune(Record(s.cache, Entry(item.id, item.body, s.now)), s.now + lag, c.resultsTtl, c.resultsMax)
    && Beside(s, t) && t.hist.log == s.hist.log
  }

  lemma PushStep(c: P.Settings, s: P.State, lag: Time, item: Item, late: bool)
    requires if late then item in s.wire else s.pc.PushSent? && s.pc.todo != [] && s.pc.todo[0] == item
    ensures var t := P.Next(c, s, if late then P.LatePush(item, lag) else P.Step(NO_REPORT, lag));
            && PushTaken(c, s, t, item, lag)
            && t.pc == if late then s.pc else P.PushAnswered(s.pc.todo, s.pc.pull)
  {
  }

  /** The same for an arriving request for work that is answered with `got`. */
  ghost predicate LeaseGiven(s: P.State, t: P.State, queue: seq<Job>, got: Option<Job>, lag: Time) {
    t.now == s.now + lag && t.queue == queue && t.cache == s.cache && Beside(s, t) && Logs(s.hist.log, t.hist.log, got)
  }

  lemma PullStep(c: P.Settings, s: P.State, lag: Time, queue: seq<Job>, got: Option<Job>, late: bool)
    requires (queue, got) == Lease(s.queue, s.now, s.now + lag, c.visibilityTimeout) && (!late ==> s.pc.PullSent?)
    ensures var t := P.Next(c, s, if late then P.LatePull(lag) else P.Step(NO_REPORT, lag));
            && LeaseGiven(s, t, queue, got, lag) && t.pc == if late then s.pc else P.PullAnswered(got)
  {
  }

  lemma MarkStep(c: P.Settings, s: P.State, job: Job, stage: Stage)
    requires Markable(s, job, stage)
    ensures P.AgentStep(c, s, NO_REPORT, 0.0)
            == s.(pc := MarkedAt(s.pc, job, stage), cursor := Advance(s.cursor, job.id, stage))
  {
  }

  /** What a redelivered, executed job comes to: its placeholder queued, if need be, and a
      flush begun. */
  ghost predicate Placed(s: P.State, t: P.State, job: Job) {
    && t.outbox == (if job.id !in Held(s.outbox) && !AtLeast(s.cursor, job.id, Stage.Acked)
                    then Enqueue(s.outbox, Item(job.id, AlreadyDone(job.id, job.kind))) else s.outbox)
    && t.pc == P.Flush(t.outbox, false)
    && t.now == s.now && t.queue == s.queue && t.cache == s.cache && t.cursor == s.cursor && t.wire == s.wire
    && t.hist.log == s.hist.log && t.hist.known == s.hist.known
  }

  lemma PlaceholderStep(c: P.Settings, s: P.State, job: Job)
    requires s.pc == P.Received(job) && AtLeast(s.cursor, job.id, Executed)
    ensures Placed(s, P.AgentStep(c, s, NO_REPORT, 0.0), job)
  {
  }
}
