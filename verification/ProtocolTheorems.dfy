/** The promises of the hosted job protocol, for every run from the empty state. */
module ProtocolTheorems {
  import opened Messages
  import opened JobQueue
  import opened ResultCache
  import opened Protocol
  import opened AgentInvariant
  import opened ServerInvariant
  import opened ProtocolSafety
  import HS = HostedState

  /** An issued job is still queued, or its result arrived and so it was executed. */
  lemma QueuedOrExecuted(c: Settings, s: State, id: JobId)
    requires Full(c, s) && id in s.hist.issued
    ensures (exists i :: 0 <= i < |s.queue| && s.queue[i].id == id) || HS.AtLeast(s.cursor, id, HS.Executed)
  {
    if id in s.hist.acked {
      assert id in s.hist.body;
    } else {
      OpenIsQueued(s.hist.issued, s.hist.known, s.hist.acked, s.queue, id);
    }
  }

  lemma QueuedIsNotAcked(c: Settings, s: State)
    requires Full(c, s)
    ensures forall i :: 0 <= i < |s.queue| ==> !HS.AtLeast(s.cursor, s.queue[i].id, HS.Acked)
  {
    QueuedIsOpen(s.hist.issued, s.hist.known, s.hist.acked, s.queue);
  }

  lemma QueuedResultsAreExecuted(c: Settings, s: State)
    requires Full(c, s)
    ensures forall x :: x in s.outbox ==> HS.AtLeast(s.cursor, x.id, HS.Executed)
  {
    forall x | x in s.outbox
      ensures Done(s.cursor, x.id)
    {
      assert Canonical(s.hist.body, x);
    }
  }

  /** No job is lost, and none is acknowledged unexecuted: the server queue is
      always exactly the enqueue order minus the acknowledged jobs, every job that
      left it was executed, a cursor at 'acked' means the job has left it, and
      every queued result is of an executed job. */
  lemma {:induction false} NoJobLost(c: Settings, now: Time, run: seq<Event>)
    requires Possible(c, Init(now), run)
    ensures var s := After(c, Init(now), run);
            && Ids(s.queue) == Without(s.hist.issued, s.hist.acked)
            && (forall id :: id in s.hist.issued ==>
                  (exists i :: 0 <= i < |s.queue| && s.queue[i].id == id) || HS.AtLeast(s.cursor, id, HS.Executed))
            && (forall i :: 0 <= i < |s.queue| ==> !HS.AtLeast(s.cursor, s.queue[i].id, HS.Acked))
            && (forall x :: x in s.outbox ==> HS.AtLeast(s.cursor, x.id, HS.Executed))
  {
    ReachableIsFull(c, now, run);
    var s := After(c, Init(now), run);
    QueuedIsNotAcked(c, s);
    QueuedResultsAreExecuted(c, s);
    forall id | id in s.hist.issued
      ensures (exists i :: 0 <= i < |s.queue| && s.queue[i].id == id) || HS.AtLeast(s.cursor, id, HS.Executed)
    {
      QueuedOrExecuted(c, s, id);
    }
  }

  /** Every push ever sent for a job carries the same body, the server's cache holds
      that body or none, and the body is the 'already_done' placeholder exactly for
      the jobs whose real result a crash destroyed between the 'executed' write and
      the write that queues it. */
  lemma {:induction false} OneBodyPerJob(c: Settings, now: Time, run: seq<Event>)
    requires Possible(c, Init(now), run)
    ensures var s := After(c, Init(now), run);
            && (forall x, y :: x in s.hist.pushed && y in s.hist.pushed && x.id == y.id ==> x == y)
            && (forall x, e :: x in s.hist.pushed && e in s.cache && e.id == x.id ==> e.body == x.body)
            && (forall x :: x in s.hist.pushed ==> (x.body.AlreadyDone? <==> x.id in s.hist.orphaned))
  {
    ReachableIsFull(c, now, run);
    var s := After(c, Init(now), run);
    assert forall x :: x in s.hist.pushed ==> Canonical(s.hist.body, x);
    assert forall e :: e in s.cache ==> Canonical(s.hist.body, Item(e.id, e.body));
  }

  /** Only the two steps that queue a result touch the bodies. */
  lemma OthersKeepBodies(c: Settings, s: State, e: Event)
    requires e.Step? ==> !s.pc.Received? && !s.pc.CursorExecuted?
    ensures Next(c, s, e).hist.body == s.hist.body
  {
  }

  /** And they name a job that has none. */
  lemma QueueingKeepsBody(c: Settings, s: State, report: Report, lag: Time, id: JobId)
    requires PcInv(s.pc, s.cursor, s.outbox, s.hist.known, s.hist.acked, s.hist.body, s.hist.orphaned)
    requires (s.pc.Received? || s.pc.CursorExecuted?) && id in s.hist.body
    ensures var t := AgentStep(c, s, report, lag); id in t.hist.body && t.hist.body[id] == s.hist.body[id]
  {
  }

  /** What a job's body is, once known, no event changes. */
  lemma BodyStays(c: Settings, s: State, e: Event)
    requires Full(c, s) && Enabled(s, e)
    ensures var t := Next(c, s, e);
            forall id :: id in s.hist.body ==> id in t.hist.body && t.hist.body[id] == s.hist.body[id]
  {
    if e.Step? && (s.pc.Received? || s.pc.CursorExecuted?) {
      forall id | id in s.hist.body
        ensures var t := Next(c, s, e); id in t.hist.body && t.hist.body[id] == s.hist.body[id]
      {
        QueueingKeepsBody(c, s, e.report, e.lag, id);
      }
    } else {
      OthersKeepBodies(c, s, e);
    }
  }

  lemma {:induction false} BodyStaysForever(c: Settings, s: State, run: seq<Event>)
    requires Full(c, s) && Possible(c, s, run)
    ensures var t := After(c, s, run);
            forall id :: id in s.hist.body ==> id in t.hist.body && t.hist.body[id] == s.hist.body[id]
  {
    if run != [] {
      BodyStaysForever(c, s, run[..|run| - 1]);
      RunKeepsFull(c, s, run[..|run| - 1]);
      BodyStays(c, After(c, s, run[..|run| - 1]), run[|run| - 1]);
    }
  }

  /** A result that reached the control plane is never overwritten by another:
      whatever happens between, the cache answers with the same body. */
  lemma {:induction false} ResultIsNeverOverwritten(c: Settings, now: Time, run: seq<Event>, more: seq<Event>, e: Entry, f: Entry)
    requires Possible(c, Init(now), run) && Possible(c, After(c, Init(now), run), more)
    requires e in After(c, Init(now), run).cache
    requires f in After(c, After(c, Init(now), run), more).cache
    requires e.id == f.id
    ensures e.body == f.body
  {
    ReachableIsFull(c, now, run);
    var s := After(c, Init(now), run);
    RunKeepsFull(c, s, more);
    BodyStaysForever(c, s, more);
    var t := After(c, s, more);
    assert Canonical(s.hist.body, Item(e.id, e.body));
    assert Canonical(t.hist.body, Item(f.id, f.body));
  }

  /** The runner is called once for a job, plus once for each time a crash or an
      exception fell between its start and the 'executed' write. */
  lemma {:induction false} BoundedReexecution(c: Settings, now: Time, run: seq<Event>, id: JobId)
    requires Possible(c, Init(now), run)
    ensures var s := After(c, Init(now), run);
            && s.hist.starts[id] <= s.hist.aborts[id] + 1
            && (HS.AtLeast(s.cursor, id, HS.Executed) ==> s.hist.starts[id] == s.hist.aborts[id] + 1)
  {
    ReachableIsFull(c, now, run);
  }

  lemma DoneStays(c: Settings, s: State, e: Event, id: JobId)
    requires Full(c, s) && Enabled(s, e) && Done(s.cursor, id)
    ensures var t := Next(c, s, e); Done(t.cursor, id) && t.hist.starts[id] == s.hist.starts[id]
  {
    InvIsRunnerReady(s);
  }

  lemma {:induction false} StaysExecuted(c: Settings, s: State, run: seq<Event>, id: JobId)
    requires Full(c, s) && Possible(c, s, run) && Done(s.cursor, id)
    ensures var t := After(c, s, run); Done(t.cursor, id) && t.hist.starts[id] == s.hist.starts[id]
  {
    if run != [] {
      StaysExecuted(c, s, run[..|run| - 1], id);
      RunKeepsFull(c, s, run[..|run| - 1]);
      DoneStays(c, After(c, s, run[..|run| - 1]), run[|run| - 1], id);
    }
  }

  /** Once 'executed' is recorded, no delivery, restart or late message ever runs
      the job again, however the run goes on. */
  lemma {:induction false} ExecutedNeverRerun(c: Settings, now: Time, run: seq<Event>, more: seq<Event>, id: JobId)
    requires Possible(c, Init(now), run) && Possible(c, After(c, Init(now), run), more)
    requires Done(After(c, Init(now), run).cursor, id)
    ensures var s := After(c, Init(now), run);
            var t := After(c, s, more);
            Done(t.cursor, id) && t.hist.starts[id] == s.hist.starts[id]
  {
    ReachableIsFull(c, now, run);
    StaysExecuted(c, After(c, Init(now), run), more, id);
  }

  /** A redelivered job that was executed is never silently dropped: in every reachable
      state its result is queued when the agent has dealt with it, so it gets pushed. */
  lemma {:induction false} RedeliveryIsPushed(c: Settings, now: Time, run: seq<Event>, report: Report, lag: Time)
    requires Possible(c, Init(now), run)
    ensures var s := After(c, Init(now), run);
            s.pc.Received? && Done(s.cursor, s.pc.job.id) ==>
              var t := AgentStep(c, s, report, lag);
              s.pc.job.id in HS.Held(t.outbox) && t.pc == Flush(t.outbox, false) && t.hist.starts == s.hist.starts
  {
    ReachableIsFull(c, now, run);
    var s := After(c, Init(now), run);
    if s.pc.Received? && Done(s.cursor, s.pc.job.id) {
      RedeliveryQueues(s, c, report, lag);
    }
  }

  lemma RedeliveryQueues(s: State, c: Settings, report: Report, lag: Time)
    requires AgentInvariant.Inv(s) && s.pc.Received? && Done(s.cursor, s.pc.job.id)
    ensures var t := AgentStep(c, s, report, lag);
            s.pc.job.id in HS.Held(t.outbox) && t.pc == Flush(t.outbox, false) && t.hist.starts == s.hist.starts
  {
  }

  /** Two deliveries of one job are at least the visibility timeout apart, and each
      queued job has been delivered as often as it says. */
  lemma {:induction false} LeaseDiscipline(c: Settings, now: Time, run: seq<Event>)
    requires Possible(c, Init(now), run)
    ensures var s := After(c, Init(now), run);
            && (forall i, j :: 0 <= i < j < |s.hist.log| && s.hist.log[i].id == s.hist.log[j].id ==>
                  s.hist.log[j].at - s.hist.log[i].at >= c.visibilityTimeout)
            && (forall k :: 0 <= k < |s.queue| ==> s.queue[k].deliveries == Count(s.hist.log, s.queue[k].id))
  {
    ReachableIsFull(c, now, run);
    var s := After(c, Init(now), run);
    forall i, j | 0 <= i < j < |s.hist.log| && s.hist.log[i].id == s.hist.log[j].id
      ensures s.hist.log[j].at - s.hist.log[i].at >= c.visibilityTimeout
    {
      SpacedPair(c, s.hist.log, i, j);
    }
    forall k | 0 <= k < |s.queue| ensures s.queue[k].deliveries == Count(s.hist.log, s.queue[k].id) {
      RecordOf(c, s.queue, s.hist.log, s.now, k);
    }
  }

  lemma AckedIsCached(c: Settings, s: State, item: Item, lag: Time)
    requires CacheInv(c, s.cache, s.now, s.hist.body) && lag >= 0.0
    ensures Entry(item.id, item.body, s.now) in ServerAck(c, s, item, lag).cache <==>
            c.resultsMax >= 1 && (c.resultsTtl <= 0.0 || lag <= c.resultsTtl)
  {
    JustAckedSurvives(s.cache, Entry(item.id, item.body, s.now), s.now + lag, c.resultsTtl, c.resultsMax);
  }

  /** In every run the cache is within its bound, and a push that arrives is
      answerable right after its acknowledgement exactly when the cache may hold
      anything and the acknowledgement itself did not outlast the TTL. */
  lemma {:induction false} AckedResultIsQueryable(c: Settings, now: Time, run: seq<Event>, item: Item, lag: Time)
    requires Possible(c, Init(now), run) && lag >= 0.0
    ensures var s := After(c, Init(now), run);
            var t := ServerAck(c, s, item, lag);
            && |s.cache| <= Max(c.resultsMax, 0)
            && (Entry(item.id, item.body, s.now) in t.cache <==>
                  c.resultsMax >= 1 && (c.resultsTtl <= 0.0 || lag <= c.resultsTtl))
  {
    ReachableIsFull(c, now, run);
    var s := After(c, Init(now), run);
    AckedIsCached(c, s, item, lag);
  }
}
