/** What the control plane's side keeps: the queue is the enqueue order minus the
    acknowledged jobs, every job's lease record agrees with the log, and the cache
    is bounded and holds only the job's one body. */
module ServerInvariant {
  import opened Messages
  import opened JobQueue
  import opened ResultCache
  import opened Protocol
  import opened AgentInvariant

  // ----- conservation of jobs ----------------------------------------------

  ghost predicate QueueInv(issued: seq<JobId>, known: set<JobId>, acked: set<JobId>, queue: seq<Job>) {
    && Distinct(issued)
    && (forall id :: id in issued <==> id in known)
    && acked <= known
    && Ids(queue) == Without(issued, acked)
  }

  lemma AckKeepsQueue(issued: seq<JobId>, known: set<JobId>, acked: set<JobId>, queue: seq<Job>, id: JobId)
    requires QueueInv(issued, known, acked, queue) && id in known
    ensures QueueInv(issued, known, acked + {id}, RemoveJob(queue, id))
  {
    RemoveJobIds(queue, id);
    WithoutTwice(issued, acked, {id});
  }

  lemma SubmitKeepsQueue(issued: seq<JobId>, known: set<JobId>, acked: set<JobId>, queue: seq<Job>, job: Job)
    requires QueueInv(issued, known, acked, queue) && job.id !in known
    ensures QueueInv(issued + [job.id], known + {job.id}, acked, queue + [job])
  {
    assert (issued + [job.id])[..|issued|] == issued;
    assert (queue + [job])[..|queue|] == queue;
  }

  /** Whatever is queued was enqueued and is not acknowledged. */
  lemma QueuedIsOpen(issued: seq<JobId>, known: set<JobId>, acked: set<JobId>, queue: seq<Job>)
    requires QueueInv(issued, known, acked, queue)
    ensures forall i :: 0 <= i < |queue| ==> queue[i].id in known - acked
  {
    WithoutMembers(issued, acked);
    IdsAt(queue);
    forall i | 0 <= i < |queue| ensures queue[i].id in known - acked {
      assert Ids(queue)[i] in Without(issued, acked);
    }
  }

  /** And everything enqueued and not acknowledged is queued. */
  lemma OpenIsQueued(issued: seq<JobId>, known: set<JobId>, acked: set<JobId>, queue: seq<Job>, id: JobId)
    requires QueueInv(issued, known, acked, queue) && id in known - acked
    ensures exists i :: 0 <= i < |queue| && queue[i].id == id
  {
    WithoutMembers(issued, acked);
    IdsAt(queue);
    var i :| 0 <= i < |Ids(queue)| && Ids(queue)[i] == id;
    assert queue[i].id == id;
  }

  // ----- leases ------------------------------------------------------------

  function Count(log: seq<Delivery>, id: JobId): nat {
    if log == [] then 0
    else Count(log[..|log| - 1], id) + if log[|log| - 1].id == id then 1 else 0
  }

  /** The record a job keeps of its own leases agrees with the log. */
  ghost predicate LeaseRecord(c: Settings, j: Job, log: seq<Delivery>, now: Time) {
    && j.deliveries == Count(log, j.id)
    && (j.state.Dispatched? ==> j.dispatchedAt.Some?)
    && (j.dispatchedAt.None? ==> forall d :: d in log ==> d.id != j.id)
    && (j.dispatchedAt.Some? ==>
          && j.dispatchedAt.value <= now
          && (forall d :: d in log && d.id == j.id ==> d.at <= j.dispatchedAt.value)
          && (j.state.Queued? ==> now - j.dispatchedAt.value >= c.visibilityTimeout))
  }

  ghost predicate Spaced(c: Settings, log: seq<Delivery>) {
    log == [] ||
    (var front, last := log[..|log| - 1], log[|log| - 1];
     && Spaced(c, front)
     && forall d :: d in front && d.id == last.id ==> last.at - d.at >= c.visibilityTimeout)
  }

  lemma {:induction false} SpacedPair(c: Settings, log: seq<Delivery>, i: nat, j: nat)
    requires Spaced(c, log) && i < j < |log| && log[i].id == log[j].id
    ensures log[j].at - log[i].at >= c.visibilityTimeout
  {
    if j < |log| - 1 {
      SpacedPair(c, log[..|log| - 1], i, j);
    } else {
      assert log[i] in log[..|log| - 1];
    }
  }

  ghost predicate LogInv(log: seq<Delivery>, now: Time, known: set<JobId>) {
    forall d :: d in log ==> d.at <= now && d.id in known
  }

  ghost predicate LeaseRecords(c: Settings, queue: seq<Job>, log: seq<Delivery>, now: Time) {
    queue == [] ||
    (LeaseRecord(c, queue[|queue| - 1], log, now) && LeaseRecords(c, queue[..|queue| - 1], log, now))
  }

  lemma {:induction false} RecordOf(c: Settings, queue: seq<Job>, log: seq<Delivery>, now: Time, i: nat)
    requires LeaseRecords(c, queue, log, now) && i < |queue|
    ensures LeaseRecord(c, queue[i], log, now)
  {
    if i < |queue| - 1 {
      RecordOf(c, queue[..|queue| - 1], log, now, i);
    }
  }

  lemma {:induction false} RecordsFrom(c: Settings, queue: seq<Job>, log: seq<Delivery>, now: Time)
    requires forall i :: 0 <= i < |queue| ==> LeaseRecord(c, queue[i], log, now)
    ensures LeaseRecords(c, queue, log, now)
  {
    if queue != [] {
      RecordsFrom(c, queue[..|queue| - 1], log, now);
    }
  }

  ghost predicate LeaseInv(c: Settings, queue: seq<Job>, log: seq<Delivery>, now: Time, known: set<JobId>) {
    && LeaseRecords(c, queue, log, now)
    && LogInv(log, now, known)
    && Spaced(c, log)
  }

  lemma LaterKeepsRecord(c: Settings, j: Job, log: seq<Delivery>, now: Time, later: Time)
    requires LeaseRecord(c, j, log, now) && now <= later
    ensures LeaseRecord(c, j, log, later)
  {
  }

  lemma LaterKeepsLeases(c: Settings, queue: seq<Job>, rest: seq<Job>, log: seq<Delivery>,
                         now: Time, later: Time, known: set<JobId>)
    requires LeaseInv(c, queue, log, now, known) && now <= later
    requires forall j :: j in rest ==> j in queue
    ensures LeaseInv(c, rest, log, later, known)
  {
    forall i | 0 <= i < |rest| ensures LeaseRecord(c, rest[i], log, later) {
      assert rest[i] in queue;
      var k :| 0 <= k < |queue| && queue[k] == rest[i];
      RecordOf(c, queue, log, now, k);
      LaterKeepsRecord(c, rest[i], log, now, later);
    }
    RecordsFrom(c, rest, log, later);
  }

  lemma GrantKeepsRecord(c: Settings, j: Job, j': Job, log: seq<Delivery>, now: Time, known: set<JobId>,
                         granted: JobId, at: Time)
    requires LeaseRecord(c, j, log, now) && now <= at && LogInv(log, now, known)
    requires j.id == granted ==>
               j' == j.(state := Dispatched, dispatchedAt := Some(at), deliveries := j.deliveries + 1)
    requires j.id != granted ==> j' == Reclaimed(j, now, c.visibilityTimeout)
    ensures LeaseRecord(c, j', log + [Delivery(granted, at)], at)
  {
    assert (log + [Delivery(granted, at)])[..|log|] == log;
  }

  lemma GrantKeepsSpacing(c: Settings, j: Job, log: seq<Delivery>, now: Time, at: Time)
    requires Spaced(c, log) && LeaseRecord(c, j, log, now) && now <= at
    requires !LiveLease(j, now, c.visibilityTimeout)
    ensures Spaced(c, log + [Delivery(j.id, at)])
  {
    assert (log + [Delivery(j.id, at)])[..|log|] == log;
  }

  function Granted(log: seq<Delivery>, got: Option<Job>, at: Time): seq<Delivery> {
    if got.None? then log else log + [Delivery(got.value.id, at)]
  }

  lemma GrantKeepsLeases(c: Settings, q: seq<Job>, q': seq<Job>, got: Option<Job>, k: nat, log: seq<Delivery>,
                         now: Time, at: Time, known: set<JobId>)
    requires LeaseInv(c, q, log, now, known) && now <= at && DistinctJobs(q)
    requires forall i :: 0 <= i < |q| ==> q[i].id in known
    requires Grants(q, q', got, k, now, at, c.visibilityTimeout) && got.Some?
    ensures LeaseInv(c, q', log + [Delivery(got.value.id, at)], at, known)
  {
    forall i | 0 <= i < |q| ensures LeaseRecord(c, q'[i], log + [Delivery(q[k].id, at)], at) {
      assert i != k ==> q[i].id != q[k].id;
      assert i != k ==> q'[i] == Reclaimed(q[i], now, c.visibilityTimeout);
      RecordOf(c, q, log, now, i);
      GrantKeepsRecord(c, q[i], q'[i], log, now, known, q[k].id, at);
    }
    RecordsFrom(c, q', log + [Delivery(q[k].id, at)], at);
    RecordOf(c, q, log, now, k);
    GrantKeepsSpacing(c, q[k], log, now, at);
  }

  lemma LeaseKeepsLeases(c: Settings, q: seq<Job>, log: seq<Delivery>, now: Time, at: Time, known: set<JobId>)
    requires LeaseInv(c, q, log, now, known) && now <= at && DistinctJobs(q)
    requires forall i :: 0 <= i < |q| ==> q[i].id in known
    ensures var (q', got) := Lease(q, now, at, c.visibilityTimeout);
            LeaseInv(c, q', Granted(log, got, at), at, known)
  {
    LeaseHandsOutEarliest(q, now, at, c.visibilityTimeout);
    var (q', got) := Lease(q, now, at, c.visibilityTimeout);
    if got.None? {
      LaterKeepsLeases(c, q, q, log, now, at, known);
    } else {
      GrantKeepsLeases(c, q, q', got, FirstFree(q, now, c.visibilityTimeout), log, now, at, known);
    }
  }

  lemma GrantKeepsIds(q: seq<Job>, q': seq<Job>, got: Option<Job>, k: nat, now: Time, at: Time, timeout: Time)
    requires Grants(q, q', got, k, now, at, timeout)
    ensures Ids(q') == Ids(q)
    ensures got.Some? ==> k < |q| && q[k].id == got.value.id
  {
    SameIds(q, q');
  }

  lemma LeaseKeepsIds(q: seq<Job>, now: Time, at: Time, timeout: Time)
    ensures var (q', got) := Lease(q, now, at, timeout);
            Ids(q') == Ids(q) && (got.Some? ==> exists i :: 0 <= i < |q| && q[i].id == got.value.id)
  {
    LeaseHandsOutEarliest(q, now, at, timeout);
    var (q', got) := Lease(q, now, at, timeout);
    GrantKeepsIds(q, q', got, FirstFree(q, now, timeout), now, at, timeout);
  }

  lemma {:induction false} NeverDelivered(log: seq<Delivery>, id: JobId)
    requires forall d :: d in log ==> d.id != id
    ensures Count(log, id) == 0
  {
    if log != [] {
      assert log[|log| - 1] in log;
      NeverDelivered(log[..|log| - 1], id);
    }
  }

  lemma SubmitKeepsLeases(c: Settings, queue: seq<Job>, log: seq<Delivery>, now: Time, known: set<JobId>, job: Job)
    requires LeaseInv(c, queue, log, now, known) && job.id !in known
    requires job.state.Queued? && job.dispatchedAt.None? && job.deliveries == 0
    ensures LeaseInv(c, queue + [job], log, now, known + {job.id})
  {
    NeverDelivered(log, job.id);
    assert (queue + [job])[..|queue|] == queue;
  }

  // ----- the result cache --------------------------------------------------

  ghost predicate CacheInv(c: Settings, cache: seq<Entry>, now: Time, body: map<JobId, Body>) {
    && DistinctIds(cache) && |cache| <= Max(c.resultsMax, 0)
    && (forall e :: e in cache ==> e.ackedAt <= now && Canonical(body, Item(e.id, e.body)))
  }

  lemma AckKeepsCache(c: Settings, cache: seq<Entry>, e: Entry, later: Time, body: map<JobId, Body>)
    requires CacheInv(c, cache, e.ackedAt, body) && e.ackedAt <= later
    requires Canonical(body, Item(e.id, e.body))
    ensures CacheInv(c, Prune(Record(cache, e), later, c.resultsTtl, c.resultsMax), later, body)
  {
    RecordFacts(cache, e);
    RecordKeepsDistinct(cache, e);
    PruneBoundsCache(Record(cache, e), later, c.resultsTtl, c.resultsMax);
  }

  // ----- all three ---------------------------------------------------------

  ghost predicate SrvInv(c: Settings, s: State) {
    && QueueInv(s.hist.issued, s.hist.known, s.hist.acked, s.queue)
    && LeaseInv(c, s.queue, s.hist.log, s.now, s.hist.known)
    && CacheInv(c, s.cache, s.now, s.hist.body)
  }

  /** An ack, with the values it computes left abstract. */
  lemma AckFrame(c: Settings, s: State, queue: seq<Job>, cache: seq<Entry>, acked: set<JobId>, at: Time)
    requires QueueInv(s.hist.issued, s.hist.known, acked, queue)
    requires LeaseInv(c, queue, s.hist.log, at, s.hist.known) && CacheInv(c, cache, at, s.hist.body)
    ensures SrvInv(c, s.(now := at, queue := queue, cache := cache, hist := s.hist.(acked := acked)))
  {
  }

  lemma AckKeepsParts(c: Settings, s: State, item: Item, at: Time, queue: seq<Job>, cache: seq<Entry>)
    requires SrvInv(c, s) && s.now <= at && Canonical(s.hist.body, item) && item.id in s.hist.known
    requires queue == RemoveJob(s.queue, item.id)
    requires cache == Prune(Record(s.cache, Entry(item.id, item.body, s.now)), at, c.resultsTtl, c.resultsMax)
    ensures QueueInv(s.hist.issued, s.hist.known, s.hist.acked + {item.id}, queue)
    ensures LeaseInv(c, queue, s.hist.log, at, s.hist.known) && CacheInv(c, cache, at, s.hist.body)
  {
    AckKeepsQueue(s.hist.issued, s.hist.known, s.hist.acked, s.queue, item.id);
    RemoveJobMembers(s.queue, item.id);
    LaterKeepsLeases(c, s.queue, queue, s.hist.log, s.now, at, s.hist.known);
    AckKeepsCache(c, s.cache, Entry(item.id, item.body, s.now), at, s.hist.body);
  }

  lemma AckUnfolds(c: Settings, s: State, item: Item, lag: Time, queue: seq<Job>, cache: seq<Entry>)
    requires queue == RemoveJob(s.queue, item.id)
    requires cache == Prune(Record(s.cache, Entry(item.id, item.body, s.now)), s.now + lag, c.resultsTtl, c.resultsMax)
    ensures ServerAck(c, s, item, lag)
            == s.(now := s.now + lag, queue := queue, cache := cache, hist := s.hist.(acked := s.hist.acked + {item.id}))
  {
  }

  lemma AckKeepsSrvInv(c: Settings, s: State, item: Item, lag: Time)
    requires SrvInv(c, s) && lag >= 0.0 && Canonical(s.hist.body, item) && item.id in s.hist.known
    ensures SrvInv(c, ServerAck(c, s, item, lag))
  {
    var queue := RemoveJob(s.queue, item.id);
    var cache := Prune(Record(s.cache, Entry(item.id, item.body, s.now)), s.now + lag, c.resultsTtl, c.resultsMax);
    AckKeepsParts(c, s, item, s.now + lag, queue, cache);
    AckFrame(c, s, queue, cache, s.hist.acked + {item.id}, s.now + lag);
    AckUnfolds(c, s, item, lag, queue, cache);
  }

  lemma QueuedJobs(issued: seq<JobId>, known: set<JobId>, acked: set<JobId>, q: seq<Job>)
    requires QueueInv(issued, known, acked, q)
    ensures DistinctJobs(q) && forall i :: 0 <= i < |q| ==> q[i].id in known
  {
    WithoutKeepsDistinct(issued, acked);
    DistinctIdsDistinctJobs(q, Without(issued, acked));
    QueuedIsOpen(issued, known, acked, q);
  }

  lemma LeaseKeepsQueue(issued: seq<JobId>, known: set<JobId>, acked: set<JobId>, q: seq<Job>,
                        now: Time, at: Time, timeout: Time)
    requires QueueInv(issued, known, acked, q)
    ensures var (q', got) := Lease(q, now, at, timeout);
            && QueueInv(issued, known, acked, q')
            && (got.Some? ==> got.value.id in known - acked)
  {
    QueuedIsOpen(issued, known, acked, q);
    LeaseKeepsIds(q, now, at, timeout);
  }

  lemma LeaseKeepsLog(c: Settings, issued: seq<JobId>, known: set<JobId>, acked: set<JobId>, q: seq<Job>,
                      log: seq<Delivery>, now: Time, at: Time)
    requires QueueInv(issued, known, acked, q)
    requires LeaseInv(c, q, log, now, known) && now <= at
    ensures var (q', got) := Lease(q, now, at, c.visibilityTimeout);
            LeaseInv(c, q', Granted(log, got, at), at, known)
  {
    QueuedJobs(issued, known, acked, q);
    LeaseKeepsLeases(c, q, log, now, at, known);
  }

  /** A lease, with the values it computes left abstract. */
  lemma LeaseFrame(c: Settings, s: State, queue: seq<Job>, log: seq<Delivery>, at: Time)
    requires SrvInv(c, s) && s.now <= at
    requires QueueInv(s.hist.issued, s.hist.known, s.hist.acked, queue)
    requires LeaseInv(c, queue, log, at, s.hist.known)
    ensures SrvInv(c, s.(now := at, queue := queue, hist := s.hist.(log := log)))
  {
  }

  lemma LeaseUnfolds(c: Settings, s: State, lag: Time, q: seq<Job>, got: Option<Job>)
    requires Lease(s.queue, s.now, s.now + lag, c.visibilityTimeout) == (q, got)
    ensures ServerLease(c, s, lag) ==
            (s.(now := s.now + lag, queue := q, hist := s.hist.(log := Granted(s.hist.log, got, s.now + lag))), got)
  {
  }

  lemma LeaseKeepsSrvInv(c: Settings, s: State, lag: Time)
    requires SrvInv(c, s) && lag >= 0.0
    ensures var (t, got) := ServerLease(c, s, lag);
            SrvInv(c, t) && (got.Some? ==> got.value.id in s.hist.known - s.hist.acked)
  {
    var (q, got) := Lease(s.queue, s.now, s.now + lag, c.visibilityTimeout);
    LeaseKeepsQueue(s.hist.issued, s.hist.known, s.hist.acked, s.queue, s.now, s.now + lag, c.visibilityTimeout);
    LeaseKeepsLog(c, s.hist.issued, s.hist.known, s.hist.acked, s.queue, s.hist.log, s.now, s.now + lag);
    LeaseUnfolds(c, s, lag, q, got);
    LeaseFrame(c, s, q, Granted(s.hist.log, got, s.now + lag), s.now + lag);
  }

  lemma SubmitKeepsSrvInv(c: Settings, s: State, id: JobId, kind: JobKind, payload: Payload)
    requires SrvInv(c, s) && id !in s.hist.known
    ensures SrvInv(c, Next(c, s, Submit(id, kind, payload)))
  {
    var job := NewJob(id, kind, payload, s.now);
    SubmitKeepsQueue(s.hist.issued, s.hist.known, s.hist.acked, s.queue, job);
    SubmitKeepsLeases(c, s.queue, s.hist.log, s.now, s.hist.known, job);
  }

  /** A first body for a job that has none changes no entry of the cache. */
  lemma NewBodyKeepsSrvInv(c: Settings, s: State, item: Item)
    requires SrvInv(c, s) && item.id !in s.hist.body
    ensures SrvInv(c, QueueResult(s, item))
  {
  }
}
