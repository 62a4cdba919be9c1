/** One agent's leased FIFO on the control plane, as values. */
module JobQueue {
  import opened Messages

  datatype JobState = Queued | Dispatched

  datatype Job = Job(
    id: JobId, kind: JobKind, payload: Payload, state: JobState,
    enqueuedAt: Time, dispatchedAt: Option<Time>, deliveries: nat)

  function Ids(q: seq<Job>): (r: seq<JobId>)
    ensures |r| == |q|
  {
    if q == [] then [] else Ids(q[..|q| - 1]) + [q[|q| - 1].id]
  }

  lemma {:induction false} IdAt(q: seq<Job>, i: nat)
    requires i < |q|
    ensures Ids(q)[i] == q[i].id
  {
    if i < |q| - 1 {
      IdAt(q[..|q| - 1], i);
    }
  }

  lemma IdsAt(q: seq<Job>)
    ensures forall i :: 0 <= i < |q| ==> Ids(q)[i] == q[i].id
  {
    forall i | 0 <= i < |q| ensures Ids(q)[i] == q[i].id {
      IdAt(q, i);
    }
  }

  predicate DistinctJobs(q: seq<Job>) {
    forall i, k :: 0 <= i < k < |q| ==> q[i].id != q[k].id
  }

  lemma DistinctIdsDistinctJobs(q: seq<Job>, ids: seq<JobId>)
    requires ids == Ids(q) && Distinct(ids)
    ensures DistinctJobs(q)
  {
    forall i, k | 0 <= i < k < |q| ensures q[i].id != q[k].id {
      IdAt(q, i);
      IdAt(q, k);
      DistinctAt(ids, i, k);
    }
  }

  lemma SameIds(q: seq<Job>, r: seq<Job>)
    requires |q| == |r| && forall i :: 0 <= i < |q| ==> q[i].id == r[i].id
    ensures Ids(q) == Ids(r)
  {
    IdsAt(q);
    IdsAt(r);
  }

  function NewJob(id: JobId, kind: JobKind, payload: Payload, now: Time): Job {
    Job(id, kind, payload, Queued, now, None, 0)
  }

  // ----- leases ------------------------------------------------------------

  /** The lease ran out: dispatched at least `timeout` ago. */
  predicate Expired(j: Job, now: Time, timeout: Time) {
    j.state.Dispatched? && j.dispatchedAt.Some? && now - j.dispatchedAt.value >= timeout
  }

  /** Some agent may still be working on it. */
  predicate LiveLease(j: Job, now: Time, timeout: Time) {
    j.state.Dispatched? && !Expired(j, now, timeout)
  }

  function Reclaimed(j: Job, now: Time, timeout: Time): Job {
    if Expired(j, now, timeout) then j.(state := Queued) else j
  }

  function Reclaim(q: seq<Job>, now: Time, timeout: Time): (r: seq<Job>)
    ensures |r| == |q|
  {
    if q == [] then []
    else Reclaim(q[..|q| - 1], now, timeout) + [Reclaimed(q[|q| - 1], now, timeout)]
  }

  lemma {:induction false} ReclaimAt(q: seq<Job>, i: nat, now: Time, timeout: Time)
    requires i < |q|
    ensures Reclaim(q, now, timeout)[i] == Reclaimed(q[i], now, timeout)
  {
    if i < |q| - 1 {
      ReclaimAt(q[..|q| - 1], i, now, timeout);
    }
  }

  lemma ReclaimIs(q: seq<Job>, r: seq<Job>, now: Time, timeout: Time)
    requires |r| == |q| && forall i :: 0 <= i < |q| ==> r[i] == Reclaimed(q[i], now, timeout)
    ensures r == Reclaim(q, now, timeout)
  {
    forall i | 0 <= i < |q| ensures r[i] == Reclaim(q, now, timeout)[i] {
      ReclaimAt(q, i, now, timeout);
    }
  }

  function Leased(j: Job, at: Time): Job {
    j.(state := Dispatched, dispatchedAt := Some(at), deliveries := j.deliveries + 1)
  }

  /** The queue after a lease request, and the job handed out: jobs that an agent
      holds are passed over, the first other one is leased, and what is behind it
      is reclaimed. The clock is read at `t1` to judge leases and again at `t2` to
      stamp the new one. */
  function Lease(q: seq<Job>, t1: Time, t2: Time, timeout: Time): (seq<Job>, Option<Job>) {
    if q == [] then ([], None)
    else if LiveLease(q[0], t1, timeout) then
      var (rest, got) := Lease(q[1..], t1, t2, timeout);
      ([q[0]] + rest, got)
    else ([Leased(q[0], t2)] + Reclaim(q[1..], t1, timeout), Some(Leased(q[0], t2)))
  }

  /** Position of the earliest job that no agent holds, or |q|. */
  function FirstFree(q: seq<Job>, now: Time, timeout: Time): (k: nat)
    ensures k <= |q|
  {
    if q == [] || !LiveLease(q[0], now, timeout) then 0 else 1 + FirstFree(q[1..], now, timeout)
  }

  lemma {:induction false} FirstFreeIsFirst(q: seq<Job>, now: Time, timeout: Time)
    ensures var k := FirstFree(q, now, timeout);
            && (k < |q| ==> !LiveLease(q[k], now, timeout))
            && forall i :: 0 <= i < k ==> LiveLease(q[i], now, timeout)
  {
    if q != [] && LiveLease(q[0], now, timeout) {
      FirstFreeIsFirst(q[1..], now, timeout);
      assert q == [q[0]] + q[1..];
    }
  }

  /** A lease request that leaves queue `r` and hands out `got`, told by position. */
  ghost predicate Grants(q: seq<Job>, r: seq<Job>, got: Option<Job>, k: nat, t1: Time, t2: Time, timeout: Time) {
    && k <= |q| == |r|
    && (forall i :: 0 <= i < k ==> LiveLease(q[i], t1, timeout) && r[i] == q[i])
    && (forall i :: k < i < |q| ==> r[i] == Reclaimed(q[i], t1, timeout))
    && (got.None? <==> k == |q|)
    && (got.Some? ==> !LiveLease(q[k], t1, timeout) && r[k] == Leased(q[k], t2) == got.value)
  }

  /** A lease goes to the earliest job no agent holds and stamps it alone; it is
      refused, and changes nothing, only while every job is held. */
  lemma {:induction false} LeaseHandsOutEarliest(q: seq<Job>, t1: Time, t2: Time, timeout: Time)
    ensures var (r, got) := Lease(q, t1, t2, timeout);
            && Grants(q, r, got, FirstFree(q, t1, timeout), t1, t2, timeout)
            && (got.None? ==> r == q)
  {
    if q != [] {
      if LiveLease(q[0], t1, timeout) {
        LeaseHandsOutEarliest(q[1..], t1, t2, timeout);
        assert q == [q[0]] + q[1..];
      } else {
        forall i | 0 < i < |q|
          ensures Lease(q, t1, t2, timeout).0[i] == Reclaimed(q[i], t1, timeout)
        {
          ReclaimAt(q[1..], i - 1, t1, timeout);
        }
      }
    }
  }

  /** `Grants` leaves no choice: it holds of one queue and one answer only. */
  lemma GrantsDetermines(q: seq<Job>, r: seq<Job>, got: Option<Job>, k: nat, t1: Time, t2: Time, timeout: Time)
    requires Grants(q, r, got, k, t1, t2, timeout)
    ensures Lease(q, t1, t2, timeout) == (r, got)
  {
    LeaseHandsOutEarliest(q, t1, t2, timeout);
    SameGrant(q, r, got, k, Lease(q, t1, t2, timeout).0, Lease(q, t1, t2, timeout).1,
              FirstFree(q, t1, timeout), t1, t2, timeout);
  }

  lemma SameGrant(q: seq<Job>, r: seq<Job>, got: Option<Job>, k: nat, r': seq<Job>, got': Option<Job>, k': nat,
                  t1: Time, t2: Time, timeout: Time)
    requires Grants(q, r, got, k, t1, t2, timeout) && Grants(q, r', got', k', t1, t2, timeout)
    ensures r == r' && got == got' && k == k'
  {
    assert k == k';
    assert forall i :: 0 <= i < |q| ==> r[i] == r'[i];
  }

  // ----- acknowledgement ---------------------------------------------------

  function RemoveJob(q: seq<Job>, id: JobId): seq<Job> {
    if q == [] then []
    else
      var rest := RemoveJob(q[..|q| - 1], id);
      if q[|q| - 1].id == id then rest else rest + [q[|q| - 1]]
  }

  lemma {:induction false} RemoveJobMembers(q: seq<Job>, id: JobId)
    ensures forall j :: j in RemoveJob(q, id) <==> j in q && j.id != id
  {
    if q != [] {
      RemoveJobMembers(q[..|q| - 1], id);
      assert q == q[..|q| - 1] + [q[|q| - 1]];
    }
  }

  lemma {:induction false} RemoveJobIds(q: seq<Job>, id: JobId)
    ensures Ids(RemoveJob(q, id)) == Without(Ids(q), {id})
  {
    if q != [] {
      var front := q[..|q| - 1];
      RemoveJobIds(front, id);
      assert Ids(q)[..|q| - 1] == Ids(front);
      var rest := RemoveJob(front, id);
      assert (rest + [q[|q| - 1]])[..|rest|] == rest;
    }
  }
}
