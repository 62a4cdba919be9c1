/** The vendor-side store: per-agent leased queues and the result cache, both
    updated in place under one lock. Every clock reading is a parameter: `t1` is
    the first reading an operation takes and `t2` the second. */
module ControlPlane {
  import opened Messages
  import opened JobQueue
  import opened ResultCache

  /** (tenant, agent id) */
  type Key = (string, string)

  class ControlPlaneStore {
    const visibilityTimeout: Time
    const resultsMax: int
    const resultsTtl: Time
    var queues: map<Key, seq<Job>>
    var results: seq<Entry>

    ghost predicate Valid()
      reads this
    {
      DistinctIds(results) && |results| <= Max(resultsMax, 0)
    }

    function QueueOf(key: Key): seq<Job>
      reads this
    {
      if key in queues then queues[key] else []
    }

    constructor (visibilityTimeout: Time, resultsMax: int, resultsTtl: Time)
      ensures Valid() && queues == map[] && results == []
      ensures this.visibilityTimeout == visibilityTimeout
      ensures this.resultsMax == resultsMax && this.resultsTtl == resultsTtl
    {
      this.visibilityTimeout := visibilityTimeout;
      this.resultsMax := resultsMax;
      this.resultsTtl := resultsTtl;
      queues := map[];
      results := [];
    }

    /** An empty job id asks the store to use the freshly minted one. */
    method Enqueue(key: Key, kind: JobKind, payload: Payload, jobId: JobId, minted: JobId, now: Time)
      returns (job: Job)
      requires Valid()
      modifies this`queues
      ensures Valid()
      ensures job == NewJob(if jobId == NO_ID then minted else jobId, kind, payload, now)
      ensures job.id == (if jobId == NO_ID then minted else jobId) && job.kind == kind && job.payload == payload
      ensures job.state == Queued && job.dispatchedAt == None && job.deliveries == 0 && job.enqueuedAt == now
      ensures queues == old(queues)[key := old(QueueOf(key)) + [job]]
    {
      job := NewJob(if jobId == NO_ID then minted else jobId, kind, payload, now);
      if key !in queues {
        queues := queues[key := []];
      }
      queues := queues[key := queues[key] + [job]];
    }

    method ReclaimExpired(key: Key, now: Time)
      requires Valid() && key in queues
      modifies this`queues
      ensures Valid()
      ensures queues == old(queues)[key := Reclaim(old(queues[key]), now, visibilityTimeout)]
    {
      ghost var before := queues[key];
      var n := |queues[key]|;
      for i := 0 to n
        invariant key in queues && |queues[key]| == n == |before|
        invariant queues == old(queues)[key := queues[key]]
        invariant forall k :: 0 <= k < i ==> queues[key][k] == Reclaimed(before[k], now, visibilityTimeout)
        invariant forall k :: i <= k < n ==> queues[key][k] == before[k]
      {
        var job := queues[key][i];
        if job.state.Dispatched? && job.dispatchedAt.Some?
           && now - job.dispatchedAt.value >= visibilityTimeout {
          queues := queues[key := queues[key][i := job.(state := Queued)]];
        }
      }
      ReclaimIs(before, queues[key], now, visibilityTimeout);
    }

    method LeaseNext(key: Key, t1: Time, t2: Time) returns (got: Option<Job>)
      requires Valid()
      modifies this`queues
      ensures Valid()
      ensures var (q, job) := Lease(old(QueueOf(key)), t1, t2, visibilityTimeout);
              queues == old(queues)[key := q] && got == job
    {
      if key !in queues {
        queues := queues[key := []];
      }
      ghost var before := queues[key];
      ReclaimExpired(key, t1);
      var q := queues[key];
      ReclaimedStates(before, q, t1);
      for i := 0 to |q|
        invariant queues == old(queues)[key := q]
        invariant forall k :: 0 <= k < i ==> LiveLease(before[k], t1, visibilityTimeout)
      {
        if q[i].state.Queued? {
          var job := Leased(q[i], t2);
          queues := queues[key := q[i := job]];
          GrantsDetermines(before, queues[key], Some(job), i, t1, t2, visibilityTimeout);
          return Some(job);
        }
      }
      GrantsDetermines(before, q, None, |q|, t1, t2, visibilityTimeout);
      return None;
    }

    /** After reclaiming, a job is queued exactly when nobody holds it. */
    lemma ReclaimedStates(q: seq<Job>, r: seq<Job>, now: Time)
      requires r == Reclaim(q, now, visibilityTimeout)
      ensures forall i :: 0 <= i < |q| ==>
                && r[i] == Reclaimed(q[i], now, visibilityTimeout)
                && (r[i].state.Queued? <==> !LiveLease(q[i], now, visibilityTimeout))
    {
      forall i | 0 <= i < |q|
        ensures r[i] == Reclaimed(q[i], now, visibilityTimeout)
      {
        ReclaimAt(q, i, now, visibilityTimeout);
      }
    }

    method PruneResults(now: Time)
      requires DistinctIds(results)
      modifies this`results
      ensures Valid()
      ensures results == Prune(old(results), now, resultsTtl, resultsMax)
    {
      PruneBoundsCache(results, now, resultsTtl, resultsMax);
      if results == [] {
        return;
      }
      EvictStale(now);
      EvictSurplus();
    }

    method EvictStale(now: Time)
      modifies this`results
      ensures results == Drop(old(results), StaleIds(old(results), now, resultsTtl))
    {
      if resultsTtl > 0.0 {
        var expired := Select(results, now, resultsTtl);
        assert IdSet(expired) == StaleIds(results, now, resultsTtl);
        PopAll(expired);
      } else {
        DropNothing(results);
      }
    }

    method EvictSurplus()
      modifies this`results
      ensures results == Drop(old(results), SurplusIds(old(results), resultsMax))
    {
      var over := |results| - resultsMax;
      if over > 0 {
        var oldest := SortByAck(results);
        var n := Min(over, |oldest|);
        FirstIdsAsSet(oldest, n);
        PopAll(oldest[..n]);
      } else {
        DropNothing(results);
      }
    }

    /** The entries past their time to live, in dictionary order. */
    static method Select(c: seq<Entry>, now: Time, ttl: Time) returns (stale: seq<Entry>)
      ensures forall e :: e in stale <==> e in c && Stale(e, now, ttl)
    {
      stale := [];
      for i := 0 to |c|
        invariant forall e :: e in stale <==> e in c[..i] && Stale(e, now, ttl)
      {
        if now - c[i].ackedAt > ttl {
          stale := stale + [c[i]];
        }
      }
    }

    /** Pops each listed id. */
    method PopAll(victims: seq<Entry>)
      modifies this`results
      ensures results == Drop(old(results), IdSet(victims))
    {
      DropNothing(results);
      assert IdSet(victims[..0]) == {};
      for i := 0 to |victims|
        invariant results == Drop(old(results), IdSet(victims[..i]))
      {
        DropTwice(old(results), IdSet(victims[..i]), {victims[i].id});
        assert victims[..i + 1] == victims[..i] + [victims[i]];
        assert IdSet(victims[..i + 1]) == IdSet(victims[..i]) + {victims[i].id};
        results := Drop(results, {victims[i].id});
      }
      assert victims[..|victims|] == victims;
    }

    /** Idempotent: an unknown or already acknowledged id removes nothing. */
    method Ack(key: Key, id: JobId, result: Option<Body>, t1: Time, t2: Time) returns (removed: bool)
      requires Valid()
      modifies this
      ensures Valid()
      ensures results == if result.None? then old(results)
                         else Prune(Record(old(results), Entry(id, result.value, t1)), t2, resultsTtl, resultsMax)
      ensures queues == old(queues)[key := RemoveJob(old(QueueOf(key)), id)]
      ensures removed <==> id in Ids(old(QueueOf(key)))
    {
      if result.Some? {
        RecordKeepsDistinct(results, Entry(id, result.value, t1));
        results := Record(results, Entry(id, result.value, t1));
        PruneResults(t2);
      }
      var queue := if key in queues then queues[key] else [];
      var rest := KeepOthers(queue, id);
      queues := queues[key := rest];
      removed := |rest| < |queue|;
    }

    static method KeepOthers(queue: seq<Job>, id: JobId) returns (rest: seq<Job>)
      ensures rest == RemoveJob(queue, id)
      ensures |rest| <= |queue| && (|rest| < |queue| <==> id in Ids(queue))
    {
      rest := [];
      IdsAt(queue);
      for i := 0 to |queue|
        invariant rest == RemoveJob(queue[..i], id)
        invariant |rest| <= i && (|rest| < i <==> exists k :: 0 <= k < i && queue[k].id == id)
      {
        assert queue[..i + 1][..i] == queue[..i];
        if queue[i].id != id {
          rest := rest + [queue[i]];
        }
      }
      assert queue[..|queue|] == queue;
    }
  }

  // ----- the key under which a queue is persisted --------------------------

  /** tenant + NUL + agent id */
  function JoinKey(key: Key): string {
    key.0 + ['\0'] + key.1
  }

  /** Splits at the first NUL; a string without one has no agent part. */
  function SplitKey(s: string): Option<Key> {
    if s == [] then None
    else if s[0] == '\0' then Some(("", s[1..]))
    else match SplitKey(s[1..])
      case None => None
      case Some(rest) => Some(([s[0]] + rest.0, rest.1))
  }

  /** A queue is found again under its own key after a restart exactly when the
      tenant name holds no NUL. */
  lemma {:induction false} PersistedKeyRoundTrip(key: Key)
    ensures SplitKey(JoinKey(key)) == Some(key) <==> '\0' !in key.0
    decreases |key.0|
  {
    var s := JoinKey(key);
    if key.0 == [] {
      assert s[1..] == key.1;
    } else {
      var tail := (key.0[1..], key.1);
      assert s[1..] == JoinKey(tail);
      PersistedKeyRoundTrip(tail);
      assert key.0 == [key.0[0]] + key.0[1..];
      if s[0] != '\0' && SplitKey(JoinKey(tail)).Some? {
        var rest := SplitKey(JoinKey(tail)).value;
        assert ([s[0]] + rest.0)[1..] == rest.0;
      }
    }
  }
}
