/** The control plane's bounded cache of pushed results: an insertion-ordered
    dictionary, as a sequence of entries with distinct ids. */
module ResultCache {
  import opened Messages

  datatype Entry = Entry(id: JobId, body: Body, ackedAt: Time)

  predicate DistinctIds(c: seq<Entry>) {
    forall i, j :: 0 <= i < j < |c| ==> c[i].id != c[j].id
  }

  predicate Has(c: seq<Entry>, id: JobId) {
    exists i :: 0 <= i < |c| && c[i].id == id
  }

  /** Dictionary assignment: a known key keeps its position. */
  function Record(c: seq<Entry>, e: Entry): seq<Entry> {
    if Has(c, e.id) then seq(|c|, i requires 0 <= i < |c| => if c[i].id == e.id then e else c[i])
    else c + [e]
  }

  lemma RecordFacts(c: seq<Entry>, e: Entry)
    ensures var r := Record(c, e);
            && (forall x :: x in r <==> x == e || (x in c && x.id != e.id))
            && |r| == if Has(c, e.id) then |c| else |c| + 1
  {
    if Has(c, e.id) {
      var r := Record(c, e);
      var k :| 0 <= k < |c| && c[k].id == e.id;
      assert r[k] == e;
      forall x | x in c && x.id != e.id ensures x in r {
        var i :| 0 <= i < |c| && c[i] == x;
        assert r[i] == x;
      }
    }
  }

  /** The entries whose id is not in `gone`, order kept. */
  function Drop(c: seq<Entry>, gone: set<JobId>): seq<Entry> {
    if c == [] then []
    else
      var rest := Drop(c[..|c| - 1], gone);
      if c[|c| - 1].id in gone then rest else rest + [c[|c| - 1]]
  }

  lemma {:induction false} DropFacts(c: seq<Entry>, gone: set<JobId>)
    ensures forall x :: x in Drop(c, gone) <==> x in c && x.id !in gone
    ensures |Drop(c, gone)| <= |c|
  {
    if c != [] {
      DropFacts(c[..|c| - 1], gone);
      assert c == c[..|c| - 1] + [c[|c| - 1]];
    }
  }

  function IdSet(c: seq<Entry>): set<JobId> {
    set e | e in c :: e.id
  }

  predicate Stale(e: Entry, now: Time, ttl: Time) { now - e.ackedAt > ttl }

  function StaleIds(c: seq<Entry>, now: Time, ttl: Time): set<JobId> {
    if ttl > 0.0 then set e | e in c && Stale(e, now, ttl) :: e.id else {}
  }

  // ----- stable sort by acknowledgement time -------------------------------

  /** Places `x` after every entry that is not newer. */
  function Insert(s: seq<Entry>, x: Entry): (r: seq<Entry>)
    ensures |r| == |s| + 1
  {
    if s == [] || s[|s| - 1].ackedAt <= x.ackedAt then s + [x]
    else Insert(s[..|s| - 1], x) + [s[|s| - 1]]
  }

  function SortByAck(c: seq<Entry>): (r: seq<Entry>)
    ensures |r| == |c|
  {
    if c == [] then [] else Insert(SortByAck(c[..|c| - 1]), c[|c| - 1])
  }

  lemma {:induction false} InsertMembers(s: seq<Entry>, x: Entry)
    ensures forall e :: e in Insert(s, x) <==> e == x || e in s
  {
    if s != [] && s[|s| - 1].ackedAt > x.ackedAt {
      InsertMembers(s[..|s| - 1], x);
      assert s == s[..|s| - 1] + [s[|s| - 1]];
    }
  }

  lemma {:induction false} SortMembers(c: seq<Entry>)
    ensures forall e :: e in SortByAck(c) <==> e in c
  {
    if c != [] {
      SortMembers(c[..|c| - 1]);
      InsertMembers(SortByAck(c[..|c| - 1]), c[|c| - 1]);
      assert c == c[..|c| - 1] + [c[|c| - 1]];
    }
  }

  predicate Sorted(s: seq<Entry>) {
    forall i, j :: 0 <= i < j < |s| ==> s[i].ackedAt <= s[j].ackedAt
  }

  lemma {:induction false} InsertSorted(s: seq<Entry>, x: Entry)
    requires Sorted(s) && DistinctIds(s)
    requires forall e :: e in s ==> e.id != x.id
    ensures Sorted(Insert(s, x)) && DistinctIds(Insert(s, x))
  {
    if s != [] && s[|s| - 1].ackedAt > x.ackedAt {
      var front := s[..|s| - 1];
      InsertSorted(front, x);
      InsertMembers(front, x);
      var r := Insert(front, x);
      forall i | 0 <= i < |r| ensures r[i].ackedAt <= s[|s| - 1].ackedAt && r[i].id != s[|s| - 1].id {
        assert r[i] in r;
        if r[i] != x {
          var k :| 0 <= k < |front| && front[k] == r[i];
        }
      }
    }
  }

  lemma {:induction false} SortSorted(c: seq<Entry>)
    requires DistinctIds(c)
    ensures Sorted(SortByAck(c)) && DistinctIds(SortByAck(c))
  {
    if c != [] {
      SortSorted(c[..|c| - 1]);
      SortMembers(c[..|c| - 1]);
      InsertSorted(SortByAck(c[..|c| - 1]), c[|c| - 1]);
    }
  }

  // ----- pruning -----------------------------------------------------------

  function Min(a: int, b: int): int { if a <= b then a else b }

  function Max(a: int, b: int): int { if a >= b then a else b }

  /** The ids of the first `n` entries. */
  function FirstIds(s: seq<Entry>, n: nat): (r: set<JobId>)
    requires n <= |s|
  {
    if n == 0 then {} else FirstIds(s, n - 1) + {s[n - 1].id}
  }

  lemma {:induction false} FirstIdsMembers(s: seq<Entry>, n: nat)
    requires n <= |s|
    ensures forall id :: id in FirstIds(s, n) <==> exists i :: 0 <= i < n && s[i].id == id
  {
    if n > 0 {
      FirstIdsMembers(s, n - 1);
      forall id | id in FirstIds(s, n) ensures exists i :: 0 <= i < n && s[i].id == id {
        if id in FirstIds(s, n - 1) {
          var i :| 0 <= i < n - 1 && s[i].id == id;
        } else {
          assert s[n - 1].id == id;
        }
      }
    }
  }

  /** The ids that size eviction removes: the oldest surplus by ack time. */
  function SurplusIds(c: seq<Entry>, max: int): set<JobId> {
    if |c| - max > 0 then FirstIds(SortByAck(c), Min(|c| - max, |c|)) else {}
  }

  function Prune(c: seq<Entry>, now: Time, ttl: Time, max: int): seq<Entry> {
    var alive := Drop(c, StaleIds(c, now, ttl));
    Drop(alive, SurplusIds(alive, max))
  }

  lemma {:induction false} DropKeepsDistinct(c: seq<Entry>, gone: set<JobId>)
    requires DistinctIds(c)
    ensures DistinctIds(Drop(c, gone))
  {
    if c != [] {
      var front := c[..|c| - 1];
      DropKeepsDistinct(front, gone);
      DropFacts(front, gone);
      var rest := Drop(front, gone);
      forall i | 0 <= i < |rest| ensures rest[i].id != c[|c| - 1].id {
        assert rest[i] in front;
      }
    }
  }

  lemma {:induction false} DropCount(c: seq<Entry>, gone: set<JobId>)
    requires DistinctIds(c)
    requires forall id :: id in gone ==> Has(c, id)
    ensures |Drop(c, gone)| == |c| - |gone|
    decreases |c|
  {
    if c == [] {
      assert gone == {};
    } else {
      var front, last := c[..|c| - 1], c[|c| - 1];
      forall id | id in gone - {last.id} ensures Has(front, id) {
        var i :| 0 <= i < |c| && c[i].id == id;
        assert front[i].id == id;
      }
      DropCount(front, gone - {last.id});
      DropSame(front, gone, gone - {last.id});
    }
  }

  lemma {:induction false} DropSame(c: seq<Entry>, a: set<JobId>, b: set<JobId>)
    requires forall e :: e in c ==> (e.id in a <==> e.id in b)
    ensures Drop(c, a) == Drop(c, b)
  {
    if c != [] {
      assert c[|c| - 1] in c;
      DropSame(c[..|c| - 1], a, b);
    }
  }

  lemma {:induction false} DropTwice(c: seq<Entry>, a: set<JobId>, b: set<JobId>)
    ensures Drop(Drop(c, a), b) == Drop(c, a + b)
  {
    if c != [] {
      var front := c[..|c| - 1];
      DropTwice(front, a, b);
      if c[|c| - 1].id !in a {
        var kept := Drop(front, a) + [c[|c| - 1]];
        assert kept[..|kept| - 1] == Drop(front, a);
      }
    }
  }

  lemma FirstIdsAsSet(s: seq<Entry>, n: nat)
    requires n <= |s|
    ensures IdSet(s[..n]) == FirstIds(s, n)
  {
    FirstIdsMembers(s, n);
    forall id | id in FirstIds(s, n) ensures id in IdSet(s[..n]) {
      var i :| 0 <= i < n && s[i].id == id;
      assert s[i] in s[..n];
    }
  }

  lemma {:induction false} FirstIdsCount(s: seq<Entry>, n: nat)
    requires n <= |s| && DistinctIds(s)
    ensures |FirstIds(s, n)| == n
  {
    if n > 0 {
      FirstIdsCount(s, n - 1);
      FirstIdsMembers(s, n - 1);
      assert s[n - 1].id !in FirstIds(s, n - 1);
    }
  }

  lemma {:induction false} SameEntry(c: seq<Entry>, a: Entry, b: Entry)
    requires DistinctIds(c) && a in c && b in c && a.id == b.id
    ensures a == b
  {
    var i :| 0 <= i < |c| && c[i] == a;
    var j :| 0 <= j < |c| && c[j] == b;
    assert i == j;
  }

  /** Pruning leaves at most `max` entries, none past a positive TTL, all taken
      unchanged from the cache; it drops only what it must: when the unexpired
      entries fit, all of them stay, and otherwise exactly `max` stay and each
      is at least as recent as any unexpired entry that was dropped. */
  lemma PruneBoundsCache(c: seq<Entry>, now: Time, ttl: Time, max: int)
    requires DistinctIds(c)
    ensures var p := Prune(c, now, ttl, max);
            var unexpired := e => e in c && (ttl <= 0.0 || !Stale(e, now, ttl));
            && DistinctIds(p)
            && |p| <= Max(max, 0)
            && (forall e :: e in p ==> unexpired(e))
            && (|p| < Max(max, 0) ==> forall e :: unexpired(e) ==> e in p)
            && (forall k, d :: k in p && unexpired(d) && d !in p ==> d.ackedAt <= k.ackedAt)
  {
    var gone := StaleIds(c, now, ttl);
    var alive := Drop(c, gone);
    DropFacts(c, gone);
    DropFacts(alive, SurplusIds(alive, max));
    DropKeepsDistinct(c, gone);
    forall e | e in c && (ttl <= 0.0 || !Stale(e, now, ttl)) ensures e in alive {
      NotStaleStays(c, e, now, ttl);
    }
    var s := SortByAck(alive);
    SortSorted(alive);
    var p := Prune(c, now, ttl, max);
    DropKeepsDistinct(alive, SurplusIds(alive, max));
    if |alive| - max > 0 {
      SurplusIsOldest(alive, max);
    } else {
      DropNothing(alive);
    }
  }

  lemma {:induction false} DropNothing(c: seq<Entry>)
    ensures Drop(c, {}) == c
  {
    if c != [] {
      DropNothing(c[..|c| - 1]);
      assert c == c[..|c| - 1] + [c[|c| - 1]];
    }
  }

  lemma {:induction false} SurplusIsOldest(alive: seq<Entry>, max: int)
    requires DistinctIds(alive) && |alive| > max
    ensures var p := Drop(alive, SurplusIds(alive, max));
            && |p| == Max(max, 0)
            && forall k, d :: k in p && d in alive && d !in p ==> d.ackedAt <= k.ackedAt
  {
    var s := SortByAck(alive);
    SortSorted(alive);
    SortMembers(alive);
    var n := Min(|alive| - max, |s|);
    FirstIdsCount(s, n);
    FirstIdsAreHeld(alive, s, n);
    DropCount(alive, FirstIds(s, n));
    DropFacts(alive, FirstIds(s, n));
    forall k, d | k in Drop(alive, FirstIds(s, n)) && d in alive && d !in Drop(alive, FirstIds(s, n))
      ensures d.ackedAt <= k.ackedAt
    {
      FirstAreOldest(alive, s, n, d, k);
    }
  }

  lemma {:induction false} FirstIdsAreHeld(alive: seq<Entry>, s: seq<Entry>, n: nat)
    requires n <= |s| && forall e :: e in s ==> e in alive
    ensures forall id :: id in FirstIds(s, n) ==> Has(alive, id)
  {
    FirstIdsMembers(s, n);
    forall id | id in FirstIds(s, n)
      ensures Has(alive, id)
    {
      var i :| 0 <= i < n && s[i].id == id;
      assert s[i] in alive;
    }
  }

  lemma {:induction false} FirstAreOldest(alive: seq<Entry>, s: seq<Entry>, n: nat, d: Entry, k: Entry)
    requires DistinctIds(alive) && n <= |s| && d in alive && k in alive && d.id in FirstIds(s, n) && k.id !in FirstIds(s, n)
    requires forall e :: e in s <==> e in alive
    requires Sorted(s)
    ensures d.ackedAt <= k.ackedAt
  {
    FirstIdsMembers(s, n);
    var i :| 0 <= i < n && s[i].id == d.id;
    SameEntry(alive, s[i], d);
    var j :| 0 <= j < |s| && s[j] == k;
    assert j >= n;
  }

  /** With a clock that does not run backwards and a cache within its bound, the
      entry just recorded survives the prune that follows exactly when the cache
      may hold anything and the entry did not outlive its TTL between the two
      clock readings: also on a re-acknowledgement, which keeps its old position,
      and also when acknowledgement times tie. */
  lemma JustAckedSurvives(c: seq<Entry>, e: Entry, now: Time, ttl: Time, max: int)
    requires DistinctIds(c) && |c| <= Max(max, 0)
    requires e.ackedAt <= now
    requires forall x :: x in c ==> x.ackedAt <= e.ackedAt
    ensures e in Prune(Record(c, e), now, ttl, max) <==>
            max >= 1 && (ttl <= 0.0 || now - e.ackedAt <= ttl)
  {
    var r := Record(c, e);
    RecordFacts(c, e);
    RecordKeepsDistinct(c, e);
    PruneBoundsCache(r, now, ttl, max);
    if max >= 1 && (ttl <= 0.0 || now - e.ackedAt <= ttl) {
      NotStaleStays(r, e, now, ttl);
      var gone := StaleIds(r, now, ttl);
      var kept := Drop(r, gone);
      DropFacts(r, gone);
      DropFacts(c, gone);
      DropFacts(kept, SurplusIds(kept, max));
      if |kept| > max {
        assert r == c + [e] && r[..|r| - 1] == c;
        assert kept == Drop(c, gone) + [e];
        DropKeepsDistinct(r, gone);
        NewestIsNotSurplus(Drop(c, gone), e, max);
      }
    }
  }

  lemma NotStaleStays(c: seq<Entry>, e: Entry, now: Time, ttl: Time)
    requires DistinctIds(c) && e in c
    requires ttl <= 0.0 || !Stale(e, now, ttl)
    ensures e.id !in StaleIds(c, now, ttl)
  {
    forall d | d in c && d.id == e.id ensures d == e {
      SameEntry(c, d, e);
    }
  }

  lemma NewestIsNotSurplus(c: seq<Entry>, e: Entry, max: int)
    requires DistinctIds(c + [e]) && 1 <= max == |c|
    requires forall x :: x in c ==> x.ackedAt <= e.ackedAt
    ensures e.id !in SurplusIds(c + [e], max)
  {
    NewestSortsLast(c, e);
    var s := SortByAck(c + [e]);
    SortSorted(c + [e]);
    assert s[|s| - 1] == e;
    FirstIdsMembers(s, 1);
  }

  lemma RecordKeepsDistinct(c: seq<Entry>, e: Entry)
    requires DistinctIds(c)
    ensures DistinctIds(Record(c, e))
  {
    var r := Record(c, e);
    if !Has(c, e.id) {
      assert forall i :: 0 <= i < |c| ==> c[i].id != e.id;
    }
  }

  /** Stability of the sort, where it matters: an entry recorded last, and not
      older than any other, sorts last even among ties. */
  lemma NewestSortsLast(c: seq<Entry>, e: Entry)
    requires forall x :: x in c ==> x.ackedAt <= e.ackedAt
    ensures SortByAck(c + [e]) == SortByAck(c) + [e]
  {
    assert (c + [e])[..|c + [e]| - 1] == c;
    var s := SortByAck(c);
    SortMembers(c);
    if s != [] {
      assert s[|s| - 1] in s;
    }
  }
}
