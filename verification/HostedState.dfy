/** The agent's two durable files. Each method is one atomic file write, so a crash
    leaves the file as it was before or after the call. */
module HostedState {
  import opened Messages

  // ----- the job cursor ----------------------------------------------------

  datatype Stage = Pulled | Executing | Executed | Acked

  function StageRank(s: Stage): nat {
    match s
    case Pulled => 0
    case Executing => 1
    case Executed => 2
    case Acked => 3
  }

  type Cursor = map<JobId, Stage>

  /** -1 for a job never seen. */
  function Rank(c: Cursor, id: JobId): int {
    if id in c then StageRank(c[id]) else -1
  }

  predicate AtLeast(c: Cursor, id: JobId, s: Stage) {
    Rank(c, id) >= StageRank(s)
  }

  function Advance(c: Cursor, id: JobId, s: Stage): Cursor {
    if AtLeast(c, id, s) then c else c[id := s]
  }

  /** An advance reaches its stage, never takes any job backwards, and touches no
      other job; advances of one job commute, so the file remembers the furthest
      stage ever reported in whatever order reports come. */
  lemma AdvanceIsMonotone(c: Cursor, id: JobId, s: Stage, other: JobId, t: Stage)
    ensures Rank(Advance(c, id, s), id) == if Rank(c, id) >= StageRank(s) then Rank(c, id) else StageRank(s)
    ensures AtLeast(Advance(c, id, s), id, s)
    ensures Rank(Advance(c, id, s), other) >= Rank(c, other)
    ensures other != id ==> Rank(Advance(c, id, s), other) == Rank(c, other)
    ensures Advance(Advance(c, id, s), id, t) == Advance(Advance(c, id, t), id, s)
    ensures Advance(Advance(c, id, s), id, s) == Advance(c, id, s)
  {
  }

  class JobCursor {
    var stages: Cursor

    constructor (stages: Cursor)
      ensures this.stages == stages
    {
      this.stages := stages;
    }

    method IsAtLeast(id: JobId, stage: Stage) returns (b: bool)
      ensures b <==> AtLeast(stages, id, stage)
    {
      var rank := if id in stages then StageRank(stages[id]) else -1;
      b := rank >= StageRank(stage);
    }

    method AdvanceTo(id: JobId, stage: Stage)
      modifies this
      ensures stages == Advance(old(stages), id, stage)
    {
      var rank := if id in stages then StageRank(stages[id]) else -1;
      if rank < StageRank(stage) {
        stages := stages[id := stage];
      }
    }
  }

  // ----- the result queue --------------------------------------------------

  function ItemIds(q: seq<Item>): (r: seq<JobId>)
    ensures |r| == |q|
  {
    if q == [] then [] else ItemIds(q[..|q| - 1]) + [q[|q| - 1].id]
  }

  lemma {:induction false} ItemIdAt(q: seq<Item>, i: nat)
    requires i < |q|
    ensures ItemIds(q)[i] == q[i].id
  {
    if i < |q| - 1 {
      ItemIdAt(q[..|q| - 1], i);
    }
  }

  function Unqueue(q: seq<Item>, id: JobId): seq<Item> {
    if q == [] then []
    else
      var rest := Unqueue(q[..|q| - 1], id);
      if q[|q| - 1].id == id then rest else rest + [q[|q| - 1]]
  }

  function Enqueue(q: seq<Item>, item: Item): seq<Item> {
    Unqueue(q, item.id) + [item]
  }

  lemma {:induction false} EnqueueLength(q: seq<Item>, item: Item)
    ensures |Unqueue(q, item.id)| <= |q| && |Enqueue(q, item)| <= |q| + 1
  {
    if q != [] {
      EnqueueLength(q[..|q| - 1], item);
    }
  }

  /** The ids that have a result queued. */
  function Held(q: seq<Item>): set<JobId> {
    if q == [] then {} else Held(q[..|q| - 1]) + {q[|q| - 1].id}
  }

  lemma {:induction false} HeldMembers(q: seq<Item>)
    ensures forall id :: id in Held(q) <==> exists x :: x in q && x.id == id
    ensures forall id :: id in Held(q) <==> id in ItemIds(q)
  {
    if q != [] {
      var front, last := q[..|q| - 1], q[|q| - 1];
      HeldMembers(front);
      assert q == front + [last];
    }
  }

  lemma {:induction false} UnqueueMembers(q: seq<Item>, id: JobId)
    ensures forall x :: x in Unqueue(q, id) <==> x in q && x.id != id
  {
    if q != [] {
      UnqueueMembers(q[..|q| - 1], id);
      assert q == q[..|q| - 1] + [q[|q| - 1]];
    }
  }

  lemma {:induction false} UnqueueIds(q: seq<Item>, id: JobId)
    ensures ItemIds(Unqueue(q, id)) == Without(ItemIds(q), {id})
  {
    if q != [] {
      var front := q[..|q| - 1];
      UnqueueIds(front, id);
      assert ItemIds(q)[..|q| - 1] == ItemIds(front);
      var rest := Unqueue(front, id);
      assert (rest + [q[|q| - 1]])[..|rest|] == rest;
    }
  }

  /** Nothing is lost or duplicated by queueing: ids stay distinct, the new body is
      the only one held for its id, and every other entry keeps its order. */
  lemma EnqueueKeepsDistinct(q: seq<Item>, item: Item)
    requires Distinct(ItemIds(q))
    ensures Distinct(ItemIds(Enqueue(q, item)))
    ensures forall x :: x in Enqueue(q, item) <==> x == item || (x in q && x.id != item.id)
    ensures ItemIds(Enqueue(q, item)) == Without(ItemIds(q), {item.id}) + [item.id]
  {
    UnqueueIds(q, item.id);
    UnqueueMembers(q, item.id);
    WithoutMembers(ItemIds(q), {item.id});
    WithoutKeepsDistinct(ItemIds(q), {item.id});
    assert Enqueue(q, item)[..|Unqueue(q, item.id)|] == Unqueue(q, item.id);
  }

  lemma {:induction false} UnqueueAbsent(q: seq<Item>, id: JobId)
    requires id !in Held(q)
    ensures Unqueue(q, id) == q
  {
    if q != [] {
      UnqueueAbsent(q[..|q| - 1], id);
      assert q == q[..|q| - 1] + [q[|q| - 1]];
    }
  }

  lemma {:induction false} ItemIdsTail(q: seq<Item>)
    requires q != []
    ensures ItemIds(q) == [q[0].id] + ItemIds(q[1..])
  {
    if |q| > 1 {
      var front := q[..|q| - 1];
      ItemIdsTail(front);
      assert q[1..][..|q| - 2] == front[1..];
      assert q[1..][|q| - 2] == q[|q| - 1];
    }
  }

  /** Removing the oldest entry takes exactly it. */
  lemma {:induction false} UnqueueHead(q: seq<Item>)
    requires q != [] && q[0].id !in Held(q[1..])
    ensures Unqueue(q, q[0].id) == q[1..]
  {
    if |q| > 1 {
      var front := q[..|q| - 1];
      assert q[1..][..|q| - 2] == front[1..] && q[1..][|q| - 2] == q[|q| - 1];
      UnqueueHead(front);
      assert q[1..] == front[1..] + [q[|q| - 1]];
    }
  }

  lemma HeldTail(q: seq<Item>)
    requires q != []
    ensures Held(q) == Held(q[1..]) + {q[0].id}
  {
    HeldMembers(q);
    HeldMembers(q[1..]);
    assert q == [q[0]] + q[1..];
  }

  lemma TailIsDistinct(q: seq<Item>)
    requires q != [] && Distinct(ItemIds(q))
    ensures Distinct(ItemIds(q[1..])) && Held(q) == Held(q[1..]) + {q[0].id}
    ensures q[0].id !in Held(q[1..])
  {
    ItemIdsTail(q);
    DistinctTail(ItemIds(q));
    assert ItemIds(q)[1..] == ItemIds(q[1..]);
    HeldMembers(q[1..]);
    HeldTail(q);
  }

  class ResultQueue {
    var items: seq<Item>

    constructor (items: seq<Item>)
      ensures this.items == items
    {
      this.items := items;
    }

    /** The entries that are not for `id`: the rewrite both writes below share. */
    method Others(id: JobId) returns (rest: seq<Item>)
      ensures rest == Unqueue(items, id)
    {
      rest := [];
      for i := 0 to |items|
        invariant rest == Unqueue(items[..i], id)
      {
        assert items[..i + 1][..i] == items[..i];
        if items[i].id != id {
          rest := rest + [items[i]];
        }
      }
      assert items[..|items|] == items;
    }

    method Put(id: JobId, body: Body)
      modifies this
      ensures items == Enqueue(old(items), Item(id, body))
    {
      var rest := Others(id);
      items := rest + [Item(id, body)];
    }

    method Remove(id: JobId)
      modifies this
      ensures items == Unqueue(old(items), id)
    {
      items := Others(id);
    }

    method Contains(id: JobId) returns (b: bool)
      ensures b <==> id in Held(items)
    {
      HeldMembers(items);
      b := exists item :: item in items && item.id == id;
    }
  }
}
