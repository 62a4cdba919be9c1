/** A stage's worker pool as a step machine. Workers take documents in queue order, look
    at the stage's abort flag once, and then act on their document one action at a time,
    in any interleaving; a collector, in any order and as late as it likes, looks at the
    outcomes and raises the flag at the first fatal one. */
module WorkerPool {
  import opened Messages

  type DocId = nat

  /** What a stage brings to its pool: the queue, the number of workers, how many actions
      each document gets, which of them ask the provider, and whose handling ends in a
      fatal error. */
  datatype Plan = Plan(
    queue: seq<DocId>, workers: nat, limit: DocId -> nat, asks: (DocId, nat) -> bool, fatal: DocId -> bool)

  ghost predicate PlanOk(plan: Plan) {
    Distinct(plan.queue) && plan.workers >= 1
  }

  /** `free`: idle workers; `took`: taken by a worker that has not looked at the flag; `busy`: being handled,
      `progress` actions so far; `over`: handled; `skipped`: found the flag raised;
      `collected`: outcome seen by the collector. */
  datatype Pool = Pool(
    free: nat, taken: nat, took: set<DocId>, busy: set<DocId>, progress: map<DocId, nat>,
    over: set<DocId>, skipped: set<DocId>, collected: set<DocId>, abort: bool)

  datatype Move = Take | Check(id: DocId) | Act(id: DocId) | End(id: DocId) | Collect(id: DocId)

  function Start(plan: Plan): Pool {
    Pool(plan.workers, 0, {}, {}, map[], {}, {}, {}, false)
  }

  predicate Enabled(plan: Plan, p: Pool, m: Move) {
    match m
    case Take => p.taken < |plan.queue| && p.free > 0
    case Check(id) => id in p.took
    case Act(id) => id in p.busy && id in p.progress && p.progress[id] < plan.limit(id)
    case End(id) => id in p.busy && id in p.progress && p.progress[id] == plan.limit(id)
    case Collect(id) => id in p.over && id !in p.collected
  }

  function Next(plan: Plan, p: Pool, m: Move): Pool
    requires Enabled(plan, p, m)
  {
    match m
    case Take => p.(free := p.free - 1, taken := p.taken + 1, took := p.took + {plan.queue[p.taken]})
    case Check(id) =>
      if p.abort then p.(free := p.free + 1, took := p.took - {id}, skipped := p.skipped + {id})
      else p.(took := p.took - {id}, busy := p.busy + {id}, progress := p.progress[id := 0])
    case Act(id) => p.(progress := p.progress[id := p.progress[id] + 1])
    case End(id) => p.(free := p.free + 1, busy := p.busy - {id}, over := p.over + {id})
    case Collect(id) => p.(collected := p.collected + {id}, abort := p.abort || plan.fatal(id))
  }

  function Play(plan: Plan, p: Pool, moves: seq<Move>): Option<Pool> {
    if moves == [] then Some(p)
    else
      var before := Play(plan, p, moves[..|moves| - 1]);
      var m := moves[|moves| - 1];
      if before.Some? && Enabled(plan, before.value, m) then Some(Next(plan, before.value, m)) else None
  }

  predicate Finished(plan: Plan, p: Pool) {
    p.taken == |plan.queue| && p.took == {} && p.busy == {} && p.collected == p.over
  }

  lemma {:induction false} Extend(plan: Plan, p: Pool, moves: seq<Move>, m: Move)
    requires Play(plan, p, moves).Some? && Enabled(plan, Play(plan, p, moves).value, m)
    ensures Play(plan, p, moves + [m]) == Some(Next(plan, Play(plan, p, moves).value, m))
  {
    assert (moves + [m])[..|moves|] == moves;
  }

  lemma {:induction false} Compose(plan: Plan, p: Pool, a: seq<Move>, b: seq<Move>)
    requires Play(plan, p, a).Some?
    ensures Play(plan, p, a + b) == Play(plan, Play(plan, p, a).value, b)
  {
    if b == [] {
      assert a + b == a;
    } else {
      var front := b[..|b| - 1];
      Compose(plan, p, a, front);
      assert (a + b)[..|a + b| - 1] == a + front;
    }
  }

  // ----- who holds what ----------------------------------------------------

  /** Each document taken is in one hand: just taken, being handled, handled or skipped. */
  ghost predicate Hands(plan: Plan, taken: nat, took: set<DocId>, busy: set<DocId>, over: set<DocId>, skipped: set<DocId>) {
    && taken <= |plan.queue|
    && took !! busy && took !! over && took !! skipped && busy !! over && busy !! skipped && over !! skipped
    && took + busy + over + skipped == Members(plan.queue[..taken])
  }

  function Members(ids: seq<DocId>): set<DocId> {
    set id | id in ids
  }

  /** No more are held than there are workers. */
  ghost predicate Manned(plan: Plan, free: nat, took: set<DocId>, busy: set<DocId>) {
    |took| + |busy| + free == plan.workers
  }

  /** How far each is: the handled ones all the way. */
  ghost predicate Measured(plan: Plan, busy: set<DocId>, over: set<DocId>, progress: map<DocId, nat>) {
    && progress.Keys == busy + over
    && (forall id :: id in progress ==> progress[id] <= plan.limit(id))
    && (forall id :: id in over && id in progress ==> progress[id] == plan.limit(id))
  }

  /** The flag is up exactly when a fatal outcome was collected, and documents are skipped
      only then. */
  ghost predicate Flagged(plan: Plan, over: set<DocId>, skipped: set<DocId>, collected: set<DocId>, abort: bool) {
    && collected <= over
    && (abort <==> exists id :: id in collected && plan.fatal(id))
    && (skipped != {} ==> abort)
  }

  ghost predicate Tidy(plan: Plan, p: Pool) {
    && Hands(plan, p.taken, p.took, p.busy, p.over, p.skipped)
    && Manned(plan, p.free, p.took, p.busy)
    && Measured(plan, p.busy, p.over, p.progress)
    && Flagged(plan, p.over, p.skipped, p.collected, p.abort)
  }

  lemma TakeKeepsHands(plan: Plan, taken: nat, took: set<DocId>, busy: set<DocId>, over: set<DocId>, skipped: set<DocId>)
    requires Hands(plan, taken, took, busy, over, skipped) && Distinct(plan.queue) && taken < |plan.queue|
    ensures plan.queue[taken] !in took + busy + over + skipped
    ensures Hands(plan, taken + 1, took + {plan.queue[taken]}, busy, over, skipped)
  {
    assert plan.queue[..taken + 1] == plan.queue[..taken] + [plan.queue[taken]];
    forall i | 0 <= i < taken
      ensures plan.queue[i] != plan.queue[taken]
    {
      DistinctAt(plan.queue, i, taken);
    }
    assert plan.queue[taken] !in Members(plan.queue[..taken]);
    assert Members(plan.queue[..taken + 1]) == Members(plan.queue[..taken]) + {plan.queue[taken]};
  }

  lemma CheckKeepsHands(plan: Plan, taken: nat, took: set<DocId>, busy: set<DocId>, over: set<DocId>, skipped: set<DocId>, id: DocId)
    requires Hands(plan, taken, took, busy, over, skipped) && id in took
    ensures Hands(plan, taken, took - {id}, busy + {id}, over, skipped)
    ensures Hands(plan, taken, took - {id}, busy, over, skipped + {id})
  {
  }

  lemma EndKeepsHands(plan: Plan, taken: nat, took: set<DocId>, busy: set<DocId>, over: set<DocId>, skipped: set<DocId>, id: DocId)
    requires Hands(plan, taken, took, busy, over, skipped) && id in busy
    ensures Hands(plan, taken, took, busy - {id}, over + {id}, skipped)
  {
  }

  lemma MoveKeepsHands(plan: Plan, p: Pool, m: Move)
    requires Enabled(plan, p, m) && Distinct(plan.queue) && Hands(plan, p.taken, p.took, p.busy, p.over, p.skipped)
    ensures var q := Next(plan, p, m); Hands(plan, q.taken, q.took, q.busy, q.over, q.skipped)
  {
    match m
    case Take => TakeKeepsHands(plan, p.taken, p.took, p.busy, p.over, p.skipped);
    case Check(id) => CheckKeepsHands(plan, p.taken, p.took, p.busy, p.over, p.skipped, id);
    case Act(id) =>
    case End(id) => EndKeepsHands(plan, p.taken, p.took, p.busy, p.over, p.skipped, id);
    case Collect(id) =>
  }

  lemma MoveKeepsManned(plan: Plan, p: Pool, m: Move)
    requires Enabled(plan, p, m) && Distinct(plan.queue) && Hands(plan, p.taken, p.took, p.busy, p.over, p.skipped)
    requires Manned(plan, p.free, p.took, p.busy)
    ensures var q := Next(plan, p, m); Manned(plan, q.free, q.took, q.busy)
  {
    match m
    case Take => TakeKeepsHands(plan, p.taken, p.took, p.busy, p.over, p.skipped);
    case Check(id) =>
    case Act(id) =>
    case End(id) =>
    case Collect(id) =>
  }

  lemma MoveKeepsMeasured(plan: Plan, p: Pool, m: Move)
    requires Enabled(plan, p, m) && Hands(plan, p.taken, p.took, p.busy, p.over, p.skipped)
    requires Measured(plan, p.busy, p.over, p.progress)
    ensures var q := Next(plan, p, m); Measured(plan, q.busy, q.over, q.progress)
  {
    match m
    case Take =>
    case Check(id) => assert id !in p.over;
    case Act(id) => assert id !in p.over;
    case End(id) =>
    case Collect(id) =>
  }

  lemma CollectKeepsFlagged(plan: Plan, over: set<DocId>, skipped: set<DocId>, collected: set<DocId>, abort: bool, id: DocId)
    requires Flagged(plan, over, skipped, collected, abort) && id in over
    ensures Flagged(plan, over, skipped, collected + {id}, abort || plan.fatal(id))
  {
    if abort {
      var f :| f in collected && plan.fatal(f);
      assert f in collected + {id};
    }
  }

  lemma MoveKeepsFlagged(plan: Plan, p: Pool, m: Move)
    requires Enabled(plan, p, m) && Flagged(plan, p.over, p.skipped, p.collected, p.abort)
    ensures var q := Next(plan, p, m); Flagged(plan, q.over, q.skipped, q.collected, q.abort)
  {
    match m
    case Take =>
    case Check(id) =>
    case Act(id) =>
    case End(id) =>
    case Collect(id) => CollectKeepsFlagged(plan, p.over, p.skipped, p.collected, p.abort, id);
  }

  lemma MoveKeepsTidy(plan: Plan, p: Pool, m: Move)
    requires Enabled(plan, p, m) && Distinct(plan.queue) && Tidy(plan, p)
    ensures Tidy(plan, Next(plan, p, m))
  {
    MoveKeepsHands(plan, p, m);
    MoveKeepsManned(plan, p, m);
    MoveKeepsMeasured(plan, p, m);
    MoveKeepsFlagged(plan, p, m);
  }

  lemma StartIsTidy(plan: Plan)
    ensures Tidy(plan, Start(plan))
  {
    assert plan.queue[..0] == [];
  }

  lemma {:induction false} PlayKeepsTidy(plan: Plan, p: Pool, moves: seq<Move>)
    requires PlanOk(plan) && Tidy(plan, p) && Play(plan, p, moves).Some?
    ensures Tidy(plan, Play(plan, p, moves).value)
  {
    if moves != [] {
      PlayKeepsTidy(plan, p, moves[..|moves| - 1]);
      MoveKeepsTidy(plan, Play(plan, p, moves[..|moves| - 1]).value, moves[|moves| - 1]);
    }
  }

  lemma {:induction false} ReachableIsTidy(plan: Plan, moves: seq<Move>)
    requires PlanOk(plan) && Play(plan, Start(plan), moves).Some?
    ensures Tidy(plan, Play(plan, Start(plan), moves).value)
  {
    StartIsTidy(plan);
    PlayKeepsTidy(plan, Start(plan), moves);
  }

  lemma HeldAreQueued(plan: Plan, p: Pool, id: DocId)
    requires Hands(plan, p.taken, p.took, p.busy, p.over, p.skipped)
    ensures id in p.took || id in p.busy || id in p.over || id in p.skipped ==> id in plan.queue
  {
    if id in p.took + p.busy + p.over + p.skipped {
      assert id in Members(plan.queue[..p.taken]);
    }
  }

  /** At the end the flag is up exactly if some document was fatal: the flag spares others,
      never the first that fails. */
  lemma FinishedAbortsIff(plan: Plan, p: Pool)
    requires Tidy(plan, p) && Finished(plan, p)
    ensures p.abort <==> exists id :: id in plan.queue && plan.fatal(id)
  {
    if id :| id in plan.queue && plan.fatal(id) {
      assert plan.queue[..p.taken] == plan.queue;
      assert id in Members(plan.queue[..p.taken]);
      assert id in p.over || id in p.skipped;
    }
    if p.abort {
      var id :| id in p.collected && plan.fatal(id);
      HeldAreQueued(plan, p, id);
    }
  }

  // ----- every schedule ends -----------------------------------------------

  /** Moves a document still needs. */
  function Left(plan: Plan, p: Pool, id: DocId): nat {
    if id in p.skipped || id in p.collected then 0
    else if id in p.over then 1
    else if id in p.busy && id in p.progress && p.progress[id] <= plan.limit(id) then 2 + plan.limit(id) - p.progress[id]
    else if id in p.took then 3 + plan.limit(id)
    else 4 + plan.limit(id)
  }

  function TotalLeft(plan: Plan, p: Pool, ids: seq<DocId>): nat {
    if ids == [] then 0 else TotalLeft(plan, p, ids[..|ids| - 1]) + Left(plan, p, ids[|ids| - 1])
  }

  function Moved(plan: Plan, p: Pool, m: Move): DocId
    requires Enabled(plan, p, m)
  {
    if m.Take? then plan.queue[p.taken] else m.id
  }

  lemma OthersLeft(plan: Plan, p: Pool, m: Move, id: DocId)
    requires Enabled(plan, p, m) && id != Moved(plan, p, m)
    ensures Left(plan, Next(plan, p, m), id) == Left(plan, p, id)
  {
  }

  lemma TakeUsesOne(plan: Plan, p: Pool)
    requires PlanOk(plan) && Enabled(plan, p, Take) && Hands(plan, p.taken, p.took, p.busy, p.over, p.skipped) && p.collected <= p.over
    ensures Left(plan, Next(plan, p, Take), plan.queue[p.taken]) < Left(plan, p, plan.queue[p.taken])
  {
    TakeKeepsHands(plan, p.taken, p.took, p.busy, p.over, p.skipped);
  }

  lemma CheckUsesOne(plan: Plan, p: Pool, id: DocId)
    requires Enabled(plan, p, Check(id)) && Hands(plan, p.taken, p.took, p.busy, p.over, p.skipped) && p.collected <= p.over
    ensures Left(plan, Next(plan, p, Check(id)), id) < Left(plan, p, id)
  {
    assert id !in p.busy && id !in p.over && id !in p.skipped;
  }

  lemma ActOrEndUsesOne(plan: Plan, p: Pool, m: Move)
    requires Enabled(plan, p, m) && (m.Act? || m.End?) && Hands(plan, p.taken, p.took, p.busy, p.over, p.skipped) && p.collected <= p.over
    ensures Left(plan, Next(plan, p, m), m.id) < Left(plan, p, m.id)
  {
    assert m.id !in p.took && m.id !in p.over && m.id !in p.skipped;
  }

  lemma CollectUsesOne(plan: Plan, p: Pool, id: DocId)
    requires Enabled(plan, p, Collect(id)) && Hands(plan, p.taken, p.took, p.busy, p.over, p.skipped)
    ensures Left(plan, Next(plan, p, Collect(id)), id) < Left(plan, p, id)
  {
    assert id !in p.skipped;
  }

  lemma MoveUsesOne(plan: Plan, p: Pool, m: Move)
    requires PlanOk(plan) && Enabled(plan, p, m) && Hands(plan, p.taken, p.took, p.busy, p.over, p.skipped) && p.collected <= p.over
    ensures Left(plan, Next(plan, p, m), Moved(plan, p, m)) < Left(plan, p, Moved(plan, p, m))
  {
    match m
    case Take => TakeUsesOne(plan, p);
    case Check(id) => CheckUsesOne(plan, p, id);
    case Act(id) => ActOrEndUsesOne(plan, p, m);
    case End(id) => ActOrEndUsesOne(plan, p, m);
    case Collect(id) => CollectUsesOne(plan, p, id);
  }

  lemma {:induction false} TotalFalls(plan: Plan, p: Pool, q: Pool, moved: DocId, ids: seq<DocId>)
    requires forall id :: id != moved ==> Left(plan, q, id) == Left(plan, p, id)
    requires Left(plan, q, moved) < Left(plan, p, moved)
    ensures TotalLeft(plan, q, ids) <= TotalLeft(plan, p, ids)
    ensures moved in ids ==> TotalLeft(plan, q, ids) < TotalLeft(plan, p, ids)
  {
    if ids != [] {
      TotalFalls(plan, p, q, moved, ids[..|ids| - 1]);
      assert ids == ids[..|ids| - 1] + [ids[|ids| - 1]];
    }
  }

  lemma MovedIsQueued(plan: Plan, p: Pool, m: Move)
    requires Enabled(plan, p, m) && Tidy(plan, p)
    ensures Moved(plan, p, m) in plan.queue
  {
    if !m.Take? {
      assert m.id in Members(plan.queue[..p.taken]);
    }
  }

  /** Every move leaves fewer to make. */
  lemma EveryMoveCounts(plan: Plan, p: Pool, m: Move)
    requires PlanOk(plan) && Enabled(plan, p, m) && Tidy(plan, p)
    ensures TotalLeft(plan, Next(plan, p, m), plan.queue) < TotalLeft(plan, p, plan.queue)
  {
    forall id | id != Moved(plan, p, m)
      ensures Left(plan, Next(plan, p, m), id) == Left(plan, p, id)
    {
      OthersLeft(plan, p, m, id);
    }
    MoveUsesOne(plan, p, m);
    MovedIsQueued(plan, p, m);
    TotalFalls(plan, p, Next(plan, p, m), Moved(plan, p, m), plan.queue);
  }

  /** And until everything is handled and collected there is one to make. */
  lemma SomeMove(plan: Plan, p: Pool) returns (m: Move)
    requires PlanOk(plan) && Tidy(plan, p) && !Finished(plan, p)
    ensures Enabled(plan, p, m)
  {
    if id :| id in p.took {
      m := Check(id);
    } else if id :| id in p.busy {
      m := if p.progress[id] < plan.limit(id) then Act(id) else End(id);
    } else if id :| id in p.over && id !in p.collected {
      m := Collect(id);
    } else {
      TakeIsLeft(plan, p);
      m := Take;
    }
  }

  lemma TakeIsLeft(plan: Plan, p: Pool)
    requires plan.workers >= 1 && p.taken <= |plan.queue| && Manned(plan, p.free, p.took, p.busy)
    requires p.collected <= p.over && !Finished(plan, p)
    requires (forall id :: id !in p.took) && (forall id :: id !in p.busy) && forall id :: id in p.over ==> id in p.collected
    ensures Enabled(plan, p, Take)
  {
    assert p.took == {} && p.busy == {} && p.collected == p.over;
  }

  /** So from every state the pool comes to an end, and cannot go on for ever. */
  lemma {:induction false} PoolDrains(plan: Plan, p: Pool) returns (moves: seq<Move>)
    requires PlanOk(plan) && Tidy(plan, p)
    ensures Play(plan, p, moves).Some? && Finished(plan, Play(plan, p, moves).value)
    decreases TotalLeft(plan, p, plan.queue)
  {
    moves := [];
    if !Finished(plan, p) {
      var m := SomeMove(plan, p);
      EveryMoveCounts(plan, p, m);
      MoveKeepsTidy(plan, p, m);
      var rest := PoolDrains(plan, Next(plan, p, m));
      BeginsWith(plan, p, m, rest);
      moves := [m] + rest;
    }
  }

  lemma {:induction false} BeginsWith(plan: Plan, p: Pool, m: Move, rest: seq<Move>)
    requires Enabled(plan, p, m) && Play(plan, Next(plan, p, m), rest).Some?
    ensures Play(plan, p, [m] + rest) == Play(plan, Next(plan, p, m), rest)
  {
    Extend(plan, p, [], m);
    assert [] + [m] == [m];
    Compose(plan, p, [m], rest);
  }
}
