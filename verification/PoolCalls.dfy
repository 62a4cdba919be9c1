/** What a worker pool can ask of the provider, over every schedule: each document is
    taken once; once the abort flag is up only the documents already past it can still be
    asked about, so at most one per worker; and when exactly no schedule asks anything
    after a fatal failure. */
module PoolCalls {
  import opened Messages
  import opened WorkerPool

  // ----- logs of a schedule ------------------------------------------------

  /** The documents a schedule takes from the queue, in order. */
  function Takes(plan: Plan, p: Pool, moves: seq<Move>): seq<DocId>
    requires Play(plan, p, moves).Some?
  {
    if moves == [] then []
    else
      var front, m := moves[..|moves| - 1], moves[|moves| - 1];
      Takes(plan, p, front) + if m.Take? then [plan.queue[Play(plan, p, front).value.taken]] else []
  }

  predicate IsCall(plan: Plan, p: Pool, m: Move) {
    m.Act? && m.id in p.progress && plan.asks(m.id, p.progress[m.id])
  }

  /** The documents a schedule asks the provider about, one entry per call. */
  function Calls(plan: Plan, p: Pool, moves: seq<Move>): seq<DocId>
    requires Play(plan, p, moves).Some?
  {
    if moves == [] then []
    else
      var front, m := moves[..|moves| - 1], moves[|moves| - 1];
      Calls(plan, p, front) + if IsCall(plan, Play(plan, p, front).value, m) then [m.id] else []
  }

  /** Calls among a document's first `n` actions. */
  function CallsIn(plan: Plan, id: DocId, n: nat): nat {
    if n == 0 then 0 else CallsIn(plan, id, n - 1) + if plan.asks(id, n - 1) then 1 else 0
  }

  lemma {:induction false} CallsGrow(plan: Plan, id: DocId, n: nat, m: nat)
    requires n <= m
    ensures CallsIn(plan, id, n) <= CallsIn(plan, id, m)
  {
    if n < m {
      CallsGrow(plan, id, n, m - 1);
    }
  }

  // ----- once each ---------------------------------------------------------

  /** In any schedule the documents taken are a prefix of the queue, so none twice; and
      none is in two hands at a time. */
  lemma {:induction false} TakenOnce(plan: Plan, moves: seq<Move>)
    requires PlanOk(plan) && Play(plan, Start(plan), moves).Some?
    ensures var p := Play(plan, Start(plan), moves).value;
            && p.taken <= |plan.queue| && Takes(plan, Start(plan), moves) == plan.queue[..p.taken]
            && Distinct(Takes(plan, Start(plan), moves))
            && p.took !! p.busy && (p.took + p.busy) !! (p.over + p.skipped)
  {
    ReachableIsTidy(plan, moves);
    TakesPrefix(plan, moves);
    DistinctPrefix(plan.queue, Play(plan, Start(plan), moves).value.taken);
  }

  lemma {:induction false} TakesPrefix(plan: Plan, moves: seq<Move>)
    requires Play(plan, Start(plan), moves).Some?
    ensures var p := Play(plan, Start(plan), moves).value;
            p.taken <= |plan.queue| && Takes(plan, Start(plan), moves) == plan.queue[..p.taken]
  {
    if moves != [] {
      var front := moves[..|moves| - 1];
      TakesPrefix(plan, front);
      var n := Play(plan, Start(plan), front).value.taken;
      if n < |plan.queue| {
        assert plan.queue[..n + 1] == plan.queue[..n] + [plan.queue[n]];
      }
    }
  }

  lemma {:induction false} DistinctPrefix(ids: seq<DocId>, n: nat)
    requires Distinct(ids) && n <= |ids|
    ensures Distinct(ids[..n])
  {
    if n < |ids| {
      DistinctPrefix(ids[..|ids| - 1], n);
      assert ids[..|ids| - 1][..n] == ids[..n];
    } else {
      assert ids[..n] == ids;
    }
  }

  function Times(ids: seq<DocId>, id: DocId): nat {
    if ids == [] then 0 else Times(ids[..|ids| - 1], id) + if ids[|ids| - 1] == id then 1 else 0
  }

  lemma TimesAppend(ids: seq<DocId>, x: DocId, id: DocId)
    ensures Times(ids + [x], id) == Times(ids, id) + if x == id then 1 else 0
  {
    assert (ids + [x])[..|ids|] == ids;
  }

  /** How often a document at this point was asked about. */
  function AskedSoFar(plan: Plan, p: Pool, id: DocId): nat {
    if id in p.progress then CallsIn(plan, id, p.progress[id]) else 0
  }

  /** A document is asked about exactly as often as its actions so far say, and so never
      more often than its whole handling would. */
  lemma {:induction false} CallsPerDocument(plan: Plan, moves: seq<Move>, id: DocId)
    requires PlanOk(plan) && Play(plan, Start(plan), moves).Some?
    ensures Times(Calls(plan, Start(plan), moves), id) == AskedSoFar(plan, Play(plan, Start(plan), moves).value, id)
    ensures Times(Calls(plan, Start(plan), moves), id) <= CallsIn(plan, id, plan.limit(id))
  {
    ReachableIsTidy(plan, moves);
    CallsCount(plan, moves, id);
    var p := Play(plan, Start(plan), moves).value;
    if id in p.progress {
      CallsGrow(plan, id, p.progress[id], plan.limit(id));
    }
  }

  lemma {:induction false} CallsCount(plan: Plan, moves: seq<Move>, id: DocId)
    requires PlanOk(plan) && Play(plan, Start(plan), moves).Some?
    ensures Times(Calls(plan, Start(plan), moves), id) == AskedSoFar(plan, Play(plan, Start(plan), moves).value, id)
  {
    if moves != [] {
      var front, m := moves[..|moves| - 1], moves[|moves| - 1];
      CallsCount(plan, front, id);
      ReachableIsTidy(plan, front);
      var p := Play(plan, Start(plan), front).value;
      AskedAfterMove(plan, p, m, id);
      LoggedTimes(Calls(plan, Start(plan), front), IsCall(plan, p, m), if m.Take? then 0 else m.id, id);
    }
  }

  lemma LoggedTimes(calls: seq<DocId>, made: bool, x: DocId, id: DocId)
    ensures Times(calls + if made then [x] else [], id) == Times(calls, id) + if made && x == id then 1 else 0
  {
    if made {
      TimesAppend(calls, x, id);
    } else {
      assert calls + [] == calls;
    }
  }

  lemma AskedAfterMove(plan: Plan, p: Pool, m: Move, id: DocId)
    requires Enabled(plan, p, m) && Hands(plan, p.taken, p.took, p.busy, p.over, p.skipped)
    requires Measured(plan, p.busy, p.over, p.progress)
    ensures AskedSoFar(plan, Next(plan, p, m), id)
            == AskedSoFar(plan, p, id) + if IsCall(plan, p, m) && m.id == id then 1 else 0
  {
    if m.Check? {
      assert m.id !in p.progress;
    }
  }

  // ----- once the flag is up -----------------------------------------------

  /** From then on no document passes the flag: only those being handled are still asked
      about. */
  lemma {:induction false} FlagStops(plan: Plan, p: Pool, moves: seq<Move>)
    requires p.abort && Play(plan, p, moves).Some?
    ensures var q := Play(plan, p, moves).value; q.abort && q.busy <= p.busy
    ensures forall id :: id in Calls(plan, p, moves) ==> id in p.busy
  {
    if moves != [] {
      FlagStops(plan, p, moves[..|moves| - 1]);
    }
  }

  lemma {:induction false} SmallerSet(a: set<DocId>, b: set<DocId>)
    requires a <= b
    ensures |a| <= |b|
  {
    if a != {} {
      var x :| x in a;
      SmallerSet(a - {x}, b - {x});
    }
  }

  /** Once the abort flag is up, however the schedule goes on, at most as many further
      documents are asked about as there are workers, and all of them were being handled
      when it went up. */
  lemma {:induction false} AtMostOnePerWorker(plan: Plan, moves: seq<Move>, more: seq<Move>)
    requires PlanOk(plan) && Play(plan, Start(plan), moves).Some?
    requires var p := Play(plan, Start(plan), moves).value; p.abort && Play(plan, p, more).Some?
    ensures var p := Play(plan, Start(plan), moves).value;
            Members(Calls(plan, p, more)) <= p.busy && |Members(Calls(plan, p, more))| <= plan.workers
  {
    var p := Play(plan, Start(plan), moves).value;
    ReachableIsTidy(plan, moves);
    FlagStops(plan, p, more);
    SmallerSet(Members(Calls(plan, p, more)), p.busy);
  }

  // ----- building schedules ------------------------------------------------

  /** Acts on a document being handled up to its `n`-th action. */
  lemma {:induction false} ActUpTo(plan: Plan, moves: seq<Move>, id: DocId, n: nat) returns (more: seq<Move>)
    requires Play(plan, Start(plan), moves).Some?
    requires var p := Play(plan, Start(plan), moves).value; id in p.busy && id in p.progress && p.progress[id] <= n <= plan.limit(id)
    ensures var p := Play(plan, Start(plan), moves).value;
            Play(plan, Start(plan), more) == Some(p.(progress := p.progress[id := n]))
  {
    var p := Play(plan, Start(plan), moves).value;
    more := moves;
    var k := p.progress[id];
    assert p.progress[id := k] == p.progress;
    while k < n
      invariant p.progress[id] <= k <= n
      invariant Play(plan, Start(plan), more) == Some(p.(progress := p.progress[id := k]))
    {
      Extend(plan, Start(plan), more, Act(id));
      more := more + [Act(id)];
      assert p.progress[id := k][id := k + 1] == p.progress[id := k + 1];
      k := k + 1;
    }
  }

  /** An idle worker takes the next document, passes the flag and acts `n` times. */
  lemma {:induction false} Hold(plan: Plan, moves: seq<Move>, n: nat) returns (more: seq<Move>)
    requires Play(plan, Start(plan), moves).Some?
    requires var p := Play(plan, Start(plan), moves).value;
             && !p.abort && p.free > 0 && p.taken < |plan.queue| && n <= plan.limit(plan.queue[p.taken])
             && plan.queue[p.taken] !in p.took
    ensures var p := Play(plan, Start(plan), moves).value;
            var id := plan.queue[p.taken];
            Play(plan, Start(plan), more)
            == Some(p.(free := p.free - 1, taken := p.taken + 1, busy := p.busy + {id}, progress := p.progress[id := n]))
  {
    var p := Play(plan, Start(plan), moves).value;
    var id := plan.queue[p.taken];
    Extend(plan, Start(plan), moves, Take);
    more := moves + [Take];
    Extend(plan, Start(plan), more, Check(id));
    more := more + [Check(id)];
    assert p.took + {id} - {id} == p.took;
    more := ActUpTo(plan, more, id, n);
    assert p.progress[id := 0][id := n] == p.progress[id := n];
  }

  /** An idle worker takes the next document and handles it to the end. */
  lemma {:induction false} Serve(plan: Plan, moves: seq<Move>) returns (more: seq<Move>)
    requires Play(plan, Start(plan), moves).Some?
    requires var p := Play(plan, Start(plan), moves).value;
             !p.abort && p.free > 0 && p.taken < |plan.queue| && plan.queue[p.taken] !in p.took + p.busy
    ensures var p := Play(plan, Start(plan), moves).value;
            var id := plan.queue[p.taken];
            Play(plan, Start(plan), more)
            == Some(p.(taken := p.taken + 1, over := p.over + {id}, progress := p.progress[id := plan.limit(id)]))
  {
    var p := Play(plan, Start(plan), moves).value;
    var id := plan.queue[p.taken];
    more := Hold(plan, moves, plan.limit(id));
    Extend(plan, Start(plan), more, End(id));
    more := more + [End(id)];
    assert p.busy + {id} - {id} == p.busy;
  }

  lemma {:induction false} NextIsFresh(plan: Plan, moves: seq<Move>)
    requires PlanOk(plan) && Play(plan, Start(plan), moves).Some?
    requires Play(plan, Start(plan), moves).value.taken < |plan.queue|
    ensures var p := Play(plan, Start(plan), moves).value; plan.queue[p.taken] !in p.took + p.busy
  {
    ReachableIsTidy(plan, moves);
    var p := Play(plan, Start(plan), moves).value;
    TakeKeepsHands(plan, p.taken, p.took, p.busy, p.over, p.skipped);
  }

  /** `q` is `p` with every document before position `n` served and nothing else done. */
  ghost predicate Served(plan: Plan, p: Pool, q: Pool, n: nat) {
    && p.taken <= n <= |plan.queue| && q.taken == n
    && q.free == p.free && q.took == p.took && q.busy == p.busy && q.abort == p.abort && q.collected == p.collected
    && (forall i :: p.taken <= i < n ==> plan.queue[i] in q.over)
    && p.over <= q.over
    && (forall id :: id in p.busy && id in p.progress ==> id in q.progress && q.progress[id] == p.progress[id])
  }

  lemma ServedOneMore(plan: Plan, p: Pool, q: Pool)
    requires Served(plan, p, q, q.taken) && q.taken < |plan.queue| && plan.queue[q.taken] !in p.busy
    ensures var id := plan.queue[q.taken];
            Served(plan, p, q.(taken := q.taken + 1, over := q.over + {id}, progress := q.progress[id := plan.limit(id)]),
                   q.taken + 1)
  {
  }

  /** Serves every document before position `n`; the collector sleeps. */
  lemma {:induction false} ServeUpTo(plan: Plan, moves: seq<Move>, n: nat) returns (more: seq<Move>)
    requires PlanOk(plan) && Play(plan, Start(plan), moves).Some?
    requires var p := Play(plan, Start(plan), moves).value; !p.abort && p.free > 0 && p.taken <= n <= |plan.queue|
    ensures Play(plan, Start(plan), more).Some?
    ensures Served(plan, Play(plan, Start(plan), moves).value, Play(plan, Start(plan), more).value, n)
  {
    more := moves;
    var p := Play(plan, Start(plan), moves).value;
    var k := p.taken;
    while k < n
      invariant k <= n && Play(plan, Start(plan), more).Some?
      invariant Served(plan, p, Play(plan, Start(plan), more).value, k)
    {
      var q := Play(plan, Start(plan), more).value;
      NextIsFresh(plan, more);
      ServedOneMore(plan, p, q);
      more := Serve(plan, more);
      k := k + 1;
    }
  }

  // ----- the bound is attained ---------------------------------------------

  /** Does the document's handling get as far as a call? Then this is the first. */
  predicate GetsToCall(plan: Plan, id: DocId) {
    CallsIn(plan, id, plan.limit(id)) > 0
  }

  lemma {:induction false} FirstCall(plan: Plan, id: DocId, n: nat) returns (k: nat)
    requires CallsIn(plan, id, n) > 0
    ensures k < n && plan.asks(id, k) && CallsIn(plan, id, k) == 0
  {
    if CallsIn(plan, id, n - 1) > 0 {
      k := FirstCall(plan, id, n - 1);
    } else {
      k := n - 1;
    }
  }

  /** Every worker holds a document, just before its first call. */
  ghost predicate Poised(plan: Plan, p: Pool, from: nat, upTo: nat) {
    && from <= upTo <= |plan.queue| && p.taken == upTo
    && (forall i :: from <= i < upTo ==>
          plan.queue[i] in p.busy && plan.queue[i] in p.progress && plan.asks(plan.queue[i], p.progress[plan.queue[i]])
          && p.progress[plan.queue[i]] < plan.limit(plan.queue[i]))
  }

  /** Idle workers take the next documents, each up to its first call. */
  lemma {:induction false} PoiseAll(plan: Plan, moves: seq<Move>, n: nat) returns (more: seq<Move>)
    requires PlanOk(plan) && Play(plan, Start(plan), moves).Some?
    requires var p := Play(plan, Start(plan), moves).value;
             && !p.abort && p.free >= n && p.taken + n <= |plan.queue|
             && forall i :: p.taken <= i < p.taken + n ==> GetsToCall(plan, plan.queue[i])
    ensures Play(plan, Start(plan), more).Some?
    ensures var p, q := Play(plan, Start(plan), moves).value, Play(plan, Start(plan), more).value;
            && Poised(plan, q, p.taken, p.taken + n) && q.over == p.over && q.collected == p.collected && q.abort == p.abort
  {
    var p := Play(plan, Start(plan), moves).value;
    more := moves;
    for k := 0 to n
      invariant Play(plan, Start(plan), more).Some?
      invariant var q := Play(plan, Start(plan), more).value;
                && Poised(plan, q, p.taken, p.taken + k) && q.over == p.over && q.collected == p.collected && q.abort == p.abort
                && q.free == p.free - k
    {
      var q := Play(plan, Start(plan), more).value;
      var id := plan.queue[q.taken];
      NextIsFresh(plan, more);
      var first := FirstCall(plan, id, plan.limit(id));
      PoisedOneMore(plan, q, p.taken, first);
      more := Hold(plan, more, first);
    }
  }

  lemma PoisedOneMore(plan: Plan, q: Pool, from: nat, first: nat)
    requires Poised(plan, q, from, q.taken) && q.taken < |plan.queue| && plan.queue[q.taken] !in q.busy && q.free > 0
    requires first < plan.limit(plan.queue[q.taken]) && plan.asks(plan.queue[q.taken], first)
    ensures var id := plan.queue[q.taken];
            Poised(plan, q.(free := q.free - 1, taken := q.taken + 1, busy := q.busy + {id}, progress := q.progress[id := first]),
                   from, q.taken + 1)
  {
  }

  lemma {:induction false} CallOne(plan: Plan, p: Pool, moves: seq<Move>, id: DocId)
    requires Play(plan, p, moves).Some?
    requires var q := Play(plan, p, moves).value;
             id in q.busy && id in q.progress && q.progress[id] < plan.limit(id) && plan.asks(id, q.progress[id])
    ensures var q := Play(plan, p, moves).value;
            Play(plan, p, moves + [Act(id)]) == Some(q.(progress := q.progress[id := q.progress[id] + 1]))
    ensures Play(plan, p, moves + [Act(id)]).Some?
    ensures Calls(plan, p, moves + [Act(id)]) == Calls(plan, p, moves) + [id]
  {
    Extend(plan, p, moves, Act(id));
    assert (moves + [Act(id)])[..|moves|] == moves;
  }

  /** After `n` of the poised documents have called, the others are still poised. */
  ghost predicate StillPoised(plan: Plan, p: Pool, q: Pool, from: nat, upTo: nat) {
    && upTo <= |plan.queue| && q.busy == p.busy
    && forall i :: from <= i < upTo ==>
         plan.queue[i] in p.progress && plan.queue[i] in q.progress && q.progress[plan.queue[i]] == p.progress[plan.queue[i]]
  }

  lemma FewerPoised(plan: Plan, p: Pool, q: Pool, from: nat, upTo: nat, n: nat)
    requires StillPoised(plan, p, q, from, upTo) && Distinct(plan.queue) && from < upTo
    ensures var id := plan.queue[from]; StillPoised(plan, p, q.(progress := q.progress[id := n]), from + 1, upTo)
  {
    forall i | from < i < upTo
      ensures plan.queue[i] != plan.queue[from]
    {
      DistinctAt(plan.queue, from, i);
    }
  }

  /** The next poised document calls. */
  lemma {:induction false} CallNext(plan: Plan, p: Pool, moves: seq<Move>, next: nat, upTo: nat)
    requires Distinct(plan.queue) && next < upTo && Play(plan, p, moves).Some?
    requires StillPoised(plan, p, Play(plan, p, moves).value, next, upTo)
    requires var id := plan.queue[next]; id in p.busy && p.progress[id] < plan.limit(id) && plan.asks(id, p.progress[id])
    ensures var more := moves + [Act(plan.queue[next])];
            && Play(plan, p, more).Some? && StillPoised(plan, p, Play(plan, p, more).value, next + 1, upTo)
            && Calls(plan, p, more) == Calls(plan, p, moves) + [plan.queue[next]]
  {
    var id := plan.queue[next];
    var q := Play(plan, p, moves).value;
    CallOne(plan, p, moves, id);
    FewerPoised(plan, p, q, next, upTo, q.progress[id] + 1);
  }

  /** Poised documents make their calls one after the other. */
  lemma CallAll(plan: Plan, p: Pool, from: nat, upTo: nat) returns (moves: seq<Move>)
    requires Poised(plan, p, from, upTo) && Distinct(plan.queue)
    ensures Play(plan, p, moves).Some?
    ensures Calls(plan, p, moves) == plan.queue[from..upTo]
  {
    moves := [];
    assert plan.queue[from..from] == [];
    for k := from to upTo
      invariant Play(plan, p, moves).Some? && Calls(plan, p, moves) == plan.queue[from..k]
      invariant StillPoised(plan, p, Play(plan, p, moves).value, k, upTo)
    {
      CallNext(plan, p, moves, k, upTo);
      SliceSnoc(plan.queue, from, k + 1);
      moves := moves + [Act(plan.queue[k])];
    }
  }

  lemma SliceSnoc(ids: seq<DocId>, from: nat, upTo: nat)
    requires from < upTo <= |ids|
    ensures ids[from..upTo] == ids[from..upTo - 1] + [ids[upTo - 1]]
  {
  }

  lemma {:induction false} DistinctCount(ids: seq<DocId>)
    requires Distinct(ids)
    ensures |Members(ids)| == |ids|
  {
    if ids != [] {
      var front := ids[..|ids| - 1];
      DistinctCount(front);
      assert ids == front + [ids[|ids| - 1]];
      assert Members(ids) == Members(front) + {ids[|ids| - 1]};
    }
  }

  /** No smaller bound holds: whenever the first document fails fatally and enough of the
      following ones would ask, some schedule has every worker ask about a further one
      after the flag went up. */
  lemma {:induction false} OnePerWorkerIsAttained(plan: Plan) returns (moves: seq<Move>, more: seq<Move>)
    requires PlanOk(plan) && |plan.queue| > plan.workers && plan.fatal(plan.queue[0])
    requires forall i :: 1 <= i <= plan.workers ==> GetsToCall(plan, plan.queue[i])
    ensures Play(plan, Start(plan), moves).Some? && Play(plan, Start(plan), moves).value.abort
    ensures Play(plan, Play(plan, Start(plan), moves).value, more).Some?
    ensures |Members(Calls(plan, Play(plan, Start(plan), moves).value, more))| == plan.workers
  {
    var first := plan.queue[0];
    moves := Serve(plan, []);
    moves := PoiseAll(plan, moves, plan.workers);
    var p := Play(plan, Start(plan), moves).value;
    Extend(plan, Start(plan), moves, Collect(first));
    moves := moves + [Collect(first)];
    var q := Play(plan, Start(plan), moves).value;
    assert Poised(plan, q, 1, 1 + plan.workers);
    more := CallAll(plan, q, 1, 1 + plan.workers);
    DistinctTail(plan.queue);
    DistinctPrefix(plan.queue[1..], plan.workers);
    assert plan.queue[1..1 + plan.workers] == plan.queue[1..][..plan.workers];
    DistinctCount(plan.queue[1..1 + plan.workers]);
  }

  // ----- when nothing is asked after a fatal failure -----------------------

  /** A call made although some document has already failed fatally. */
  ghost predicate LateCall(plan: Plan, p: Pool, m: Move) {
    Enabled(plan, p, m) && IsCall(plan, p, m) && exists f :: f in p.over && plan.fatal(f)
  }

  /** Some schedule makes a late call. */
  ghost predicate CanCallLate(plan: Plan) {
    exists moves, m :: Play(plan, Start(plan), moves).Some? && LateCall(plan, Play(plan, Start(plan), moves).value, m)
  }

  /** The document at `f` fails fatally and another, at `k`, gets as far as a call; with one
      worker, a later one. */
  predicate Pair(plan: Plan, f: nat, k: nat) {
    && f < |plan.queue| && k < |plan.queue| && f != k && (plan.workers == 1 ==> f < k)
    && plan.fatal(plan.queue[f]) && GetsToCall(plan, plan.queue[k])
  }

  ghost predicate Endangered(plan: Plan) {
    exists f: nat, k: nat :: Pair(plan, f, k)
  }

  /** With one worker only the document taken last is in hand. */
  ghost predicate Lone(plan: Plan, p: Pool) {
    && p.taken <= |plan.queue|
    && (forall id :: id in p.took || id in p.busy ==> p.taken > 0 && id == plan.queue[p.taken - 1])
    && (p.free > 0 ==> p.took == {} && p.busy == {})
  }

  lemma LoneMove(plan: Plan, p: Pool, m: Move)
    requires Enabled(plan, p, m) && Lone(plan, p) && Manned(plan, Next(plan, p, m).free, Next(plan, p, m).took, Next(plan, p, m).busy)
    requires plan.workers == 1
    ensures Lone(plan, Next(plan, p, m))
  {
    var q := Next(plan, p, m);
    if q.free > 0 {
      assert |q.took| == 0 && |q.busy| == 0;
    }
  }

  lemma {:induction false} LoneWorker(plan: Plan, moves: seq<Move>)
    requires PlanOk(plan) && plan.workers == 1 && Play(plan, Start(plan), moves).Some?
    ensures Lone(plan, Play(plan, Start(plan), moves).value)
  {
    if moves != [] {
      var front := moves[..|moves| - 1];
      LoneWorker(plan, front);
      ReachableIsTidy(plan, moves);
      LoneMove(plan, Play(plan, Start(plan), front).value, moves[|moves| - 1]);
    }
  }

  lemma AskedByLimit(plan: Plan, id: DocId, k: nat)
    requires k < plan.limit(id) && plan.asks(id, k)
    ensures GetsToCall(plan, id)
  {
    CallsGrow(plan, id, k + 1, plan.limit(id));
  }

  lemma Position(plan: Plan, p: Pool, id: DocId) returns (k: nat)
    requires Hands(plan, p.taken, p.took, p.busy, p.over, p.skipped) && id in p.busy + p.over
    ensures k < p.taken <= |plan.queue| && plan.queue[k] == id
  {
    assert id in plan.queue[..p.taken];
    k :| 0 <= k < p.taken && plan.queue[..p.taken][k] == id;
  }

  lemma LateInState(plan: Plan, p: Pool, f: DocId, id: DocId)
    requires PlanOk(plan) && Hands(plan, p.taken, p.took, p.busy, p.over, p.skipped) && (plan.workers == 1 ==> Lone(plan, p))
    requires f in p.over && plan.fatal(f) && id in p.busy && GetsToCall(plan, id)
    ensures Endangered(plan)
  {
    var i := Position(plan, p, f);
    var k := Position(plan, p, id);
    if plan.workers == 1 {
      LastPosition(plan.queue, p.taken, k);
    }
    assert Pair(plan, i, k);
  }

  lemma {:induction false} LateMeansEndangered(plan: Plan, moves: seq<Move>, m: Move)
    requires PlanOk(plan) && Play(plan, Start(plan), moves).Some? && LateCall(plan, Play(plan, Start(plan), moves).value, m)
    ensures Endangered(plan)
  {
    ReachableIsTidy(plan, moves);
    if plan.workers == 1 {
      LoneWorker(plan, moves);
    }
    var p := Play(plan, Start(plan), moves).value;
    var f :| f in p.over && plan.fatal(f);
    AskedByLimit(plan, m.id, p.progress[m.id]);
    LateInState(plan, p, f, m.id);
  }

  lemma LastPosition(ids: seq<DocId>, n: nat, k: nat)
    requires Distinct(ids) && k < n <= |ids| && ids[k] == ids[n - 1]
    ensures k == n - 1
  {
    if k < n - 1 {
      DistinctAt(ids, k, n - 1);
    }
  }

  /** The failing one first: it is served and not collected, then the other one calls. */
  lemma {:induction false} LateBehind(plan: Plan, f: nat, k: nat) returns (moves: seq<Move>)
    requires PlanOk(plan) && f < k < |plan.queue| && plan.fatal(plan.queue[f]) && GetsToCall(plan, plan.queue[k])
    ensures Play(plan, Start(plan), moves).Some?
    ensures LateCall(plan, Play(plan, Start(plan), moves).value, Act(plan.queue[k]))
  {
    moves := ServeUpTo(plan, [], k);
    NextIsFresh(plan, moves);
    var first := FirstCall(plan, plan.queue[k], plan.limit(plan.queue[k]));
    moves := Hold(plan, moves, first);
  }

  /** The calling one first: one worker holds it before its call while another serves up to
      the failing one. */
  lemma {:induction false} LateAhead(plan: Plan, f: nat, k: nat) returns (moves: seq<Move>)
    requires PlanOk(plan) && plan.workers > 1 && k < f < |plan.queue|
    requires plan.fatal(plan.queue[f]) && GetsToCall(plan, plan.queue[k])
    ensures Play(plan, Start(plan), moves).Some?
    ensures LateCall(plan, Play(plan, Start(plan), moves).value, Act(plan.queue[k]))
  {
    moves := ServeUpTo(plan, [], k);
    NextIsFresh(plan, moves);
    var first := FirstCall(plan, plan.queue[k], plan.limit(plan.queue[k]));
    moves := Hold(plan, moves, first);
    moves := ServeUpTo(plan, moves, f + 1);
  }

  /** The exact condition: no schedule asks anything after a fatal failure if and only if
      no document of the queue fails fatally while another gets as far as a call; with one
      worker, while a later one does. */
  lemma {:induction false} AsksAfterFatalIff(plan: Plan)
    requires PlanOk(plan)
    ensures CanCallLate(plan) <==> Endangered(plan)
  {
    if CanCallLate(plan) {
      var moves, m :| Play(plan, Start(plan), moves).Some? && LateCall(plan, Play(plan, Start(plan), moves).value, m);
      LateMeansEndangered(plan, moves, m);
    }
    if Endangered(plan) {
      var f: nat, k: nat :| Pair(plan, f, k);
      var moves;
      if f < k {
        moves := LateBehind(plan, f, k);
      } else {
        moves := LateAhead(plan, f, k);
      }
    }
  }

  /** One worker, two documents, each snapshotted and then asked about once; the first one's
      call fails fatally, and the second is asked about all the same, because the collector
      has not looked yet. */
  lemma OneWorkerAsksOn() returns (plan: Plan, moves: seq<Move>)
    ensures plan.queue == [1, 2] && plan.workers == 1 && plan.fatal(1) && PlanOk(plan)
    ensures plan.limit(1) == plan.limit(2) == 2 && forall id, n :: plan.asks(id, n) <==> n == 1
    ensures Play(plan, Start(plan), moves).Some? && LateCall(plan, Play(plan, Start(plan), moves).value, Act(2))
  {
    plan := Plan([1, 2], 1, id => 2, (id, n) => n == 1, id => id == 1);
    assert [1, 2][..1] == [1] && [1][..0] == [];
    assert CallsIn(plan, 2, 2) == CallsIn(plan, 2, 1) + 1;
    moves := LateBehind(plan, 0, 1);
  }
}
