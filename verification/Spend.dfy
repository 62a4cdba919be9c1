/** The spend caps under concurrent workers. Money is in whole micro-dollars. Each
    lock-protected access is one step; workers interleave freely between steps. */
module Spend {
  type Money = nat

  /** A cap of 0 never closes. */
  predicate Closed(cap: Money, total: Money) {
    cap > 0 && total >= cap
  }

  class SpendGovernor {
    const maxSpend: Money
    var total: Money

    constructor (maxSpend: Money)
      ensures this.maxSpend == maxSpend && total == 0
    {
      this.maxSpend := maxSpend;
      total := 0;
    }

    method Add(cost: Money) returns (running: Money)
      modifies this`total
      ensures total == old(total) + cost && running == total
    {
      total := total + cost;
      running := total;
    }

    method ShouldAbort() returns (yes: bool)
      ensures yes <==> Closed(maxSpend, total)
    {
      if maxSpend == 0 {
        return false;
      }
      yes := total >= maxSpend;
    }
  }

  /** Spend per period, kept in a file; a period never seen has spent nothing. */
  class SpendLedger {
    var data: map<nat, Money>

    constructor ()
      ensures data == map[]
    {
      data := map[];
    }

    function Current(period: nat): Money
      reads this
    {
      if period in data then data[period] else 0
    }

    method Add(period: nat, cost: Money) returns (running: Money)
      modifies this`data
      ensures running == Current(period) == old(Current(period)) + cost
      ensures forall p :: p != period ==> Current(p) == old(Current(p))
    {
      if cost == 0 {
        return Current(period);
      }
      data := data[period := Current(period) + cost];
      running := data[period];
    }

    method WouldExceed(period: nat, cap: Money) returns (yes: bool)
      ensures yes <==> Closed(cap, Current(period))
    {
      if cap == 0 {
        return false;
      }
      yes := Current(period) >= cap;
    }
  }

  // ----- the workers -------------------------------------------------------

  /** Where a worker stands with its document: it passed the run gate, the period gate,
      the run gate once more; its call was billed to the governor (and the document
      then failed or not). Once the cost is booked it is free for its next document. */
  datatype Phase =
    | Idle | RunChecked | PeriodChecked | Cleared
    | Billed(cost: Money, failed: bool)

  /** `unreported`: costs of finished documents the collector has not come to; `started`
      is the ledger when the stage began; `lost` what failed documents cost. */
  datatype Books = Books(
    workers: seq<Phase>, governor: Money, ledger: Money, unreported: seq<Money>, report: Money, started: Money, lost: Money)

  datatype Caps = Caps(perRun: Money, perPeriod: Money, perDocument: Money)

  datatype Step =
    | CheckRun(worker: nat)
    | CheckPeriod(worker: nat)
    | CheckAgain(worker: nat)
    | Call(worker: nat, cost: Money, failed: bool)
    | Book(worker: nat)
    | Report(nth: nat)
    | NextStage

  predicate AtRest(workers: seq<Phase>) {
    forall i :: 0 <= i < |workers| ==> workers[i] == Idle
  }

  predicate Enabled(caps: Caps, b: Books, s: Step) {
    match s
    case CheckRun(i) => i < |b.workers| && b.workers[i] == Idle
    case CheckPeriod(i) => i < |b.workers| && b.workers[i] == RunChecked
    case CheckAgain(i) => i < |b.workers| && b.workers[i] == PeriodChecked
    case Call(i, cost, _) => i < |b.workers| && b.workers[i] == Cleared && cost <= caps.perDocument
    case Book(i) => i < |b.workers| && b.workers[i].Billed?
    case Report(n) => n < |b.unreported|
    case NextStage => AtRest(b.workers) && b.unreported == []
  }

  function Without(costs: seq<Money>, n: nat): seq<Money>
    requires n < |costs|
  {
    costs[..n] + costs[n + 1..]
  }

  /** A failed document is charged to the governor only: its cost never reaches the
      ledger or the report. A new stage has its own governor and report. */
  function Next(caps: Caps, b: Books, s: Step): Books
    requires Enabled(caps, b, s)
  {
    match s
    case CheckRun(i) => b.(workers := b.workers[i := if Closed(caps.perRun, b.governor) then Idle else RunChecked])
    case CheckPeriod(i) => b.(workers := b.workers[i := if Closed(caps.perPeriod, b.ledger) then Idle else PeriodChecked])
    case CheckAgain(i) => b.(workers := b.workers[i := if Closed(caps.perRun, b.governor) then Idle else Cleared])
    case Call(i, cost, failed) => b.(workers := b.workers[i := Billed(cost, failed)], governor := b.governor + cost)
    case Book(i) =>
      var p := b.workers[i];
      if p.failed then b.(workers := b.workers[i := Idle], lost := b.lost + p.cost)
      else b.(workers := b.workers[i := Idle], ledger := b.ledger + p.cost, unreported := b.unreported + [p.cost])
    case Report(n) => b.(unreported := Without(b.unreported, n), report := b.report + b.unreported[n])
    case NextStage => b.(governor := 0, report := 0, started := b.ledger, lost := 0)
  }

  ghost predicate Possible(caps: Caps, b: Books, steps: seq<Step>)
    decreases |steps|, 0
  {
    steps == [] || (Possible(caps, b, steps[..|steps| - 1])
                    && Enabled(caps, After(caps, b, steps[..|steps| - 1]), steps[|steps| - 1]))
  }

  ghost function After(caps: Caps, b: Books, steps: seq<Step>): Books
    requires Possible(caps, b, steps)
    decreases |steps|, 1
  {
    if steps == [] then b
    else Next(caps, After(caps, b, steps[..|steps| - 1]), steps[|steps| - 1])
  }

  /** The first stage of a period's sweep, its ledger as given. */
  function Opening(workers: nat, ledger: Money): Books {
    Books(seq(workers, _ => Idle), 0, ledger, [], 0, ledger, 0)
  }

  // ----- sums over the workers ---------------------------------------------

  datatype Kind = PastRunGate | PastPeriodGate | Unbooked | Unlost

  /** What a worker still may add: to the governor or the ledger, at most a document's
      cost; what it billed and not yet booked; and that of it which will be lost. */
  function Weight(caps: Caps, k: Kind, p: Phase): Money {
    match k
    case PastRunGate => if p.RunChecked? || p.PeriodChecked? || p.Cleared? then caps.perDocument else 0
    case PastPeriodGate =>
      if p.PeriodChecked? || p.Cleared? then caps.perDocument
      else if p.Billed? && !p.failed then p.cost else 0
    case Unbooked => if p.Billed? then p.cost else 0
    case Unlost => if p.Billed? && p.failed then p.cost else 0
  }

  function Sum(caps: Caps, k: Kind, workers: seq<Phase>): Money {
    if workers == [] then 0
    else Sum(caps, k, workers[..|workers| - 1]) + Weight(caps, k, workers[|workers| - 1])
  }

  lemma {:induction false} SumUpdate(caps: Caps, k: Kind, workers: seq<Phase>, i: nat, p: Phase)
    requires i < |workers|
    ensures Sum(caps, k, workers[i := p]) + Weight(caps, k, workers[i]) == Sum(caps, k, workers) + Weight(caps, k, p)
  {
    var n := |workers| - 1;
    if i == n {
      assert workers[i := p][..n] == workers[..n];
    } else {
      assert workers[i := p][..n] == workers[..n][i := p];
      SumUpdate(caps, k, workers[..n], i, p);
    }
  }

  ghost predicate CheapDocuments(caps: Caps, workers: seq<Phase>) {
    forall i :: 0 <= i < |workers| && workers[i].Billed? ==> workers[i].cost <= caps.perDocument
  }

  /** One document's cost for each worker. */
  function Slack(caps: Caps, workers: nat): Money {
    workers * caps.perDocument
  }

  lemma {:induction false} SumAtMost(caps: Caps, k: Kind, workers: seq<Phase>)
    requires CheapDocuments(caps, workers) && (k == PastRunGate || k == PastPeriodGate)
    ensures Sum(caps, k, workers) <= Slack(caps, |workers|)
  {
    if workers != [] {
      SumAtMost(caps, k, workers[..|workers| - 1]);
      assert Slack(caps, |workers|) == Slack(caps, |workers| - 1) + caps.perDocument;
    }
  }

  lemma {:induction false} SumIdle(caps: Caps, k: Kind, workers: seq<Phase>)
    requires AtRest(workers)
    ensures Sum(caps, k, workers) == 0
  {
    if workers != [] {
      SumIdle(caps, k, workers[..|workers| - 1]);
    }
  }

  function Total(costs: seq<Money>): Money {
    if costs == [] then 0 else Total(costs[..|costs| - 1]) + costs[|costs| - 1]
  }

  lemma {:induction false} TotalConcat(a: seq<Money>, b: seq<Money>)
    ensures Total(a + b) == Total(a) + Total(b)
  {
    if b == [] {
      assert a + b == a;
    } else {
      TotalConcat(a, b[..|b| - 1]);
      assert (a + b)[..|a + b| - 1] == a + b[..|b| - 1];
    }
  }

  lemma {:induction false} TotalWithout(costs: seq<Money>, n: nat)
    requires n < |costs|
    ensures Total(Without(costs, n)) + costs[n] == Total(costs)
  {
    assert costs == costs[..n] + ([costs[n]] + costs[n + 1..]);
    TotalConcat(costs[..n], [costs[n]] + costs[n + 1..]);
    TotalConcat([costs[n]], costs[n + 1..]);
    TotalConcat(costs[..n], costs[n + 1..]);
    assert [costs[n]][..0] == [];
  }

  // ----- the invariants ----------------------------------------------------

  /** Everything billed or still to be billed past an open gate fits under the run cap
      plus one document per worker. */
  ghost predicate RunBound(caps: Caps, b: Books) {
    && CheapDocuments(caps, b.workers)
    && (caps.perRun > 0 ==> b.governor + Sum(caps, PastRunGate, b.workers) < caps.perRun + Slack(caps, |b.workers|))
  }

  ghost predicate NonePast(workers: seq<Phase>) {
    forall i :: 0 <= i < |workers| ==> workers[i].Idle? || workers[i].RunChecked?
  }

  /** The same for the period; a ledger that opened closed stays as it was. */
  ghost predicate PeriodBound(caps: Caps, opening: Money, b: Books) {
    if Closed(caps.perPeriod, opening) then b.ledger == opening && NonePast(b.workers)
    else caps.perPeriod > 0 ==>
           CheapDocuments(caps, b.workers)
           && b.ledger + Sum(caps, PastPeriodGate, b.workers) < caps.perPeriod + Slack(caps, |b.workers|)
  }

  /** The three books agree up to what is in hand. */
  ghost predicate Accounts(caps: Caps, b: Books) {
    && b.started <= b.ledger
    && b.governor == b.ledger - b.started + b.lost + Sum(caps, Unbooked, b.workers)
    && b.report + Total(b.unreported) == b.ledger - b.started
  }

  ghost predicate Balanced(caps: Caps, opening: Money, b: Books) {
    RunBound(caps, b) && PeriodBound(caps, opening, b) && Accounts(caps, b)
  }

  lemma WorkersStay(caps: Caps, b: Books, s: Step)
    requires Enabled(caps, b, s)
    ensures |Next(caps, b, s).workers| == |b.workers|
  {
  }

  /** A worker's step changes the sums by its own part. */
  lemma Moves(caps: Caps, b: Books, s: Step, k: Kind)
    requires Enabled(caps, b, s) && !s.NextStage? && !s.Report?
    ensures var v := Next(caps, b, s);
            && |v.workers| == |b.workers|
            && Sum(caps, k, v.workers) + Weight(caps, k, b.workers[s.worker]) == Sum(caps, k, b.workers) + Weight(caps, k, v.workers[s.worker])
  {
    SumUpdate(caps, k, b.workers, s.worker, Next(caps, b, s).workers[s.worker]);
  }

  lemma StepKeepsCheap(caps: Caps, b: Books, s: Step)
    requires CheapDocuments(caps, b.workers) && Enabled(caps, b, s)
    ensures CheapDocuments(caps, Next(caps, b, s).workers)
  {
  }

  lemma StepKeepsRunBound(caps: Caps, b: Books, s: Step)
    requires RunBound(caps, b) && Enabled(caps, b, s)
    ensures RunBound(caps, Next(caps, b, s))
  {
    StepKeepsCheap(caps, b, s);
    if s.NextStage? {
      SumIdle(caps, PastRunGate, b.workers);
    } else if !s.Report? {
      Moves(caps, b, s, PastRunGate);
      SumAtMost(caps, PastRunGate, Next(caps, b, s).workers);
    }
  }

  lemma StepKeepsPeriodBound(caps: Caps, opening: Money, b: Books, s: Step)
    requires PeriodBound(caps, opening, b) && Enabled(caps, b, s)
    ensures PeriodBound(caps, opening, Next(caps, b, s))
  {
    if !Closed(caps.perPeriod, opening) && caps.perPeriod > 0 {
      StepKeepsCheap(caps, b, s);
      if !s.Report? && !s.NextStage? {
        Moves(caps, b, s, PastPeriodGate);
        SumAtMost(caps, PastPeriodGate, Next(caps, b, s).workers);
      }
    }
  }

  lemma StepKeepsAccounts(caps: Caps, b: Books, s: Step)
    requires Accounts(caps, b) && Enabled(caps, b, s)
    ensures Accounts(caps, Next(caps, b, s))
  {
    match s
    case NextStage => SumIdle(caps, Unbooked, b.workers);
    case Report(n) => TotalWithout(b.unreported, n);
    case Book(i) =>
      Moves(caps, b, s, Unbooked);
      TotalConcat(b.unreported, [b.workers[i].cost]);
      assert [b.workers[i].cost][..0] == [];
    case _ => Moves(caps, b, s, Unbooked);
  }

  lemma StepKeepsBalance(caps: Caps, opening: Money, b: Books, s: Step)
    requires Balanced(caps, opening, b) && Enabled(caps, b, s)
    ensures Balanced(caps, opening, Next(caps, b, s)) && |Next(caps, b, s).workers| == |b.workers|
  {
    WorkersStay(caps, b, s);
    StepKeepsRunBound(caps, b, s);
    StepKeepsPeriodBound(caps, opening, b, s);
    StepKeepsAccounts(caps, b, s);
  }

  lemma {:induction false} RunKeepsBalance(caps: Caps, opening: Money, b: Books, steps: seq<Step>)
    requires Balanced(caps, opening, b) && Possible(caps, b, steps)
    ensures Balanced(caps, opening, After(caps, b, steps)) && |After(caps, b, steps).workers| == |b.workers|
  {
    if steps != [] {
      RunKeepsBalance(caps, opening, b, steps[..|steps| - 1]);
      StepKeepsBalance(caps, opening, After(caps, b, steps[..|steps| - 1]), steps[|steps| - 1]);
    }
  }

  lemma OpeningBalances(caps: Caps, workers: nat, ledger: Money)
    ensures Balanced(caps, ledger, Opening(workers, ledger))
  {
    var ws := Opening(workers, ledger).workers;
    SumIdle(caps, PastRunGate, ws);
    SumIdle(caps, PastPeriodGate, ws);
    SumIdle(caps, Unbooked, ws);
  }

  /** Overshoot: however the workers' checks, calls and additions interleave, over any
      number of stages in a period, each stage's governor stays below its cap plus one
      document's cost per worker; so does the period's ledger, unless it opened at its cap
      or past it (a lowered cap, say), and then it does not move. */
  lemma SpendStaysNearCap(caps: Caps, workers: nat, ledger: Money, steps: seq<Step>)
    requires Possible(caps, Opening(workers, ledger), steps)
    ensures var b := After(caps, Opening(workers, ledger), steps);
            && (caps.perRun > 0 ==> b.governor < caps.perRun + Slack(caps, workers))
            && (caps.perPeriod > 0 && ledger < caps.perPeriod ==> b.ledger < caps.perPeriod + Slack(caps, workers))
            && (caps.perPeriod > 0 && ledger >= caps.perPeriod ==> b.ledger == ledger)
  {
    OpeningBalances(caps, workers, ledger);
    RunKeepsBalance(caps, ledger, Opening(workers, ledger), steps);
  }

  /** Accounting: with every worker at rest and every outcome collected, the stage's ledger
      increase equals its reported spend, and the governor exceeds it by exactly what failed
      documents cost. */
  lemma BooksAgreeAtRest(caps: Caps, workers: nat, ledger: Money, steps: seq<Step>)
    requires Possible(caps, Opening(workers, ledger), steps)
    requires var b := After(caps, Opening(workers, ledger), steps); AtRest(b.workers) && b.unreported == []
    ensures var b := After(caps, Opening(workers, ledger), steps);
            b.report == b.ledger - b.started && b.governor == b.report + b.lost
  {
    OpeningBalances(caps, workers, ledger);
    RunKeepsBalance(caps, ledger, Opening(workers, ledger), steps);
    SumIdle(caps, Unbooked, After(caps, Opening(workers, ledger), steps).workers);
  }

  // ----- what was called for -----------------------------------------------

  /** What the current stage's calls cost, of documents that failed after it, or did not. */
  function Costs(steps: seq<Step>, failed: bool): Money {
    if steps == [] then 0
    else match steps[|steps| - 1]
      case NextStage => 0
      case Call(_, cost, f) => Costs(steps[..|steps| - 1], failed) + if f == failed then cost else 0
      case _ => Costs(steps[..|steps| - 1], failed)
  }

  ghost predicate Traced(caps: Caps, b: Books, lost: Money, kept: Money) {
    && b.lost + Sum(caps, Unlost, b.workers) == lost
    && b.started <= b.ledger
    && b.ledger - b.started + Sum(caps, Unbooked, b.workers) == kept + Sum(caps, Unlost, b.workers)
  }

  lemma StepKeepsTraced(caps: Caps, b: Books, s: Step, lost: Money, kept: Money)
    requires Traced(caps, b, lost, kept) && Enabled(caps, b, s)
    ensures match s
            case NextStage => Traced(caps, Next(caps, b, s), 0, 0)
            case Call(_, cost, failed) =>
              Traced(caps, Next(caps, b, s), if failed then lost + cost else lost, if failed then kept else kept + cost)
            case _ => Traced(caps, Next(caps, b, s), lost, kept)
  {
    if s.NextStage? {
      SumIdle(caps, Unbooked, b.workers);
      SumIdle(caps, Unlost, b.workers);
    } else if !s.Report? {
      Moves(caps, b, s, Unbooked);
      Moves(caps, b, s, Unlost);
    }
  }

  lemma {:induction false} RunIsTraced(caps: Caps, workers: nat, ledger: Money, steps: seq<Step>)
    requires Possible(caps, Opening(workers, ledger), steps)
    ensures Traced(caps, After(caps, Opening(workers, ledger), steps), Costs(steps, true), Costs(steps, false))
  {
    if steps == [] {
      SumIdle(caps, Unbooked, Opening(workers, ledger).workers);
      SumIdle(caps, Unlost, Opening(workers, ledger).workers);
    } else {
      var front := steps[..|steps| - 1];
      RunIsTraced(caps, workers, ledger, front);
      StepKeepsTraced(caps, After(caps, Opening(workers, ledger), front), steps[|steps| - 1], Costs(front, true), Costs(front, false));
    }
  }

  /** With everything at rest and collected: the stage's report, and the ledger's increase, are
      what its calls for documents that did not fail cost; the governor also has the others'. */
  lemma {:induction false} ReportIsWhatCallsCost(caps: Caps, workers: nat, ledger: Money, steps: seq<Step>)
    requires Possible(caps, Opening(workers, ledger), steps)
    requires var b := After(caps, Opening(workers, ledger), steps); AtRest(b.workers) && b.unreported == []
    ensures var b := After(caps, Opening(workers, ledger), steps);
            && b.report == b.ledger - b.started == Costs(steps, false)
            && b.governor == Costs(steps, false) + Costs(steps, true)
  {
    var b := After(caps, Opening(workers, ledger), steps);
    BooksAgreeAtRest(caps, workers, ledger, steps);
    RunIsTraced(caps, workers, ledger, steps);
    SumIdle(caps, Unbooked, b.workers);
    SumIdle(caps, Unlost, b.workers);
  }

  // ----- the bounds are attained -------------------------------------------

  lemma {:induction false} Extend(caps: Caps, b: Books, steps: seq<Step>, s: Step)
    requires Possible(caps, b, steps) && Enabled(caps, After(caps, b, steps), s)
    ensures Possible(caps, b, steps + [s])
    ensures After(caps, b, steps + [s]) == Next(caps, After(caps, b, steps), s)
  {
    assert (steps + [s])[..|steps|] == steps;
  }

  predicate Open(caps: Caps, b: Books) {
    !Closed(caps.perRun, b.governor) && !Closed(caps.perPeriod, b.ledger)
  }

  /** Worker `i` passes the three gates. */
  lemma {:induction false} PassGates(caps: Caps, b: Books, steps: seq<Step>, i: nat, v: Books) returns (more: seq<Step>)
    requires Possible(caps, b, steps) && v == After(caps, b, steps) && i < |v.workers| && v.workers[i] == Idle && Open(caps, v)
    ensures Possible(caps, b, more) && After(caps, b, more) == v.(workers := v.workers[i := Cleared])
  {
    Extend(caps, b, steps, CheckRun(i));
    more := steps + [CheckRun(i)];
    Extend(caps, b, more, CheckPeriod(i));
    more := more + [CheckPeriod(i)];
    Extend(caps, b, more, CheckAgain(i));
    more := more + [CheckAgain(i)];
    assert v.workers[i := RunChecked][i := PeriodChecked][i := Cleared] == v.workers[i := Cleared];
  }

  /** A cleared worker's document is billed and booked. */
  lemma {:induction false} PayOne(caps: Caps, b: Books, steps: seq<Step>, i: nat, cost: Money, v: Books) returns (more: seq<Step>)
    requires Possible(caps, b, steps) && v == After(caps, b, steps) && i < |v.workers| && v.workers[i] == Cleared
    requires cost <= caps.perDocument
    ensures Possible(caps, b, more)
    ensures After(caps, b, more)
            == v.(workers := v.workers[i := Idle], governor := v.governor + cost, ledger := v.ledger + cost, unreported := v.unreported + [cost])
  {
    Extend(caps, b, steps, Call(i, cost, false));
    more := steps + [Call(i, cost, false)];
    Extend(caps, b, more, Book(i));
    more := more + [Book(i)];
    assert v.workers[i := Billed(cost, false)][i := Idle] == v.workers[i := Idle];
  }

  /** All workers at rest, governor and ledger both at `total`. */
  ghost predicate Even(caps: Caps, workers: nat, steps: seq<Step>, total: Money) {
    && Possible(caps, Opening(workers, 0), steps)
    && var v := After(caps, Opening(workers, 0), steps);
       |v.workers| == workers && AtRest(v.workers) && v.governor == v.ledger == total
  }

  lemma {:induction false} OneCheapDocument(caps: Caps, workers: nat, steps: seq<Step>, total: Money) returns (more: seq<Step>)
    requires workers > 0 && caps.perDocument > 0 && Even(caps, workers, steps, total)
    requires !Closed(caps.perRun, total) && !Closed(caps.perPeriod, total)
    ensures Even(caps, workers, more, total + 1)
  {
    var b := Opening(workers, 0);
    var v := After(caps, b, steps);
    more := PassGates(caps, b, steps, 0, v);
    more := PayOne(caps, b, more, 0, 1, v.(workers := v.workers[0 := Cleared]));
  }

  /** Every worker past the gates while governor and ledger are still at `total`, ... */
  ghost predicate Waiting(caps: Caps, workers: nat, steps: seq<Step>, from: nat, upTo: nat, total: Money) {
    && Possible(caps, Opening(workers, 0), steps)
    && var v := After(caps, Opening(workers, 0), steps);
       && |v.workers| == workers && v.governor == v.ledger == total
       && forall j :: 0 <= j < workers ==> v.workers[j] == if from <= j < upTo then Cleared else Idle
  }

  lemma {:induction false} OneMoreWaits(caps: Caps, workers: nat, steps: seq<Step>, i: nat, total: Money) returns (more: seq<Step>)
    requires i < workers && Waiting(caps, workers, steps, 0, i, total)
    requires !Closed(caps.perRun, total) && !Closed(caps.perPeriod, total)
    ensures Waiting(caps, workers, more, 0, i + 1, total)
  {
    more := PassGates(caps, Opening(workers, 0), steps, i, After(caps, Opening(workers, 0), steps));
  }

  /** ... and then each pays a whole document. */
  lemma {:induction false} OneMorePays(caps: Caps, workers: nat, steps: seq<Step>, i: nat, total: Money) returns (more: seq<Step>)
    requires i < workers && Waiting(caps, workers, steps, i, workers, total)
    ensures Waiting(caps, workers, more, i + 1, workers, total + caps.perDocument)
  {
    more := PayOne(caps, Opening(workers, 0), steps, i, caps.perDocument, After(caps, Opening(workers, 0), steps));
  }

  /** The smaller of the two caps, 0 standing for none. */
  function Tighter(caps: Caps): Money {
    if caps.perPeriod == 0 || (0 < caps.perRun <= caps.perPeriod) then caps.perRun else caps.perPeriod
  }

  lemma OpenBelow(caps: Caps, total: Money)
    requires total < Tighter(caps)
    ensures !Closed(caps.perRun, total) && !Closed(caps.perPeriod, total)
  {
  }

  /** For any caps, document cost and number of workers, some interleaving takes governor
      and ledger to one below the bound of the tighter cap: no smaller bound holds, of
      either. */
  lemma {:induction false} OvershootIsAttained(caps: Caps, workers: nat) returns (steps: seq<Step>)
    requires workers > 0 && caps.perDocument > 0 && Tighter(caps) > 0
    ensures Possible(caps, Opening(workers, 0), steps)
    ensures var b := After(caps, Opening(workers, 0), steps);
            b.governor == b.ledger == Tighter(caps) + Slack(caps, workers) - 1
  {
    steps := [];
    for k := 0 to Tighter(caps) - 1
      invariant Even(caps, workers, steps, k)
    {
      OpenBelow(caps, k);
      steps := OneCheapDocument(caps, workers, steps, k);
    }
    OpenBelow(caps, Tighter(caps) - 1);
    for i := 0 to workers
      invariant Waiting(caps, workers, steps, 0, i, Tighter(caps) - 1)
    {
      steps := OneMoreWaits(caps, workers, steps, i, Tighter(caps) - 1);
    }
    for i := 0 to workers
      invariant Waiting(caps, workers, steps, i, workers, Tighter(caps) - 1 + Slack(caps, i))
    {
      steps := OneMorePays(caps, workers, steps, i, Tighter(caps) - 1 + Slack(caps, i));
      assert Slack(caps, i + 1) == Slack(caps, i) + caps.perDocument;
    }
  }

  // ----- the stages of a tick, in place ------------------------------------

  /** A stage's governor, the period's ledger and the stage's report, as its workers and its
      collector use them. Each method is one step of the machine. */
  class StageSpend {
    const caps: Caps
    const ledger: SpendLedger
    const period: nat
    var governor: SpendGovernor
    var workers: seq<Phase>
    var unreported: seq<Money>
    var report: Money
    ghost var started: Money
    ghost var lost: Money

    ghost predicate Valid()
      reads this
    {
      governor.maxSpend == caps.perRun
    }

    ghost function Account(): Books
      reads this, governor, ledger
    {
      Books(workers, governor.total, ledger.Current(period), unreported, report, started, lost)
    }

    constructor (caps: Caps, ledger: SpendLedger, period: nat, workers: nat)
      ensures Valid() && fresh(governor) && this.caps == caps && this.ledger == ledger && this.period == period
      ensures Account() == Opening(workers, ledger.Current(period))
    {
      this.caps, this.ledger, this.period := caps, ledger, period;
      governor := new SpendGovernor(caps.perRun);
      this.workers, unreported, report := seq(workers, _ => Idle), [], 0;
      started, lost := ledger.Current(period), 0;
    }

    /** The governor's gate, asked before and after the ledger's. */
    method PassRunGate(i: nat, again: bool) returns (open: bool)
      requires Valid() && Enabled(caps, Account(), if again then CheckAgain(i) else CheckRun(i))
      modifies this`workers
      ensures Valid() && Account() == Next(caps, old(Account()), if again then CheckAgain(i) else CheckRun(i))
      ensures open <==> !Closed(caps.perRun, governor.total)
    {
      var abort := governor.ShouldAbort();
      open := !abort;
      workers := workers[i := if !open then Idle else if again then Cleared else RunChecked];
    }

    method PassPeriodGate(i: nat) returns (open: bool)
      requires Valid() && Enabled(caps, Account(), CheckPeriod(i))
      modifies this`workers
      ensures Valid() && Account() == Next(caps, old(Account()), CheckPeriod(i))
      ensures open <==> !Closed(caps.perPeriod, ledger.Current(period))
    {
      var over := ledger.WouldExceed(period, caps.perPeriod);
      open := !over;
      workers := workers[i := if open then PeriodChecked else Idle];
    }

    method Bill(i: nat, cost: Money, failed: bool)
      requires Valid() && Enabled(caps, Account(), Call(i, cost, failed))
      modifies this`workers, governor
      ensures Valid() && Account() == Next(caps, old(Account()), Call(i, cost, failed))
    {
      var running := governor.Add(cost);
      workers := workers[i := Billed(cost, failed)];
    }

    /** A document that failed raises past the ledger; any other is booked, and its outcome
        awaits the collector. */
    method Settle(i: nat)
      requires Valid() && Enabled(caps, Account(), Book(i))
      modifies this`workers, this`unreported, this`lost, ledger
      ensures Valid() && Account() == Next(caps, old(Account()), Book(i))
    {
      var p := workers[i];
      if p.failed {
        lost := lost + p.cost;
      } else {
        var running := ledger.Add(period, p.cost);
        unreported := unreported + [p.cost];
      }
      workers := workers[i := Idle];
    }

    method Collect(n: nat)
      requires Valid() && Enabled(caps, Account(), Report(n))
      modifies this`unreported, this`report
      ensures Valid() && Account() == Next(caps, old(Account()), Report(n))
    {
      report := report + unreported[n];
      unreported := unreported[..n] + unreported[n + 1..];
    }

    method BeginStage()
      requires Valid() && Enabled(caps, Account(), NextStage)
      modifies this
      ensures Valid() && fresh(governor) && Account() == Next(caps, old(Account()), NextStage)
    {
      governor := new SpendGovernor(caps.perRun);
      report, started, lost := 0, ledger.Current(period), 0;
    }
  }
}
