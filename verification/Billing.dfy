/** The vendor side of hosted inference: subscriptions, the append-only usage ledger,
    and the gate every request passes before the vendor's model runs. Money is in whole
    micro-dollars. */
module Billing {
  import opened Messages
  import opened Spend

  type Tenant = nat

  type Model = nat

  type Task = nat

  datatype Status = Active | Suspended | Canceled

  /** A cap of 0 is unlimited. */
  datatype Subscription = Subscription(status: Status, spendCap: Money)

  datatype Usage = Usage(task: Task, model: Model, inTokens: nat, outTokens: nat, cost: Money)

  // ----- what the ledger adds up to ----------------------------------------

  function TotalCost(records: seq<Usage>): Money {
    if records == [] then 0 else TotalCost(records[..|records| - 1]) + records[|records| - 1].cost
  }

  function TotalTokens(records: seq<Usage>): (nat, nat) {
    if records == [] then (0, 0)
    else
      var (i, o) := TotalTokens(records[..|records| - 1]);
      (i + records[|records| - 1].inTokens, o + records[|records| - 1].outTokens)
  }

  /** The records of one task, in order. */
  function OfTask(records: seq<Usage>, task: Task): seq<Usage> {
    if records == [] then []
    else
      var rest := OfTask(records[..|records| - 1], task);
      if records[|records| - 1].task == task then rest + [records[|records| - 1]] else rest
  }

  lemma {:induction false} CostsAddUp(a: seq<Usage>, b: seq<Usage>)
    ensures TotalCost(a + b) == TotalCost(a) + TotalCost(b)
  {
    if b == [] {
      assert a + b == a;
    } else {
      CostsAddUp(a, b[..|b| - 1]);
      assert (a + b)[..|a + b| - 1] == a + b[..|b| - 1];
    }
  }

  lemma {:induction false} TokensAddUp(a: seq<Usage>, b: seq<Usage>)
    ensures TotalTokens(a + b) == (TotalTokens(a).0 + TotalTokens(b).0, TotalTokens(a).1 + TotalTokens(b).1)
  {
    if b == [] {
      assert a + b == a;
    } else {
      TokensAddUp(a, b[..|b| - 1]);
      assert (a + b)[..|a + b| - 1] == a + b[..|b| - 1];
    }
  }

  lemma {:induction false} TasksAddUp(a: seq<Usage>, b: seq<Usage>, task: Task)
    ensures OfTask(a + b, task) == OfTask(a, task) + OfTask(b, task)
  {
    if b == [] {
      assert a + b == a;
    } else {
      TasksAddUp(a, b[..|b| - 1], task);
      assert (a + b)[..|a + b| - 1] == a + b[..|b| - 1];
    }
  }

  /** The totals and the records of a task are those of one stretch of the ledger followed by
      those of the next, and a single record counts for itself. */
  lemma {:induction false} LedgerAddsUp(a: seq<Usage>, b: seq<Usage>, u: Usage, task: Task)
    ensures TotalCost(a + b) == TotalCost(a) + TotalCost(b)
    ensures TotalTokens(a + b) == (TotalTokens(a).0 + TotalTokens(b).0, TotalTokens(a).1 + TotalTokens(b).1)
    ensures OfTask(a + b, task) == OfTask(a, task) + OfTask(b, task)
    ensures TotalCost([u]) == u.cost && TotalTokens([u]) == (u.inTokens, u.outTokens)
    ensures OfTask([u], task) == if u.task == task then [u] else []
  {
    CostsAddUp(a, b);
    TokensAddUp(a, b);
    TasksAddUp(a, b, task);
    assert [u][..0] == [];
  }

  /** A bucket of the per-task split; the dictionary is a list of buckets in insertion
      order. */
  datatype Bucket = Bucket(task: Task, calls: nat, cost: Money)

  function BucketCalls(split: seq<Bucket>): nat {
    if split == [] then 0 else BucketCalls(split[..|split| - 1]) + split[|split| - 1].calls
  }

  function BucketCost(split: seq<Bucket>): Money {
    if split == [] then 0 else BucketCost(split[..|split| - 1]) + split[|split| - 1].cost
  }

  function Tasks(split: seq<Bucket>): set<Task> {
    set b | b in split :: b.task
  }

  /** One bucket per task that occurs, holding that task's calls and cost. */
  ghost predicate SplitsByTask(split: seq<Bucket>, records: seq<Usage>) {
    && (forall j, k :: 0 <= j < k < |split| ==> split[j].task != split[k].task)
    && (forall j :: 0 <= j < |split| ==>
          && split[j].calls == |OfTask(records, split[j].task)| > 0
          && split[j].cost == TotalCost(OfTask(records, split[j].task)))
    && (forall task :: OfTask(records, task) != [] ==> task in Tasks(split))
  }

  lemma {:induction false} BucketUpdate(split: seq<Bucket>, j: nat, b: Bucket)
    requires j < |split|
    ensures BucketCalls(split[j := b]) + split[j].calls == BucketCalls(split) + b.calls
    ensures BucketCost(split[j := b]) + split[j].cost == BucketCost(split) + b.cost
  {
    var n := |split| - 1;
    if j == n {
      assert split[j := b][..n] == split[..n];
    } else {
      assert split[j := b][..n] == split[..n][j := b];
      BucketUpdate(split[..n], j, b);
    }
  }

  lemma BucketAppend(split: seq<Bucket>, b: Bucket)
    ensures BucketCalls(split + [b]) == BucketCalls(split) + b.calls
    ensures BucketCost(split + [b]) == BucketCost(split) + b.cost
  {
    assert (split + [b])[..|split|] == split;
  }

  lemma OfTaskSnoc(records: seq<Usage>, r: Usage, task: Task)
    ensures OfTask(records + [r], task) == if r.task == task then OfTask(records, task) + [r] else OfTask(records, task)
    ensures r.task == task ==> TotalCost(OfTask(records + [r], task)) == TotalCost(OfTask(records, task)) + r.cost
  {
    assert (records + [r])[..|records|] == records;
    var before := OfTask(records, task);
    assert (before + [r])[..|before|] == before;
  }

  /** A record counted into the bucket of its task. */
  lemma JoinsBucket(split: seq<Bucket>, records: seq<Usage>, r: Usage, j: nat)
    requires SplitsByTask(split, records) && j < |split| && split[j].task == r.task
    ensures SplitsByTask(split[j := Bucket(r.task, split[j].calls + 1, split[j].cost + r.cost)], records + [r])
  {
    var next := split[j := Bucket(r.task, split[j].calls + 1, split[j].cost + r.cost)];
    OfTaskSnoc(records, r, r.task);
    forall k | 0 <= k < |next|
      ensures next[k].calls == |OfTask(records + [r], next[k].task)| > 0
      ensures next[k].cost == TotalCost(OfTask(records + [r], next[k].task))
    {
      OfTaskSnoc(records, r, next[k].task);
    }
    forall task | OfTask(records + [r], task) != []
      ensures task in Tasks(next)
    {
      OfTaskSnoc(records, r, task);
      assert next[j] in next;
      if task != r.task {
        var b :| b in split && b.task == task;
        var k :| 0 <= k < |split| && split[k] == b;
        assert next[k] == b;
      }
    }
  }

  /** A record of another task leaves a bucket as it is. */
  lemma KeptBucket(records: seq<Usage>, r: Usage, b: Bucket)
    requires b.task != r.task && b.calls == |OfTask(records, b.task)| > 0 && b.cost == TotalCost(OfTask(records, b.task))
    ensures b.calls == |OfTask(records + [r], b.task)| > 0 && b.cost == TotalCost(OfTask(records + [r], b.task))
  {
    OfTaskSnoc(records, r, b.task);
  }

  lemma NewBucket(records: seq<Usage>, r: Usage)
    requires OfTask(records, r.task) == []
    ensures |OfTask(records + [r], r.task)| == 1 && TotalCost(OfTask(records + [r], r.task)) == r.cost
  {
    OfTaskSnoc(records, r, r.task);
    assert TotalCost([]) == 0;
  }

  lemma OpensBucket(split: seq<Bucket>, records: seq<Usage>, r: Usage)
    requires SplitsByTask(split, records) && r.task !in Tasks(split)
    ensures SplitsByTask(split + [Bucket(r.task, 1, r.cost)], records + [r])
  {
    var next := split + [Bucket(r.task, 1, r.cost)];
    NewBucket(records, r);
    forall k | 0 <= k < |split|
      ensures split[k].task != r.task
      ensures split[k].calls == |OfTask(records + [r], split[k].task)| > 0
      ensures split[k].cost == TotalCost(OfTask(records + [r], split[k].task))
    {
      assert split[k] in split;
      KeptBucket(records, r, split[k]);
    }
    assert forall k :: 0 <= k < |split| ==> next[k] == split[k];
    forall task | OfTask(records + [r], task) != []
      ensures task in Tasks(next)
    {
      OpenedTask(split, records, r, task);
    }
  }

  lemma OpenedTask(split: seq<Bucket>, records: seq<Usage>, r: Usage, task: Task)
    requires OfTask(records, task) != [] ==> task in Tasks(split)
    requires OfTask(records + [r], task) != []
    ensures task in Tasks(split + [Bucket(r.task, 1, r.cost)])
  {
    var next := split + [Bucket(r.task, 1, r.cost)];
    OfTaskSnoc(records, r, task);
    assert next[|split|] in next;
    if task != r.task {
      var b :| b in split && b.task == task;
      assert b in next;
    }
  }

  /** Adds one record to its task's bucket, making the bucket if need be. */
  method AddToSplit(split: seq<Bucket>, ghost records: seq<Usage>, r: Usage) returns (next: seq<Bucket>)
    requires SplitsByTask(split, records)
    ensures SplitsByTask(next, records + [r])
    ensures BucketCalls(next) == BucketCalls(split) + 1
    ensures BucketCost(next) == BucketCost(split) + r.cost
  {
    for j := 0 to |split|
      invariant forall k :: 0 <= k < j ==> split[k].task != r.task
    {
      if split[j].task == r.task {
        var b := Bucket(r.task, split[j].calls + 1, split[j].cost + r.cost);
        BucketUpdate(split, j, b);
        JoinsBucket(split, records, r, j);
        return split[j := b];
      }
    }
    BucketAppend(split, Bucket(r.task, 1, r.cost));
    OpensBucket(split, records, r);
    return split + [Bucket(r.task, 1, r.cost)];
  }

  datatype Summary = Summary(
    subscription: Option<Subscription>, calls: nat, inTokens: nat, outTokens: nat, spend: Money,
    capRemaining: Option<int>, byTask: seq<Bucket>)

  class BillingStore {
    var subs: map<Tenant, Subscription>
    var ledger: map<Tenant, seq<Usage>>

    constructor ()
      ensures subs == map[] && ledger == map[]
    {
      subs, ledger := map[], map[];
    }

    function Records(tenant: Tenant): seq<Usage>
      reads this
    {
      if tenant in ledger then ledger[tenant] else []
    }

    function Spent(tenant: Tenant): Money
      reads this
    {
      TotalCost(Records(tenant))
    }

    function Cap(tenant: Tenant): Money
      reads this
    {
      if tenant in subs then subs[tenant].spendCap else 0
    }

    method SetSubscription(tenant: Tenant, status: Status, spendCap: Money)
      modifies this`subs
      ensures subs == old(subs)[tenant := Subscription(status, spendCap)]
    {
      subs := subs[tenant := Subscription(status, spendCap)];
    }

    method SetStatus(tenant: Tenant, status: Status) returns (existed: bool)
      modifies this`subs
      ensures existed <==> tenant in old(subs)
      ensures subs == if existed then old(subs)[tenant := old(subs)[tenant].(status := status)] else old(subs)
    {
      existed := tenant in subs;
      if existed {
        subs := subs[tenant := subs[tenant].(status := status)];
      }
    }

    /** A tenant never provisioned is refused. */
    method CheckEntitled(tenant: Tenant) returns (ok: bool)
      ensures ok <==> tenant in subs && subs[tenant].status == Active
    {
      if tenant !in subs {
        return false;
      }
      ok := subs[tenant].status == Active;
    }

    method SpendTotal(tenant: Tenant) returns (total: Money)
      ensures total == Spent(tenant)
    {
      var records := Records(tenant);
      total := 0;
      for i := 0 to |records|
        invariant total == TotalCost(records[..i])
      {
        assert records[..i + 1][..i] == records[..i];
        total := total + records[i].cost;
      }
      assert records[..|records|] == records;
    }

    method CheckSpendCap(tenant: Tenant) returns (ok: bool)
      ensures ok <==> !Closed(Cap(tenant), Spent(tenant))
    {
      var spent := SpendTotal(tenant);
      ok := !(Cap(tenant) > 0 && spent >= Cap(tenant));
    }

    method RecordUsage(tenant: Tenant, u: Usage)
      modifies this`ledger
      ensures ledger == old(ledger)[tenant := old(Records(tenant)) + [u]]
      ensures Spent(tenant) == old(Spent(tenant)) + u.cost
    {
      assert (Records(tenant) + [u])[..|Records(tenant)|] == Records(tenant);
      ledger := ledger[tenant := Records(tenant) + [u]];
    }

    method ResetUsage(tenant: Tenant)
      modifies this`ledger
      ensures ledger == old(ledger)[tenant := []] && Spent(tenant) == 0
    {
      ledger := ledger[tenant := []];
    }

    /** The totals equal the sums over the per-task split, which holds one bucket per
        task with that task's own calls and cost. */
    method UsageSummary(tenant: Tenant) returns (s: Summary)
      ensures s.calls == |Records(tenant)| == BucketCalls(s.byTask)
      ensures s.spend == Spent(tenant) == BucketCost(s.byTask)
      ensures (s.inTokens, s.outTokens) == TotalTokens(Records(tenant))
      ensures SplitsByTask(s.byTask, Records(tenant))
      ensures s.capRemaining == if Cap(tenant) > 0 then Some(Cap(tenant) - Spent(tenant)) else None
      ensures s.subscription == if tenant in subs then Some(subs[tenant]) else None
    {
      var records := Records(tenant);
      var inTokens: nat, outTokens: nat, total: nat, split := 0, 0, 0, [];
      assert records[..0] == [];
      for i := 0 to |records|
        invariant (inTokens, outTokens) == TotalTokens(records[..i])
        invariant total == TotalCost(records[..i]) == BucketCost(split)
        invariant BucketCalls(split) == i
        invariant SplitsByTask(split, records[..i])
      {
        assert records[..i + 1] == records[..i] + [records[i]];
        assert records[..i + 1][..i] == records[..i];
        inTokens := inTokens + records[i].inTokens;
        outTokens := outTokens + records[i].outTokens;
        total := total + records[i].cost;
        split := AddToSplit(split, records[..i], records[i]);
      }
      assert records[..|records|] == records;
      s := Summary(if tenant in subs then Some(subs[tenant]) else None, |records|, inTokens, outTokens, total,
                   if Cap(tenant) > 0 then Some(Cap(tenant) - total) else None, split);
    }
  }
}
