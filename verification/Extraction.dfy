/** Structured extraction: the engine re-validates every provider answer, retries what
    is off-schema, and charges the governor for what the attempts cost. */
module Extraction {
  import opened Spend

  /** What the provider does when asked: answers, or raises. */
  datatype Attempt<D> = Answer(data: D, inTokens: nat, outTokens: nat, cost: Money) | Raises

  datatype Result<D> =
    | Extracted(data: D, inTokens: nat, outTokens: nat, cost: Money)
    | NeverValid(spent: Money)
    | ProviderError

  /** An attempt that ends the loop: a valid answer, or an exception. */
  predicate Decides<D>(valid: D -> bool, a: Attempt<D>) {
    a.Raises? || valid(a.data)
  }

  /** How many attempts are made: up to the first that decides, else all. */
  function Made<D>(valid: D -> bool, attempts: seq<Attempt<D>>): (n: nat)
    ensures n <= |attempts|
  {
    if attempts == [] then 0
    else if Decides(valid, attempts[0]) then 1
    else 1 + Made(valid, attempts[1..])
  }

  datatype Usage = Usage(inTokens: nat, outTokens: nat, cost: Money)

  /** What these attempts used in all. */
  function Used<D>(attempts: seq<Attempt<D>>): Usage {
    if attempts == [] then Usage(0, 0, 0)
    else
      var before := Used(attempts[..|attempts| - 1]);
      match attempts[|attempts| - 1]
      case Answer(_, i, o, cost) => Usage(before.inTokens + i, before.outTokens + o, before.cost + cost)
      case Raises => before
  }

  /** What the vendor billed for these attempts. */
  function Billed<D>(attempts: seq<Attempt<D>>): Money {
    Used(attempts).cost
  }

  /** The usage of some attempts and more is the sum of both; an answer used what the provider
      says, an exception nothing that is known. */
  lemma {:induction false} UsageAddsUp<D>(a: seq<Attempt<D>>, b: seq<Attempt<D>>)
    ensures var u, v, w := Used(a), Used(b), Used(a + b);
            w == Usage(u.inTokens + v.inTokens, u.outTokens + v.outTokens, u.cost + v.cost)
    ensures |b| == 1 && b[0].Answer? ==> Used(b) == Usage(b[0].inTokens, b[0].outTokens, b[0].cost)
    ensures |b| == 1 && b[0].Raises? ==> Used(b) == Usage(0, 0, 0)
  {
    if b == [] {
      assert a + b == a;
    } else {
      var front, last := b[..|b| - 1], b[|b| - 1];
      UsageAddsUp(a, front);
      assert (a + b)[..|a + b| - 1] == a + front && (a + b)[|a + b| - 1] == last;
    }
  }

  lemma {:induction false} MadeFacts<D>(valid: D -> bool, attempts: seq<Attempt<D>>, i: nat)
    requires i <= |attempts| && forall k :: 0 <= k < i ==> !Decides(valid, attempts[k])
    ensures i < |attempts| && Decides(valid, attempts[i]) ==> Made(valid, attempts) == i + 1
    ensures i == |attempts| ==> Made(valid, attempts) == i
  {
    if i > 0 {
      MadeFacts(valid, attempts[1..], i - 1);
    }
  }

  /** Never returns data that fails the schema; asks at most once per attempt; returns the
      first valid answer with the cost of every attempt made, or, if none is valid, an
      error that still carries the whole cost. */
  method ExtractValidated<D>(valid: D -> bool, attempts: seq<Attempt<D>>) returns (r: Result<D>, asked: nat)
    ensures asked == Made(valid, attempts) <= |attempts|
    ensures forall k :: 0 <= k < asked - 1 ==> !Decides(valid, attempts[k])
    ensures match r
            case Extracted(data, i, o, cost) =>
              asked > 0 && attempts[asked - 1].Answer? && attempts[asked - 1].data == data && valid(data)
              && Usage(i, o, cost) == Used(attempts[..asked])
            case NeverValid(spent) =>
              asked == |attempts| && (forall k :: 0 <= k < |attempts| ==> !Decides(valid, attempts[k]))
              && spent == Billed(attempts)
            case ProviderError => asked > 0 && attempts[asked - 1].Raises?
  {
    var spent: nat, inTokens: nat, outTokens: nat := 0, 0, 0;
    for i := 0 to |attempts|
      invariant forall k :: 0 <= k < i ==> !Decides(valid, attempts[k])
      invariant Usage(inTokens, outTokens, spent) == Used(attempts[..i])
    {
      assert attempts[..i + 1][..i] == attempts[..i];
      MadeFacts(valid, attempts, i);
      if attempts[i].Raises? {
        return ProviderError, i + 1;
      }
      spent := spent + attempts[i].cost;
      inTokens := inTokens + attempts[i].inTokens;
      outTokens := outTokens + attempts[i].outTokens;
      if valid(attempts[i].data) {
        return Extracted(attempts[i].data, inTokens, outTokens, spent), i + 1;
      }
    }
    assert attempts[..|attempts|] == attempts;
    MadeFacts(valid, attempts, |attempts|);
    return NeverValid(spent), |attempts|;
  }

  /** The metadata extractor's charge for one document. */
  class MetadataExtractor {
    const spend: SpendGovernor

    constructor (spend: SpendGovernor)
      ensures this.spend == spend
    {
      this.spend := spend;
    }

    /** The governor rises by the cost of all attempts made, exactly unless an attempt
        raised after one that cost something: then that cost is lost. */
    method Extract<D>(valid: D -> bool, attempts: seq<Attempt<D>>) returns (r: Result<D>, ghost asked: nat)
      modifies spend`total
      ensures asked == Made(valid, attempts) <= |attempts|
      ensures r.Extracted? ==> valid(r.data)
      ensures spend.total == old(spend.total) + Charge(valid, attempts)
      ensures r.Extracted? ==> r.cost == Charge(valid, attempts)
    {
      var calls;
      r, calls := ExtractValidated(valid, attempts);
      asked := calls;
      match r {
        case Extracted(_, _, _, cost) =>
          var _ := spend.Add(cost);
        case NeverValid(spent) =>
          assert attempts[..asked] == attempts;
          if spent > 0 {
            var _ := spend.Add(spent);
          }
        case ProviderError =>
      }
    }
  }

  /** What reaches the governor: nothing if the last attempt made raised. */
  function Charge<D>(valid: D -> bool, attempts: seq<Attempt<D>>): Money {
    var made := Made(valid, attempts);
    if made > 0 && attempts[made - 1].Raises? then 0 else Billed(attempts[..made])
  }

  lemma {:induction false} MadeWithin<D>(valid: D -> bool, attempts: seq<Attempt<D>>)
    ensures Made(valid, attempts) <= |attempts|
    ensures attempts != [] ==> Made(valid, attempts) > 0
    ensures forall k :: 0 <= k < Made(valid, attempts) - 1 ==> !Decides(valid, attempts[k])
  {
    if attempts != [] && !Decides(valid, attempts[0]) {
      MadeWithin(valid, attempts[1..]);
      forall k | 0 <= k < Made(valid, attempts) - 1
        ensures !Decides(valid, attempts[k])
      {
        if k > 0 {
          assert attempts[k] == attempts[1..][k - 1];
        }
      }
    }
  }

  /** The charge equals what the vendor billed for the attempts made exactly when no
      attempt raised after one that cost something. */
  lemma ChargeIsExactUnlessRaised<D>(valid: D -> bool, attempts: seq<Attempt<D>>)
    ensures var made := Made(valid, attempts);
            var exact := Charge(valid, attempts) == Billed(attempts[..made]);
            exact <==> !(made > 0 && attempts[made - 1].Raises?
                         && exists k :: 0 <= k < made - 1 && attempts[k].Answer? && attempts[k].cost > 0)
  {
    MadeWithin(valid, attempts);
    var made := Made(valid, attempts);
    BilledIsZero(attempts[..made]);
    if made > 0 && attempts[made - 1].Raises? {
      forall k | 0 <= k < made && attempts[..made][k].Answer? && attempts[..made][k].cost > 0
        ensures k < made - 1 && attempts[k].Answer? && attempts[k].cost > 0
      {
      }
    }
  }

  lemma {:induction false} BilledIsZero<D>(attempts: seq<Attempt<D>>)
    ensures Billed(attempts) == 0
            <==> !exists k :: 0 <= k < |attempts| && attempts[k].Answer? && attempts[k].cost > 0
  {
    if attempts != [] {
      var front := attempts[..|attempts| - 1];
      BilledIsZero(front);
      forall k | 0 <= k < |front|
        ensures front[k] == attempts[k]
      {
      }
    }
  }
}
