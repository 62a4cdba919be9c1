/** The hosted-inference endpoint: the mandated order of checks, the price gate, the
    vendor call and its metering; and what the order guarantees when requests overlap. */
module Inference {
  import opened Messages
  import opened Spend
  import opened Billing

  /** A request as far as the gate reads it: its kind, whether the content it needs is
      there, and the model hint. */
  datatype Kind = Transcribe | Extract | Other(tag: nat)

  datatype Request = Request(kind: Kind, hasContent: bool, model: Option<Model>)

  datatype Answer = Answered(inTokens: nat, outTokens: nat) | BackendRaised

  datatype Response =
    | Served(usage: Usage)
    | Refused(code: nat)
    | Crashed

  /** Which models have an explicit price, what a call costs, and the default model and
      metered task name of each kind. */
  datatype Pricing = Pricing(
    priced: set<Model>, price: (Model, nat, nat) -> Money,
    transcribeModel: Model, extractModel: Model, transcribeTask: Task, extractTask: Task)

  function ModelOf(p: Pricing, r: Request): Model {
    if r.model.Some? then r.model.value
    else if r.kind == Transcribe then p.transcribeModel else p.extractModel
  }

  function TaskOf(p: Pricing, r: Request): Task {
    if r.kind == Transcribe then p.transcribeTask else p.extractTask
  }

  /** A call of the vendor is of the model the request names, or, if it names none, of its own
      kind's default; and only of a model with a price. */
  predicate Calls(p: Pricing, r: Request, model: Model) {
    && r.hasContent && model in p.priced
    && match r.kind
       case Transcribe => (r.model == None && model == p.transcribeModel) || r.model == Some(model)
       case Extract => (r.model == None && model == p.extractModel) || r.model == Some(model)
       case Other(_) => false
  }

  /** The vendor was called once, for this tenant and such a model, if there is one; else not. */
  ghost predicate CalledFor(p: Pricing, r: Request, tenant: Tenant, before: seq<(Tenant, Model)>, after: seq<(Tenant, Model)>) {
    if exists m :: Calls(p, r, m) then exists m :: Calls(p, r, m) && after == before + [(tenant, m)]
    else after == before
  }

  /** The usage recorded is of that model, under its own kind's task, with the
      tokens answered, at the model's price for them. */
  ghost predicate MetersAs(p: Pricing, r: Request, answer: Answer, u: Usage) {
    && Calls(p, r, u.model) && answer.Answered?
    && u.inTokens == answer.inTokens && u.outTokens == answer.outTokens
    && u.cost == p.price(u.model, answer.inTokens, answer.outTokens)
    && (r.kind.Transcribe? ==> u.task == p.transcribeTask) && (r.kind.Extract? ==> u.task == p.extractTask)
  }

  class InferenceEndpoint {
    const billing: BillingStore
    const configured: bool
    const pricing: Pricing
    var vendorCalls: seq<(Tenant, Model)>

    /** How many of a tenant's requests are between the gate and their metering. */
    ghost var running: map<Tenant, nat>

    constructor (billing: BillingStore, configured: bool, pricing: Pricing)
      ensures this.billing == billing && this.configured == configured && this.pricing == pricing
      ensures vendorCalls == [] && running == map[]
    {
      this.billing, this.configured, this.pricing := billing, configured, pricing;
      vendorCalls, running := [], map[];
    }

    ghost function Running(tenant: Tenant): nat
      reads this
    {
      if tenant in running then running[tenant] else 0
    }

    /** A tenant's account, as its overlapping requests see it. */
    ghost function AccountOf(tenant: Tenant): Account
      reads this, billing
    {
      Account(tenant in billing.subs && billing.subs[tenant].status == Active, billing.Cap(tenant), billing.Spent(tenant), Running(tenant))
    }

    /** An active subscription, spend under the cap. */
    predicate Allowed(tenant: Tenant)
      reads billing
    {
      && tenant in billing.subs && billing.subs[tenant].status == Active
      && !Closed(billing.Cap(tenant), billing.Spent(tenant))
    }

    /** A known kind with its content, for a priced model. */
    predicate Runnable(r: Request) {
      !r.kind.Other? && r.hasContent && ModelOf(pricing, r) in pricing.priced
    }

    /** A request ends unmetered. */
    ghost method Leave(tenant: Tenant)
      requires Running(tenant) > 0
      modifies this`running
      ensures AccountOf(tenant) == Advanced(old(AccountOf(tenant)), Fail)
      ensures forall t :: t != tenant ==> Running(t) == old(Running(t))
    {
      running := running[tenant := Running(tenant) - 1];
    }

    /** A request ends metered. */
    method Record(tenant: Tenant, u: Usage)
      requires Running(tenant) > 0
      modifies this`running, billing`ledger
      ensures AccountOf(tenant) == Advanced(old(AccountOf(tenant)), Meter(u.cost))
      ensures forall t :: t != tenant ==> Running(t) == old(Running(t))
      ensures billing.ledger == old(billing.ledger)[tenant := old(billing.Records(tenant)) + [u]]
    {
      billing.RecordUsage(tenant, u);
      running := running[tenant := Running(tenant) - 1];
    }

    /** Runs an authorized request: the price gate closes before the paid call, and an
        answered call is metered. */
    method Run(tenant: Tenant, r: Request, answer: Answer) returns (response: Response)
      requires Running(tenant) > 0
      modifies this`vendorCalls, this`running, billing`ledger
      ensures AccountOf(tenant) == Advanced(old(AccountOf(tenant)), if response.Served? then Meter(response.usage.cost) else Fail)
      ensures forall t :: t != tenant ==> Running(t) == old(Running(t))
      ensures vendorCalls == old(vendorCalls) + if Runnable(r) then [(tenant, ModelOf(pricing, r))] else []
      ensures response.Served? <==> Runnable(r) && answer.Answered?
      ensures billing.ledger == if response.Served?
                                then old(billing.ledger)[tenant := old(billing.Records(tenant)) + [response.usage]]
                                else old(billing.ledger)
      ensures response.Served? ==>
                response.usage == Usage(TaskOf(pricing, r), ModelOf(pricing, r), answer.inTokens, answer.outTokens,
                                        pricing.price(ModelOf(pricing, r), answer.inTokens, answer.outTokens))
      ensures CalledFor(pricing, r, tenant, old(vendorCalls), vendorCalls)
      ensures response.Served? ==> MetersAs(pricing, r, answer, response.usage)
      ensures response.Served? <==> answer.Answered? && exists m :: Calls(pricing, r, m)
      ensures response.Served? ==> billing.Spent(tenant) == old(billing.Spent(tenant)) + response.usage.cost
      ensures Runnable(r) && answer == BackendRaised ==> response == Crashed
      ensures !Runnable(r) ==>
                response == Refused(if r.kind.Other? || !r.hasContent then 400 else 500)
    {
      OneModel(pricing, r);
      if r.kind.Other? || !r.hasContent {
        Leave(tenant);
        return Refused(400);
      }
      var model := ModelOf(pricing, r);
      if model !in pricing.priced {
        Leave(tenant);
        return Refused(500);
      }
      assert Calls(pricing, r, model);
      vendorCalls := vendorCalls + [(tenant, model)];
      match answer {
        case BackendRaised =>
          Leave(tenant);
          response := Crashed;
        case Answered(i, o) =>
          var u := Usage(TaskOf(pricing, r), model, i, o, pricing.price(model, i, o));
          Record(tenant, u);
          response := Served(u);
      }
    }

    /** The gate of one tenant's request: 402 or 429, or it passes. */
    method Gate(tenant: Tenant) returns (refusal: Option<nat>)
      modifies this`running
      ensures refusal.None? <==> Allowed(tenant)
      ensures refusal.None? <==> old(AccountOf(tenant)).active && !Closed(old(AccountOf(tenant)).cap, old(AccountOf(tenant)).spent)
      ensures refusal.Some? ==>
                refusal.value == if tenant in billing.subs && billing.subs[tenant].status == Active then 429 else 402
      ensures AccountOf(tenant) == if refusal.None? then Advanced(old(AccountOf(tenant)), Admit) else old(AccountOf(tenant))
      ensures forall t :: t != tenant ==> Running(t) == old(Running(t))
    {
      var entitled := billing.CheckEntitled(tenant);
      if !entitled {
        return Some(402);
      }
      var underCap := billing.CheckSpendCap(tenant);
      if !underCap {
        return Some(429);
      }
      running := running[tenant := Running(tenant) + 1];
      refusal := None;
    }

    /** The checks in order. The vendor's model runs exactly when all of them pass; the
        first that fails gives the code; only the caller's own tenant is ever metered;
        and one request takes a tenant's spend past its cap by less than its own cost. */
    method Infer(agent: Option<Tenant>, r: Request, answer: Answer) returns (response: Response)
      modifies this`vendorCalls, this`running, billing`ledger
      ensures forall t :: Running(t) == old(Running(t))
      ensures vendorCalls == old(vendorCalls)
                             + if agent.Some? && configured && old(Allowed(agent.value)) && Runnable(r)
                               then [(agent.value, ModelOf(pricing, r))] else []
      ensures response.Served? <==>
                agent.Some? && configured && old(Allowed(agent.value)) && Runnable(r) && answer.Answered?
      ensures if agent.Some? && configured && old(Allowed(agent.value))
              then CalledFor(pricing, r, agent.value, old(vendorCalls), vendorCalls)
              else vendorCalls == old(vendorCalls)
      ensures response.Served? ==> MetersAs(pricing, r, answer, response.usage)
      ensures response.Refused? ==>
                response.code == (if agent.None? then 401
                                  else if !configured then 501
                                  else if !(agent.value in billing.subs && billing.subs[agent.value].status == Active) then 402
                                  else if !old(Allowed(agent.value)) then 429
                                  else if r.kind.Other? || !r.hasContent then 400
                                  else 500)
      ensures forall t: Tenant :: agent != Some(t) ==> billing.Records(t) == old(billing.Records(t))
      ensures !response.Served? ==> billing.ledger == old(billing.ledger)
      ensures response.Served? ==>
                billing.Records(agent.value) == old(billing.Records(agent.value)) + [response.usage]
      ensures forall t: Tenant :: billing.Cap(t) > 0 && billing.Spent(t) != old(billing.Spent(t)) ==>
                response.Served? && billing.Spent(t) < billing.Cap(t) + response.usage.cost
    {
      if agent.None? {
        return Refused(401);
      }
      if !configured {
        return Refused(501);
      }
      var tenant := agent.value;
      var refusal := Gate(tenant);
      if refusal.Some? {
        return Refused(refusal.value);
      }
      response := Run(tenant, r, answer);
    }
  }

  /** There is at most one such model: the hint decides, whether priced or not. */
  lemma OneModel(p: Pricing, r: Request)
    ensures forall m :: Calls(p, r, m) <==>
              !r.kind.Other? && r.hasContent && ModelOf(p, r) in p.priced && m == ModelOf(p, r)
    ensures r.kind.Transcribe? ==> TaskOf(p, r) == p.transcribeTask
    ensures r.kind.Extract? ==> TaskOf(p, r) == p.extractTask
  {
  }

  // ----- requests that overlap ---------------------------------------------

  /** One tenant's account as its requests see it; `running` have passed the gate and not
      yet been metered. */
  datatype Account = Account(active: bool, cap: Money, spent: Money, running: nat)

  /** A request passes the gate; one is metered; one fails unmetered; the operator changes
      the status, sets a subscription with its cap, or resets the usage. */
  datatype Event =
    | Admit
    | Meter(cost: Money)
    | Fail
    | SetActive(active: bool)
    | Subscribe(active: bool, cap: Money)
    | Reset

  predicate Possible(a: Account, e: Event, dearest: Money, atOnce: nat) {
    match e
    case Admit => a.active && !Closed(a.cap, a.spent) && a.running < atOnce
    case Meter(cost) => a.running > 0 && cost <= dearest
    case Fail => a.running > 0
    case SetActive(_) => true
    case Subscribe(_, _) => true
    case Reset => true
  }

  function Advanced(a: Account, e: Event): Account
    requires e.Meter? || e.Fail? ==> a.running > 0
  {
    match e
    case Admit => a.(running := a.running + 1)
    case Meter(cost) => a.(spent := a.spent + cost, running := a.running - 1)
    case Fail => a.(running := a.running - 1)
    case SetActive(on) => a.(active := on)
    case Subscribe(on, cap) => a.(active := on, cap := cap)
    case Reset => a.(spent := 0)
  }

  /** The account after a run of possible events, if they are possible in turn. */
  function After(a: Account, events: seq<Event>, dearest: Money, atOnce: nat): Option<Account> {
    if events == [] then Some(a)
    else
      var before := After(a, events[..|events| - 1], dearest, atOnce);
      var e := events[|events| - 1];
      if before.Some? && Possible(before.value, e, dearest, atOnce) then Some(Advanced(before.value, e)) else None
  }

  /** The highest cap the tenant ever had; and whether it always had one. */
  function HighestCap(a: Account, events: seq<Event>): Money {
    if events == [] then a.cap
    else
      var before, e := HighestCap(a, events[..|events| - 1]), events[|events| - 1];
      if e.Subscribe? && e.cap > before then e.cap else before
  }

  predicate AlwaysCapped(a: Account, events: seq<Event>) {
    if events == [] then a.cap > 0
    else AlwaysCapped(a, events[..|events| - 1]) && (events[|events| - 1].Subscribe? ==> events[|events| - 1].cap > 0)
  }

  /** Metered and in flight, below the highest cap plus `atOnce` calls; or still where it was. */
  predicate Near(high: Money, dearest: Money, atOnce: nat, before: Money, b: Account) {
    && b.running <= atOnce && 0 < b.cap <= high
    && (b.spent + b.running * dearest < high + atOnce * dearest || (b.running == 0 && b.spent == before && before >= high))
  }

  lemma EventKeepsNear(high: Money, dearest: Money, atOnce: nat, before: Money, b: Account, e: Event)
    requires Near(high, dearest, atOnce, before, b) && Possible(b, e, dearest, atOnce)
    requires e.Subscribe? ==> 0 < e.cap <= high
    ensures Near(high, dearest, atOnce, before, Advanced(b, e))
  {
    match e {
      case Admit => Scaled(b.running + 1, atOnce, dearest);
      case Meter(cost) => assert b.running * dearest == (b.running - 1) * dearest + dearest;
      case Fail => assert b.running * dearest == (b.running - 1) * dearest + dearest;
      case SetActive(_) =>
      case Subscribe(_, _) =>
      case Reset => Scaled(b.running, atOnce, dearest);
    }
  }

  lemma NearRises(high: Money, higher: Money, dearest: Money, atOnce: nat, before: Money, b: Account)
    requires Near(high, dearest, atOnce, before, b) && high <= higher && atOnce > 0
    ensures Near(higher, dearest, atOnce, before, b)
  {
    assert atOnce * dearest >= 0;
  }

  lemma {:induction false} OverlapKeepsNear(a: Account, events: seq<Event>, dearest: Money, atOnce: nat)
    requires AlwaysCapped(a, events) && atOnce > 0 && a.running == 0 && After(a, events, dearest, atOnce).Some?
    ensures Near(HighestCap(a, events), dearest, atOnce, a.spent, After(a, events, dearest, atOnce).value)
  {
    if events == [] {
      assert atOnce * dearest >= 0;
    } else {
      var front, e := events[..|events| - 1], events[|events| - 1];
      OverlapKeepsNear(a, front, dearest, atOnce);
      var b := After(a, front, dearest, atOnce).value;
      NearRises(HighestCap(a, front), HighestCap(a, events), dearest, atOnce, a.spent, b);
      EventKeepsNear(HighestCap(a, events), dearest, atOnce, a.spent, b, e);
    }
  }

  /** Requests gate and meter in any interleaving, at most `atOnce` of them between the two,
      while the operator changes status and cap and resets the usage; with no call dearer than
      `dearest`, the metered spend of a tenant that always has a cap stays below its highest cap
      plus that many calls, or, if it was past that cap already, does not rise until a reset.
      One at a time is the sequential bound. */
  lemma {:induction false} OverlapStaysNearCap(a: Account, events: seq<Event>, dearest: Money, atOnce: nat)
    requires AlwaysCapped(a, events) && atOnce > 0 && a.running == 0 && After(a, events, dearest, atOnce).Some?
    ensures var b, high := After(a, events, dearest, atOnce).value, HighestCap(a, events);
            b.spent < high + atOnce * dearest || (a.spent >= high && b.spent == a.spent)
  {
    OverlapKeepsNear(a, events, dearest, atOnce);
    var b := After(a, events, dearest, atOnce).value;
    assert b.running * dearest >= 0;
  }

  // ----- the bound is attained ---------------------------------------------

  lemma {:induction false} OneMore(a: Account, events: seq<Event>, dearest: Money, atOnce: nat, e: Event)
    requires After(a, events, dearest, atOnce).Some? && Possible(After(a, events, dearest, atOnce).value, e, dearest, atOnce)
    ensures After(a, events + [e], dearest, atOnce) == Some(Advanced(After(a, events, dearest, atOnce).value, e))
  {
    assert (events + [e])[..|events|] == events;
  }

  /** For any cap, price and number of overlapping requests some interleaving takes the tenant to
      one below the bound. */
  lemma {:induction false} OverlapIsAttained(cap: Money, dearest: Money, atOnce: nat) returns (events: seq<Event>)
    requires cap > 0 && dearest > 0 && atOnce > 0
    ensures After(Account(true, cap, 0, 0), events, dearest, atOnce) == Some(Account(true, cap, cap + atOnce * dearest - 1, 0))
  {
    var a := Account(true, cap, 0, 0);
    events := [];
    for k := 0 to cap - 1
      invariant After(a, events, dearest, atOnce) == Some(Account(true, cap, k, 0))
    {
      OneMore(a, events, dearest, atOnce, Admit);
      OneMore(a, events + [Admit], dearest, atOnce, Meter(1));
      events := events + [Admit] + [Meter(1)];
    }
    for i := 0 to atOnce
      invariant After(a, events, dearest, atOnce) == Some(Account(true, cap, cap - 1, i))
    {
      OneMore(a, events, dearest, atOnce, Admit);
      events := events + [Admit];
    }
    for i := 0 to atOnce
      invariant After(a, events, dearest, atOnce) == Some(Account(true, cap, cap - 1 + i * dearest, atOnce - i))
    {
      OneMore(a, events, dearest, atOnce, Meter(dearest));
      events := events + [Meter(dearest)];
      assert (i + 1) * dearest == i * dearest + dearest;
    }
  }

  lemma Scaled(few: nat, many: nat, unit: Money)
    requires few <= many
    ensures few * unit <= many * unit
  {
    assert many * unit == few * unit + (many - few) * unit;
  }
}
