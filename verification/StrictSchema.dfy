/** Adapting a JSON Schema to OpenAI's strict dialect, and why an answer to the adapted
    schema answers the engine's own. Strings are only compared, so a string, also as a
    dictionary key, is a number. */
module StrictSchema {
  import opened Messages

  type Text = nat

  datatype Json =
    | Null | Bool(value: bool) | Num(number: real) | Str(text: Text)
    | Arr(items: Items)
    | Obj(members: Members)

  datatype Items = NoItems | Elem(head: Json, tail: Items)

  /** A dictionary in insertion order. */
  datatype Members = NoMembers | Member(key: Text, value: Json, rest: Members)

  // ----- the words of the dialect ------------------------------------------

  const TYPE: Text := 0
  const PROPERTIES: Text := 1
  const REQUIRED: Text := 2
  const ITEMS: Text := 3
  const ADDITIONAL: Text := 4
  const OBJECT: Text := 5
  const ARRAY: Text := 6
  const STRING: Text := 7
  const BOOLEAN: Text := 8
  const NUMBER: Text := 9
  const NULL: Text := 10
  const DESCRIPTION: Text := 11

  function Get(m: Members, key: Text): (r: Option<Json>)
    ensures r.Some? ==> (m decreases to r.value)
  {
    match m
    case NoMembers => None
    case Member(k, v, rest) => if k == key then Some(v) else Get(rest, key)
  }

  /** Assignment: a known key keeps its place. */
  function Put(m: Members, key: Text, v: Json): Members {
    match m
    case NoMembers => Member(key, v, NoMembers)
    case Member(k, before, rest) => if k == key then Member(k, v, rest) else Member(k, before, Put(rest, key, v))
  }

  function Keys(m: Members): Items {
    match m
    case NoMembers => NoItems
    case Member(k, _, rest) => Elem(Str(k), Keys(rest))
  }

  // ----- the translation ---------------------------------------------------

  function Strict(node: Json): Json {
    match node
    case Obj(ms) =>
      var out := StrictMembers(ms);
      if IsObjectNode(out) then Obj(Put(Put(out, ADDITIONAL, Bool(false)), REQUIRED, Arr(Keys(Get(out, PROPERTIES).value.members))))
      else Obj(out)
    case Arr(xs) => Arr(StrictItems(xs))
    case _ => node
  }

  function StrictMembers(ms: Members): Members {
    match ms
    case NoMembers => NoMembers
    case Member(k, v, rest) => Member(k, Strict(v), StrictMembers(rest))
  }

  function StrictItems(xs: Items): Items {
    match xs
    case NoItems => NoItems
    case Elem(x, rest) => Elem(Strict(x), StrictItems(rest))
  }

  /** A schema node for an object with listed properties. */
  predicate IsObjectNode(ms: Members) {
    Get(ms, TYPE) == Some(Str(OBJECT)) && Get(ms, PROPERTIES).Some? && Get(ms, PROPERTIES).value.Obj?
  }

  // ----- closed schemas are the fixpoints ----------------------------------

  /** Every object node in the schema allows no other property and requires them all. */
  predicate Closed(node: Json) {
    match node
    case Obj(ms) =>
      && ClosedMembers(ms)
      && (IsObjectNode(ms) ==>
            && Get(ms, ADDITIONAL) == Some(Bool(false))
            && Get(ms, REQUIRED) == Some(Arr(Keys(Get(ms, PROPERTIES).value.members))))
    case Arr(xs) => ClosedItems(xs)
    case _ => true
  }

  predicate ClosedMembers(ms: Members) {
    match ms
    case NoMembers => true
    case Member(_, v, rest) => Closed(v) && ClosedMembers(rest)
  }

  predicate ClosedItems(xs: Items) {
    match xs
    case NoItems => true
    case Elem(x, rest) => Closed(x) && ClosedItems(rest)
  }

  lemma {:induction false} PutGet(m: Members, key: Text, v: Json, other: Text)
    ensures Get(Put(m, key, v), other) == if other == key then Some(v) else Get(m, other)
  {
    if m.Member? && m.key != key {
      PutGet(m.rest, key, v, other);
    }
  }

  lemma {:induction false} PutSame(m: Members, key: Text, v: Json)
    requires Get(m, key) == Some(v)
    ensures Put(m, key, v) == m
  {
    if m.key != key {
      PutSame(m.rest, key, v);
    }
  }

  lemma {:induction false} PutClosed(m: Members, key: Text, v: Json)
    requires ClosedMembers(m) && Closed(v)
    ensures ClosedMembers(Put(m, key, v))
  {
    if m.Member? && m.key != key {
      PutClosed(m.rest, key, v);
    }
  }

  lemma {:induction false} KeysClosed(m: Members)
    ensures ClosedItems(Keys(m))
  {
    if m.Member? {
      KeysClosed(m.rest);
    }
  }

  /** The translation closes every object node, whatever the input, nested or not. */
  lemma {:induction false} StrictCloses(node: Json)
    ensures Closed(Strict(node))
    decreases node
  {
    match node {
      case Obj(ms) =>
        StrictClosesMembers(ms);
        var out := StrictMembers(ms);
        if IsObjectNode(out) {
          var names := Arr(Keys(Get(out, PROPERTIES).value.members));
          KeysClosed(Get(out, PROPERTIES).value.members);
          PutClosed(out, ADDITIONAL, Bool(false));
          PutClosed(Put(out, ADDITIONAL, Bool(false)), REQUIRED, names);
          PutsGet(out, names);
        }
      case Arr(xs) => StrictClosesItems(xs);
      case _ =>
    }
  }

  lemma {:induction false} StrictClosesMembers(ms: Members)
    ensures ClosedMembers(StrictMembers(ms))
    decreases ms
  {
    if ms.Member? {
      StrictCloses(ms.value);
      StrictClosesMembers(ms.rest);
    }
  }

  lemma {:induction false} StrictClosesItems(xs: Items)
    ensures ClosedItems(StrictItems(xs))
    decreases xs
  {
    if xs.Elem? {
      StrictCloses(xs.head);
      StrictClosesItems(xs.tail);
    }
  }

  /** The two assignments leave every other key alone. */
  lemma PutsGet(out: Members, names: Json)
    ensures var m := Put(Put(out, ADDITIONAL, Bool(false)), REQUIRED, names);
            && Get(m, ADDITIONAL) == Some(Bool(false)) && Get(m, REQUIRED) == Some(names)
            && Get(m, TYPE) == Get(out, TYPE) && Get(m, PROPERTIES) == Get(out, PROPERTIES) && Get(m, ITEMS) == Get(out, ITEMS)
  {
    var closed := Put(out, ADDITIONAL, Bool(false));
    PutGet(closed, REQUIRED, names, ADDITIONAL);
    PutGet(closed, REQUIRED, names, REQUIRED);
    PutGet(closed, REQUIRED, names, TYPE);
    PutGet(closed, REQUIRED, names, PROPERTIES);
    PutGet(closed, REQUIRED, names, ITEMS);
    PutGet(out, ADDITIONAL, Bool(false), ADDITIONAL);
    PutGet(out, ADDITIONAL, Bool(false), TYPE);
    PutGet(out, ADDITIONAL, Bool(false), PROPERTIES);
    PutGet(out, ADDITIONAL, Bool(false), ITEMS);
  }

  lemma {:induction false} ClosedIsFixed(node: Json)
    requires Closed(node)
    ensures Strict(node) == node
    decreases node
  {
    match node {
      case Obj(ms) =>
        ClosedMembersFixed(ms);
        if IsObjectNode(ms) {
          PutSame(ms, ADDITIONAL, Bool(false));
          PutSame(ms, REQUIRED, Arr(Keys(Get(ms, PROPERTIES).value.members)));
        }
      case Arr(xs) => ClosedItemsFixed(xs);
      case _ =>
    }
  }

  lemma {:induction false} ClosedMembersFixed(ms: Members)
    requires ClosedMembers(ms)
    ensures StrictMembers(ms) == ms
    decreases ms
  {
    if ms.Member? {
      ClosedIsFixed(ms.value);
      ClosedMembersFixed(ms.rest);
    }
  }

  lemma {:induction false} ClosedItemsFixed(xs: Items)
    requires ClosedItems(xs)
    ensures StrictItems(xs) == xs
    decreases xs
  {
    if xs.Elem? {
      ClosedIsFixed(xs.head);
      ClosedItemsFixed(xs.tail);
    }
  }

  /** The translation changes nothing exactly when the schema is closed already; so, for
      every input, doing it twice is doing it once. */
  lemma StrictIsIdempotent(node: Json)
    ensures Strict(node) == node <==> Closed(node)
    ensures Strict(Strict(node)) == Strict(node)
  {
    StrictCloses(node);
    ClosedIsFixed(Strict(node));
    if Closed(node) {
      ClosedIsFixed(node);
    }
  }

  // ----- what a schema accepts (JSON Schema 2020-12) -----------------------

  function Properties(ms: Members): (ps: Members)
    ensures ps == NoMembers || (ms decreases to ps)
  {
    match Get(ms, PROPERTIES)
    case Some(Obj(ps)) => ps
    case _ => NoMembers
  }

  /** The keywords type and required are of the Validation vocabulary (sections 6.1.1 and
      6.5.3), properties, additionalProperties and items of the Core specification
      (sections 10.3.2 and 10.3.1.2). Others are taken as annotations. */
  predicate Accepts(schema: Json, i: Json)
    decreases schema, 0
  {
    match schema
    case Bool(b) => b
    case Obj(ms) =>
      && TypeOk(Get(ms, TYPE), i)
      && (i.Obj? ==>
            && (Properties(ms).Member? ==> PropertiesOk(Properties(ms), i.members))
            && (Get(ms, REQUIRED).Some? ==> RequiredOk(Get(ms, REQUIRED).value, i.members))
            && (Get(ms, ADDITIONAL).Some? ==> AdditionalOk(Get(ms, ADDITIONAL).value, Properties(ms), i.members)))
      && (i.Arr? && Get(ms, ITEMS).Some? ==> ItemsOk(Get(ms, ITEMS).value, i.items))
    case _ => false
  }

  predicate TypeOk(t: Option<Json>, i: Json) {
    match t
    case None => true
    case Some(Str(name)) =>
      || (name == OBJECT && i.Obj?) || (name == ARRAY && i.Arr?) || (name == STRING && i.Str?)
      || (name == BOOLEAN && i.Bool?) || (name == NUMBER && i.Num?) || (name == NULL && i.Null?)
    case _ => false
  }

  /** Each listed property that is present matches its schema. */
  predicate PropertiesOk(ps: Members, inst: Members)
    decreases ps, 1
  {
    match ps
    case NoMembers => true
    case Member(k, s, rest) => (Get(inst, k).Some? ==> Accepts(s, Get(inst, k).value)) && PropertiesOk(rest, inst)
  }

  predicate RequiredOk(names: Json, inst: Members) {
    names.Arr? && Present(names.items, inst)
  }

  predicate Present(names: Items, inst: Members) {
    match names
    case NoItems => true
    case Elem(x, rest) => x.Str? && Get(inst, x.text).Some? && Present(rest, inst)
  }

  /** Each member that is not a listed property matches. */
  predicate AdditionalOk(s: Json, ps: Members, inst: Members)
    decreases s, 1, inst
  {
    match inst
    case NoMembers => true
    case Member(k, v, rest) => (Get(ps, k).None? ==> Accepts(s, v)) && AdditionalOk(s, ps, rest)
  }

  predicate ItemsOk(s: Json, xs: Items)
    decreases s, 1, xs
  {
    match xs
    case NoItems => true
    case Elem(x, rest) => Accepts(s, x) && ItemsOk(s, rest)
  }

  // ----- the fragment the engine uses --------------------------------------

  /** Every name in the list is one of these properties. */
  predicate NamesWithin(names: Items, ps: Members) {
    match names
    case NoItems => true
    case Elem(x, rest) => x.Str? && Get(ps, x.text).Some? && NamesWithin(rest, ps)
  }

  predicate AllText(xs: Items) {
    match xs
    case NoItems => true
    case Elem(x, rest) => x.Str? && AllText(rest)
  }

  /** An object node requires only properties it lists. */
  predicate RequiresListed(ms: Members) {
    IsObjectNode(ms) && Get(ms, REQUIRED).Some? ==>
      Get(ms, REQUIRED).value.Arr? && NamesWithin(Get(ms, REQUIRED).value.items, Properties(ms))
  }

  /** The node's keywords have the shape the specification asks for, and its subschemas
      are in the fragment. */
  predicate Shaped(ms: Members)
    decreases ms, 1
  {
    && (Get(ms, TYPE).Some? ==> Get(ms, TYPE).value.Str?)
    && (Get(ms, PROPERTIES).Some? ==> Get(ms, PROPERTIES).value.Obj? && AllFragments(Get(ms, PROPERTIES).value.members))
    && (Get(ms, REQUIRED).Some? ==> Get(ms, REQUIRED).value.Arr? && AllText(Get(ms, REQUIRED).value.items))
    && (Get(ms, ITEMS).Some? ==> Fragment(Get(ms, ITEMS).value))
    && (Get(ms, ADDITIONAL).Some? ==> Fragment(Get(ms, ADDITIONAL).value))
  }

  predicate Fragment(s: Json)
    decreases s, 0
  {
    match s
    case Bool(_) => true
    case Obj(ms) => Shaped(ms) && RequiresListed(ms)
    case _ => false
  }

  predicate AllFragments(ps: Members)
    decreases ps, 0
  {
    match ps
    case NoMembers => true
    case Member(_, s, rest) => Fragment(s) && AllFragments(rest)
  }

  // ----- refinement --------------------------------------------------------

  lemma {:induction false} GetStrict(ms: Members, key: Text)
    ensures Get(StrictMembers(ms), key) == match Get(ms, key) case None => None case Some(v) => Some(Strict(v))
  {
    if ms.Member? && ms.key != key {
      GetStrict(ms.rest, key);
    }
  }

  lemma {:induction false} TextIsFixed(xs: Items)
    requires AllText(xs)
    ensures StrictItems(xs) == xs
  {
    if xs.Elem? {
      TextIsFixed(xs.tail);
    }
  }

  lemma {:induction false} FragmentLookup(ps: Members, key: Text)
    requires AllFragments(ps) && Get(ps, key).Some?
    ensures Fragment(Get(ps, key).value)
  {
    if ps.key != key {
      FragmentLookup(ps.rest, key);
    }
  }

  /** A dictionary of subschemas is not itself taken for a schema, even if it lists
      properties called "type" and "properties". */
  lemma PropertiesMapKept(ps: Members)
    requires AllFragments(ps)
    ensures Strict(Obj(ps)) == Obj(StrictMembers(ps))
  {
    GetStrict(ps, TYPE);
    if Get(ps, TYPE).Some? {
      FragmentLookup(ps, TYPE);
    }
  }

  lemma {:induction false} KeysPresent(ps: Members, inst: Members, key: Text)
    requires Present(Keys(ps), inst) && Get(ps, key).Some?
    ensures Get(inst, key).Some?
  {
    if ps.key != key {
      KeysPresent(ps.rest, inst, key);
    }
  }

  lemma {:induction false} NamesPresent(names: Items, ps: Members, inst: Members)
    requires Present(Keys(ps), inst) && NamesWithin(names, ps)
    ensures Present(names, inst)
  {
    if names.Elem? {
      KeysPresent(ps, inst, names.head.text);
      NamesPresent(names.tail, ps, inst);
    }
  }

  lemma {:induction false} KeysKept(ms: Members)
    ensures Keys(StrictMembers(ms)) == Keys(ms)
  {
    if ms.Member? {
      KeysKept(ms.rest);
    }
  }

  /** A member of an instance that allows no other property is a listed one. */
  lemma {:induction false} NothingElse(ps: Members, inst: Members, key: Text)
    requires AdditionalOk(Bool(false), ps, inst) && Get(inst, key).Some?
    ensures Get(ps, key).Some?
  {
    if inst.key != key {
      NothingElse(ps, inst.rest, key);
    }
  }

  lemma {:induction false} AdditionalVacuous(s: Json, ps: Members, strict: Members, inst: Members)
    requires AdditionalOk(Bool(false), strict, inst) && forall k: Text :: Get(strict, k).Some? ==> Get(ps, k).Some?
    ensures AdditionalOk(s, ps, inst)
  {
    if inst.Member? {
      AdditionalVacuous(s, ps, strict, inst.rest);
    }
  }

  lemma {:induction false} RefinesProperties(ps: Members, inst: Members)
    requires AllFragments(ps) && PropertiesOk(StrictMembers(ps), inst)
    ensures PropertiesOk(ps, inst)
    decreases ps, 1
  {
    if ps.Member? {
      if Get(inst, ps.key).Some? {
        StrictRefines(ps.value, Get(inst, ps.key).value);
      }
      RefinesProperties(ps.rest, inst);
    }
  }

  lemma {:induction false} RefinesItems(s: Json, xs: Items)
    requires Fragment(s) && ItemsOk(Strict(s), xs)
    ensures ItemsOk(s, xs)
    decreases s, 1, xs
  {
    if xs.Elem? {
      StrictRefines(s, xs.head);
      RefinesItems(s, xs.tail);
    }
  }

  lemma {:induction false} RefinesAdditional(s: Json, ps: Members, strict: Members, inst: Members)
    requires Fragment(s) && AdditionalOk(Strict(s), strict, inst)
    requires forall k: Text :: Get(strict, k).Some? ==> Get(ps, k).Some?
    ensures AdditionalOk(s, ps, inst)
    decreases s, 1, inst
  {
    if inst.Member? {
      if Get(ps, inst.key).None? {
        StrictRefines(s, inst.value);
      }
      RefinesAdditional(s, ps, strict, inst.rest);
    }
  }

  /** The properties of the translated node are the translated properties. */
  lemma StrictProperties(ms: Members)
    requires Shaped(ms)
    ensures Properties(StrictMembers(ms)) == StrictMembers(Properties(ms))
    ensures IsObjectNode(StrictMembers(ms)) <==> IsObjectNode(ms)
    ensures forall k: Text :: Get(StrictMembers(Properties(ms)), k).Some? <==> Get(Properties(ms), k).Some?
    ensures Keys(StrictMembers(Properties(ms))) == Keys(Properties(ms))
  {
    GetStrict(ms, TYPE);
    GetStrict(ms, PROPERTIES);
    if Get(ms, PROPERTIES).Some? {
      PropertiesMapKept(Properties(ms));
    }
    forall k: Text
      ensures Get(StrictMembers(Properties(ms)), k).Some? <==> Get(Properties(ms), k).Some?
    {
      GetStrict(Properties(ms), k);
    }
    KeysKept(Properties(ms));
  }

  /** All of a node but its own `required` is refined. */
  lemma RefinesButRequired(ms: Members, i: Json)
    requires Shaped(ms) && Accepts(Strict(Obj(ms)), i)
    ensures TypeOk(Get(ms, TYPE), i)
    ensures i.Obj? ==> PropertiesOk(Properties(ms), i.members)
    ensures i.Obj? && Get(ms, ADDITIONAL).Some? ==> AdditionalOk(Get(ms, ADDITIONAL).value, Properties(ms), i.members)
    ensures i.Arr? && Get(ms, ITEMS).Some? ==> ItemsOk(Get(ms, ITEMS).value, i.items)
    decreases ms, 2
  {
    var out := StrictMembers(ms);
    GetStrict(ms, TYPE);
    GetStrict(ms, ITEMS);
    GetStrict(ms, ADDITIONAL);
    StrictProperties(ms);
    PutsGet(out, Arr(Keys(Properties(out))));
    if i.Obj? {
      if Properties(ms).Member? {
        RefinesProperties(Properties(ms), i.members);
      }
      if Get(ms, ADDITIONAL).Some? {
        if IsObjectNode(out) {
          AdditionalVacuous(Get(ms, ADDITIONAL).value, Properties(ms), StrictMembers(Properties(ms)), i.members);
        } else {
          RefinesAdditional(Get(ms, ADDITIONAL).value, Properties(ms), StrictMembers(Properties(ms)), i.members);
        }
      }
    }
    if i.Arr? && Get(ms, ITEMS).Some? {
      RefinesItems(Get(ms, ITEMS).value, i.items);
    }
  }

  /** Soundness: over the fragment, nested to any depth, whatever the adapted schema
      accepts the engine's own schema accepts. */
  lemma {:induction false} StrictRefines(s: Json, i: Json)
    requires Fragment(s) && Accepts(Strict(s), i)
    ensures Accepts(s, i)
    decreases s, 0
  {
    if s.Obj? {
      NodeRefinesIff(s.members, i);
    }
  }

  /** Where it fails, and only there: an instance the adapted node accepts is accepted by
      the node itself exactly when the node, if it is an object node, requires only
      properties it lists. */
  lemma NodeRefinesIff(ms: Members, i: Json)
    requires Shaped(ms) && Accepts(Strict(Obj(ms)), i)
    ensures Accepts(Obj(ms), i) <==> RequiresListed(ms)
    decreases ms, 3
  {
    RefinesButRequired(ms, i);
    var out := StrictMembers(ms);
    var ps := Properties(ms);
    GetStrict(ms, TYPE);
    GetStrict(ms, REQUIRED);
    StrictProperties(ms);
    PutsGet(out, Arr(Keys(Properties(out))));
    if i.Obj? && Get(ms, REQUIRED).Some? {
      var names := Get(ms, REQUIRED).value.items;
      if IsObjectNode(ms) {
        RequiredIffListed(names, ps, StrictMembers(ps), i.members);
      } else {
        TextIsFixed(names);
      }
    }
  }

  /** An instance with exactly the listed properties has the required ones exactly when
      they are listed. */
  lemma {:induction false} RequiredIffListed(names: Items, ps: Members, strict: Members, inst: Members)
    requires AllText(names) && Present(Keys(ps), inst) && AdditionalOk(Bool(false), strict, inst)
    requires forall k: Text :: Get(strict, k).Some? <==> Get(ps, k).Some?
    ensures Present(names, inst) <==> NamesWithin(names, ps)
  {
    if names.Elem? {
      RequiredIffListed(names.tail, ps, strict, inst);
      var key := names.head.text;
      if Get(ps, key).Some? {
        KeysPresent(ps, inst, key);
      } else if Get(inst, key).Some? {
        NothingElse(strict, inst, key);
      }
    }
  }

  // ----- nothing more is refused -------------------------------------------

  /** Every member is a listed property. */
  predicate OnlyListed(ps: Members, inst: Members) {
    match inst
    case NoMembers => true
    case Member(k, _, rest) => Get(ps, k).Some? && OnlyListed(ps, rest)
  }

  /** At each object node the instance holds every listed property and no other. */
  predicate Complete(s: Json, i: Json)
    decreases s, 0
  {
    match s
    case Obj(ms) =>
      && (i.Obj? ==>
            && (Properties(ms).Member? ==> CompleteProperties(Properties(ms), i.members))
            && (if IsObjectNode(ms) then Present(Keys(Properties(ms)), i.members) && OnlyListed(Properties(ms), i.members)
                else Get(ms, ADDITIONAL).Some? ==> CompleteOthers(Get(ms, ADDITIONAL).value, Properties(ms), i.members)))
      && (i.Arr? && Get(ms, ITEMS).Some? ==> CompleteItems(Get(ms, ITEMS).value, i.items))
    case _ => true
  }

  predicate CompleteProperties(ps: Members, inst: Members)
    decreases ps, 1
  {
    match ps
    case NoMembers => true
    case Member(k, s, rest) => (Get(inst, k).Some? ==> Complete(s, Get(inst, k).value)) && CompleteProperties(rest, inst)
  }

  predicate CompleteOthers(s: Json, ps: Members, inst: Members)
    decreases s, 1, inst
  {
    match inst
    case NoMembers => true
    case Member(k, v, rest) => (Get(ps, k).None? ==> Complete(s, v)) && CompleteOthers(s, ps, rest)
  }

  predicate CompleteItems(s: Json, xs: Items)
    decreases s, 1, xs
  {
    match xs
    case NoItems => true
    case Elem(x, rest) => Complete(s, x) && CompleteItems(s, rest)
  }

  lemma {:induction false} OnlyListedIs(ps: Members, strict: Members, inst: Members)
    requires forall k: Text :: Get(strict, k).Some? <==> Get(ps, k).Some?
    ensures AdditionalOk(Bool(false), strict, inst) <==> OnlyListed(ps, inst)
  {
    if inst.Member? {
      OnlyListedIs(ps, strict, inst.rest);
    }
  }

  lemma {:induction false} ListedNeedNoMore(s: Json, ps: Members, inst: Members)
    requires OnlyListed(ps, inst)
    ensures AdditionalOk(s, ps, inst)
  {
    if inst.Member? {
      ListedNeedNoMore(s, ps, inst.rest);
    }
  }

  lemma {:induction false} PropertiesIff(ps: Members, inst: Members)
    requires AllFragments(ps)
    ensures PropertiesOk(StrictMembers(ps), inst) <==> PropertiesOk(ps, inst) && CompleteProperties(ps, inst)
    decreases ps, 1
  {
    if ps.Member? {
      if Get(inst, ps.key).Some? {
        StrictAcceptsIff(ps.value, Get(inst, ps.key).value);
      }
      PropertiesIff(ps.rest, inst);
    }
  }

  lemma {:induction false} ItemsIff(s: Json, xs: Items)
    requires Fragment(s)
    ensures ItemsOk(Strict(s), xs) <==> ItemsOk(s, xs) && CompleteItems(s, xs)
    decreases s, 1, xs
  {
    if xs.Elem? {
      StrictAcceptsIff(s, xs.head);
      ItemsIff(s, xs.tail);
    }
  }

  lemma {:induction false} OthersIff(s: Json, ps: Members, strict: Members, inst: Members)
    requires Fragment(s) && forall k: Text :: Get(strict, k).Some? <==> Get(ps, k).Some?
    ensures AdditionalOk(Strict(s), strict, inst) <==> AdditionalOk(s, ps, inst) && CompleteOthers(s, ps, inst)
    decreases s, 1, inst
  {
    if inst.Member? {
      if Get(ps, inst.key).None? {
        StrictAcceptsIff(s, inst.value);
      }
      OthersIff(s, ps, strict, inst.rest);
    }
  }

  /** The translated node's keywords. */
  lemma StrictNode(ms: Members)
    requires Shaped(ms)
    ensures var out := StrictMembers(ms);
            var ps := StrictMembers(Properties(ms));
            && Strict(Obj(ms)).Obj?
            && var m := Strict(Obj(ms)).members;
               && Get(m, TYPE) == Get(ms, TYPE) && Properties(m) == ps
               && Get(m, ITEMS) == (match Get(ms, ITEMS) case None => None case Some(v) => Some(Strict(v)))
               && (if IsObjectNode(ms)
                   then Get(m, REQUIRED) == Some(Arr(Keys(Properties(ms)))) && Get(m, ADDITIONAL) == Some(Bool(false))
                   else Get(m, REQUIRED) == Get(ms, REQUIRED)
                        && Get(m, ADDITIONAL) == (match Get(ms, ADDITIONAL) case None => None case Some(v) => Some(Strict(v))))
  {
    var out := StrictMembers(ms);
    GetStrict(ms, TYPE);
    GetStrict(ms, ITEMS);
    GetStrict(ms, ADDITIONAL);
    GetStrict(ms, REQUIRED);
    StrictProperties(ms);
    PutsGet(out, Arr(Keys(Properties(out))));
    if Get(ms, REQUIRED).Some? {
      TextIsFixed(Get(ms, REQUIRED).value.items);
    }
  }

  /** The members of an instance at a node, under the translation and under the schema. */
  lemma {:induction false} MembersIff(ms: Members, inst: Members)
    requires Shaped(ms) && RequiresListed(ms)
    ensures var m := Strict(Obj(ms)).members;
            Accepts(Obj(m), Obj(inst)) <==> Accepts(Obj(ms), Obj(inst)) && Complete(Obj(ms), Obj(inst))
    decreases ms, 2
  {
    StrictNode(ms);
    StrictProperties(ms);
    var ps := Properties(ms);
    if ps.Member? {
      PropertiesIff(ps, inst);
    }
    if IsObjectNode(ms) {
      OnlyListedIs(ps, StrictMembers(ps), inst);
      if OnlyListed(ps, inst) && Get(ms, ADDITIONAL).Some? {
        ListedNeedNoMore(Get(ms, ADDITIONAL).value, ps, inst);
      }
      if Present(Keys(ps), inst) && Get(ms, REQUIRED).Some? {
        NamesPresent(Get(ms, REQUIRED).value.items, ps, inst);
      }
    } else if Get(ms, ADDITIONAL).Some? {
      OthersIff(Get(ms, ADDITIONAL).value, ps, StrictMembers(ps), inst);
    }
  }

  /** Exactly what the translation accepts, over the fragment and nested to any depth: what the
      schema accepts and holds, at each object node, every listed property and no other. */
  lemma {:induction false} StrictAcceptsIff(s: Json, i: Json)
    requires Fragment(s)
    ensures Accepts(Strict(s), i) <==> Accepts(s, i) && Complete(s, i)
    decreases s, 0
  {
    if s.Obj? {
      var ms := s.members;
      StrictNode(ms);
      if i.Obj? {
        MembersIff(ms, i.members);
      } else if i.Arr? && Get(ms, ITEMS).Some? {
        ItemsIff(Get(ms, ITEMS).value, i.items);
      }
    }
  }

  // ----- the engine's schema -----------------------------------------------

  function Typed(name: Text, description: Text): Json {
    Obj(Member(TYPE, Str(name), Member(DESCRIPTION, Str(description), NoMembers)))
  }

  function Listed(description: Text): Json {
    Obj(Member(TYPE, Str(ARRAY), Member(ITEMS, Obj(Member(TYPE, Str(STRING), NoMembers)),
        Member(DESCRIPTION, Str(description), NoMembers))))
  }

  /** Seven properties, all required: title, correspondent, document_type, tags, the two
      "is new" flags, new_tags, as 20 to 26; their descriptions as 30 to 36. */
  function MetadataProperties(): Members {
    Member(20, Typed(STRING, 30), Member(21, Typed(STRING, 31), Member(22, Typed(STRING, 32), Member(23, Listed(33),
    Member(24, Typed(BOOLEAN, 34), Member(25, Typed(BOOLEAN, 35), Member(26, Listed(36), NoMembers)))))))
  }

  function MetadataSchema(): Json {
    Obj(Member(TYPE, Str(OBJECT), Member(PROPERTIES, Obj(MetadataProperties()),
        Member(REQUIRED, Arr(Keys(MetadataProperties())), NoMembers))))
  }

  lemma {:induction false} OwnNamesWithin(ps: Members, all: Members)
    requires forall k: Text :: Get(ps, k).Some? ==> Get(all, k).Some?
    ensures NamesWithin(Keys(ps), all) && AllText(Keys(ps))
  {
    if ps.Member? {
      assert Get(ps, ps.key).Some?;
      forall k: Text | Get(ps.rest, k).Some?
        ensures Get(all, k).Some?
      {
        assert Get(ps, k).Some?;
      }
      OwnNamesWithin(ps.rest, all);
    }
  }

  /** Nothing but these keywords. */
  predicate Only(ms: Members, words: set<Text>) {
    match ms
    case NoMembers => true
    case Member(k, _, rest) => k in words && Only(rest, words)
  }

  lemma {:induction false} OnlyThese(ms: Members, words: set<Text>, key: Text)
    requires Only(ms, words) && key !in words
    ensures Get(ms, key) == None
  {
    if ms.Member? {
      OnlyThese(ms.rest, words, key);
    }
  }

  lemma TypedIsFragment(name: Text, description: Text)
    ensures Fragment(Typed(name, description))
  {
    var ms := Typed(name, description).members;
    assert Only(ms.rest, {TYPE, DESCRIPTION});
    OnlyThese(ms, {TYPE, DESCRIPTION}, PROPERTIES);
    OnlyThese(ms, {TYPE, DESCRIPTION}, REQUIRED);
    OnlyThese(ms, {TYPE, DESCRIPTION}, ITEMS);
    OnlyThese(ms, {TYPE, DESCRIPTION}, ADDITIONAL);
  }

  lemma ListedIsFragment(description: Text)
    ensures Fragment(Listed(description))
  {
    var ms := Listed(description).members;
    var item := Member(TYPE, Str(STRING), NoMembers);
    assert Get(item, PROPERTIES) == None && Get(item, REQUIRED) == None && Get(item, ITEMS) == None
        && Get(item, ADDITIONAL) == None && Shaped(item);
    assert Get(ms, ITEMS) == Some(Obj(item));
    assert Only(ms.rest.rest, {TYPE, ITEMS, DESCRIPTION});
    assert Only(ms, {TYPE, ITEMS, DESCRIPTION});
    OnlyThese(ms, {TYPE, ITEMS, DESCRIPTION}, PROPERTIES);
    OnlyThese(ms, {TYPE, ITEMS, DESCRIPTION}, REQUIRED);
    OnlyThese(ms, {TYPE, ITEMS, DESCRIPTION}, ADDITIONAL);
  }

  lemma MetadataPropertiesAreFragments()
    ensures AllFragments(MetadataProperties())
  {
    TypedIsFragment(STRING, 30);
    TypedIsFragment(STRING, 31);
    TypedIsFragment(STRING, 32);
    ListedIsFragment(33);
    TypedIsFragment(BOOLEAN, 34);
    TypedIsFragment(BOOLEAN, 35);
    ListedIsFragment(36);
    var last := Member(25, Typed(BOOLEAN, 35), Member(26, Listed(36), NoMembers));
    assert AllFragments(last);
    var later := Member(23, Listed(33), Member(24, Typed(BOOLEAN, 34), last));
    assert AllFragments(later);
    var most := Member(21, Typed(STRING, 31), Member(22, Typed(STRING, 32), later));
    assert AllFragments(most);
    assert MetadataProperties() == Member(20, Typed(STRING, 30), most);
  }

  /** The metadata schema is in the fragment, so a provider answer that the adapted schema
      admits is one the engine's re-validation admits. */
  lemma MetadataAnswersValidate(schema: Json, i: Json)
    requires schema == MetadataSchema()
    ensures Accepts(Strict(schema), i) ==> Accepts(schema, i)
  {
    MetadataPropertiesAreFragments();
    OwnNamesWithin(MetadataProperties(), MetadataProperties());
    MetadataNodeIsFragment(MetadataProperties());
    if Accepts(Strict(schema), i) {
      StrictRefines(schema, i);
    }
  }

  /** An object node that requires exactly its properties. */
  lemma MetadataNodeIsFragment(ps: Members)
    requires AllFragments(ps) && NamesWithin(Keys(ps), ps) && AllText(Keys(ps))
    ensures Fragment(Obj(Member(TYPE, Str(OBJECT), Member(PROPERTIES, Obj(ps), Member(REQUIRED, Arr(Keys(ps)), NoMembers)))))
  {
    var ms := Member(TYPE, Str(OBJECT), Member(PROPERTIES, Obj(ps), Member(REQUIRED, Arr(Keys(ps)), NoMembers)));
    assert Get(ms, TYPE) == Some(Str(OBJECT)) && Get(ms, PROPERTIES) == Some(Obj(ps));
    assert Get(ms.rest, REQUIRED) == Some(Arr(Keys(ps))) && Get(ms, REQUIRED) == Some(Arr(Keys(ps)));
    assert Only(ms.rest.rest, {TYPE, PROPERTIES, REQUIRED});
    assert Only(ms, {TYPE, PROPERTIES, REQUIRED});
    OnlyThese(ms, {TYPE, PROPERTIES, REQUIRED}, ITEMS);
    OnlyThese(ms, {TYPE, PROPERTIES, REQUIRED}, ADDITIONAL);
  }

  // ----- what the engine's schema admits -----------------------------------

  predicate AllTexts(xs: Items) {
    match xs
    case NoItems => true
    case Elem(x, rest) => x.Str? && AllTexts(rest)
  }

  lemma {:induction false} TextItems(xs: Items)
    ensures ItemsOk(Obj(Member(TYPE, Str(STRING), NoMembers)), xs) <==> AllTexts(xs)
  {
    var ms := Member(TYPE, Str(STRING), NoMembers);
    assert Get(ms, TYPE) == Some(Str(STRING)) && Get(ms, PROPERTIES) == None && Get(ms, REQUIRED) == None
        && Get(ms, ADDITIONAL) == None && Get(ms, ITEMS) == None;
    if xs.Elem? {
      TextItems(xs.tail);
      assert Accepts(Obj(ms), xs.head) <==> xs.head.Str?;
    }
  }

  lemma TypedAccepts(name: Text, description: Text, i: Json)
    ensures name == STRING ==> (Accepts(Typed(name, description), i) <==> i.Str?)
    ensures name == BOOLEAN ==> (Accepts(Typed(name, description), i) <==> i.Bool?)
    ensures name == NUMBER ==> (Accepts(Typed(name, description), i) <==> i.Num?)
    ensures name == NULL ==> (Accepts(Typed(name, description), i) <==> i.Null?)
  {
    var ms := Typed(name, description).members;
    assert Only(ms.rest, {TYPE, DESCRIPTION});
    OnlyThese(ms, {TYPE, DESCRIPTION}, PROPERTIES);
    OnlyThese(ms, {TYPE, DESCRIPTION}, REQUIRED);
    OnlyThese(ms, {TYPE, DESCRIPTION}, ITEMS);
    OnlyThese(ms, {TYPE, DESCRIPTION}, ADDITIONAL);
    assert Get(ms, TYPE) == Some(Str(name));
  }

  lemma ListedAccepts(description: Text, i: Json)
    ensures Accepts(Listed(description), i) <==> i.Arr? && AllTexts(i.items)
  {
    var ms := Listed(description).members;
    var item := Member(TYPE, Str(STRING), NoMembers);
    assert Only(ms.rest.rest, {TYPE, ITEMS, DESCRIPTION});
    assert Only(ms, {TYPE, ITEMS, DESCRIPTION});
    OnlyThese(ms, {TYPE, ITEMS, DESCRIPTION}, PROPERTIES);
    OnlyThese(ms, {TYPE, ITEMS, DESCRIPTION}, REQUIRED);
    OnlyThese(ms, {TYPE, ITEMS, DESCRIPTION}, ADDITIONAL);
    assert Get(ms, TYPE) == Some(Str(ARRAY)) && Get(ms, ITEMS) == Some(Obj(item));
    if i.Arr? {
      TextItems(i.items);
    }
  }

  predicate HoldsText(m: Members, key: Text) {
    Get(m, key).Some? && Get(m, key).value.Str?
  }

  predicate HoldsTexts(m: Members, key: Text) {
    Get(m, key).Some? && Get(m, key).value.Arr? && AllTexts(Get(m, key).value.items)
  }

  predicate HoldsFlag(m: Members, key: Text) {
    Get(m, key).Some? && Get(m, key).value.Bool?
  }

  /** One property of a schema that requires it. */
  lemma RequiredProperty(k: Text, s: Json, rest: Members, inst: Members)
    ensures PropertiesOk(Member(k, s, rest), inst) && Present(Keys(Member(k, s, rest)), inst)
            <==> Get(inst, k).Some? && Accepts(s, Get(inst, k).value) && PropertiesOk(rest, inst) && Present(Keys(rest), inst)
  {
    var ps := Member(k, s, rest);
    assert Keys(ps) == Elem(Str(k), Keys(rest));
    assert Present(Keys(ps), inst) <==> Get(inst, k).Some? && Present(Keys(rest), inst);
    assert PropertiesOk(ps, inst) <==> (Get(inst, k).Some? ==> Accepts(s, Get(inst, k).value)) && PropertiesOk(rest, inst);
  }

  lemma NodeAccepts(ps: Members, i: Json)
    requires ps.Member?
    ensures Accepts(Obj(Member(TYPE, Str(OBJECT), Member(PROPERTIES, Obj(ps), Member(REQUIRED, Arr(Keys(ps)), NoMembers)))), i)
            <==> i.Obj? && PropertiesOk(ps, i.members) && Present(Keys(ps), i.members)
  {
    var ms := Member(TYPE, Str(OBJECT), Member(PROPERTIES, Obj(ps), Member(REQUIRED, Arr(Keys(ps)), NoMembers)));
    assert Get(ms, TYPE) == Some(Str(OBJECT)) && Get(ms, PROPERTIES) == Some(Obj(ps));
    assert Get(ms.rest, REQUIRED) == Some(Arr(Keys(ps))) && Get(ms, REQUIRED) == Some(Arr(Keys(ps)));
    assert Only(ms.rest.rest, {TYPE, PROPERTIES, REQUIRED});
    assert Only(ms, {TYPE, PROPERTIES, REQUIRED});
    OnlyThese(ms, {TYPE, PROPERTIES, REQUIRED}, ITEMS);
    OnlyThese(ms, {TYPE, PROPERTIES, REQUIRED}, ADDITIONAL);
    assert Properties(ms) == ps;
  }

  /** The engine's schema admits the objects that hold a text under title, correspondent and
      document type, texts under tags and new tags, and a truth value under the two flags. */
  lemma {:induction false} MetadataSchemaSays(i: Json)
    ensures Accepts(MetadataSchema(), i) <==>
              && i.Obj?
              && HoldsText(i.members, 20) && HoldsText(i.members, 21) && HoldsText(i.members, 22) && HoldsTexts(i.members, 23)
              && HoldsFlag(i.members, 24) && HoldsFlag(i.members, 25) && HoldsTexts(i.members, 26)
  {
    NodeAccepts(MetadataProperties(), i);
    if i.Obj? {
      AllRequired(i.members);
    }
  }

  lemma {:induction false} AllRequired(m: Members)
    ensures PropertiesOk(MetadataProperties(), m) && Present(Keys(MetadataProperties()), m) <==>
              && HoldsText(m, 20) && HoldsText(m, 21) && HoldsText(m, 22) && HoldsTexts(m, 23)
              && HoldsFlag(m, 24) && HoldsFlag(m, 25) && HoldsTexts(m, 26)
  {
    var p26 := Member(26, Listed(36), NoMembers);
    var p25 := Member(25, Typed(BOOLEAN, 35), p26);
    var p24 := Member(24, Typed(BOOLEAN, 34), p25);
    var p23 := Member(23, Listed(33), p24);
    var p22 := Member(22, Typed(STRING, 32), p23);
    var p21 := Member(21, Typed(STRING, 31), p22);
    RequiredProperty(20, Typed(STRING, 30), p21, m);
    RequiredProperty(21, Typed(STRING, 31), p22, m);
    RequiredProperty(22, Typed(STRING, 32), p23, m);
    RequiredProperty(23, Listed(33), p24, m);
    RequiredProperty(24, Typed(BOOLEAN, 34), p25, m);
    RequiredProperty(25, Typed(BOOLEAN, 35), p26, m);
    RequiredProperty(26, Listed(36), NoMembers, m);
    EachProperty(m);
  }

  lemma {:induction false} EachProperty(m: Members)
    ensures Get(m, 20).Some? ==> (Accepts(Typed(STRING, 30), Get(m, 20).value) <==> Get(m, 20).value.Str?)
    ensures Get(m, 21).Some? ==> (Accepts(Typed(STRING, 31), Get(m, 21).value) <==> Get(m, 21).value.Str?)
    ensures Get(m, 22).Some? ==> (Accepts(Typed(STRING, 32), Get(m, 22).value) <==> Get(m, 22).value.Str?)
    ensures Get(m, 23).Some? ==> (Accepts(Listed(33), Get(m, 23).value) <==> Get(m, 23).value.Arr? && AllTexts(Get(m, 23).value.items))
    ensures Get(m, 24).Some? ==> (Accepts(Typed(BOOLEAN, 34), Get(m, 24).value) <==> Get(m, 24).value.Bool?)
    ensures Get(m, 25).Some? ==> (Accepts(Typed(BOOLEAN, 35), Get(m, 25).value) <==> Get(m, 25).value.Bool?)
    ensures Get(m, 26).Some? ==> (Accepts(Listed(36), Get(m, 26).value) <==> Get(m, 26).value.Arr? && AllTexts(Get(m, 26).value.items))
  {
    if Get(m, 20).Some? { TypedAccepts(STRING, 30, Get(m, 20).value); }
    if Get(m, 21).Some? { TypedAccepts(STRING, 31, Get(m, 21).value); }
    if Get(m, 22).Some? { TypedAccepts(STRING, 32, Get(m, 22).value); }
    if Get(m, 23).Some? { ListedAccepts(33, Get(m, 23).value); }
    if Get(m, 24).Some? { TypedAccepts(BOOLEAN, 34, Get(m, 24).value); }
    if Get(m, 25).Some? { TypedAccepts(BOOLEAN, 35, Get(m, 25).value); }
    if Get(m, 26).Some? { ListedAccepts(36, Get(m, 26).value); }
  }

  /** The translation does not refine every schema: a node that requires a property it does
      not list refuses an instance its translation accepts. */
  lemma UnlistedRequirementIsDropped() returns (schema: Json, instance: Json)
    ensures Accepts(Strict(schema), instance) && !Accepts(schema, instance)
  {
    var ms := Member(TYPE, Str(OBJECT), Member(PROPERTIES, Obj(NoMembers), Member(REQUIRED, Arr(Elem(Str(20), NoItems)), NoMembers)));
    schema, instance := Obj(ms), Obj(NoMembers);
    var out := StrictMembers(ms);
    assert Get(ms, REQUIRED) == Some(Arr(Elem(Str(20), NoItems)));
    GetStrict(ms, TYPE);
    GetStrict(ms, PROPERTIES);
    GetStrict(ms, ITEMS);
    PutsGet(out, Arr(NoItems));
  }
}
