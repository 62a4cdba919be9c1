/** Documents as the companion sees them, its three custom fields, and the
    predicates and writes of the ai_stage machine. Texts and ids are only compared,
    so each is a number; text 0 is the empty text. */
module Documents {
  import opened Messages

  type Text = nat

  const EMPTY: Text := 0

  type DocId = nat

  /** A custom-field value: a select option's id, a text, or a number. */
  datatype Value = Null | Choice(option: nat) | Label(text: Text) | Number(x: real)

  datatype Field = Field(id: nat, value: Value)

  datatype Doc = Doc(
    id: DocId, title: Text, content: Text, correspondent: nat, documentType: nat,
    tags: set<nat>, created: Text, serial: nat, fields: seq<Field>)

  datatype Role = Triaged | ReocrDone | MetadataDone

  datatype SelectOption = SelectOption(name: Text, id: nat)

  /** The three custom fields by id, the stage field's kind, and the configured
      label of each role. */
  datatype Resolver = Resolver(
    scoreId: nat, stageId: nat, notesId: nat,
    isSelect: bool, options: seq<SelectOption>,
    triagedLabel: Text, reocrLabel: Text, metadataLabel: Text)

  // ----- labels, options, roles --------------------------------------------

  function OptionId(options: seq<SelectOption>, name: Text): Option<nat> {
    if options == [] then None
    else if options[0].name == name then Some(options[0].id)
    else OptionId(options[1..], name)
  }

  function OptionLabel(options: seq<SelectOption>, id: nat): Option<Text> {
    if options == [] then None
    else if options[0].id == id then Some(options[0].name)
    else OptionLabel(options[1..], id)
  }

  function LabelFor(r: Resolver, role: Role): Text {
    match role
    case Triaged => r.triagedLabel
    case ReocrDone => r.reocrLabel
    case MetadataDone => r.metadataLabel
  }

  /** Labels are pairwise distinct, so are the ids and labels of the options and the
      three field ids, and a select field offers every label. */
  predicate WellFormed(r: Resolver) {
    && r.scoreId != r.stageId && r.stageId != r.notesId && r.scoreId != r.notesId
    && r.triagedLabel != r.reocrLabel && r.reocrLabel != r.metadataLabel && r.triagedLabel != r.metadataLabel
    && (r.isSelect ==>
          && OptionId(r.options, r.triagedLabel).Some?
          && OptionId(r.options, r.reocrLabel).Some?
          && OptionId(r.options, r.metadataLabel).Some?
          && (forall i, j :: 0 <= i < j < |r.options| ==>
                r.options[i].id != r.options[j].id && r.options[i].name != r.options[j].name))
  }

  /** What to write into the stage field for a role. */
  function ValueFor(r: Resolver, role: Role): Value
    requires WellFormed(r)
  {
    if r.isSelect then Choice(OptionId(r.options, LabelFor(r, role)).value)
    else Label(LabelFor(r, role))
  }

  /** The label behind a stored stage value, itself as a value. */
  function LabelOf(r: Resolver, v: Value): Value {
    if !r.isSelect then v
    else if v.Choice? && OptionLabel(r.options, v.option).Some?
    then Label(OptionLabel(r.options, v.option).value)
    else Null
  }

  function RoleOf(r: Resolver, v: Value): Option<Role> {
    var found := LabelOf(r, v);
    if found == Label(r.metadataLabel) then Some(MetadataDone)
    else if found == Label(r.reocrLabel) then Some(ReocrDone)
    else if found == Label(r.triagedLabel) then Some(Triaged)
    else None
  }

  lemma {:induction false} OptionInverse(options: seq<SelectOption>, name: Text, id: nat)
    requires forall i, j :: 0 <= i < j < |options| ==>
               options[i].id != options[j].id && options[i].name != options[j].name
    ensures OptionId(options, name) == Some(id) <==> OptionLabel(options, id) == Some(name)
  {
    if options != [] && options[0].name != name && options[0].id != id {
      OptionInverse(options[1..], name, id);
    } else if options != [] {
      OptionAbsent(options[1..], options[0]);
    }
  }

  lemma {:induction false} OptionAbsent(rest: seq<SelectOption>, o: SelectOption)
    requires forall i :: 0 <= i < |rest| ==> rest[i].id != o.id && rest[i].name != o.name
    ensures OptionId(rest, o.name) == None && OptionLabel(rest, o.id) == None
    ensures forall name :: OptionId(rest, name) != Some(o.id)
    ensures forall id :: OptionLabel(rest, id) != Some(o.name)
  {
    if rest != [] {
      OptionAbsent(rest[1..], o);
    }
  }

  /** A stored stage value reads back as a role exactly when it is what that role
      writes: the two translations are inverse on every value. */
  lemma RoleRoundTrip(r: Resolver, v: Value, role: Role)
    requires WellFormed(r)
    ensures RoleOf(r, v) == Some(role) <==> v == ValueFor(r, role)
  {
    if r.isSelect {
      var id := OptionId(r.options, LabelFor(r, role)).value;
      OptionInverse(r.options, LabelFor(r, role), id);
      if v.Choice? {
        OptionInverse(r.options, LabelFor(r, role), v.option);
      }
    }
  }

  // ----- reading custom fields ---------------------------------------------

  /** As a dictionary would: the last entry of a repeated field wins, and a missing
      one reads as null. */
  function Get(fields: seq<Field>, id: nat): Value {
    if fields == [] then Null
    else if fields[|fields| - 1].id == id then fields[|fields| - 1].value
    else Get(fields[..|fields| - 1], id)
  }

  /** The entries outside `ids`, order kept. */
  function Others(fields: seq<Field>, ids: set<nat>): seq<Field> {
    if fields == [] then []
    else
      var rest := Others(fields[..|fields| - 1], ids);
      if fields[|fields| - 1].id in ids then rest else rest + [fields[|fields| - 1]]
  }

  function Count(fields: seq<Field>, id: nat): nat {
    if fields == [] then 0
    else Count(fields[..|fields| - 1], id) + if fields[|fields| - 1].id == id then 1 else 0
  }

  // ----- the three stage predicates ----------------------------------------

  /** Thresholds and eligible labels; `numberOf` says which texts read as numbers,
      `coerce` how a score is stored, `rate` what the local heuristic says, `carried` how a
      re-consumed document's note names the old document and its note. */
  datatype Config = Config(
    resolver: Resolver, triageThreshold: real, garbageThreshold: real, eligible: set<Value>,
    supersededTag: nat, newTaxonomyTag: nat,
    numberOf: map<Text, real>, coerce: real -> Value, rate: Text -> (real, Text), carried: (DocId, Value) -> Text)

  function ReadNumber(numberOf: map<Text, real>, v: Value): Option<real> {
    match v
    case Null => None
    case Number(x) => Some(x)
    case Label(t) => if t in numberOf then Some(numberOf[t]) else None
    case Choice(o) => Some(o as real)
  }

  /** Skips a document at 'triaged' or any later stage: the first stage entry decides. */
  predicate AlreadyTriaged(r: Resolver, fields: seq<Field>) {
    fields != [] &&
    if fields[0].id == r.stageId then RoleOf(r, fields[0].value).Some?
    else AlreadyTriaged(r, fields[1..])
  }

  predicate ReocrMatches(c: Config, fields: seq<Field>)
    requires WellFormed(c.resolver)
  {
    && Get(fields, c.resolver.stageId) == ValueFor(c.resolver, Triaged)
    && (var score := ReadNumber(c.numberOf, Get(fields, c.resolver.scoreId));
        score.Some? && score.value >= c.triageThreshold)
  }

  predicate MetadataEligible(c: Config, fields: seq<Field>) {
    && LabelOf(c.resolver, Get(fields, c.resolver.stageId)) in c.eligible
    && (var score := ReadNumber(c.numberOf, Get(fields, c.resolver.scoreId));
        !(score.Some? && score.value >= c.garbageThreshold))
  }

  // ----- the writes --------------------------------------------------------

  /** Advances the stage field, keeping every other entry. */
  function SetStage(r: Resolver, fields: seq<Field>, role: Role): seq<Field>
    requires WellFormed(r)
  {
    Others(fields, {r.stageId}) + [Field(r.stageId, ValueFor(r, role))]
  }

  function Own(r: Resolver): set<nat> { {r.scoreId, r.stageId, r.notesId} }

  function MergeTriage(c: Config, fields: seq<Field>, score: real, note: Text): seq<Field>
    requires WellFormed(c.resolver)
  {
    var r := c.resolver;
    Others(fields, Own(r)) +
    [Field(r.scoreId, c.coerce(score)), Field(r.stageId, ValueFor(r, Triaged)), Field(r.notesId, Label(note))]
  }

  function TriageWrite(c: Config, d: Doc): Doc
    requires WellFormed(c.resolver)
  {
    var (score, note) := c.rate(d.content);
    d.(fields := MergeTriage(c, d.fields, score, note))
  }

  function SupersedeWrite(c: Config, d: Doc): Doc
    requires WellFormed(c.resolver)
  {
    d.(tags := d.tags + {c.supersededTag}, fields := SetStage(c.resolver, d.fields, ReocrDone))
  }

  /** What re-OCR writes on the re-consumed document: the stage, a note naming the
      old document, and the old score if it had one. */
  function CarryWrite(c: Config, d: Doc, source: Doc): Doc
    requires WellFormed(c.resolver)
  {
    var r := c.resolver;
    var score := Get(source.fields, r.scoreId);
    var note := c.carried(source.id, Get(source.fields, r.notesId));
    d.(fields := [Field(r.stageId, ValueFor(r, ReocrDone)), Field(r.notesId, Label(note))]
                 + if score == Null then [] else [Field(r.scoreId, score)])
  }

  /** What the metadata stage decided: a blank title, an unresolved correspondent or
      type leave theirs alone. */
  datatype Meta = Meta(
    title: Option<Text>, correspondent: Option<nat>, documentType: Option<nat>,
    tags: set<nat>, createdTaxonomy: bool)

  function MetadataWrite(c: Config, d: Doc, m: Meta): Doc
    requires WellFormed(c.resolver)
  {
    d.(title := if m.title.Some? then m.title.value else d.title,
       correspondent := if m.correspondent.Some? then m.correspondent.value else d.correspondent,
       documentType := if m.documentType.Some? then m.documentType.value else d.documentType,
       tags := d.tags + m.tags + if m.createdTaxonomy then {c.newTaxonomyTag} else {},
       fields := SetStage(c.resolver, d.fields, MetadataDone))
  }

  // ----- what the writes keep ----------------------------------------------

  lemma {:induction false} OthersOthers(fields: seq<Field>, a: set<nat>, b: set<nat>)
    ensures Others(Others(fields, a), b) == Others(fields, a + b)
  {
    if fields != [] {
      var front := fields[..|fields| - 1];
      OthersOthers(front, a, b);
      var kept := Others(front, a);
      assert (kept + [fields[|fields| - 1]])[..|kept|] == kept;
    }
  }

  lemma {:induction false} OthersOfOwn(fields: seq<Field>, added: seq<Field>, ids: set<nat>)
    requires forall f :: f in added ==> f.id in ids
    ensures Others(fields + added, ids) == Others(fields, ids)
  {
    if added == [] {
      assert fields + added == fields;
    } else {
      var n := |added| - 1;
      assert (fields + added)[..|fields| + n] == fields + added[..n];
      OthersOfOwn(fields, added[..n], ids);
    }
  }

  lemma {:induction false} OthersRead(fields: seq<Field>, ids: set<nat>, id: nat)
    ensures id !in ids ==> Get(Others(fields, ids), id) == Get(fields, id)
                           && Count(Others(fields, ids), id) == Count(fields, id)
    ensures id in ids ==> Count(Others(fields, ids), id) == 0
  {
    if fields != [] {
      var front := fields[..|fields| - 1];
      OthersRead(front, ids, id);
      var kept := Others(front, ids);
      assert (kept + [fields[|fields| - 1]])[..|kept|] == kept;
    }
  }

  lemma AppendRead(fields: seq<Field>, f: Field, id: nat)
    ensures Get(fields + [f], id) == if f.id == id then f.value else Get(fields, id)
    ensures Count(fields + [f], id) == Count(fields, id) + if f.id == id then 1 else 0
  {
    assert (fields + [f])[..|fields|] == fields;
  }

  lemma AppendThree(fields: seq<Field>, a: Field, b: Field, d: Field, id: nat)
    ensures Get(fields + [a, b, d], id) == if d.id == id then d.value else if b.id == id then b.value
                                           else if a.id == id then a.value else Get(fields, id)
    ensures Count(fields + [a, b, d], id) == Count(fields, id) + (if a.id == id then 1 else 0)
                                             + (if b.id == id then 1 else 0) + (if d.id == id then 1 else 0)
  {
    assert fields + [a, b, d] == fields + [a] + [b] + [d];
    AppendRead(fields, a, id);
    AppendRead(fields + [a], b, id);
    AppendRead(fields + [a] + [b], d, id);
  }

  /** Advancing the stage: the stage field then occurs exactly once, with the new
      role; every other field reads as before and keeps its order. */
  lemma SetStageFacts(r: Resolver, fields: seq<Field>, role: Role, other: nat)
    requires WellFormed(r)
    ensures var g := SetStage(r, fields, role);
            && Get(g, r.stageId) == ValueFor(r, role) && Count(g, r.stageId) == 1
            && (other != r.stageId ==> Get(g, other) == Get(fields, other) && Count(g, other) == Count(fields, other))
            && Others(g, {r.stageId}) == Others(fields, {r.stageId})
            && Others(g, Own(r)) == Others(fields, Own(r))
  {
    var kept := Others(fields, {r.stageId});
    var f := Field(r.stageId, ValueFor(r, role));
    AppendRead(kept, f, r.stageId);
    AppendRead(kept, f, other);
    OthersRead(fields, {r.stageId}, r.stageId);
    OthersRead(fields, {r.stageId}, other);
    OthersOfOwn(kept, [f], {r.stageId});
    OthersOthers(fields, {r.stageId}, {r.stageId});
    OthersOfOwn(kept, [f], Own(r));
    OthersOthers(fields, {r.stageId}, Own(r));
    assert {r.stageId} + Own(r) == Own(r) && {r.stageId} + {r.stageId} == {r.stageId};
  }

  /** The triage write: the same, for its three fields. */
  lemma MergeTriageFacts(c: Config, fields: seq<Field>, score: real, note: Text, other: nat)
    requires WellFormed(c.resolver)
    ensures var r := c.resolver;
            var g := MergeTriage(c, fields, score, note);
            && Get(g, r.stageId) == ValueFor(r, Triaged) && Count(g, r.stageId) == 1
            && Get(g, r.scoreId) == c.coerce(score) && Get(g, r.notesId) == Label(note)
            && (other !in Own(r) ==> Get(g, other) == Get(fields, other) && Count(g, other) == Count(fields, other))
            && Others(g, Own(r)) == Others(fields, Own(r))
  {
    var r := c.resolver;
    var a, b, d := Field(r.scoreId, c.coerce(score)), Field(r.stageId, ValueFor(r, Triaged)), Field(r.notesId, Label(note));
    var kept := Others(fields, Own(r));
    AppendThree(kept, a, b, d, r.scoreId);
    AppendThree(kept, a, b, d, r.stageId);
    AppendThree(kept, a, b, d, r.notesId);
    AppendThree(kept, a, b, d, other);
    OthersRead(fields, Own(r), r.stageId);
    OthersRead(fields, Own(r), other);
    OthersOfOwn(kept, [a, b, d], Own(r));
    OthersOthers(fields, Own(r), Own(r));
    assert Own(r) + Own(r) == Own(r);
  }

  /** Two entries, or three, read one by one. */
  lemma ReadTwo(a: Field, b: Field, id: nat)
    ensures Get([a, b], id) == if b.id == id then b.value else if a.id == id then a.value else Null
    ensures Count([a, b], id) == (if a.id == id then 1 else 0) + (if b.id == id then 1 else 0)
  {
    assert [a, b] == ([] + [a]) + [b];
    AppendRead([], a, id);
    AppendRead([] + [a], b, id);
  }

  lemma ReadThree(a: Field, b: Field, d: Field, id: nat)
    ensures Get([a, b, d], id) == if d.id == id then d.value else Get([a, b], id)
    ensures Count([a, b, d], id) == Count([a, b], id) + if d.id == id then 1 else 0
  {
    assert [a, b, d] == [a, b] + [d];
    AppendRead([a, b], d, id);
  }

  /** The three fields of a carried-over document, whether or not there was a score. */
  lemma CarriedReads(stage: Field, note: Field, score: Field, id: nat)
    requires stage.id != note.id && note.id != score.id && stage.id != score.id
    ensures var g := [stage, note] + if score.value == Null then [] else [score];
            && Get(g, id) == (if id == score.id then score.value else if id == note.id then note.value
                              else if id == stage.id then stage.value else Null)
            && Count(g, stage.id) == 1
  {
    ReadTwo(stage, note, id);
    ReadTwo(stage, note, stage.id);
    if score.value == Null {
      assert [stage, note] + [] == [stage, note];
    } else {
      assert [stage, note] + [score] == [stage, note, score];
      ReadThree(stage, note, score, id);
      ReadThree(stage, note, score, stage.id);
    }
  }

  /** The re-consumed document gets these three fields and no other, and is otherwise as
      Paperless made it. */
  lemma CarryFacts(c: Config, d: Doc, source: Doc, other: nat)
    requires WellFormed(c.resolver)
    ensures var r := c.resolver;
            var e := CarryWrite(c, d, source);
            && Get(e.fields, r.stageId) == ValueFor(r, ReocrDone) && Count(e.fields, r.stageId) == 1
            && Get(e.fields, r.scoreId) == Get(source.fields, r.scoreId)
            && Get(e.fields, r.notesId) == Label(c.carried(source.id, Get(source.fields, r.notesId)))
            && (other !in Own(r) ==> Get(e.fields, other) == Null)
            && e == d.(fields := e.fields)
  {
    var r := c.resolver;
    var a, b := Field(r.stageId, ValueFor(r, ReocrDone)), Field(r.notesId, Label(c.carried(source.id, Get(source.fields, r.notesId))));
    var e := Field(r.scoreId, Get(source.fields, r.scoreId));
    CarriedReads(a, b, e, r.stageId);
    CarriedReads(a, b, e, r.scoreId);
    CarriedReads(a, b, e, r.notesId);
    CarriedReads(a, b, e, other);
  }

  /** With the stage field at most once, the first entry that decides "already
      triaged" is the one every other predicate reads. */
  lemma {:induction false} AlreadyTriagedReads(r: Resolver, fields: seq<Field>)
    requires WellFormed(r) && Count(fields, r.stageId) <= 1
    ensures AlreadyTriaged(r, fields) <==> RoleOf(r, Get(fields, r.stageId)).Some?
  {
    if fields == [] {
      assert RoleOf(r, Null).None?;
    } else {
      var rest := fields[1..];
      SplitHead(fields, r.stageId);
      if fields[0].id != r.stageId {
        AlreadyTriagedReads(r, rest);
      }
    }
  }

  lemma {:induction false} SplitHead(fields: seq<Field>, id: nat)
    requires fields != []
    ensures Count(fields, id) == Count(fields[1..], id) + if fields[0].id == id then 1 else 0
    ensures Get(fields, id) == if Count(fields[1..], id) > 0 || fields[0].id != id
                               then Get(fields[1..], id) else fields[0].value
  {
    if |fields| > 1 {
      var front := fields[..|fields| - 1];
      SplitHead(front, id);
      assert fields[1..][..|fields| - 2] == front[1..];
      assert fields[1..][|fields| - 2] == fields[|fields| - 1];
    }
  }
}
