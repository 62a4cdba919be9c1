/** What a sweep works on and with: the library and the snapshots, the stages, what each
    stage does to a document, action by action, and which documents it queues. */
module SweepTick {
  import opened Messages
  import opened Documents

  datatype Stage = Triage | Reocr | Metadata

  /** The fields a stage fetched, and so the fields its snapshot holds. */
  datatype Key = Title | Content | Correspondent | DocumentType | Tags | Created | Serial | CustomFields

  datatype Snap = Snap(keys: set<Key>, doc: Doc)

  /** Paperless (documents, listing order, next id to mint), the rollback snapshots per
      stage and document, the logs of writes sent and provider calls made, and the flag an
      account-level provider failure raises for the rest of a tick. */
  datatype World = World(
    docs: map<DocId, Doc>, listing: seq<DocId>, nextId: DocId,
    snapshots: map<(Stage, DocId), Snap>, writes: seq<DocId>, calls: seq<(Stage, DocId)>, latched: bool)

  ghost predicate Valid(w: World) {
    && (forall id :: id in w.docs ==> w.docs[id].id == id && id < w.nextId)
    && (forall id :: id in w.docs <==> id in w.listing)
    && Distinct(w.listing)
  }

  // ----- actions -----------------------------------------------------------

  datatype Action =
    | TakeSnapshot(stage: Stage, snap: Snap)
    | CallProvider(stage: Stage, id: DocId)
    | Consume(doc: Doc)
    | Patch(doc: Doc)

  function Perform(w: World, a: Action): World {
    match a
    case TakeSnapshot(s, snap) =>
      if (s, snap.doc.id) in w.snapshots then w
      else w.(snapshots := w.snapshots[(s, snap.doc.id) := snap])
    case CallProvider(s, id) => w.(calls := w.calls + [(s, id)])
    case Consume(d) =>
      w.(docs := w.docs[w.nextId := d.(id := w.nextId)], listing := w.listing + [w.nextId],
         nextId := w.nextId + 1, writes := w.writes + [w.nextId])
    case Patch(d) => w.(docs := w.docs[d.id := d], writes := w.writes + [d.id])
  }

  /** What the unseen parts came up with for a document: how often the provider was asked,
      the metadata, the document Paperless made of the corrected PDF. */
  datatype Work = Work(asks: nat, meta: Meta, consumed: Doc)

  /** A provider that is not usable fails its stage; a rejected key or an exhausted account
      fails the run. */
  datatype Failure = Ordinary | FailsStage | FailsRun

  /** How far handling a document got. `Stopped` covers every status but success: a cap
      (before or just after the snapshot), empty OCR text (after the call), a new id
      never learnt (after the consumption), and an error anywhere, even once every
      write has landed. */
  datatype Fate = Done(work: Work) | Stopped(work: Work, after: nat, failure: Failure)

  type Fates = (Stage, DocId) -> Fate

  predicate IsFatal(fate: Fate) {
    fate.Stopped? && fate.failure != Ordinary
  }

  /** The document's own write in a stage. */
  function OwnWrite(c: Config, s: Stage, d: Doc, work: Work): Doc
    requires WellFormed(c.resolver)
  {
    match s
    case Triage => TriageWrite(c, d)
    case Reocr => SupersedeWrite(c, d)
    case Metadata => MetadataWrite(c, d, work.meta)
  }

  function Keys(s: Stage, nudged: bool): set<Key> {
    if nudged then {Title, Content, Correspondent, DocumentType, Tags, Created, Serial, CustomFields}
    else match s
      case Triage => {Title, Content, CustomFields}
      case Reocr => {Title, Correspondent, DocumentType, Tags, Created, Serial, CustomFields}
      case Metadata => {Title, Content, Correspondent, DocumentType, Tags, CustomFields}
  }

  function Reached(fate: Fate, length: nat): (n: nat)
    ensures n <= length
  {
    if fate.Done? || fate.after > length then length else fate.after
  }

  // ----- queues ------------------------------------------------------------

  /** Is the document one the stage works on? */
  predicate Queued(c: Config, s: Stage, force: bool, d: Doc)
    requires WellFormed(c.resolver)
  {
    match s
    case Triage => force || !AlreadyTriaged(c.resolver, d.fields)
    case Reocr => ReocrMatches(c, d.fields)
    case Metadata => MetadataEligible(c, d.fields)
  }

  datatype Options = Options(stages: set<Stage>, limit: nat, force: bool, dry: bool, workers: nat)

  /** The listed documents a stage takes, at most `limit` of them unless it is 0.
      Triage counts every listed document, the other stages only those that match. */
  function Pick(c: Config, o: Options, s: Stage, w: World, listing: seq<DocId>): seq<DocId>
    requires WellFormed(c.resolver)
  {
    if listing == [] then []
    else
      var front := Pick(c, o, s, w, listing[..|listing| - 1]);
      var id := listing[|listing| - 1];
      if Takes(c, o, s, w, id) && (o.limit == 0 || |front| < o.limit) then front + [id] else front
  }

  predicate Takes(c: Config, o: Options, s: Stage, w: World, id: DocId)
    requires WellFormed(c.resolver)
  {
    s == Triage || (id in w.docs && Queued(c, s, o.force, w.docs[id]))
  }

  /** The nudged document, pulled afresh and filtered as in a sweep. */
  function NudgeQueue(c: Config, o: Options, s: Stage, w: World, id: DocId): seq<DocId>
    requires WellFormed(c.resolver)
  {
    if Takes(c, o, s, w, id) then [id] else []
  }

  lemma {:induction false} PickMembers(c: Config, o: Options, s: Stage, w: World, listing: seq<DocId>)
    requires WellFormed(c.resolver)
    ensures forall id :: id in Pick(c, o, s, w, listing) ==> id in listing && Takes(c, o, s, w, id)
    ensures o.limit == 0 ==> forall id :: id in listing && Takes(c, o, s, w, id) ==> id in Pick(c, o, s, w, listing)
    ensures Distinct(listing) ==> Distinct(Pick(c, o, s, w, listing))
    ensures o.limit > 0 ==> |Pick(c, o, s, w, listing)| <= o.limit
  {
    if listing != [] {
      var front, id := listing[..|listing| - 1], listing[|listing| - 1];
      PickMembers(c, o, s, w, front);
      assert listing == front + [id];
      var picked := Pick(c, o, s, w, front);
      assert (picked + [id])[..|picked|] == picked;
    }
  }

  lemma {:induction false} PickNothing(c: Config, o: Options, s: Stage, w: World, listing: seq<DocId>)
    requires WellFormed(c.resolver) && forall id :: !Takes(c, o, s, w, id)
    ensures Pick(c, o, s, w, listing) == []
  {
    if listing != [] {
      PickNothing(c, o, s, w, listing[..|listing| - 1]);
    }
  }
}
