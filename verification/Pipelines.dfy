/** How far handling a document gets, told by what its calls come back with: the fates the
    worker pools are given. */
module Pipelines {
  import opened Messages
  import opened Documents
  import opened SweepTick
  import opened Faults
  import opened StageRun
  import WP = WorkerPool
  import PC = PoolCalls
  import X = Extraction

  /** A write's answer; a write may land although its answer is lost. */
  datatype Reply = Accepted | Failed(landed: bool, fault: Fault)

  datatype Status = Skipped | DryRun | SpendCap | EmptyOcr | NoNewId | Finished | Error(fault: Fault)

  /** An error ends a document's handling fatally if the classifier says so, wherever on the
      way it was raised: by the provider, by Paperless or by the program. */
  predicate FatalStatus(status: Status) {
    status.Error? && Classify(status.fault) != Ordinary
  }

  const NOTHING := Work(0, Meta(None, None, None, {}, false), Doc(0, 0, 0, 0, 0, {}, 0, 0, []))

  function Landing(reply: Reply): nat {
    if reply.Failed? && !reply.landed then 0 else 1
  }

  /** The job of one document handled by itself, and the library after some of its actions. */
  function Single(c: Config, o: Options, s: Stage, nudged: bool, docs: map<DocId, Doc>, id: DocId, fate: Fate): Job {
    Job(c, o, s, nudged, [id], docs, (stage, x) => fate)
  }

  function Alone(j: Job, l: Lib, id: DocId, n: nat): Lib
    requires WellFormed(j.c.resolver) && id in j.fetched
  {
    if n == 0 then l else Acted(j, Alone(j, l, id, n - 1), id, n - 1)
  }

  /** The last three actions of a re-OCR that asks once: the corrected document, what is
      carried over to it, the old one superseded. */
  lemma {:induction false} ReocrWrites(j: Job, l: Lib, id: DocId)
    requires WellFormed(j.c.resolver) && id in j.fetched && j.s == Reocr && Asks(j, id) == 1 && l.newId == map[]
    ensures Alone(j, l, id, 2).w.nextId == l.w.nextId
    ensures Alone(j, l, id, 3).w == Perform(Alone(j, l, id, 2).w, Consume(j.fates(Reocr, id).work.consumed))
    ensures Alone(j, l, id, 4).w == Perform(Alone(j, l, id, 3).w, Patch(Carried(j, id, l.w.nextId)))
    ensures Alone(j, l, id, 5).w == Perform(Alone(j, l, id, 4).w, Patch(OwnDoc(j, id)))
  {
    var asked := Alone(j, l, id, 2);
    FirstTwoAreQuiet(j, l, id);
    assert Alone(j, l, id, 3) == Acted(j, asked, id, 2);
    assert Alone(j, l, id, 4) == Acted(j, Alone(j, l, id, 3), id, 3);
    assert Alone(j, l, id, 5) == Acted(j, Alone(j, l, id, 4), id, 4);
  }

  lemma {:induction false} FirstTwoAreQuiet(j: Job, l: Lib, id: DocId)
    requires WellFormed(j.c.resolver) && id in j.fetched && Asks(j, id) >= 1
    ensures var asked := Alone(j, l, id, 2); asked.newId == l.newId && asked.w.nextId == l.w.nextId
  {
    var snapped := Alone(j, l, id, 1);
    assert Alone(j, l, id, 0) == l;
    assert snapped == Acted(j, l, id, 0) && KindAt(j, id, 0) == Snapshots;
    assert Alone(j, l, id, 2) == Acted(j, snapped, id, 1) && KindAt(j, id, 1) == Calls;
  }

  // ----- triage ------------------------------------------------------------

  function TriageOutcome(queued: bool, patch: Reply, dry: bool): (Status, nat) {
    if !queued then (Skipped, 0)
    else if dry then (DryRun, 0)
    else if patch.Accepted? then (Finished, 2) else (Error(patch.fault), 1 + Landing(patch))
  }

  function TriageFate(patch: Reply): Fate {
    if patch.Accepted? then Done(NOTHING) else Stopped(NOTHING, 1 + Landing(patch), Classify(patch.fault))
  }

  lemma TriageReaches(j: Job, id: DocId, patch: Reply)
    requires WellFormed(j.c.resolver) && j.s == Triage && id in j.fetched && j.fates(Triage, id) == TriageFate(patch)
    ensures Limit(j, id) == TriageOutcome(Queued(j.c, Triage, j.o.force, j.fetched[id]), patch, j.o.dry).1
    ensures Fatal(j, id) <==> FatalStatus(TriageOutcome(Queued(j.c, Triage, j.o.force, j.fetched[id]), patch, j.o.dry).0)
  {
  }

  /** What triage comes to, told by its answer: how often it stops where. */
  lemma TriageSays(j: Job, id: DocId, patch: Reply)
    requires WellFormed(j.c.resolver) && id in j.fetched
    ensures var (status, n) := TriageOutcome(Queued(j.c, Triage, j.o.force, j.fetched[id]), patch, j.o.dry);
            var handled := !j.o.force && AlreadyTriaged(j.c.resolver, j.fetched[id].fields);
            && (status == Skipped <==> handled)
            && (status == DryRun <==> !handled && j.o.dry)
            && (status == Finished <==> !handled && !j.o.dry && patch.Accepted?)
            && (status.Error? <==> !handled && !j.o.dry && patch.Failed?) && (status.Error? ==> status.fault == patch.fault)
            && (n >= 1 <==> !handled && !j.o.dry)
            && (n == 2 <==> !handled && !j.o.dry && (patch.Accepted? || patch.landed)) && n <= 2
  {
  }

  /** What triage does to a document, in terms of its answer alone. */
  ghost predicate TriageDoes(c: Config, o: Options, id: DocId, patch: Reply, before: World, after: World, status: Status)
    requires WellFormed(c.resolver) && id in before.docs
  {
    var handled := !o.force && AlreadyTriaged(c.resolver, before.docs[id].fields);
    var written := !handled && !o.dry && (patch.Accepted? || patch.landed);
    && (status == Skipped <==> handled) && (status == DryRun <==> !handled && o.dry)
    && (status == Finished <==> !handled && !o.dry && patch.Accepted?)
    && (status == Skipped || status == DryRun || status == Finished || (status.Error? && patch.Failed? && status.fault == patch.fault))
    && after.calls == before.calls && after.writes == before.writes + (if written then [id] else [])
    && after.docs == (if written then before.docs[id := TriageWrite(c, before.docs[id])] else before.docs)
    && ((handled || o.dry) ==> after == before)
  }

  lemma {:induction false} TriageDoesIt(j: Job, l: Lib, id: DocId, patch: Reply)
    requires WellFormed(j.c.resolver) && id in j.fetched && j.s == Triage && j.fetched == l.w.docs && j.fetched[id].id == id
    requires j.fates(Triage, id) == TriageFate(patch)
    ensures TriageDoes(j.c, j.o, id, patch, l.w, Alone(j, l, id, Limit(j, id)).w,
                       TriageOutcome(Queued(j.c, Triage, j.o.force, j.fetched[id]), patch, j.o.dry).0)
  {
    TriageSays(j, id, patch);
    assert Alone(j, l, id, 0) == l;
    var snapped := Alone(j, l, id, 1);
    assert snapped == Acted(j, l, id, 0) && Alone(j, l, id, 2) == Acted(j, snapped, id, 1);
  }

  // ----- re-OCR ------------------------------------------------------------

  /** What happens on the way of one re-OCR: the period cap, the provider's vision, the run
      cap after the snapshot, the download, the transcription (blank or not, or raising), the
      overlay, the upload and the search for the new id, and the two patches. */
  datatype OcrReply = Text(blank: bool) | OcrRaises(fault: Fault)

  /** An accepted upload whose consumption Paperless finishes, or gives up. */
  datatype Upload =
    | Uploaded(doc: Doc, search: Search)
    | NotConsumed(fault: Fault)
    | UploadFails(landed: Option<Doc>, fault: Fault)

  datatype Search = Found | Unknown | SearchRaises(fault: Fault)

  /** `vision` is the text of the capability error if the provider lacks it; `download` and
      `overlay` what they raise, if anything. */
  datatype ReocrAnswers = ReocrAnswers(
    periodCap: bool, vision: Option<string>, runCap: bool, download: Option<Fault>, ocr: OcrReply, overlay: Option<Fault>,
    upload: Upload, carry: Reply, own: Reply)

  function NoVision(text: string): Fault {
    Fault(None, "CapabilityError", "", text, true)
  }

  /** A refused upload raises an error that does not carry the response. */
  function Unanswered(f: Fault): Fault {
    f.(status := None)
  }

  function ConsumedBy(a: ReocrAnswers): Doc {
    match a.upload
    case Uploaded(d, _) => d
    case NotConsumed(_) => NOTHING.consumed
    case UploadFails(Some(d), _) => d
    case UploadFails(None, _) => NOTHING.consumed
  }

  /** Status and actions performed. */
  function ReocrOutcome(a: ReocrAnswers, dry: bool): (Status, nat) {
    if !dry && a.periodCap then (SpendCap, 0)
    else if a.vision.Some? then (Error(NoVision(a.vision.value)), 0)
    else if a.runCap then (SpendCap, 1)
    else if a.download.Some? then (Error(a.download.value), 1)
    else if a.ocr.OcrRaises? then (Error(a.ocr.fault), 2)
    else if a.ocr.blank then (EmptyOcr, 2)
    else if a.overlay.Some? then (Error(a.overlay.value), 2)
    else if dry then (DryRun, 2)
    else UploadOutcome(a)
  }

  /** The second half, once there is a corrected document. */
  function UploadOutcome(a: ReocrAnswers): (Status, nat) {
    match a.upload
    case UploadFails(landed, fault) => (Error(Unanswered(fault)), if landed.Some? then 3 else 2)
    case NotConsumed(fault) => (Error(fault), 2)
    case Uploaded(_, SearchRaises(fault)) => (Error(fault), 3)
    case Uploaded(_, Unknown) => (NoNewId, 3)
    case Uploaded(_, Found) =>
      if a.carry.Failed? then (Error(a.carry.fault), 3 + Landing(a.carry))
      else if a.own.Failed? then (Error(a.own.fault), 4 + Landing(a.own))
      else (Finished, 5)
  }

  function FateOf(outcome: (Status, nat), work: Work): Fate {
    match outcome.0
    case Finished => Done(work)
    case DryRun => Done(work)
    case Error(fault) => Stopped(work, outcome.1, Classify(fault))
    case _ => Stopped(work, outcome.1, Ordinary)
  }

  function ReocrFate(a: ReocrAnswers, dry: bool): Fate {
    FateOf(ReocrOutcome(a, dry), Work(1, NOTHING.meta, ConsumedBy(a)))
  }

  /** The fate says how far the pipeline gets. */
  lemma ReocrReaches(j: Job, id: DocId, a: ReocrAnswers)
    requires WellFormed(j.c.resolver) && j.s == Reocr && id in j.fetched && j.fates(Reocr, id) == ReocrFate(a, j.o.dry)
    ensures Limit(j, id) == ReocrOutcome(a, j.o.dry).1
    ensures Fatal(j, id) <==> FatalStatus(ReocrOutcome(a, j.o.dry).0)
  {
  }

  /** How re-OCR ends, told by its answers. */
  ghost predicate ReocrEnds(a: ReocrAnswers, dry: bool, status: Status) {
    var open := (dry || !a.periodCap) && a.vision.None?;
    var asked := open && !a.runCap && a.download.None?;
    var built := asked && a.ocr == Text(false) && a.overlay.None?;
    var sent := built && !dry && a.upload.Uploaded?;
    && (status == SpendCap <==> (!dry && a.periodCap) || (open && a.runCap))
    && (status == EmptyOcr <==> asked && a.ocr == Text(true))
    && (status == DryRun <==> built && dry)
    && (status == NoNewId <==> sent && a.upload.search == Search.Unknown)
    && (status == Finished <==> sent && a.upload.search == Search.Found && a.carry.Accepted? && a.own.Accepted?)
    && status != Skipped
  }

  lemma ReocrSays(a: ReocrAnswers, dry: bool)
    ensures ReocrEnds(a, dry, ReocrOutcome(a, dry).0)
  {
  }

  /** And how far its actions get: 1 the snapshot, 2 the call, 3 a new document, 4 what is
      carried over to it, 5 the old one superseded. */
  lemma ReocrGetsTo(a: ReocrAnswers, dry: bool)
    ensures var n := ReocrOutcome(a, dry).1;
            var open := (dry || !a.periodCap) && a.vision.None?;
            var asked := open && !a.runCap && a.download.None?;
            var built := asked && a.ocr == Text(false) && a.overlay.None?;
            var found := built && !dry && a.upload.Uploaded? && a.upload.search == Search.Found;
            && (n >= 1 <==> open) && (n >= 2 <==> asked)
            && (n >= 3 <==> built && !dry && (a.upload.Uploaded? || (a.upload.UploadFails? && a.upload.landed.Some?)))
            && (n >= 4 <==> found && (a.carry.Accepted? || a.carry.landed))
            && (n >= 5 <==> found && a.carry.Accepted? && (a.own.Accepted? || a.own.landed)) && n <= 5
  {
  }

  /** Which error it ends in: the first that was met. */
  ghost predicate ReocrRaises(a: ReocrAnswers, dry: bool, status: Status) {
    var open := dry || !a.periodCap;
    var asked := open && a.vision.None? && !a.runCap && a.download.None?;
    var sent := asked && a.ocr == Text(false) && a.overlay.None? && !dry;
    && (open && a.vision.Some? ==> status == Error(Fault(None, "CapabilityError", "", a.vision.value, true)))
    && (open && a.vision.None? && !a.runCap && a.download.Some? ==> status == Error(a.download.value))
    && (asked && a.ocr.OcrRaises? ==> status == Error(a.ocr.fault))
    && (asked && a.ocr == Text(false) && a.overlay.Some? ==> status == Error(a.overlay.value))
    && (sent && a.upload.UploadFails? ==> status == Error(a.upload.fault.(status := None)))
    && (sent && a.upload.NotConsumed? ==> status == Error(a.upload.fault))
    && (sent && a.upload.Uploaded? && a.upload.search.SearchRaises? ==> status == Error(a.upload.search.fault))
    && (sent && a.upload.Uploaded? && a.upload.search.Found? && a.carry.Failed? ==> status == Error(a.carry.fault))
    && (sent && a.upload.Uploaded? && a.upload.search.Found? && a.carry.Accepted? && a.own.Failed? ==> status == Error(a.own.fault))
  }

  lemma ReocrFaults(a: ReocrAnswers, dry: bool)
    ensures ReocrRaises(a, dry, ReocrOutcome(a, dry).0)
  {
  }

  /** The library after some of the actions of a re-OCR by itself. */
  lemma {:induction false} ReocrTrace(j: Job, l: Lib, id: DocId, n: nat)
    requires WellFormed(j.c.resolver) && id in j.fetched && j.s == Reocr && Asks(j, id) == 1 && l.newId == map[] && n <= 5
    requires j.fetched[id].id == id
    ensures var w, x := Alone(j, l, id, n).w, l.w.nextId;
            && w.calls == l.w.calls + (if n >= 2 then [(Reocr, id)] else [])
            && w.writes == l.w.writes + [x, x, id][..if n <= 2 then 0 else n - 2]
            && w.docs == (if n <= 2 then l.w.docs
                          else if n == 3 then l.w.docs[x := Made(j, id, x)]
                          else if n == 4 then l.w.docs[x := Carried(j, id, x)]
                          else l.w.docs[x := Carried(j, id, x)][id := OwnDoc(j, id)])
  {
    var x := l.w.nextId;
    QuietTrace(j, l, id);
    ReocrWrites(j, l, id);
    assert [x, x, id][..0] == [] && [x, x, id][..1] == [x] && [x, x, id][..2] == [x, x] && [x, x, id][..3] == [x, x, id];
    assert Alone(j, l, id, 0) == l;
    if n >= 3 {
      WriteTrace(l.w, Alone(j, l, id, 2).w, j, id, x, Alone(j, l, id, 3).w, Alone(j, l, id, 4).w, Alone(j, l, id, 5).w);
    }
  }

  lemma {:induction false} QuietTrace(j: Job, l: Lib, id: DocId)
    requires WellFormed(j.c.resolver) && id in j.fetched && j.s == Reocr && Asks(j, id) == 1
    ensures var w := Alone(j, l, id, 1).w; w.docs == l.w.docs && w.writes == l.w.writes && w.calls == l.w.calls
    ensures var w := Alone(j, l, id, 2).w; w.docs == l.w.docs && w.writes == l.w.writes && w.calls == l.w.calls + [(Reocr, id)]
  {
    assert Alone(j, l, id, 0) == l;
    assert Alone(j, l, id, 1) == Acted(j, l, id, 0) && KindAt(j, id, 0) == Snapshots;
    assert Alone(j, l, id, 2) == Acted(j, Alone(j, l, id, 1), id, 1) && KindAt(j, id, 1) == Calls;
  }

  lemma {:induction false} WriteTrace(before: World, asked: World, j: Job, id: DocId, x: DocId, third: World, fourth: World, fifth: World)
    requires WellFormed(j.c.resolver) && id in j.fetched && j.fetched[id].id == id && j.s == Reocr
    requires asked.docs == before.docs && asked.writes == before.writes && asked.nextId == x
    requires third == Perform(asked, Consume(j.fates(Reocr, id).work.consumed))
    requires fourth == Perform(third, Patch(Carried(j, id, x))) && fifth == Perform(fourth, Patch(OwnDoc(j, id)))
    ensures third.calls == asked.calls && fourth.calls == asked.calls && fifth.calls == asked.calls
    ensures third.writes == before.writes + [x] && fourth.writes == before.writes + [x, x] && fifth.writes == before.writes + [x, x, id]
    ensures third.docs == before.docs[x := Made(j, id, x)] && fourth.docs == before.docs[x := Carried(j, id, x)]
    ensures fifth.docs == before.docs[x := Carried(j, id, x)][id := OwnDoc(j, id)]
  {
    assert Carried(j, id, x).id == x && OwnDoc(j, id).id == id;
  }

  /** What re-OCR does, told by its answers: nothing is uploaded but a text that was transcribed
      and is not blank, and the old document is only superseded once the new one is known and
      has taken over its fields. */
  ghost predicate ReocrDoes(c: Config, dry: bool, id: DocId, a: ReocrAnswers, before: World, after: World)
    requires WellFormed(c.resolver) && id in before.docs
  {
    var open := (dry || !a.periodCap) && a.vision.None?;
    var asked := open && !a.runCap && a.download.None?;
    var built := asked && a.ocr == Text(false) && a.overlay.None?;
    var made := built && !dry && (a.upload.Uploaded? || (a.upload.UploadFails? && a.upload.landed.Some?));
    var found := built && !dry && a.upload.Uploaded? && a.upload.search == Search.Found;
    var carried := found && (a.carry.Accepted? || a.carry.landed);
    var superseded := found && a.carry.Accepted? && (a.own.Accepted? || a.own.landed);
    && (!open ==> after == before)
    && after.calls == before.calls + (if asked then [(Reocr, id)] else [])
    && Writes(c, id, ConsumedBy(a), made, carried, superseded, before, after)
  }

  /** The writes of a re-OCR, each after the one before. */
  ghost predicate Writes(c: Config, id: DocId, consumed: Doc, made: bool, carried: bool, superseded: bool, before: World, after: World)
    requires WellFormed(c.resolver) && id in before.docs
  {
    var x := before.nextId;
    && after.writes == before.writes + (if made then [x] else []) + (if carried then [x] else []) + (if superseded then [id] else [])
    && (!made ==> after.docs == before.docs)
    && (id < x ==>
          id in after.docs && after.docs[id] == if superseded then SupersedeWrite(c, before.docs[id]) else before.docs[id])
    && (made && id < x ==>
          x in after.docs && after.docs[x] == if carried then CarryWrite(c, consumed.(id := x), before.docs[id])
                                              else consumed.(id := x))
  }

  lemma {:induction false} TraceWrites(j: Job, l: Lib, id: DocId, n: nat, consumed: Doc)
    requires WellFormed(j.c.resolver) && id in j.fetched && j.s == Reocr && Asks(j, id) == 1 && l.newId == map[] && n <= 5
    requires j.fetched == l.w.docs && j.fetched[id].id == id && j.fates(Reocr, id).work.consumed == consumed
    ensures Writes(j.c, id, consumed, n >= 3, n >= 4, n >= 5, l.w, Alone(j, l, id, n).w)
  {
    ReocrTrace(j, l, id, n);
    var x := l.w.nextId;
    assert [x, x, id][..1] == [x] && [x, x, id][..2] == [x] + [x] && [x, x, id][..3] == [x] + [x] + [id];
  }

  lemma {:induction false} ReocrDoesIt(j: Job, l: Lib, id: DocId, a: ReocrAnswers)
    requires WellFormed(j.c.resolver) && id in j.fetched && j.s == Reocr && l.newId == map[]
    requires j.fetched == l.w.docs && j.fetched[id].id == id && j.fates(Reocr, id) == ReocrFate(a, j.o.dry)
    ensures ReocrDoes(j.c, j.o.dry, id, a, l.w, Alone(j, l, id, Limit(j, id)).w)
  {
    ReocrGetsTo(a, j.o.dry);
    ReocrReaches(j, id, a);
    ReocrWork(a, j.o.dry);
    var n := Limit(j, id);
    ReocrTrace(j, l, id, n);
    TraceWrites(j, l, id, n, ConsumedBy(a));
    assert Alone(j, l, id, 0) == l;
  }

  lemma ReocrWork(a: ReocrAnswers, dry: bool)
    ensures ReocrFate(a, dry).work.asks == 1 && ReocrFate(a, dry).work.consumed == ConsumedBy(a)
  {
  }

  /** The same under any schedule of a stage's workers, of any document of the stage. */
  lemma {:induction false} NothingBlankIsUploaded(j: Job, w: World, moves: seq<WP.Move>, id: DocId, a: ReocrAnswers)
    requires JobOk(j, w) && j.s == Reocr && Play(j, Start(j, w), moves).Some? && id in w.docs
    requires j.fates(Reocr, id) == ReocrFate(a, j.o.dry)
    ensures var lib := Play(j, Start(j, w), moves).value.lib;
            var built := (j.o.dry || !a.periodCap) && a.vision.None? && !a.runCap && a.download.None? && a.ocr == Text(false)
                         && a.overlay.None?;
            && (id in lib.newId ==> built && !j.o.dry && (a.upload.Uploaded? || (a.upload.UploadFails? && a.upload.landed.Some?)))
            && id in lib.w.docs
            && (lib.w.docs[id] != w.docs[id] ==>
                  && built && !j.o.dry && a.upload.Uploaded? && a.upload.search == Search.Found
                  && a.carry.Accepted? && (a.own.Accepted? || a.own.landed)
                  && lib.w.docs[id] == SupersedeWrite(j.c, w.docs[id]))
  {
    ReachableShape(j, w, moves);
    ReocrGetsTo(a, j.o.dry);
    ReocrReaches(j, id, a);
    ReocrWork(a, j.o.dry);
    ReachedBlank(j, w, Play(j, Start(j, w), moves).value, id, a);
  }

  lemma ReachedBlank(j: Job, w: World, r: Run, id: DocId, a: ReocrAnswers)
    requires JobOk(j, w) && j.s == Reocr && Told(j, w, r.lib, r.pool.progress) && id in w.docs
    requires WP.Measured(PlanOf(j), r.pool.busy, r.pool.over, r.pool.progress) && Asks(j, id) == 1
    ensures id in r.lib.w.docs && (id in r.lib.newId ==> Limit(j, id) >= 3)
    ensures r.lib.w.docs[id] != w.docs[id] ==> Limit(j, id) == 5 && r.lib.w.docs[id] == SupersedeWrite(j.c, w.docs[id])
  {
  }

  // ----- metadata ----------------------------------------------------------

  /** An answer as it is applied: its title and names, stripped, so that text 0 is a blank one
      (a tag's name is not stripped, and one of spaces is not blank). */
  datatype Data = Data(title: Documents.Text, correspondent: Documents.Text, documentType: Documents.Text, tags: seq<Documents.Text>)

  datatype Endpoint = Correspondents | DocumentTypes | TagNames

  /** What the taxonomy makes of a name: an id it had, one it created, or an error. */
  datatype Lookup = Known(id: nat) | Created(id: nat) | Denied(fault: Fault)

  type Taxonomy = (Endpoint, Documents.Text) -> Lookup

  /** A blank name is not looked up; an id of 0 counts as none. */
  function IdFor(look: Taxonomy, e: Endpoint, name: Documents.Text): Option<nat> {
    if name == EMPTY || look(e, name).Denied? || look(e, name).id == 0 then None else Some(look(e, name).id)
  }

  function FaultFor(look: Taxonomy, e: Endpoint, name: Documents.Text): Option<Fault> {
    if name != EMPTY && look(e, name).Denied? then Some(look(e, name).fault) else None
  }

  predicate CreatesFor(look: Taxonomy, e: Endpoint, name: Documents.Text) {
    name != EMPTY && look(e, name).Created?
  }

  function TagIds(look: Taxonomy, names: seq<Documents.Text>): set<nat> {
    if names == [] then {}
    else
      var id := IdFor(look, TagNames, names[|names| - 1]);
      TagIds(look, names[..|names| - 1]) + if id.Some? then {id.value} else {}
  }

  function TagsFault(look: Taxonomy, names: seq<Documents.Text>): Option<Fault> {
    if names == [] then None
    else
      var before := TagsFault(look, names[..|names| - 1]);
      if before.Some? then before else FaultFor(look, TagNames, names[|names| - 1])
  }

  predicate TagsCreate(look: Taxonomy, names: seq<Documents.Text>) {
    names != [] && (TagsCreate(look, names[..|names| - 1]) || CreatesFor(look, TagNames, names[|names| - 1]))
  }

  /** What the data's names come to; the first error in order ends it. */
  datatype Resolution = Resolved(meta: Meta) | Unresolved(fault: Fault)

  function Resolve(look: Taxonomy, data: Data): Resolution {
    var first, second, third := FaultFor(look, Correspondents, data.correspondent), FaultFor(look, DocumentTypes, data.documentType),
                                TagsFault(look, data.tags);
    if first.Some? then Unresolved(first.value)
    else if second.Some? then Unresolved(second.value)
    else if third.Some? then Unresolved(third.value)
    else Resolved(Meta(
      if data.title == EMPTY then None else Some(data.title),
      IdFor(look, Correspondents, data.correspondent), IdFor(look, DocumentTypes, data.documentType), TagIds(look, data.tags),
      CreatesFor(look, Correspondents, data.correspondent) || CreatesFor(look, DocumentTypes, data.documentType)
      || TagsCreate(look, data.tags)))
  }

  /** The same for one extraction: the caps, what the schema admits, the provider's attempts
      and what it raises if one does, the text of the error if none is ever valid (it quotes
      the last answer, if there was one), what the taxonomy makes of names, and the patch. */
  datatype MetadataAnswers = MetadataAnswers(
    periodCap: bool, runCap: bool, valid: Data -> bool, attempts: seq<X.Attempt<Data>>, fault: Fault,
    complaint: Option<Data> -> string, look: Taxonomy, own: Reply)

  /** The first valid answer, if the retry loop gets to one. */
  function Extracted(a: MetadataAnswers): Option<Data> {
    var made := X.Made(a.valid, a.attempts);
    if made > 0 && a.attempts[made - 1].Answer? && a.valid(a.attempts[made - 1].data)
    then Some(a.attempts[made - 1].data) else None
  }

  function Raised(a: MetadataAnswers): bool {
    var made := X.Made(a.valid, a.attempts);
    made > 0 && a.attempts[made - 1].Raises?
  }

  function LastAnswer(a: MetadataAnswers): Option<Data> {
    var n := |a.attempts|;
    if n > 0 && a.attempts[n - 1].Answer? then Some(a.attempts[n - 1].data) else None
  }

  /** The error of an extraction without a valid answer. */
  function ExtractFault(a: MetadataAnswers): Fault {
    if Raised(a) then a.fault else Fault(None, "SchemaValidationError", "", a.complaint(LastAnswer(a)), false)
  }

  function MetadataOutcome(a: MetadataAnswers, dry: bool): (Status, nat) {
    var asked := 1 + X.Made(a.valid, a.attempts);
    if (!dry && a.periodCap) || a.runCap then (SpendCap, 0)
    else match Extracted(a)
      case None => (Error(ExtractFault(a)), asked)
      case Some(data) =>
        if dry then (DryRun, asked)
        else if Resolve(a.look, data).Unresolved? then (Error(Resolve(a.look, data).fault), asked)
        else if a.own.Failed? then (Error(a.own.fault), asked + Landing(a.own))
        else (Finished, asked + 1)
  }

  function MetadataWork(a: MetadataAnswers): Work {
    var meta := match Extracted(a)
                case None => None
                case Some(data) => (match Resolve(a.look, data) case Resolved(m) => Some(m) case Unresolved(_) => None);
    NOTHING.(asks := X.Made(a.valid, a.attempts), meta := if meta.Some? then meta.value else NOTHING.meta)
  }

  function MetadataFate(a: MetadataAnswers, dry: bool): Fate {
    FateOf(MetadataOutcome(a, dry), MetadataWork(a))
  }

  lemma MetadataReaches(j: Job, id: DocId, a: MetadataAnswers)
    requires WellFormed(j.c.resolver) && j.s == Metadata && id in j.fetched && j.fates(Metadata, id) == MetadataFate(a, j.o.dry)
    ensures Limit(j, id) == MetadataOutcome(a, j.o.dry).1
    ensures Fatal(j, id) <==> FatalStatus(MetadataOutcome(a, j.o.dry).0)
  {
  }

  /** The `k`-th answer is the first that passes validation, and nothing raised before it. */
  ghost predicate FirstValid(a: MetadataAnswers, k: nat) {
    && k < |a.attempts| && a.attempts[k].Answer? && a.valid(a.attempts[k].data)
    && forall i :: 0 <= i < k ==> a.attempts[i].Answer? && !a.valid(a.attempts[i].data)
  }

  lemma {:induction false} MadeUpTo<D>(valid: D -> bool, attempts: seq<X.Attempt<D>>)
    ensures var n := X.Made(valid, attempts);
            && (forall i :: 0 <= i < n - 1 ==> !X.Decides(valid, attempts[i]))
            && (n < |attempts| ==> n > 0 && X.Decides(valid, attempts[n - 1]))
  {
    if attempts != [] && !X.Decides(valid, attempts[0]) {
      var rest := attempts[1..];
      MadeUpTo(valid, rest);
      forall i | 0 <= i < X.Made(valid, attempts) - 1
        ensures !X.Decides(valid, attempts[i])
      {
        assert i > 0 ==> attempts[i] == rest[i - 1];
      }
    }
  }

  /** What the retry loop returns is that answer, asked for and reached in so many attempts. */
  lemma {:induction false} ExtractedIsFirstValid(a: MetadataAnswers)
    ensures Extracted(a).Some? <==> exists k: nat :: FirstValid(a, k)
    ensures forall k: nat :: FirstValid(a, k) ==> Extracted(a) == Some(a.attempts[k].data) && X.Made(a.valid, a.attempts) == k + 1
  {
    MadeUpTo(a.valid, a.attempts);
    var n := X.Made(a.valid, a.attempts);
    if Extracted(a).Some? {
      assert FirstValid(a, n - 1);
    }
    forall k: nat | FirstValid(a, k)
      ensures n == k + 1
    {
      X.MadeFacts(a.valid, a.attempts, k);
    }
  }

  ghost predicate NothingDenied(look: Taxonomy, data: Data) {
    && (data.correspondent != EMPTY ==> !look(Correspondents, data.correspondent).Denied?)
    && (data.documentType != EMPTY ==> !look(DocumentTypes, data.documentType).Denied?)
    && (forall name :: name in data.tags && name != EMPTY ==> !look(TagNames, name).Denied?)
  }

  lemma {:induction false} ResolvedIff(look: Taxonomy, data: Data)
    ensures Resolve(look, data).Resolved? <==> NothingDenied(look, data)
  {
    TagsFaultIff(look, data.tags);
  }

  lemma {:induction false} TagsFaultIff(look: Taxonomy, names: seq<Documents.Text>)
    ensures TagsFault(look, names) == None <==> forall name :: name in names && name != EMPTY ==> !look(TagNames, name).Denied?
  {
    if names != [] {
      TagsFaultIff(look, names[..|names| - 1]);
      assert names == names[..|names| - 1] + [names[|names| - 1]];
    }
  }

  /** What the metadata stage comes to, told by its answers. */
  lemma {:induction false} MetadataSays(a: MetadataAnswers, dry: bool)
    ensures var (status, n) := MetadataOutcome(a, dry);
            var capped := (!dry && a.periodCap) || a.runCap;
            && (status == SpendCap <==> capped) && (n >= 1 <==> !capped)
            && (status == DryRun <==> !capped && dry && exists k: nat :: FirstValid(a, k))
            && (status == Finished <==>
                  !capped && !dry && a.own.Accepted?
                  && exists k: nat :: FirstValid(a, k) && NothingDenied(a.look, a.attempts[k].data))
            && (n == 2 + X.Made(a.valid, a.attempts) <==>
                  !capped && !dry && (a.own.Accepted? || a.own.landed)
                  && exists k: nat :: FirstValid(a, k) && NothingDenied(a.look, a.attempts[k].data))
            && (status == SpendCap || status == DryRun || status == Finished || status.Error?)
            && n <= 2 + X.Made(a.valid, a.attempts) && (n > 0 ==> n > X.Made(a.valid, a.attempts))
  {
    ExtractedIsFirstValid(a);
    if Extracted(a).Some? {
      ResolvedIff(a.look, Extracted(a).value);
      var k: nat :| FirstValid(a, k);
      assert Extracted(a).value == a.attempts[k].data;
    }
  }

  /** The retry loop asks at most once per attempt allowed. */
  lemma AsksAreBounded(a: MetadataAnswers, dry: bool)
    ensures MetadataFate(a, dry).work.asks == X.Made(a.valid, a.attempts) <= |a.attempts|
  {
  }

  /** The last action of a metadata extraction writes what its data resolves to. */
  lemma {:induction false} MetadataWrites(j: Job, l: Lib, id: DocId, a: MetadataAnswers, meta: Meta, n: nat)
    requires WellFormed(j.c.resolver) && id in j.fetched && j.s == Metadata && j.fates(Metadata, id).work == MetadataWork(a)
    requires Extracted(a).Some? && Resolve(a.look, Extracted(a).value) == Resolved(meta) && n == 1 + Asks(j, id)
    ensures Alone(j, l, id, n + 1).w == Perform(Alone(j, l, id, n).w, Patch(MetadataWrite(j.c, j.fetched[id], meta)))
  {
    assert Alone(j, l, id, n + 1) == Acted(j, Alone(j, l, id, n), id, n);
  }

  /** `e` is `d` written with this data: each field from its own part of it, by way of the id
      the taxonomy has for that name, or as it was; the tags added to those it had; and the
      review tag added if and only if something was created. */
  ghost predicate WrittenFrom(c: Config, look: Taxonomy, data: Data, d: Doc, e: Doc)
    requires WellFormed(c.resolver)
  {
    && e.title == (if data.title != EMPTY then data.title else d.title)
    && e.correspondent == NamedOr(look, Correspondents, data.correspondent, d.correspondent)
    && e.documentType == NamedOr(look, DocumentTypes, data.documentType, d.documentType)
    && (forall t :: t in e.tags <==>
          t in d.tags || NamedBy(look, data.tags, t) || (t == c.newTaxonomyTag && SomethingNew(look, data)))
    && e.id == d.id && e.content == d.content && e.created == d.created && e.serial == d.serial
    && Get(e.fields, c.resolver.stageId) == ValueFor(c.resolver, MetadataDone)
    && Others(e.fields, {c.resolver.stageId}) == Others(d.fields, {c.resolver.stageId})
  }

  ghost function NamedOr(look: Taxonomy, e: Endpoint, name: Documents.Text, before: nat): nat {
    if name == EMPTY then before
    else match look(e, name)
      case Known(id) => if id != 0 then id else before
      case Created(id) => if id != 0 then id else before
      case Denied(_) => before
  }

  ghost predicate NamedBy(look: Taxonomy, names: seq<Documents.Text>, t: nat) {
    t != 0 && exists name :: name in names && name != EMPTY && (look(TagNames, name) == Known(t) || look(TagNames, name) == Lookup.Created(t))
  }

  ghost predicate SomethingNew(look: Taxonomy, data: Data) {
    || (data.correspondent != EMPTY && look(Correspondents, data.correspondent).Created?)
    || (data.documentType != EMPTY && look(DocumentTypes, data.documentType).Created?)
    || exists name :: name in data.tags && name != EMPTY && look(TagNames, name).Created?
  }

  lemma {:induction false} TagsNamed(look: Taxonomy, names: seq<Documents.Text>, t: nat)
    ensures t in TagIds(look, names) <==> NamedBy(look, names, t)
    ensures TagsCreate(look, names) <==> exists name :: name in names && name != EMPTY && look(TagNames, name).Created?
  {
    if names != [] {
      var front, last := names[..|names| - 1], names[|names| - 1];
      TagsNamed(look, front, t);
      assert names == front + [last];
    }
  }

  lemma {:induction false} ResolvedIsWritten(c: Config, look: Taxonomy, data: Data, d: Doc)
    requires WellFormed(c.resolver) && Resolve(look, data).Resolved?
    ensures WrittenFrom(c, look, data, d, MetadataWrite(c, d, Resolve(look, data).meta))
  {
    SetStageFacts(c.resolver, d.fields, MetadataDone, 0);
    forall t: nat
      ensures t in TagIds(look, data.tags) <==> NamedBy(look, data.tags, t)
    {
      TagsNamed(look, data.tags, t);
    }
    TagsNamed(look, data.tags, 0);
  }

  /** `e` is `d` written with the first answer that passed validation. */
  ghost predicate AppliedValid(c: Config, a: MetadataAnswers, d: Doc, e: Doc)
    requires WellFormed(c.resolver)
  {
    exists k: nat :: FirstValid(a, k) && WrittenFrom(c, a.look, a.attempts[k].data, d, e)
  }

  lemma LandedMeansExtracted(j: Job, id: DocId, a: MetadataAnswers)
    requires WellFormed(j.c.resolver) && j.s == Metadata && Works(j, id) && !j.o.dry
    requires j.fates(Metadata, id) == MetadataFate(a, false) && Limit(j, id) == Length(j, id)
    ensures Extracted(a).Some? && Resolve(a.look, Extracted(a).value).Resolved?
    ensures OwnDoc(j, id) == MetadataWrite(j.c, j.fetched[id], Resolve(a.look, Extracted(a).value).meta)
  {
  }

  lemma ExtractedIsValid(c: Config, a: MetadataAnswers, d: Doc)
    requires WellFormed(c.resolver) && Extracted(a).Some? && Resolve(a.look, Extracted(a).value).Resolved?
    ensures AppliedValid(c, a, d, MetadataWrite(c, d, Resolve(a.look, Extracted(a).value).meta))
  {
    var k := X.Made(a.valid, a.attempts) - 1;
    ExtractedIsFirstValid(a);
    var j: nat :| FirstValid(a, j);
    assert j == k && a.attempts[k].data == Extracted(a).value;
    ResolvedIsWritten(c, a.look, Extracted(a).value, d);
  }

  /** Every answer was rejected, or one attempt raised before any was valid. */
  ghost predicate NeverValid(a: MetadataAnswers) {
    forall i :: 0 <= i < |a.attempts| ==> a.attempts[i].Answer? && !a.valid(a.attempts[i].data)
  }

  ghost predicate RaisesAt(a: MetadataAnswers, k: nat) {
    k < |a.attempts| && a.attempts[k].Raises? && forall i :: 0 <= i < k ==> a.attempts[i].Answer? && !a.valid(a.attempts[i].data)
  }

  /** Which error an extraction ends in: the provider's, one that quotes the last answer, the
      taxonomy's for the first name denied, or the patch's. */
  ghost predicate MetadataRaises(a: MetadataAnswers, dry: bool, status: Status) {
    var open := (dry || !a.periodCap) && !a.runCap;
    && (open && (exists k: nat :: RaisesAt(a, k)) ==> status == Error(a.fault))
    && (open && NeverValid(a) ==>
          status == Error(Fault(None, "SchemaValidationError", "",
                                a.complaint(if a.attempts == [] then None else Some(a.attempts[|a.attempts| - 1].data)), false)))
    && (forall k: nat :: open && !dry && FirstValid(a, k) ==> AppliesOr(a, a.attempts[k].data, status))
  }

  ghost predicate AppliesOr(a: MetadataAnswers, data: Data, status: Status) {
    var byCorrespondent := data.correspondent != EMPTY && a.look(Correspondents, data.correspondent).Denied?;
    var byType := data.documentType != EMPTY && a.look(DocumentTypes, data.documentType).Denied?;
    && (byCorrespondent ==> status == Error(a.look(Correspondents, data.correspondent).fault))
    && (!byCorrespondent && byType ==> status == Error(a.look(DocumentTypes, data.documentType).fault))
    && (!byCorrespondent && !byType ==>
          forall i :: DeniedFirst(a.look, data.tags, i) ==> status == Error(a.look(TagNames, data.tags[i]).fault))
    && (NothingDenied(a.look, data) && a.own.Failed? ==> status == Error(a.own.fault))
  }

  ghost predicate DeniedFirst(look: Taxonomy, names: seq<Documents.Text>, i: int) {
    && 0 <= i < |names| && names[i] != EMPTY && look(TagNames, names[i]).Denied?
    && forall k :: 0 <= k < i ==> names[k] == EMPTY || !look(TagNames, names[k]).Denied?
  }

  lemma {:induction false} FirstTagDenied(look: Taxonomy, names: seq<Documents.Text>, i: nat)
    requires DeniedFirst(look, names, i)
    ensures TagsFault(look, names) == Some(look(TagNames, names[i]).fault)
  {
    if i < |names| - 1 {
      FirstTagDenied(look, names[..|names| - 1], i);
    } else {
      TagsFaultIff(look, names[..i]);
    }
  }

  lemma {:induction false} MetadataFaults(a: MetadataAnswers, dry: bool)
    ensures MetadataRaises(a, dry, MetadataOutcome(a, dry).0)
  {
    ExtractedIsFirstValid(a);
    WithoutAnswer(a);
    forall k: nat | FirstValid(a, k)
      ensures (dry || !a.periodCap) && !a.runCap && !dry ==> AppliesOr(a, a.attempts[k].data, MetadataOutcome(a, dry).0)
    {
      if !dry && !a.periodCap && !a.runCap {
        AppliedFaults(a, a.attempts[k].data);
      }
    }
  }

  lemma {:induction false} WithoutAnswer(a: MetadataAnswers)
    ensures forall k: nat :: RaisesAt(a, k) ==> Extracted(a) == None && Raised(a)
    ensures NeverValid(a) ==> Extracted(a) == None && !Raised(a)
  {
    forall k: nat | RaisesAt(a, k)
      ensures Extracted(a) == None && Raised(a)
    {
      X.MadeFacts(a.valid, a.attempts, k);
    }
    if NeverValid(a) {
      X.MadeFacts(a.valid, a.attempts, |a.attempts|);
    }
  }

  lemma {:induction false} AppliedFaults(a: MetadataAnswers, data: Data)
    requires Extracted(a) == Some(data) && !a.periodCap && !a.runCap
    ensures AppliesOr(a, data, MetadataOutcome(a, false).0)
  {
    ResolvedIff(a.look, data);
    forall i | DeniedFirst(a.look, data.tags, i)
      ensures TagsFault(a.look, data.tags) == Some(a.look(TagNames, data.tags[i]).fault)
    {
      FirstTagDenied(a.look, data.tags, i);
    }
  }

  function Repeated(s: Stage, id: DocId, n: nat): seq<(Stage, DocId)> {
    if n == 0 then [] else Repeated(s, id, n - 1) + [(s, id)]
  }

  /** The library after some of the actions of an extraction by itself. */
  lemma {:induction false} MetadataTrace(j: Job, l: Lib, id: DocId, n: nat)
    requires WellFormed(j.c.resolver) && id in j.fetched && j.s == Metadata && n <= 2 + Asks(j, id) && j.fetched[id].id == id
    ensures var w := Alone(j, l, id, n).w;
            && w.calls == l.w.calls + Repeated(Metadata, id, if n <= 1 then 0 else if n - 1 <= Asks(j, id) then n - 1 else Asks(j, id))
            && w.writes == l.w.writes + (if n == 2 + Asks(j, id) then [id] else [])
            && w.docs == (if n == 2 + Asks(j, id) then l.w.docs[id := OwnDoc(j, id)] else l.w.docs)
  {
    if n == 0 {
      assert Alone(j, l, id, 0) == l;
    } else {
      MetadataTrace(j, l, id, n - 1);
      MetadataStep(j, Alone(j, l, id, n - 1), id, n - 1);
      assert Alone(j, l, id, n) == Acted(j, Alone(j, l, id, n - 1), id, n - 1);
    }
  }

  /** The snapshot, a call, or the patch. */
  lemma MetadataStep(j: Job, l: Lib, id: DocId, n: nat)
    requires WellFormed(j.c.resolver) && id in j.fetched && j.s == Metadata && n < 2 + Asks(j, id) && j.fetched[id].id == id
    ensures var w := Acted(j, l, id, n).w;
            && w.calls == l.w.calls + (if 1 <= n <= Asks(j, id) then [(Metadata, id)] else [])
            && w.writes == l.w.writes + (if n == 1 + Asks(j, id) then [id] else [])
            && w.docs == (if n == 1 + Asks(j, id) then l.w.docs[id := OwnDoc(j, id)] else l.w.docs)
  {
  }

  /** What the metadata stage does, in terms of its answers alone: only the first answer that
      passes validation is written, and only if the taxonomy knows or creates every name. */
  ghost predicate MetadataDoes(c: Config, dry: bool, id: DocId, a: MetadataAnswers, before: World, after: World, status: Status)
    requires WellFormed(c.resolver) && id in before.docs
  {
    var open := (dry || !a.periodCap) && !a.runCap;
    && (status == SpendCap <==> !open)
    && (status == DryRun <==> open && dry && exists k: nat :: FirstValid(a, k))
    && (status == Finished <==>
          open && !dry && a.own.Accepted? && exists k: nat :: FirstValid(a, k) && NothingDenied(a.look, a.attempts[k].data))
    && (status == SpendCap || status == DryRun || status == Finished || status.Error?)
    && (!open ==> after == before)
    && (open ==> after.calls == before.calls + Repeated(Metadata, id, X.Made(a.valid, a.attempts)))
    && (forall x :: x in before.docs && x != id ==> x in after.docs && after.docs[x] == before.docs[x])
    && id in after.docs
    && if open && !dry && (a.own.Accepted? || a.own.landed)
          && exists k: nat :: FirstValid(a, k) && NothingDenied(a.look, a.attempts[k].data)
       then after.writes == before.writes + [id] && AppliedValid(c, a, before.docs[id], after.docs[id])
       else after.writes == before.writes && after.docs == before.docs
  }

  /** How far the handling got tells what it left. */
  lemma MetadataLeaves(c: Config, dry: bool, id: DocId, a: MetadataAnswers, before: World, after: World, n: nat, own: Doc)
    requires WellFormed(c.resolver) && id in before.docs && n == MetadataOutcome(a, dry).1
    requires var made := X.Made(a.valid, a.attempts);
             && n <= 2 + made && (n == 0 ==> after == before)
             && after.calls == before.calls + Repeated(Metadata, id, if n <= 1 then 0 else if n - 1 <= made then n - 1 else made)
             && after.writes == before.writes + (if n == 2 + made then [id] else [])
             && after.docs == (if n == 2 + made then before.docs[id := own] else before.docs)
             && (n == 2 + made ==> AppliedValid(c, a, before.docs[id], own))
    ensures MetadataDoes(c, dry, id, a, before, after, MetadataOutcome(a, dry).0)
  {
    MetadataSays(a, dry);
  }

  lemma {:induction false} MetadataDoesIt(j: Job, l: Lib, id: DocId, a: MetadataAnswers)
    requires WellFormed(j.c.resolver) && id in j.fetched && j.s == Metadata
    requires j.fetched == l.w.docs && j.fetched[id].id == id && j.fates(Metadata, id) == MetadataFate(a, j.o.dry)
    ensures MetadataDoes(j.c, j.o.dry, id, a, l.w, Alone(j, l, id, Limit(j, id)).w, MetadataOutcome(a, j.o.dry).0)
  {
    MetadataSays(a, j.o.dry);
    MetadataReaches(j, id, a);
    AsksAreBounded(a, j.o.dry);
    var n := Limit(j, id);
    MetadataTrace(j, l, id, n);
    assert Alone(j, l, id, 0) == l;
    if n == 2 + Asks(j, id) {
      FinishedMeansWritten(j, id, a);
    }
    MetadataLeaves(j.c, j.o.dry, id, a, l.w, Alone(j, l, id, n).w, n, OwnDoc(j, id));
  }

  lemma FinishedMeansWritten(j: Job, id: DocId, a: MetadataAnswers)
    requires WellFormed(j.c.resolver) && id in j.fetched && j.s == Metadata
    requires j.fates(Metadata, id) == MetadataFate(a, j.o.dry) && Limit(j, id) == 2 + Asks(j, id)
    ensures AppliedValid(j.c, a, j.fetched[id], OwnDoc(j, id))
  {
    MetadataSays(a, j.o.dry);
    MetadataReaches(j, id, a);
    AsksAreBounded(a, j.o.dry);
    LandedMeansExtracted(j, id, a);
    ExtractedIsValid(j.c, a, j.fetched[id]);
  }

  /** Only schema-valid data is ever applied: under any schedule of a metadata stage whose
      documents fare as their calls' answers say, a document that changed was written with an
      answer that passed validation, field by field. */
  lemma {:induction false} OnlyValidIsApplied(j: Job, w: World, moves: seq<WP.Move>, id: DocId, a: MetadataAnswers)
    requires JobOk(j, w) && j.s == Metadata && Play(j, Start(j, w), moves).Some? && id in w.docs
    requires j.fates(Metadata, id) == MetadataFate(a, j.o.dry)
    ensures var d := Play(j, Start(j, w), moves).value.lib.w.docs;
            id in d && (d[id] == w.docs[id] || AppliedValid(j.c, a, w.docs[id], d[id]))
  {
    ReachableShape(j, w, moves);
    ChangedIsValid(j, w, Play(j, Start(j, w), moves).value, id, a);
  }

  lemma ChangedIsValid(j: Job, w: World, r: Run, id: DocId, a: MetadataAnswers)
    requires JobOk(j, w) && j.s == Metadata && DocsShape(j, r.lib.w.docs, r.pool.progress) && id in w.docs
    requires WP.Measured(PlanOf(j), r.pool.busy, r.pool.over, r.pool.progress)
    requires j.fates(Metadata, id) == MetadataFate(a, j.o.dry)
    ensures id in r.lib.w.docs && (r.lib.w.docs[id] == w.docs[id] || AppliedValid(j.c, a, w.docs[id], r.lib.w.docs[id]))
  {
    if Landed(j, r.pool.progress, id) {
      LandedMeansExtracted(j, id, a);
      ExtractedIsValid(j.c, a, w.docs[id]);
    }
  }

  // ----- a whole run's answers ---------------------------------------------

  datatype Replies = Replies(triage: DocId -> Reply, reocr: DocId -> ReocrAnswers, metadata: DocId -> MetadataAnswers)

  function FatesOf(r: Replies, dry: bool): Fates {
    (s: Stage, id: DocId) =>
      match s
      case Triage => TriageFate(r.triage(id))
      case Reocr => ReocrFate(r.reocr(id), dry)
      case Metadata => MetadataFate(r.metadata(id), dry)
  }

  function Allowed(r: Replies, s: Stage, id: DocId): nat {
    match s
    case Triage => 0
    case Reocr => 1
    case Metadata => |r.metadata(id).attempts|
  }

  /** Over every schedule of a stage's workers, the provider is asked about a document at most
      once in re-OCR and at most once per attempt allowed in metadata. */
  lemma {:induction false} AttemptsBoundCalls(j: Job, w: World, moves: seq<WP.Move>, id: DocId, r: Replies)
    requires JobOk(j, w) && Play(j, Start(j, w), moves).Some? && j.fates == FatesOf(r, j.o.dry)
    ensures var plan := PlanOf(j);
            WP.Play(plan, WP.Start(plan), moves).Some? && PC.Times(PC.Calls(plan, WP.Start(plan), moves), id) <= Allowed(r, j.s, id)
  {
    AskedAtMost(j, w, moves, id);
    FateAsks(r, j.s, id, j.o.dry);
  }

  lemma FateAsks(r: Replies, s: Stage, id: DocId, dry: bool)
    ensures s != Triage ==> FatesOf(r, dry)(s, id).work.asks <= Allowed(r, s, id)
  {
    match s
    case Triage =>
    case Reocr => assert FatesOf(r, dry)(s, id) == ReocrFate(r.reocr(id), dry);
    case Metadata =>
      assert FatesOf(r, dry)(s, id) == MetadataFate(r.metadata(id), dry);
      AsksAreBounded(r.metadata(id), dry);
  }
}
