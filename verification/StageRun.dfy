/** One run of a stage: its worker pool acting on the library, action by action. Wherever
    a schedule stands, the library is told by how far each document is. */
module StageRun {
  import opened Messages
  import opened Documents
  import opened SweepTick
  import WP = WorkerPool
  import PC = PoolCalls

  /** What a run of a stage is given: the documents as fetched, and how each fares. */
  datatype Job = Job(
    c: Config, o: Options, s: Stage, nudged: bool,
    queue: seq<DocId>, fetched: map<DocId, Doc>, fates: Fates)

  ghost predicate JobOk(j: Job, w: World) {
    && WellFormed(j.c.resolver) && Valid(w) && j.fetched == w.docs && Distinct(j.queue)
    && forall id :: id in j.queue ==> id in w.docs
  }

  // ----- one document's script ---------------------------------------------

  /** Triage leaves handled documents alone, and in a dry run all of them. */
  predicate Works(j: Job, id: DocId)
    requires WellFormed(j.c.resolver)
  {
    id in j.fetched && (j.s == Triage ==> !j.o.dry && Queued(j.c, Triage, j.o.force, j.fetched[id]))
  }

  function Asks(j: Job, id: DocId): nat {
    if j.s == Triage then 0 else j.fates(j.s, id).work.asks
  }

  /** Writes of a document's full script: none if dry, three in re-OCR (the new document,
      what is carried over to it, the old one), one otherwise. */
  function Writes(j: Job): nat {
    if j.o.dry then 0 else if j.s == Reocr then 3 else 1
  }

  /** Actions of a document's full script: snapshot, provider calls, writes, the document's
      own one last. */
  function Length(j: Job, id: DocId): nat
    requires WellFormed(j.c.resolver)
  {
    if Works(j, id) then 1 + Asks(j, id) + Writes(j) else 0
  }

  /** How many of them are performed. */
  function Limit(j: Job, id: DocId): (n: nat)
    requires WellFormed(j.c.resolver)
    ensures n <= Length(j, id)
  {
    Reached(j.fates(j.s, id), Length(j, id))
  }

  function OwnDoc(j: Job, id: DocId): Doc
    requires WellFormed(j.c.resolver) && id in j.fetched
  {
    OwnWrite(j.c, j.s, j.fetched[id], j.fates(j.s, id).work)
  }

  /** The re-consumed document as it arrives, and once the old one's fields are carried
      over to it. */
  function Made(j: Job, id: DocId, newId: DocId): Doc {
    j.fates(j.s, id).work.consumed.(id := newId)
  }

  function Carried(j: Job, id: DocId, newId: DocId): Doc
    requires WellFormed(j.c.resolver) && id in j.fetched
  {
    CarryWrite(j.c, Made(j, id, newId), j.fetched[id])
  }

  /** The kind of the `n`-th action. */
  datatype Kind = Snapshots | Calls | Consumes | Carries | OwnWrites

  function KindAt(j: Job, id: DocId, n: nat): Kind {
    if n == 0 then Snapshots
    else if n <= Asks(j, id) then Calls
    else if j.s == Reocr && n == Asks(j, id) + 1 then Consumes
    else if j.s == Reocr && n == Asks(j, id) + 2 then Carries
    else OwnWrites
  }

  function ActionAt(j: Job, id: DocId, newId: DocId, n: nat): Action
    requires WellFormed(j.c.resolver) && id in j.fetched
  {
    match KindAt(j, id, n)
    case Snapshots => TakeSnapshot(j.s, Snap(Keys(j.s, j.nudged), j.fetched[id]))
    case Calls => CallProvider(j.s, id)
    case Consumes => Consume(j.fates(j.s, id).work.consumed)
    case Carries => Patch(Carried(j, id, newId))
    case OwnWrites => Patch(OwnDoc(j, id))
  }

  /** Does the document's handling end in a fatal error? */
  predicate Fatal(j: Job, id: DocId)
    requires WellFormed(j.c.resolver)
  {
    Works(j, id) && IsFatal(j.fates(j.s, id))
  }

  function Workers(j: Job): nat {
    if j.o.workers < 1 then 1 else j.o.workers
  }

  function PlanOf(j: Job): WP.Plan
    requires WellFormed(j.c.resolver)
  {
    WP.Plan(j.queue, Workers(j), (id: DocId) => Limit(j, id),
            (id: DocId, n: nat) => KindAt(j, id, n) == Calls, (id: DocId) => Fatal(j, id))
  }

  // ----- the machine -------------------------------------------------------

  /** The library, and which document re-OCR made of which: `newId` of the old one, `origin`
      of the new one. */
  datatype Lib = Lib(w: World, newId: map<DocId, DocId>, origin: map<DocId, DocId>)

  datatype Run = Run(pool: WP.Pool, lib: Lib)

  function Start(j: Job, w: World): Run
    requires WellFormed(j.c.resolver)
  {
    Run(WP.Start(PlanOf(j)), Lib(w, map[], map[]))
  }

  predicate Enabled(j: Job, r: Run, m: WP.Move)
    requires WellFormed(j.c.resolver)
  {
    WP.Enabled(PlanOf(j), r.pool, m) && (m.Act? ==> m.id in j.fetched)
  }

  function Acted(j: Job, r: Lib, id: DocId, n: nat): Lib
    requires WellFormed(j.c.resolver) && id in j.fetched
  {
    var a := ActionAt(j, id, if id in r.newId then r.newId[id] else 0, n);
    var t := r.(w := Perform(r.w, a));
    if a.Consume? then t.(newId := r.newId[id := r.w.nextId], origin := r.origin[r.w.nextId := id]) else t
  }

  /** Collecting the stage's first fatal outcome: an account-level one fails the run. */
  function Noted(j: Job, l: Lib, abort: bool, id: DocId): Lib
    requires WellFormed(j.c.resolver)
  {
    if Fatal(j, id) && !abort && j.fates(j.s, id).failure == FailsRun then l.(w := l.w.(latched := true)) else l
  }

  function Next(j: Job, r: Run, m: WP.Move): Run
    requires WellFormed(j.c.resolver) && Enabled(j, r, m)
  {
    Run(WP.Next(PlanOf(j), r.pool, m),
        match m
        case Act(id) => Acted(j, r.lib, id, r.pool.progress[id])
        case Collect(id) => Noted(j, r.lib, r.pool.abort, id)
        case _ => r.lib)
  }

  function Play(j: Job, r: Run, moves: seq<WP.Move>): Option<Run>
    requires WellFormed(j.c.resolver)
  {
    if moves == [] then Some(r)
    else
      var before := Play(j, r, moves[..|moves| - 1]);
      var m := moves[|moves| - 1];
      if before.Some? && Enabled(j, before.value, m) then Some(Next(j, before.value, m)) else None
  }

  /** The pool of a run is a run of the pool. */
  lemma {:induction false} PlaysPool(j: Job, r: Run, moves: seq<WP.Move>)
    requires WellFormed(j.c.resolver) && Play(j, r, moves).Some?
    ensures WP.Play(PlanOf(j), r.pool, moves) == Some(Play(j, r, moves).value.pool)
  {
    if moves != [] {
      PlaysPool(j, r, moves[..|moves| - 1]);
    }
  }

  // ----- the library, told by progress -------------------------------------

  /** The own write has landed. */
  predicate Landed(j: Job, progress: map<DocId, nat>, id: DocId)
    requires WellFormed(j.c.resolver)
  {
    id in progress && Works(j, id) && !j.o.dry && progress[id] == Length(j, id)
  }

  /** Fetched documents are as fetched, but for own writes that landed. */
  ghost predicate DocsShape(j: Job, docs: map<DocId, Doc>, progress: map<DocId, nat>)
    requires WellFormed(j.c.resolver)
  {
    forall id :: id in j.fetched ==>
      id in docs && docs[id] == if Landed(j, progress, id) then OwnDoc(j, id) else j.fetched[id]
  }

  /** Every other document is one re-OCR made, for a document that got that far. */
  ghost predicate NewPairs(j: Job, ids: set<DocId>, progress: map<DocId, nat>, newId: map<DocId, DocId>, origin: map<DocId, DocId>) {
    && ids == j.fetched.Keys + origin.Keys
    && (forall x :: x in origin ==> x !in j.fetched && origin[x] in newId && newId[origin[x]] == x)
    && (forall id :: id in newId ==> id in j.fetched && newId[id] in origin && origin[newId[id]] == id)
    && (forall id :: id in newId <==> id in progress && id in j.fetched && j.s == Reocr && progress[id] >= Asks(j, id) + 2)
  }

  ghost predicate NewDocs(j: Job, docs: map<DocId, Doc>, progress: map<DocId, nat>, newId: map<DocId, DocId>)
    requires WellFormed(j.c.resolver)
  {
    forall id :: id in newId && id in progress && id in j.fetched ==>
      && newId[id] in docs
      && docs[newId[id]] == if progress[id] >= Asks(j, id) + 3 then Carried(j, id, newId[id]) else Made(j, id, newId[id])
  }

  ghost predicate NewShape(j: Job, docs: map<DocId, Doc>, progress: map<DocId, nat>, newId: map<DocId, DocId>, origin: map<DocId, DocId>)
    requires WellFormed(j.c.resolver)
  {
    NewPairs(j, docs.Keys, progress, newId, origin) && NewDocs(j, docs, progress, newId)
  }

  /** Snapshots only accumulate, each of its document as fetched, from its first action. */
  ghost predicate SnapShape(j: Job, before: map<(Stage, DocId), Snap>, snapshots: map<(Stage, DocId), Snap>, progress: map<DocId, nat>) {
    && (forall k :: k in before ==> k in snapshots && snapshots[k] == before[k])
    && (forall k :: k in snapshots && k !in before ==>
          k.0 == j.s && k.1 in j.fetched && k.1 in progress && progress[k.1] > 0
          && snapshots[k] == Snap(Keys(j.s, j.nudged), j.fetched[k.1]))
    && (forall id :: id in progress && progress[id] > 0 ==> (j.s, id) in snapshots)
  }

  /** The library as some progress tells it, and as the pool's own does. */
  ghost predicate Told(j: Job, w: World, r: Lib, progress: map<DocId, nat>)
    requires WellFormed(j.c.resolver)
  {
    && Valid(r.w) && DocsShape(j, r.w.docs, progress) && NewShape(j, r.w.docs, progress, r.newId, r.origin)
    && SnapShape(j, w.snapshots, r.w.snapshots, progress)
  }

  ghost predicate Shape(j: Job, w: World, r: Run)
    requires WellFormed(j.c.resolver)
  {
    Told(j, w, r.lib, r.pool.progress)
  }

  // ----- each action keeps the shape ---------------------------------------

  /** Where an action that is performed stands in its script. */
  lemma ActionStands(j: Job, id: DocId, n: nat)
    requires WellFormed(j.c.resolver) && n < Limit(j, id)
    ensures Works(j, id) && id in j.fetched
    ensures match KindAt(j, id, n)
            case Snapshots => n + 1 < Asks(j, id) + 2 && (!j.o.dry ==> n + 1 < Length(j, id))
            case Calls => n + 1 < Asks(j, id) + 2 && (!j.o.dry ==> n + 1 < Length(j, id))
            case Consumes => j.s == Reocr && n + 1 == Asks(j, id) + 2 && n + 1 < Length(j, id) && !j.o.dry
            case Carries => j.s == Reocr && n + 1 == Asks(j, id) + 3 && n + 1 < Length(j, id) && !j.o.dry
            case OwnWrites => n + 1 == Length(j, id) && !j.o.dry && (j.s == Reocr ==> n + 1 == Asks(j, id) + 4)
  {
  }

  /** Actions that leave the documents alone, and a document's first look at the flag. */
  lemma QuietKeepsDocs(j: Job, docs: map<DocId, Doc>, progress: map<DocId, nat>, id: DocId, n: nat)
    requires WellFormed(j.c.resolver) && DocsShape(j, docs, progress)
    requires id in progress ==> !Landed(j, progress, id)
    requires Works(j, id) && !j.o.dry ==> n < Length(j, id)
    ensures DocsShape(j, docs, progress[id := n])
  {
  }

  /** Writes to a document that was not fetched. */
  lemma NewKeepsDocs(j: Job, docs: map<DocId, Doc>, progress: map<DocId, nat>, id: DocId, n: nat, x: DocId, d: Doc)
    requires WellFormed(j.c.resolver) && DocsShape(j, docs, progress) && x !in j.fetched
    requires id in progress && !Landed(j, progress, id) && n < Length(j, id)
    ensures DocsShape(j, docs[x := d], progress[id := n])
  {
  }

  lemma OwnKeepsDocs(j: Job, docs: map<DocId, Doc>, progress: map<DocId, nat>, id: DocId)
    requires WellFormed(j.c.resolver) && DocsShape(j, docs, progress) && Works(j, id) && !j.o.dry
    ensures DocsShape(j, docs[id := OwnDoc(j, id)], progress[id := Length(j, id)])
  {
  }

  lemma QuietKeepsNew(j: Job, docs: map<DocId, Doc>, progress: map<DocId, nat>, newId: map<DocId, DocId>, origin: map<DocId, DocId>,
                      id: DocId, n: nat)
    requires WellFormed(j.c.resolver) && NewShape(j, docs, progress, newId, origin) && n < Asks(j, id) + 2
    requires id in progress ==> progress[id] < Asks(j, id) + 2
    ensures NewShape(j, docs, progress[id := n], newId, origin)
  {
  }

  lemma ConsumeKeepsPairs(j: Job, ids: set<DocId>, progress: map<DocId, nat>, newId: map<DocId, DocId>, origin: map<DocId, DocId>,
                          id: DocId, x: DocId)
    requires NewPairs(j, ids, progress, newId, origin) && x !in ids && j.s == Reocr && id in j.fetched
    requires id in progress && progress[id] < Asks(j, id) + 2
    ensures NewPairs(j, ids + {x}, progress[id := Asks(j, id) + 2], newId[id := x], origin[x := id])
  {
    assert id !in newId;
  }

  lemma ConsumeKeepsNewDocs(j: Job, docs: map<DocId, Doc>, progress: map<DocId, nat>, newId: map<DocId, DocId>,
                            id: DocId, x: DocId)
    requires WellFormed(j.c.resolver) && NewDocs(j, docs, progress, newId) && x !in docs
    ensures NewDocs(j, docs[x := Made(j, id, x)], progress[id := Asks(j, id) + 2], newId[id := x])
  {
  }

  lemma CarryKeepsNew(j: Job, docs: map<DocId, Doc>, progress: map<DocId, nat>, newId: map<DocId, DocId>, origin: map<DocId, DocId>, id: DocId)
    requires WellFormed(j.c.resolver) && NewShape(j, docs, progress, newId, origin) && j.s == Reocr && id in j.fetched
    requires id in progress && progress[id] == Asks(j, id) + 2
    ensures id in newId && newId[id] !in j.fetched
    ensures NewShape(j, docs[newId[id] := Carried(j, id, newId[id])], progress[id := Asks(j, id) + 3], newId, origin)
  {
    var x := newId[id];
    forall other | other in newId && other != id
      ensures newId[other] != x
    {
    }
    assert docs[x := Carried(j, id, x)].Keys == docs.Keys;
    assert NewPairs(j, docs.Keys, progress[id := Asks(j, id) + 3], newId, origin);
  }

  lemma OwnKeepsNew(j: Job, docs: map<DocId, Doc>, progress: map<DocId, nat>, newId: map<DocId, DocId>, origin: map<DocId, DocId>,
                    id: DocId, n: nat)
    requires WellFormed(j.c.resolver) && NewShape(j, docs, progress, newId, origin) && id in j.fetched && id in docs
    requires id in progress && n == progress[id] + 1 && (j.s == Reocr ==> progress[id] >= Asks(j, id) + 3)
    ensures NewShape(j, docs[id := OwnDoc(j, id)], progress[id := n], newId, origin)
  {
    assert docs[id := OwnDoc(j, id)].Keys == docs.Keys;
    forall other | other in newId
      ensures newId[other] != id
    {
    }
    assert NewPairs(j, docs.Keys, progress[id := n], newId, origin);
  }

  lemma SnapKeepsSnap(j: Job, before: map<(Stage, DocId), Snap>, snapshots: map<(Stage, DocId), Snap>, progress: map<DocId, nat>, id: DocId)
    requires SnapShape(j, before, snapshots, progress) && id in j.fetched && id in progress
    ensures SnapShape(j, before,
                      if (j.s, id) in snapshots then snapshots
                      else snapshots[(j.s, id) := Snap(Keys(j.s, j.nudged), j.fetched[id])],
                      progress[id := 1])
  {
  }

  lemma LaterKeepsSnap(j: Job, before: map<(Stage, DocId), Snap>, snapshots: map<(Stage, DocId), Snap>, progress: map<DocId, nat>,
                       id: DocId, n: nat)
    requires SnapShape(j, before, snapshots, progress)
    requires id in progress && progress[id] == n && n > 0
    ensures SnapShape(j, before, snapshots, progress[id := n + 1])
  {
  }

  lemma CheckKeepsSnap(j: Job, before: map<(Stage, DocId), Snap>, snapshots: map<(Stage, DocId), Snap>, progress: map<DocId, nat>, id: DocId)
    requires SnapShape(j, before, snapshots, progress) && id !in progress
    ensures SnapShape(j, before, snapshots, progress[id := 0])
  {
  }

  // ----- every move keeps the shape ----------------------------------------

  lemma FreshId(w: World)
    requires Valid(w)
    ensures w.nextId !in w.docs && w.nextId !in w.listing
  {
  }

  lemma ConsumeKeepsValid(w: World, d: Doc)
    requires Valid(w)
    ensures Valid(Perform(w, Consume(d)))
  {
    FreshId(w);
    assert (w.listing + [w.nextId])[..|w.listing|] == w.listing;
  }

  lemma PatchKeepsValid(w: World, d: Doc)
    requires Valid(w) && d.id in w.docs
    ensures Valid(Perform(w, Patch(d)))
  {
  }

  lemma ActKeepsValid(j: Job, r: Lib, id: DocId, n: nat)
    requires WellFormed(j.c.resolver) && Valid(r.w) && id in j.fetched && id in r.w.docs && j.fetched[id].id == id
    requires KindAt(j, id, n) == Carries ==> id in r.newId && r.newId[id] in r.w.docs
    ensures Valid(Acted(j, r, id, n).w)
  {
    match KindAt(j, id, n)
    case Snapshots =>
    case Calls =>
    case Consumes => ConsumeKeepsValid(r.w, j.fates(j.s, id).work.consumed);
    case Carries => PatchKeepsValid(r.w, Carried(j, id, r.newId[id]));
    case OwnWrites => PatchKeepsValid(r.w, OwnDoc(j, id));
  }

  /** What an action changes in the library, kind by kind. */
  lemma QuietActed(j: Job, r: Lib, id: DocId, n: nat)
    requires WellFormed(j.c.resolver) && id in j.fetched && (KindAt(j, id, n) == Snapshots || KindAt(j, id, n) == Calls)
    ensures var t := Acted(j, r, id, n); t.w.docs == r.w.docs && t.newId == r.newId && t.origin == r.origin
  {
  }

  lemma ConsumeActed(j: Job, r: Lib, id: DocId, n: nat)
    requires WellFormed(j.c.resolver) && id in j.fetched && KindAt(j, id, n) == Consumes
    ensures var t, x := Acted(j, r, id, n), r.w.nextId;
            t.w.docs == r.w.docs[x := Made(j, id, x)] && t.newId == r.newId[id := x] && t.origin == r.origin[x := id]
  {
  }

  lemma CarryActed(j: Job, r: Lib, id: DocId, n: nat)
    requires WellFormed(j.c.resolver) && id in j.fetched && KindAt(j, id, n) == Carries && id in r.newId
    ensures var t, x := Acted(j, r, id, n), r.newId[id];
            t.w.docs == r.w.docs[x := Carried(j, id, x)] && t.newId == r.newId && t.origin == r.origin
  {
  }

  lemma OwnActed(j: Job, r: Lib, id: DocId, n: nat)
    requires WellFormed(j.c.resolver) && id in j.fetched && j.fetched[id].id == id && KindAt(j, id, n) == OwnWrites
    ensures var t := Acted(j, r, id, n);
            t.w.docs == r.w.docs[id := OwnDoc(j, id)] && t.newId == r.newId && t.origin == r.origin
  {
  }

  /** The documents and the pairs after each kind of action. */
  ghost predicate Fits(j: Job, docs: map<DocId, Doc>, progress: map<DocId, nat>, newId: map<DocId, DocId>, origin: map<DocId, DocId>)
    requires WellFormed(j.c.resolver)
  {
    DocsShape(j, docs, progress) && NewShape(j, docs, progress, newId, origin)
  }

  lemma QuietFits(j: Job, docs: map<DocId, Doc>, progress: map<DocId, nat>, newId: map<DocId, DocId>, origin: map<DocId, DocId>,
                  id: DocId, n: nat)
    requires WellFormed(j.c.resolver) && Fits(j, docs, progress, newId, origin) && id in progress && progress[id] == n
    requires n + 1 < Asks(j, id) + 2 && (!j.o.dry ==> n + 1 < Length(j, id))
    ensures Fits(j, docs, progress[id := n + 1], newId, origin)
  {
    QuietKeepsDocs(j, docs, progress, id, n + 1);
    QuietKeepsNew(j, docs, progress, newId, origin, id, n + 1);
  }

  lemma ConsumeFits(j: Job, docs: map<DocId, Doc>, progress: map<DocId, nat>, newId: map<DocId, DocId>, origin: map<DocId, DocId>,
                    id: DocId, n: nat, x: DocId)
    requires WellFormed(j.c.resolver) && Fits(j, docs, progress, newId, origin) && id in progress && progress[id] == n
    requires j.s == Reocr && n + 1 == Asks(j, id) + 2 && n + 1 < Length(j, id) && id in j.fetched && x !in docs
    ensures Fits(j, docs[x := Made(j, id, x)], progress[id := n + 1], newId[id := x], origin[x := id])
  {
    assert x !in j.fetched;
    NewKeepsDocs(j, docs, progress, id, n + 1, x, Made(j, id, x));
    ConsumeKeepsPairs(j, docs.Keys, progress, newId, origin, id, x);
    ConsumeKeepsNewDocs(j, docs, progress, newId, id, x);
    assert docs[x := Made(j, id, x)].Keys == docs.Keys + {x};
  }

  lemma CarryFits(j: Job, docs: map<DocId, Doc>, progress: map<DocId, nat>, newId: map<DocId, DocId>, origin: map<DocId, DocId>,
                  id: DocId, n: nat)
    requires WellFormed(j.c.resolver) && Fits(j, docs, progress, newId, origin) && id in progress && progress[id] == n
    requires j.s == Reocr && n + 1 == Asks(j, id) + 3 && n + 1 < Length(j, id) && id in j.fetched
    ensures id in newId && newId[id] in docs
    ensures Fits(j, docs[newId[id] := Carried(j, id, newId[id])], progress[id := n + 1], newId, origin)
  {
    CarryKeepsNew(j, docs, progress, newId, origin, id);
    AlsoKeepsDocs(j, docs, progress, newId, origin, id, n, newId[id], Carried(j, id, newId[id]));
  }

  /** A document that was not fetched is written, and the new documents' part is known. */
  lemma AlsoKeepsDocs(j: Job, docs: map<DocId, Doc>, progress: map<DocId, nat>, newId: map<DocId, DocId>, origin: map<DocId, DocId>,
                      id: DocId, n: nat, x: DocId, d: Doc)
    requires WellFormed(j.c.resolver) && DocsShape(j, docs, progress) && x !in j.fetched
    requires id in progress && progress[id] == n && n + 1 < Length(j, id)
    requires NewShape(j, docs[x := d], progress[id := n + 1], newId, origin)
    ensures Fits(j, docs[x := d], progress[id := n + 1], newId, origin)
  {
    NewKeepsDocs(j, docs, progress, id, n + 1, x, d);
  }

  lemma OwnFits(j: Job, docs: map<DocId, Doc>, progress: map<DocId, nat>, newId: map<DocId, DocId>, origin: map<DocId, DocId>,
                id: DocId, n: nat)
    requires WellFormed(j.c.resolver) && Fits(j, docs, progress, newId, origin) && id in progress && progress[id] == n
    requires n + 1 == Length(j, id) && !j.o.dry && (j.s == Reocr ==> n + 1 == Asks(j, id) + 4) && Works(j, id)
    ensures Fits(j, docs[id := OwnDoc(j, id)], progress[id := n + 1], newId, origin)
  {
    assert id in docs;
    OwnKeepsDocs(j, docs, progress, id);
    AlsoKeepsNew(j, docs, progress, newId, origin, id, n + 1);
  }

  /** A fetched document is written for itself, and the fetched ones' part is known. */
  lemma AlsoKeepsNew(j: Job, docs: map<DocId, Doc>, progress: map<DocId, nat>, newId: map<DocId, DocId>, origin: map<DocId, DocId>,
                     id: DocId, n: nat)
    requires WellFormed(j.c.resolver) && NewShape(j, docs, progress, newId, origin) && id in j.fetched && id in docs
    requires id in progress && n == progress[id] + 1 && (j.s == Reocr ==> progress[id] >= Asks(j, id) + 3)
    requires DocsShape(j, docs[id := OwnDoc(j, id)], progress[id := n])
    ensures Fits(j, docs[id := OwnDoc(j, id)], progress[id := n], newId, origin)
  {
    OwnKeepsNew(j, docs, progress, newId, origin, id, n);
  }

  lemma ActFits(j: Job, r: Lib, progress: map<DocId, nat>, id: DocId, n: nat)
    requires WellFormed(j.c.resolver) && Fits(j, r.w.docs, progress, r.newId, r.origin)
    requires id in progress && progress[id] == n < Limit(j, id)
    requires id in j.fetched && j.fetched[id].id == id && r.w.nextId !in r.w.docs
    ensures var t := Acted(j, r, id, n); Fits(j, t.w.docs, progress[id := n + 1], t.newId, t.origin)
    ensures KindAt(j, id, n) == Carries ==> id in r.newId && r.newId[id] in r.w.docs
  {
    ActionStands(j, id, n);
    match KindAt(j, id, n)
    case Snapshots =>
      QuietFits(j, r.w.docs, progress, r.newId, r.origin, id, n);
      QuietActed(j, r, id, n);
    case Calls =>
      QuietFits(j, r.w.docs, progress, r.newId, r.origin, id, n);
      QuietActed(j, r, id, n);
    case Consumes =>
      ConsumeFits(j, r.w.docs, progress, r.newId, r.origin, id, n, r.w.nextId);
      ConsumeActed(j, r, id, n);
    case Carries =>
      CarryFits(j, r.w.docs, progress, r.newId, r.origin, id, n);
      CarryActed(j, r, id, n);
    case OwnWrites =>
      OwnFits(j, r.w.docs, progress, r.newId, r.origin, id, n);
      OwnActed(j, r, id, n);
  }

  lemma ActedSnapshots(j: Job, r: Lib, id: DocId, n: nat)
    requires WellFormed(j.c.resolver) && id in j.fetched && j.fetched[id].id == id
    ensures Acted(j, r, id, n).w.snapshots
            == if n > 0 || (j.s, id) in r.w.snapshots then r.w.snapshots
               else r.w.snapshots[(j.s, id) := Snap(Keys(j.s, j.nudged), j.fetched[id])]
  {
  }

  lemma ActKeepsSnap(j: Job, before: map<(Stage, DocId), Snap>, r: Lib, progress: map<DocId, nat>, id: DocId, n: nat)
    requires WellFormed(j.c.resolver) && id in j.fetched && j.fetched[id].id == id
    requires SnapShape(j, before, r.w.snapshots, progress) && id in progress && progress[id] == n
    ensures SnapShape(j, before, Acted(j, r, id, n).w.snapshots, progress[id := n + 1])
  {
    ActedSnapshots(j, r, id, n);
    if n == 0 {
      SnapKeepsSnap(j, before, r.w.snapshots, progress, id);
    } else {
      LaterKeepsSnap(j, before, r.w.snapshots, progress, id, n);
    }
  }

  lemma ActKeepsTold(j: Job, w: World, r: Lib, progress: map<DocId, nat>, id: DocId, n: nat)
    requires WellFormed(j.c.resolver) && id in j.fetched && j.fetched[id].id == id && Told(j, w, r, progress)
    requires id in progress && progress[id] == n < Limit(j, id)
    ensures Told(j, w, Acted(j, r, id, n), progress[id := n + 1])
  {
    FreshId(r.w);
    assert id in r.w.docs;
    ActFits(j, r, progress, id, n);
    ActKeepsValid(j, r, id, n);
    ActKeepsSnap(j, w.snapshots, r, progress, id, n);
  }

  lemma CheckKeepsTold(j: Job, w: World, r: Lib, progress: map<DocId, nat>, id: DocId)
    requires WellFormed(j.c.resolver) && Told(j, w, r, progress) && id !in progress
    ensures Told(j, w, r, progress[id := 0])
  {
    QuietKeepsDocs(j, r.w.docs, progress, id, 0);
    QuietKeepsNew(j, r.w.docs, progress, r.newId, r.origin, id, 0);
    CheckKeepsSnap(j, w.snapshots, r.w.snapshots, progress, id);
  }

  lemma FetchedIds(j: Job, w: World, id: DocId)
    requires JobOk(j, w) && id in j.fetched
    ensures j.fetched[id].id == id
  {
  }

  lemma ActMoves(j: Job, w: World, r: Run, id: DocId)
    requires WellFormed(j.c.resolver) && id in j.fetched && j.fetched[id].id == id
    requires Told(j, w, r.lib, r.pool.progress) && Enabled(j, r, WP.Act(id))
    ensures Shape(j, w, Next(j, r, WP.Act(id)))
  {
    ActKeepsTold(j, w, r.lib, r.pool.progress, id, r.pool.progress[id]);
  }

  lemma NotedIsTold(j: Job, w: World, l: Lib, abort: bool, id: DocId, progress: map<DocId, nat>)
    requires WellFormed(j.c.resolver) && Told(j, w, l, progress)
    ensures Told(j, w, Noted(j, l, abort, id), progress)
  {
  }

  lemma CheckMoves(j: Job, w: World, r: Run, id: DocId)
    requires WellFormed(j.c.resolver) && Told(j, w, r.lib, r.pool.progress) && Enabled(j, r, WP.Check(id)) && id !in r.pool.progress
    ensures Shape(j, w, Next(j, r, WP.Check(id)))
  {
    CheckKeepsTold(j, w, r.lib, r.pool.progress, id);
  }

  lemma TookIsUnmarked(plan: WP.Plan, p: WP.Pool, id: DocId)
    requires WP.Tidy(plan, p) && id in p.took
    ensures id !in p.progress
  {
  }

  lemma OthersMove(j: Job, w: World, r: Run, m: WP.Move)
    requires WellFormed(j.c.resolver) && Told(j, w, r.lib, r.pool.progress) && Enabled(j, r, m) && (m.Take? || m.End? || m.Collect?)
    ensures Shape(j, w, Next(j, r, m))
  {
    if m.Collect? {
      NotedIsTold(j, w, r.lib, r.pool.abort, m.id, r.pool.progress);
    }
  }

  lemma AnyMove(j: Job, w: World, r: Run, m: WP.Move)
    requires WellFormed(j.c.resolver) && Shape(j, w, r) && Enabled(j, r, m)
    requires m.Act? ==> j.fetched[m.id].id == m.id
    requires m.Check? ==> m.id !in r.pool.progress
    ensures Shape(j, w, Next(j, r, m))
  {
    if m.Act? {
      ActMoves(j, w, r, m.id);
    } else if m.Check? {
      CheckMoves(j, w, r, m.id);
    } else {
      OthersMove(j, w, r, m);
    }
  }

  lemma MoveKeepsShape(j: Job, w: World, r: Run, m: WP.Move)
    requires JobOk(j, w) && Shape(j, w, r) && WP.Tidy(PlanOf(j), r.pool) && Enabled(j, r, m)
    ensures Shape(j, w, Next(j, r, m))
  {
    if m.Act? {
      FetchedIds(j, w, m.id);
    }
    if m.Check? {
      TookIsUnmarked(PlanOf(j), r.pool, m.id);
    }
    AnyMove(j, w, r, m);
  }

  lemma StartHasShape(j: Job, w: World)
    requires JobOk(j, w)
    ensures Shape(j, w, Start(j, w))
  {
  }

  /** Wherever a schedule of a stage stands, even one cut short by a crash, the library has
      the shape its progress says. */
  lemma {:induction false} ReachableShape(j: Job, w: World, moves: seq<WP.Move>)
    requires JobOk(j, w) && Play(j, Start(j, w), moves).Some?
    ensures var r := Play(j, Start(j, w), moves).value; Shape(j, w, r) && WP.Tidy(PlanOf(j), r.pool)
  {
    PlaysPool(j, Start(j, w), moves);
    WP.ReachableIsTidy(PlanOf(j), moves);
    if moves == [] {
      StartHasShape(j, w);
    } else {
      ReachableShape(j, w, moves[..|moves| - 1]);
      MoveKeepsShape(j, w, Play(j, Start(j, w), moves[..|moves| - 1]).value, moves[|moves| - 1]);
    }
  }

  // ----- the provider log, dry runs, the run's flag ------------------------

  function Tagged(s: Stage, ids: seq<DocId>): seq<(Stage, DocId)> {
    if ids == [] then [] else Tagged(s, ids[..|ids| - 1]) + [(s, ids[|ids| - 1])]
  }

  lemma TaggedAppend(s: Stage, ids: seq<DocId>, id: DocId)
    ensures Tagged(s, ids + [id]) == Tagged(s, ids) + [(s, id)]
  {
    assert (ids + [id])[..|ids|] == ids;
  }

  lemma NextCalls(j: Job, r: Run, m: WP.Move)
    requires WellFormed(j.c.resolver) && Enabled(j, r, m)
    ensures Next(j, r, m).lib.w.calls == r.lib.w.calls + if PC.IsCall(PlanOf(j), r.pool, m) then [(j.s, m.id)] else []
  {
  }

  /** The provider log of a schedule is the one its pool keeps. */
  lemma {:induction false} CallsAreLogged(j: Job, r: Run, moves: seq<WP.Move>)
    requires WellFormed(j.c.resolver) && Play(j, r, moves).Some?
    ensures WP.Play(PlanOf(j), r.pool, moves).Some?
    ensures Play(j, r, moves).value.lib.w.calls == r.lib.w.calls + Tagged(j.s, PC.Calls(PlanOf(j), r.pool, moves))
  {
    PlaysPool(j, r, moves);
    if moves != [] {
      var front, m := moves[..|moves| - 1], moves[|moves| - 1];
      CallsAreLogged(j, r, front);
      PlaysPool(j, r, front);
      var mid := Play(j, r, front).value;
      NextCalls(j, mid, m);
      LogGrows(j.s, r.lib.w.calls, PC.Calls(PlanOf(j), r.pool, front), PC.IsCall(PlanOf(j), mid.pool, m), if m.Take? then 0 else m.id);
    }
  }

  lemma LogGrows(s: Stage, before: seq<(Stage, DocId)>, ids: seq<DocId>, made: bool, id: DocId)
    ensures before + Tagged(s, ids) + (if made then [(s, id)] else [])
            == before + Tagged(s, ids + if made then [id] else [])
  {
    if made {
      TaggedAppend(s, ids, id);
      assert before + Tagged(s, ids) + [(s, id)] == before + (Tagged(s, ids) + [(s, id)]);
    } else {
      assert ids + [] == ids;
    }
  }

  /** A document's calls, out of a full script, are its work's asks. */
  lemma {:induction false} CallsInScript(j: Job, id: DocId, n: nat)
    requires WellFormed(j.c.resolver)
    ensures PC.CallsIn(PlanOf(j), id, n) == if n <= 1 then 0 else if n - 1 <= Asks(j, id) then n - 1 else Asks(j, id)
  {
    if n > 0 {
      CallsInScript(j, id, n - 1);
    }
  }

  /** Over every schedule, a document is asked about at most as often as its work says. */
  lemma {:induction false} AskedAtMost(j: Job, w: World, moves: seq<WP.Move>, id: DocId)
    requires JobOk(j, w) && Play(j, Start(j, w), moves).Some?
    ensures var plan := PlanOf(j);
            WP.Play(plan, WP.Start(plan), moves).Some? && PC.Times(PC.Calls(plan, WP.Start(plan), moves), id) <= Asks(j, id)
  {
    PlaysPool(j, Start(j, w), moves);
    PC.CallsPerDocument(PlanOf(j), moves, id);
    CallsInScript(j, id, Limit(j, id));
  }

  /** The document at `f` fails fatally; another, at `k`, gets past its snapshot to a call; with
      one worker, a later one. */
  predicate LatePair(j: Job, f: nat, k: nat)
    requires WellFormed(j.c.resolver)
  {
    && f < |j.queue| && k < |j.queue| && f != k && (Workers(j) == 1 ==> f < k)
    && Fatal(j, j.queue[f]) && Asks(j, j.queue[k]) > 0 && Limit(j, j.queue[k]) > 1
  }

  /** Exactly then some schedule of the stage asks after a fatal failure. */
  lemma {:induction false} StageAsksLateIff(j: Job, w: World)
    requires JobOk(j, w)
    ensures PC.CanCallLate(PlanOf(j)) <==> exists f: nat, k: nat :: LatePair(j, f, k)
  {
    var plan := PlanOf(j);
    PC.AsksAfterFatalIff(plan);
    forall f: nat, k: nat | k < |j.queue|
      ensures PC.Pair(plan, f, k) <==> LatePair(j, f, k)
    {
      CallsInScript(j, j.queue[k], Limit(j, j.queue[k]));
    }
    if PC.Endangered(plan) {
      var f: nat, k: nat :| PC.Pair(plan, f, k);
      assert LatePair(j, f, k);
    }
    if f: nat, k: nat :| LatePair(j, f, k) {
      assert PC.Pair(plan, f, k);
    }
  }

  /** Once a fatal outcome was collected, a stage with so many workers asks about at most so many
      more documents, on every schedule. */
  lemma {:induction false} StageAsksFewMore(j: Job, w: World, moves: seq<WP.Move>, more: seq<WP.Move>)
    requires JobOk(j, w) && Play(j, Start(j, w), moves).Some? && FirstFatal(j, moves).Some?
    requires WP.Play(PlanOf(j), Play(j, Start(j, w), moves).value.pool, more).Some?
    ensures |WP.Members(PC.Calls(PlanOf(j), Play(j, Start(j, w), moves).value.pool, more))| <= if j.o.workers <= 1 then 1 else j.o.workers
  {
    PlaysPool(j, Start(j, w), moves);
    FlagFollowsFailure(j, w, moves);
    PC.AtMostOnePerWorker(PlanOf(j), moves, more);
  }

  /** A dry stage sends no write. */
  lemma {:induction false} DryRun(j: Job, w: World, moves: seq<WP.Move>)
    requires JobOk(j, w) && j.o.dry && Play(j, Start(j, w), moves).Some?
    ensures var v := Play(j, Start(j, w), moves).value.lib.w; v.docs == w.docs && v.listing == w.listing && v.writes == w.writes
  {
    if moves != [] {
      var front, m := moves[..|moves| - 1], moves[|moves| - 1];
      DryRun(j, w, front);
      var r := Play(j, Start(j, w), front).value;
      if m.Act? {
        ActionStands(j, m.id, r.pool.progress[m.id]);
      }
    }
  }

  lemma IdleMove(j: Job, r: Run, m: WP.Move)
    requires WellFormed(j.c.resolver) && Enabled(j, r, m)
    requires m.Act? || m.Collect? ==> !Works(j, m.id)
    ensures Next(j, r, m).lib.w == r.lib.w
  {
  }

  /** Nothing to do for any queued document: nothing happens, in any schedule. */
  lemma {:induction false} IdleRun(j: Job, w: World, moves: seq<WP.Move>)
    requires JobOk(j, w) && Play(j, Start(j, w), moves).Some?
    requires forall id :: id in j.queue ==> !Works(j, id)
    ensures Play(j, Start(j, w), moves).value.lib.w == w
  {
    if moves != [] {
      var front, m := moves[..|moves| - 1], moves[|moves| - 1];
      IdleRun(j, w, front);
      PlaysPool(j, Start(j, w), front);
      WP.ReachableIsTidy(PlanOf(j), front);
      var r := Play(j, Start(j, w), front).value;
      if m.Act? || m.Collect? {
        HeldIsQueued(j, r, m.id);
      }
      IdleMove(j, r, m);
    }
  }

  lemma HeldIsQueued(j: Job, r: Run, id: DocId)
    requires WellFormed(j.c.resolver) && WP.Tidy(PlanOf(j), r.pool)
    ensures id in r.pool.busy || id in r.pool.over || id in r.pool.progress ==> id in j.queue
  {
    if id in r.pool.busy || id in r.pool.over || id in r.pool.progress {
      assert id in WP.Members(j.queue[..r.pool.taken]);
    }
  }

  /** The first fatal outcome the collector sees. */
  function FirstFatal(j: Job, moves: seq<WP.Move>): Option<DocId>
    requires WellFormed(j.c.resolver)
  {
    if moves == [] then None
    else
      var before := FirstFatal(j, moves[..|moves| - 1]);
      var m := moves[|moves| - 1];
      if before.None? && m.Collect? && Fatal(j, m.id) then Some(m.id) else before
  }

  lemma {:induction false} FirstFatalIsFatal(j: Job, moves: seq<WP.Move>)
    requires WellFormed(j.c.resolver)
    ensures FirstFatal(j, moves).Some? ==> Fatal(j, FirstFatal(j, moves).value)
  {
    if moves != [] {
      FirstFatalIsFatal(j, moves[..|moves| - 1]);
    }
  }

  predicate StopsRun(j: Job, first: Option<DocId>)
    requires WellFormed(j.c.resolver)
  {
    first.Some? && Fatal(j, first.value) && j.fates(j.s, first.value).failure == FailsRun
  }

  lemma FlagMove(j: Job, r: Run, m: WP.Move)
    requires WellFormed(j.c.resolver) && Enabled(j, r, m)
    ensures var t := Next(j, r, m);
            && (t.pool.abort <==> r.pool.abort || (m.Collect? && Fatal(j, m.id)))
            && t.lib.w.latched == (r.lib.w.latched || (!r.pool.abort && m.Collect? && StopsRun(j, Some(m.id))))
  {
  }

  /** On any schedule: the stage's flag is up exactly if a fatal outcome was collected, and
      the run's exactly if it was before or the first one collected is account-level. */
  lemma {:induction false} FlagFollowsFailure(j: Job, w: World, moves: seq<WP.Move>)
    requires JobOk(j, w) && Play(j, Start(j, w), moves).Some?
    ensures var r, first := Play(j, Start(j, w), moves).value, FirstFatal(j, moves);
            && (r.pool.abort <==> first.Some?)
            && (r.lib.w.latched <==> w.latched || StopsRun(j, first))
  {
    if moves != [] {
      var front, m := moves[..|moves| - 1], moves[|moves| - 1];
      FlagFollowsFailure(j, w, front);
      FlagMove(j, Play(j, Start(j, w), front).value, m);
    }
  }

  /** Once a stage is finished a fatal outcome was collected exactly if a queued document's
      handling ends in one: aborting stops the others, not the one that fails. */
  lemma {:induction false} FinishedMeetsFatal(j: Job, w: World, moves: seq<WP.Move>)
    requires JobOk(j, w) && Play(j, Start(j, w), moves).Some?
    requires WP.Finished(PlanOf(j), Play(j, Start(j, w), moves).value.pool)
    ensures FirstFatal(j, moves).Some? <==> exists id :: id in j.queue && Fatal(j, id)
  {
    var p := Play(j, Start(j, w), moves).value.pool;
    FlagFollowsFailure(j, w, moves);
    PlaysPool(j, Start(j, w), moves);
    WP.ReachableIsTidy(PlanOf(j), moves);
    WP.FinishedAbortsIff(PlanOf(j), p);
    assert forall id :: PlanOf(j).fatal(id) == Fatal(j, id);
  }

  /** A finished stage in which nothing fails fatally has handled every queued document, as
      far as its fate lets it. */
  lemma FinishedHandlesAll(j: Job, w: World, r: Run)
    requires JobOk(j, w) && WP.Tidy(PlanOf(j), r.pool) && WP.Finished(PlanOf(j), r.pool)
    requires forall id :: id in j.queue ==> !Fatal(j, id)
    ensures !r.pool.abort
    ensures forall id :: id in j.queue ==> id in r.pool.progress && r.pool.progress[id] == Limit(j, id)
  {
    forall id | id in r.pool.collected
      ensures !PlanOf(j).fatal(id)
    {
      HeldIsQueued(j, r, id);
    }
    assert j.queue[..|j.queue|] == j.queue;
    forall id | id in j.queue
      ensures id in r.pool.over
    {
      assert id in WP.Members(j.queue[..r.pool.taken]);
    }
  }
}
