/** Rollback: each stage records a document once, before its first write to it, and
    restoring that record undoes everything the stage ever wrote to the document. */
module Snapshots {
  import opened Messages
  import opened Documents
  import opened SweepTick
  import opened StageRun
  import opened SweepTheorems
  import WP = WorkerPool

  /** The restorable fields a snapshot holds, put back; the text is not restorable. */
  function RestoreDoc(d: Doc, snap: Snap): Doc {
    d.(title := if Title in snap.keys then snap.doc.title else d.title,
       correspondent := if Correspondent in snap.keys then snap.doc.correspondent else d.correspondent,
       documentType := if DocumentType in snap.keys then snap.doc.documentType else d.documentType,
       tags := if Tags in snap.keys then snap.doc.tags else d.tags,
       created := if Created in snap.keys then snap.doc.created else d.created,
       serial := if Serial in snap.keys then snap.doc.serial else d.serial,
       fields := if CustomFields in snap.keys then snap.doc.fields else d.fields)
  }

  /** Restoring without a snapshot is an error, and then nothing is sent. */
  function Restore(w: World, s: Stage, id: DocId): Option<World>
    requires id in w.docs
  {
    if (s, id) !in w.snapshots then None
    else Some(w.(docs := w.docs[id := RestoreDoc(w.docs[id], w.snapshots[(s, id)])], writes := w.writes + [id]))
  }

  // ----- written once, before any write ------------------------------------

  /** Snapshots only accumulate: none is replaced or dropped. */
  ghost predicate SnapshotsKept(w: World, v: World) {
    forall k :: k in w.snapshots ==> k in v.snapshots && v.snapshots[k] == w.snapshots[k]
  }

  /** Stage `s` worked on `w`: new snapshots are of the documents as `w` has them, and
      no document changed without one. */
  ghost predicate Recorded(s: Stage, keys: set<Key>, w: World, v: World) {
    && (forall k :: k in v.snapshots && k !in w.snapshots ==>
          k.0 == s && k.1 in w.docs && v.snapshots[k] == Snap(keys, w.docs[k.1]))
    && (forall id :: id in w.docs ==>
          id in v.docs && (v.docs[id] == w.docs[id] || (s, id) in v.snapshots))
  }

  lemma RunRecords(j: Job, w: World, r: Run)
    requires JobOk(j, w) && Shape(j, w, r)
    ensures SnapshotsKept(w, r.lib.w) && Recorded(j.s, Keys(j.s, j.nudged), w, r.lib.w)
  {
    forall id | id in w.docs
      ensures id in r.lib.w.docs && (r.lib.w.docs[id] == w.docs[id] || (j.s, id) in r.lib.w.snapshots)
    {
      if Landed(j, r.pool.progress, id) {
        assert r.pool.progress[id] > 0;
      }
    }
  }

  /** One pass, on any schedule, forced or not, even cut short. */
  lemma {:induction false} PassRecords(c: Config, w: World, p: Pass)
    requires WellFormed(c.resolver) && Valid(w) && AfterPass(c, w, p).Some?
    ensures var v := AfterPass(c, w, p).value;
            Valid(v) && SnapshotsKept(w, v) && Recorded(p.s, Keys(p.s, p.nudge.Some?), w, v)
  {
    if Runs(w, p) {
      var j := JobFor(c, w, p);
      PassIsOk(c, w, p);
      ReachableShape(j, w, p.moves);
      RunRecords(j, w, Play(j, Start(j, w), p.moves).value);
    }
  }

  lemma {:induction false} EventRecords(c: Config, w: World, e: Event)
    requires WellFormed(c.resolver) && Valid(w) && After(c, w, [e]).Some?
    ensures var v := After(c, w, [e]).value; Valid(v) && SnapshotsKept(w, v)
  {
    AfterOne(c, w, e);
    if e.Passes? {
      PassRecords(c, w, e.pass);
    }
  }

  lemma {:induction false} LastEvent(c: Config, w: World, events: seq<Event>)
    requires WellFormed(c.resolver) && events != [] && After(c, w, events).Some?
    ensures After(c, w, events[..|events| - 1]).Some?
    ensures After(c, w, events) == After(c, After(c, w, events[..|events| - 1]).value, [events[|events| - 1]])
  {
    AfterOne(c, After(c, w, events[..|events| - 1]).value, events[|events| - 1]);
  }

  /** With retention off, a snapshot stays as it is forever: over any sequence of ticks and
      nudges, forced or not, whatever happens in them. */
  lemma {:induction false} SnapshotsAreForever(c: Config, w: World, events: seq<Event>)
    requires WellFormed(c.resolver) && Valid(w) && After(c, w, events).Some?
    ensures Valid(After(c, w, events).value) && SnapshotsKept(w, After(c, w, events).value)
  {
    if events != [] {
      var front := events[..|events| - 1];
      LastEvent(c, w, events);
      SnapshotsAreForever(c, w, front);
      EventRecords(c, After(c, w, front).value, events[|events| - 1]);
    }
  }

  // ----- restoring, whatever happened --------------------------------------

  /** `d` and `e` agree on every field stage `s` writes. */
  predicate SameWritten(s: Stage, d: Doc, e: Doc) {
    match s
    case Triage => d.fields == e.fields
    case Reocr => d.tags == e.tags && d.fields == e.fields
    case Metadata =>
      && d.title == e.title && d.correspondent == e.correspondent && d.documentType == e.documentType
      && d.tags == e.tags && d.fields == e.fields
  }

  /** `d` and `e` differ at most in what stage `s` writes to a document. */
  predicate SameButFor(s: Stage, d: Doc, e: Doc) {
    match s
    case Triage => d == e.(fields := d.fields)
    case Reocr => d == e.(tags := d.tags, fields := d.fields)
    case Metadata =>
      d == e.(title := d.title, correspondent := d.correspondent, documentType := d.documentType,
              tags := d.tags, fields := d.fields)
  }

  /** Every field a stage writes is one its snapshot holds and `restore` puts back. */
  lemma RestoreCovers(s: Stage, nudged: bool, first: Doc, d: Doc)
    ensures SameWritten(s, RestoreDoc(d, Snap(Keys(s, nudged), first)), first)
    ensures SameButFor(s, d, first) ==> RestoreDoc(d, Snap(Keys(s, nudged), first)) == first
  {
  }

  /** The `n`-th event is the pass of stage `s` that first recorded document `id`. */
  ghost predicate FirstSeen(c: Config, w: World, events: seq<Event>, n: nat, s: Stage, id: DocId)
    requires WellFormed(c.resolver)
  {
    && n < |events| && events[n].Passes? && events[n].pass.s == s
    && After(c, w, events[..n]).Some? && After(c, w, events[..n + 1]).Some?
    && (s, id) !in After(c, w, events[..n]).value.snapshots && (s, id) in After(c, w, events[..n + 1]).value.snapshots
    && id in After(c, w, events[..n]).value.docs
  }

  lemma {:induction false} EarlierSeen(c: Config, w: World, events: seq<Event>, n: nat, s: Stage, id: DocId)
    requires WellFormed(c.resolver) && events != [] && FirstSeen(c, w, events[..|events| - 1], n, s, id)
    ensures FirstSeen(c, w, events, n, s, id) && events[..n] == events[..|events| - 1][..n]
  {
    assert events[..|events| - 1][..n] == events[..n] && events[..|events| - 1][..n + 1] == events[..n + 1];
  }

  /** The snapshot a stage has of a document is the document as the library had it when the
      pass began that first recorded it, however the stages interleave. */
  lemma {:induction false} SnapshotIsFirstSeen(c: Config, w: World, events: seq<Event>, s: Stage, id: DocId) returns (n: nat)
    requires WellFormed(c.resolver) && Valid(w) && After(c, w, events).Some?
    requires (s, id) !in w.snapshots && (s, id) in After(c, w, events).value.snapshots
    ensures FirstSeen(c, w, events, n, s, id)
    ensures exists nudged ::
              After(c, w, events).value.snapshots[(s, id)] == Snap(Keys(s, nudged), After(c, w, events[..n]).value.docs[id])
  {
    var front, last := events[..|events| - 1], events[|events| - 1];
    LastEvent(c, w, events);
    SnapshotsAreForever(c, w, front);
    var u := After(c, w, front).value;
    AfterOne(c, u, last);
    if (s, id) in u.snapshots {
      n := SnapshotIsFirstSeen(c, w, front, s, id);
      EarlierSeen(c, w, events, n, s, id);
      EventRecords(c, u, last);
    } else {
      n := |front|;
      assert events[..n + 1] == events;
      PassRecords(c, u, last.pass);
    }
  }

  /** Restoring a stage's snapshot after any run of ticks and nudges, with all stages
      interleaved, forced or not, cut short anywhere: every field the stage writes is again
      what it was when the stage first recorded the document. */
  lemma {:induction false} RestoreIsExact(c: Config, w: World, events: seq<Event>, s: Stage, id: DocId) returns (n: nat)
    requires WellFormed(c.resolver) && Valid(w) && After(c, w, events).Some?
    requires (s, id) !in w.snapshots && (s, id) in After(c, w, events).value.snapshots && id in After(c, w, events).value.docs
    ensures FirstSeen(c, w, events, n, s, id)
    ensures var v, first := After(c, w, events).value, After(c, w, events[..n]).value.docs[id];
            && Restore(v, s, id).Some? && Restore(v, s, id).value.docs.Keys == v.docs.Keys
            && SameWritten(s, Restore(v, s, id).value.docs[id], first)
            && Restore(v, s, id).value.docs[id].content == v.docs[id].content && Restore(v, s, id).value.docs[id].id == v.docs[id].id
            && (forall x :: x in v.docs && x != id ==> Restore(v, s, id).value.docs[x] == v.docs[x])
  {
    n := SnapshotIsFirstSeen(c, w, events, s, id);
    var v, first := After(c, w, events).value, After(c, w, events[..n]).value.docs[id];
    var nudged :| v.snapshots[(s, id)] == Snap(Keys(s, nudged), first);
    RestoreCovers(s, nudged, first, v.docs[id]);
  }

  // ----- restoring what one stage did --------------------------------------

  /** Document `id` as stage `s` has left it: untouched, or recorded as first found and
      changed only where the stage writes. */
  ghost predicate Recoverable(s: Stage, w: World, id: DocId, first: Doc) {
    && id in w.docs && SameButFor(s, w.docs[id], first)
    && if (s, id) in w.snapshots
       then w.snapshots[(s, id)] == Snap(Keys(s, false), first) || w.snapshots[(s, id)] == Snap(Keys(s, true), first)
       else w.docs[id] == first
  }

  lemma OwnIsOwn(c: Config, s: Stage, d: Doc, work: Work, first: Doc)
    requires WellFormed(c.resolver) && SameButFor(s, d, first)
    ensures SameButFor(s, OwnWrite(c, s, d, work), first)
  {
  }

  lemma RunRecoverable(j: Job, w: World, r: Run, id: DocId, first: Doc)
    requires JobOk(j, w) && Shape(j, w, r) && Recoverable(j.s, w, id, first)
    ensures Recoverable(j.s, r.lib.w, id, first)
  {
    RunRecords(j, w, r);
    OwnIsOwn(j.c, j.s, w.docs[id], j.fates(j.s, id).work, first);
  }

  /** While only stage `s` runs, restoring its snapshot gives back the whole document as it
      was before; with no snapshot to restore, the document never changed. */
  lemma {:induction false} RestoreUndoesStage(c: Config, w: World, events: seq<Event>, s: Stage, id: DocId)
    requires WellFormed(c.resolver) && Valid(w) && id in w.docs && (s, id) !in w.snapshots && After(c, w, events).Some?
    requires forall e :: e in events && e.Passes? ==> e.pass.s == s
    ensures var v := After(c, w, events).value;
            id in v.docs &&
            match Restore(v, s, id)
            case Some(restored) => restored.docs == v.docs[id := w.docs[id]]
            case None => v.docs[id] == w.docs[id]
  {
    StageRecoverable(c, w, events, s, id, w.docs[id]);
    var v := After(c, w, events).value;
    RestoreCovers(s, false, w.docs[id], v.docs[id]);
    RestoreCovers(s, true, w.docs[id], v.docs[id]);
  }

  lemma {:induction false} StageRecoverable(c: Config, w: World, events: seq<Event>, s: Stage, id: DocId, first: Doc)
    requires WellFormed(c.resolver) && Valid(w) && Recoverable(s, w, id, first) && After(c, w, events).Some?
    requires forall e :: e in events && e.Passes? ==> e.pass.s == s
    ensures Valid(After(c, w, events).value) && Recoverable(s, After(c, w, events).value, id, first)
  {
    if events != [] {
      var front, last := events[..|events| - 1], events[|events| - 1];
      LastEvent(c, w, events);
      StageRecoverable(c, w, front, s, id, first);
      var u := After(c, w, front).value;
      AfterOne(c, u, last);
      EventRecords(c, u, last);
      if last.Passes? && Runs(u, last.pass) {
        assert last in events;
        var j := JobFor(c, u, last.pass);
        PassIsOk(c, u, last.pass);
        ReachableShape(j, u, last.pass.moves);
        RunRecoverable(j, u, Play(j, Start(j, u), last.pass.moves).value, id, first);
      }
    }
  }

  // ----- the triage limit --------------------------------------------------

  /** Triage's limit counts documents already handled, so a tick looks no further than
      the first `limit` listed. */
  lemma {:induction false} TriageTakesTheFront(c: Config, o: Options, w: World, listing: seq<DocId>)
    requires WellFormed(c.resolver)
    ensures Pick(c, o, Triage, w, listing) == listing[..Shown(o, listing)]
  {
    if listing != [] {
      var front := listing[..|listing| - 1];
      TriageTakesTheFront(c, o, w, front);
      assert Takes(c, o, Triage, w, listing[|listing| - 1]);
      if o.limit == 0 || |front| < o.limit {
        assert front[..Shown(o, front)] == front;
        assert listing[..Shown(o, listing)] == front + [listing[|listing| - 1]];
      } else {
        assert front[..Shown(o, front)] == listing[..Shown(o, listing)];
      }
    }
  }

  /** How many of the listed documents a limit lets through. */
  function Shown(o: Options, listing: seq<DocId>): (n: nat)
    ensures n <= |listing|
  {
    if o.limit == 0 || |listing| <= o.limit then |listing| else o.limit
  }

  /** So with a limit, once the documents listed first are triaged, triage handles
      nothing more, on any schedule, however many untriaged ones are listed behind them. */
  lemma {:induction false} LimitStarvesTriage(c: Config, w: World, p: Pass)
    requires WellFormed(c.resolver) && Valid(w) && p.s == Triage && p.nudge.None? && !p.o.force
    requires 0 < p.o.limit < |w.listing| && AfterPass(c, w, p).Some?
    requires forall i :: 0 <= i < p.o.limit ==> w.listing[i] in w.docs && !Queued(c, Triage, false, w.docs[w.listing[i]])
    ensures AfterPass(c, w, p) == Some(w)
  {
    if Runs(w, p) {
      var j := JobFor(c, w, p);
      PassIsOk(c, w, p);
      TriageTakesTheFront(c, p.o, w, w.listing);
      IdleRun(j, w, p.moves);
    }
  }
}
