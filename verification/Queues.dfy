/** Which documents the billable stages take: told by what is stored, and, after a triage, by
    what the heuristic says of the text. */
module Queues {
  import opened Messages
  import opened Documents
  import opened SweepTick
  import opened StageRun
  import opened SweepTheorems
  import WP = WorkerPool

  /** A stored value reads as this number. */
  predicate ReadsAs(numberOf: map<Text, real>, v: Value, x: real) {
    || v == Value.Number(x)
    || (v.Label? && v.text in numberOf && numberOf[v.text] == x)
    || (v.Choice? && v.option as real == x)
  }

  lemma ReadingIs(numberOf: map<Text, real>, v: Value, x: real)
    ensures ReadNumber(numberOf, v) == Some(x) <==> ReadsAs(numberOf, v, x)
    ensures ReadNumber(numberOf, v).None? ==> !ReadsAs(numberOf, v, x)
  {
  }

  // ----- what is stored ----------------------------------------------------

  /** Re-OCR takes the listed documents at 'triaged' whose score reads as a number at or above
      the threshold, and no others; metadata those at an eligible stage whose score does not
      read as a number at or above the garbage threshold. */
  ghost predicate ForReocr(c: Config, d: Doc)
    requires WellFormed(c.resolver)
  {
    && Get(d.fields, c.resolver.stageId) == ValueFor(c.resolver, Triaged)
    && exists x :: ReadsAs(c.numberOf, Get(d.fields, c.resolver.scoreId), x) && x >= c.triageThreshold
  }

  /** The stored stage is, or stands for, an eligible label. */
  ghost predicate EligibleStage(c: Config, v: Value) {
    if !c.resolver.isSelect then v in c.eligible
    else if exists o :: o in c.resolver.options && v == Choice(o.id)
    then exists o :: o in c.resolver.options && v == Choice(o.id) && Label(o.name) in c.eligible
    else Null in c.eligible
  }

  ghost predicate ForMetadata(c: Config, d: Doc) {
    && EligibleStage(c, Get(d.fields, c.resolver.stageId))
    && forall x :: ReadsAs(c.numberOf, Get(d.fields, c.resolver.scoreId), x) ==> x < c.garbageThreshold
  }

  lemma {:induction false} OptionLabelIs(options: seq<SelectOption>, id: nat)
    requires forall i, j :: 0 <= i < j < |options| ==> options[i].id != options[j].id
    ensures OptionLabel(options, id).Some? <==> exists o :: o in options && o.id == id
    ensures forall o :: o in options && o.id == id ==> OptionLabel(options, id) == Some(o.name)
  {
    if options != [] {
      OptionLabelIs(options[1..], id);
      assert options == [options[0]] + options[1..];
    }
  }

  lemma EligibleIs(c: Config, v: Value)
    requires WellFormed(c.resolver)
    ensures EligibleStage(c, v) <==> LabelOf(c.resolver, v) in c.eligible
  {
    if c.resolver.isSelect && v.Choice? {
      OptionLabelIs(c.resolver.options, v.option);
    }
  }

  lemma QueuedIs(c: Config, d: Doc)
    requires WellFormed(c.resolver)
    ensures forall force: bool :: Queued(c, Reocr, force, d) <==> ForReocr(c, d)
    ensures forall force: bool :: Queued(c, Metadata, force, d) <==> ForMetadata(c, d)
  {
    var v := Get(d.fields, c.resolver.scoreId);
    EligibleIs(c, Get(d.fields, c.resolver.stageId));
    forall x
      ensures ReadNumber(c.numberOf, v) == Some(x) <==> ReadsAs(c.numberOf, v, x)
    {
      ReadingIs(c.numberOf, v, x);
    }
  }

  /** Without a limit the queues are exactly those, whatever happened before. */
  lemma {:induction false} QueueIsByStoredScore(c: Config, o: Options, w: World, id: DocId)
    requires WellFormed(c.resolver) && Valid(w) && o.limit == 0 && id in w.docs
    ensures id in Pick(c, o, Reocr, w, w.listing) <==> ForReocr(c, w.docs[id])
    ensures id in Pick(c, o, Metadata, w, w.listing) <==> ForMetadata(c, w.docs[id])
  {
    PickMembers(c, o, Reocr, w, w.listing);
    PickMembers(c, o, Metadata, w, w.listing);
    QueuedIs(c, w.docs[id]);
  }

  /** A document at 'triaged' is taken by re-OCR exactly from its threshold up, so a higher
      score never takes it out of the queue, and one that does not read never puts it in; and by
      metadata, where 'triaged' is eligible, exactly below its own. */
  lemma {:induction false} ScoreDecides(c: Config, o: Options, w: World, id: DocId, x: real)
    requires WellFormed(c.resolver) && Valid(w) && o.limit == 0 && id in w.docs
    requires Get(w.docs[id].fields, c.resolver.stageId) == ValueFor(c.resolver, Triaged)
    ensures ReadsAs(c.numberOf, Get(w.docs[id].fields, c.resolver.scoreId), x) ==>
              && (id in Pick(c, o, Reocr, w, w.listing) <==> x >= c.triageThreshold)
              && (Label(c.resolver.triagedLabel) in c.eligible ==>
                    (id in Pick(c, o, Metadata, w, w.listing) <==> x < c.garbageThreshold))
    ensures (forall y :: !ReadsAs(c.numberOf, Get(w.docs[id].fields, c.resolver.scoreId), y)) ==>
              && id !in Pick(c, o, Reocr, w, w.listing)
              && (Label(c.resolver.triagedLabel) in c.eligible ==> id in Pick(c, o, Metadata, w, w.listing))
  {
    QueueIsByStoredScore(c, o, w, id);
    StoredLabel(c.resolver, Triaged);
    EligibleIs(c, Get(w.docs[id].fields, c.resolver.stageId));
    ReadsOne(c.numberOf, Get(w.docs[id].fields, c.resolver.scoreId), x);
  }

  lemma ReadsOne(numberOf: map<Text, real>, v: Value, x: real)
    ensures ReadsAs(numberOf, v, x) ==> forall y :: ReadsAs(numberOf, v, y) ==> y == x
  {
  }

  // ----- after a triage ----------------------------------------------------

  /** What a completed writing triage without limit leaves of a document it took: it is at
      'triaged' with the heuristic's score of its text. */
  lemma {:induction false} TriagedHolds(c: Config, w: World, p: Pass, id: DocId)
    requires WellFormed(c.resolver) && Valid(w) && AllDone(p.fates) && Complete(c, w, p) && AfterPass(c, w, p).Some?
    requires p.s == Triage && p.nudge.None? && Triage in p.o.stages && p.o.limit == 0 && !p.o.dry
    requires id in w.docs && (p.o.force || !AlreadyTriaged(c.resolver, w.docs[id].fields))
    ensures var v := AfterPass(c, w, p).value;
            && Valid(v) && id in v.docs && v.docs[id].content == w.docs[id].content
            && Get(v.docs[id].fields, c.resolver.stageId) == ValueFor(c.resolver, Triaged)
            && Get(v.docs[id].fields, c.resolver.scoreId) == c.coerce(c.rate(w.docs[id].content).0)
  {
    var j := JobFor(c, w, p);
    PassIsOk(c, w, p);
    PickMembers(c, p.o, Triage, w, w.listing);
    ReachableShape(j, w, p.moves);
    var r := Play(j, Start(j, w), p.moves).value;
    FinishedHandlesAll(j, w, r);
    TriageLanded(j, w, r, id);
    OwnWriteLands(c, Triage, w.docs[id], p.fates(Triage, id).work);
  }

  lemma TriageLanded(j: Job, w: World, r: Run, id: DocId)
    requires JobOk(j, w) && Shape(j, w, r) && j.s == Triage && !j.o.dry && AllDone(j.fates) && id in w.docs
    requires id in r.pool.progress && r.pool.progress[id] == Limit(j, id) && Queued(j.c, Triage, j.o.force, w.docs[id])
    ensures id in r.lib.w.docs && r.lib.w.docs[id] == OwnWrite(j.c, Triage, w.docs[id], j.fates(Triage, id).work)
  {
  }

  /** So where scores are stored as numbers: of the documents a triage takes re-OCR then takes
      exactly those whose text scores at or above its threshold, and metadata, where 'triaged' is
      eligible, exactly those below its own. */
  lemma {:induction false} TriageSorts(c: Config, w: World, p: Pass, next: Options, id: DocId)
    requires WellFormed(c.resolver) && Valid(w) && AllDone(p.fates) && Complete(c, w, p) && AfterPass(c, w, p).Some?
    requires p.s == Triage && p.nudge.None? && Triage in p.o.stages && p.o.limit == 0 && !p.o.dry && next.limit == 0
    requires id in w.docs && (p.o.force || !AlreadyTriaged(c.resolver, w.docs[id].fields))
    requires forall x :: ReadsAs(c.numberOf, c.coerce(x), x)
    ensures var v, score := AfterPass(c, w, p).value, c.rate(w.docs[id].content).0;
            && (id in Pick(c, next, Reocr, v, v.listing) <==> score >= c.triageThreshold)
            && (Label(c.resolver.triagedLabel) in c.eligible ==>
                  (id in Pick(c, next, Metadata, v, v.listing) <==> score < c.garbageThreshold))
  {
    TriagedHolds(c, w, p, id);
    ScoreDecides(c, next, AfterPass(c, w, p).value, id, c.rate(w.docs[id].content).0);
  }

  // ----- which of them, under a limit --------------------------------------

  /** The matching documents in listing order. */
  function Matching(c: Config, o: Options, s: Stage, w: World, listing: seq<DocId>): seq<DocId>
    requires WellFormed(c.resolver)
  {
    if listing == [] then []
    else
      var front, id := Matching(c, o, s, w, listing[..|listing| - 1]), listing[|listing| - 1];
      if Takes(c, o, s, w, id) then front + [id] else front
  }

  /** Under a limit a stage takes the first so many of the matching documents; without one, all. */
  lemma {:induction false} TakesTheFirst(c: Config, o: Options, s: Stage, w: World, listing: seq<DocId>)
    requires WellFormed(c.resolver)
    ensures var all := Matching(c, o, s, w, listing);
            Pick(c, o, s, w, listing) == if o.limit == 0 || |all| <= o.limit then all else all[..o.limit]
  {
    if listing != [] {
      TakesTheFirst(c, o, s, w, listing[..|listing| - 1]);
    }
  }

  /** Which for re-OCR and metadata are those that match by what is stored. */
  lemma MatchesByStored(c: Config, o: Options, w: World, id: DocId)
    requires WellFormed(c.resolver)
    ensures Takes(c, o, Reocr, w, id) <==> id in w.docs && ForReocr(c, w.docs[id])
    ensures Takes(c, o, Metadata, w, id) <==> id in w.docs && ForMetadata(c, w.docs[id])
  {
    if id in w.docs {
      QueuedIs(c, w.docs[id]);
    }
  }

  // ----- a nudge that has nothing to go on ---------------------------------

  /** A nudge for a document that is not there, or has no text yet, does nothing at all. */
  lemma {:induction false} NudgeWithoutText(c: Config, o: Options, w: World, id: DocId, fates: Fates, moves: Stage -> seq<WP.Move>)
    requires WellFormed(c.resolver) && Valid(w) && (id !in w.docs || w.docs[id].content == EMPTY)
    requires After(c, w, Nudge(o, id, fates, moves)).Some?
    ensures After(c, w, Nudge(o, id, fates, moves)) == Some(w)
  {
    var triaged, reocred, done := NudgeInSteps(c, o, w, id, fates, moves);
    EmptyPass(c, w, Pass(o, Triage, Some(id), fates, moves(Triage)));
    EmptyPass(c, w, Pass(o, Reocr, Some(id), fates, moves(Reocr)));
    EmptyPass(c, w, Pass(o, Metadata, Some(id), fates, moves(Metadata)));
  }

  lemma {:induction false} EmptyPass(c: Config, w: World, p: Pass)
    requires WellFormed(c.resolver) && Valid(w) && AfterPass(c, w, p).Some? && p.nudge.Some?
    requires p.nudge.value !in w.docs || w.docs[p.nudge.value].content == EMPTY
    ensures AfterPass(c, w, p) == Some(w)
  {
    if Runs(w, p) {
      PassIsOk(c, w, p);
      IdleRun(JobFor(c, w, p), w, p.moves);
    }
  }
}
