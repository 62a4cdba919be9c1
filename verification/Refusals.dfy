/** What a tick makes of errors its classifier takes for the provider's: one request that
    Paperless refuses stops the stages that would ask the provider. */
module Refusals {
  import opened Messages
  import opened Documents
  import opened SweepTick
  import opened Faults
  import opened StageRun
  import opened SweepTheorems
  import opened Pipelines
  import WP = WorkerPool
  import PC = PoolCalls
  import X = Extraction

  /** Exactly when handling a document ends fatally: with an error that carries a refusing
      status, a marker in its text, type or code, or is a capability error. */
  lemma {:induction false} FatalStatusIff(status: Status)
    ensures FatalStatus(status) <==>
              status.Error? && (Refused(status.fault) || Marked(status.fault) || Typed(status.fault) || status.fault.capability)
  {
    if status.Error? {
      FatalIff(status.fault);
    }
  }

  // ----- a stage that stops the run ----------------------------------------

  /** No fatal failure of the stage is a capability error and nothing else. */
  ghost predicate AccountLevel(j: Job)
    requires WellFormed(j.c.resolver)
  {
    forall id :: id in j.queue && Fatal(j, id) ==> j.fates(j.s, id).failure == FailsRun
  }

  /** Then a completed stage stops the run exactly if some queued document fails fatally,
      on every schedule. */
  lemma {:induction false} StageStopsRunIff(c: Config, w: World, p: Pass)
    requires WellFormed(c.resolver) && Valid(w) && Runs(w, p) && Complete(c, w, p) && AfterPass(c, w, p).Some?
    requires AccountLevel(JobFor(c, w, p))
    ensures AfterPass(c, w, p).value.latched <==>
              w.latched || exists id :: id in QueueFor(c, w, p) && Fatal(JobFor(c, w, p), id)
  {
    var j := JobFor(c, w, p);
    PassIsOk(c, w, p);
    FlagFollowsFailure(j, w, p.moves);
    FinishedMeetsFatal(j, w, p.moves);
    FirstIsQueued(j, w, p.moves);
  }

  lemma {:induction false} FirstIsQueued(j: Job, w: World, moves: seq<WP.Move>)
    requires JobOk(j, w) && Play(j, Start(j, w), moves).Some?
    ensures FirstFatal(j, moves).Some? ==> FirstFatal(j, moves).value in j.queue && Fatal(j, FirstFatal(j, moves).value)
  {
    if moves != [] {
      var front, m := moves[..|moves| - 1], moves[|moves| - 1];
      FirstIsQueued(j, w, front);
      if m.Collect? {
        CollectIsQueued(j, w, front, m.id);
      }
    }
  }

  lemma {:induction false} CollectIsQueued(j: Job, w: World, moves: seq<WP.Move>, id: DocId)
    requires JobOk(j, w) && Play(j, Start(j, w), moves).Some? && Enabled(j, Play(j, Start(j, w), moves).value, WP.Collect(id))
    ensures id in j.queue
  {
    var r := Play(j, Start(j, w), moves).value;
    PlaysPool(j, Start(j, w), moves);
    WP.ReachableIsTidy(PlanOf(j), moves);
    WP.HeldAreQueued(PlanOf(j), r.pool, id);
  }

  // ----- triage ------------------------------------------------------------

  /** Triage's patch of this document is refused, or fails with an error that reads so. */
  predicate PatchStops(c: Config, o: Options, w: World, r: Replies, id: DocId)
    requires WellFormed(c.resolver)
  {
    && !o.dry && id in w.docs && Queued(c, Triage, o.force, w.docs[id])
    && r.triage(id).Failed? && Classify(r.triage(id).fault) == FailsRun
  }

  function TriagePass(o: Options, r: Replies, moves: seq<WP.Move>): Pass {
    Pass(o, Triage, None, FatesOf(r, o.dry), moves)
  }

  lemma PatchIsFatal(c: Config, w: World, p: Pass, r: Replies, id: DocId)
    requires WellFormed(c.resolver) && p == TriagePass(p.o, r, p.moves)
    requires forall x :: r.triage(x).Failed? ==> Classify(r.triage(x).fault) != FailsStage
    ensures Fatal(JobFor(c, w, p), id) <==> PatchStops(c, p.o, w, r, id)
    ensures Fatal(JobFor(c, w, p), id) ==> p.fates(Triage, id).failure == FailsRun
  {
    assert p.fates(Triage, id) == TriageFate(r.triage(id));
  }

  /** The billable stages of a tick run, after a completed triage, exactly if triage's patch of
      no queued document stops them: on every schedule one refused patch is enough, and then
      the rest of the tick does nothing, asks nothing and writes nothing. */
  lemma {:induction false} OneRefusedPatchStopsTick(c: Config, o: Options, w: World, r: Replies, moves: Stage -> seq<WP.Move>)
    requires WellFormed(c.resolver) && Valid(w) && Triage in o.stages
    requires forall x :: r.triage(x).Failed? ==> Classify(r.triage(x).fault) != FailsStage
    requires After(c, w, Tick(o, FatesOf(r, o.dry), moves)).Some? && CompleteTick(c, o, w, FatesOf(r, o.dry), moves)
    ensures var begun := w.(latched := false);
            var p := TriagePass(o, r, moves(Triage));
            && AfterPass(c, begun, p).Some?
            && var triaged := AfterPass(c, begun, p).value;
               && (triaged.latched <==> exists id :: id in Pick(c, o, Triage, begun, w.listing) && PatchStops(c, o, begun, r, id))
               && (triaged.latched ==> After(c, w, Tick(o, FatesOf(r, o.dry), moves)) == Some(triaged) && triaged.calls == w.calls)
               && forall s: Stage, m: seq<WP.Move> :: s != Triage ==>
                    (Runs(triaged, Pass(o, s, None, FatesOf(r, o.dry), m)) <==> s in o.stages && !triaged.latched)
  {
    var begun := w.(latched := false);
    var p := TriagePass(o, r, moves(Triage));
    var triaged, reocred, done := TickInSteps(c, o, w, FatesOf(r, o.dry), moves);
    forall id
      ensures Fatal(JobFor(c, begun, p), id) <==> PatchStops(c, o, begun, r, id)
      ensures Fatal(JobFor(c, begun, p), id) ==> p.fates(Triage, id).failure == FailsRun
    {
      PatchIsFatal(c, begun, p, r, id);
    }
    StageStopsRunIff(c, begun, p);
    TriageAsksNothing(c, begun, p);
  }

  lemma {:induction false} TriageAsksNothing(c: Config, w: World, p: Pass)
    requires WellFormed(c.resolver) && Valid(w) && AfterPass(c, w, p).Some? && p.s == Triage
    ensures AfterPass(c, w, p).value.calls == w.calls
  {
    PassAsks(c, w, p);
    if Runs(w, p) {
      var plan := PlanOf(JobFor(c, w, p));
      NeverMeansNone(PC.Calls(plan, WP.Start(plan), p.moves));
    }
  }

  lemma {:induction false} NeverMeansNone(ids: seq<DocId>)
    requires forall id :: PC.Times(ids, id) <= 0
    ensures ids == []
  {
    if ids != [] {
      assert PC.Times(ids, ids[|ids| - 1]) > 0;
    }
  }

  // ----- such ticks exist --------------------------------------------------

  /** A complete schedule of a pass, and where it leads. */
  lemma {:induction false} SomePass(c: Config, w: World, p: Pass) returns (moves: seq<WP.Move>, v: World)
    requires WellFormed(c.resolver) && Valid(w) && p.moves == []
    ensures AfterPass(c, w, p.(moves := moves)) == Some(v) && Valid(v) && Complete(c, w, p.(moves := moves))
  {
    moves := PassCompletes(c, w, p);
    assert [] + moves == moves;
    v := if Runs(w, p) then Play(JobFor(c, w, p), Start(JobFor(c, w, p), w), moves).value.lib.w else w;
    assert JobFor(c, w, p.(moves := moves)) == JobFor(c, w, p);
    PassKeepsValid(c, w, p.(moves := moves));
  }

  /** Whatever the answers, a tick has a complete schedule. */
  lemma {:induction false} SomeTick(c: Config, o: Options, w: World, fates: Fates) returns (moves: Stage -> seq<WP.Move>)
    requires WellFormed(c.resolver) && Valid(w)
    ensures CompleteTick(c, o, w, fates, moves) && After(c, w, Tick(o, fates, moves)).Some?
  {
    var triage, triaged := SomePass(c, w.(latched := false), Pass(o, Triage, None, fates, []));
    var reocr, reocred := SomePass(c, triaged, Pass(o, Reocr, None, fates, []));
    var metadata, done := SomePass(c, reocred, Pass(o, Metadata, None, fates, []));
    moves := (s: Stage) => match s case Triage => triage case Reocr => reocr case Metadata => metadata;
    StepsMakeTick(c, o, w, fates, moves, triaged, reocred, done);
  }

  /** Paperless does not let the program's token change one document: 403, and nothing else
      goes wrong. */
  function OneForbidden(id: DocId, text: string, r: Replies): Replies {
    r.(triage := (x: DocId) => if x == id then Failed(false, Fault(Some(403), "HTTPError", "", text, false)) else Accepted)
  }

  /** That document alone keeps any tick that triages it from asking the provider anything. */
  lemma {:induction false} ForbiddenDocumentStopsTick(c: Config, o: Options, w: World, id: DocId, text: string, others: Replies)
    returns (moves: Stage -> seq<WP.Move>, v: World)
    requires WellFormed(c.resolver) && Valid(w) && Triage in o.stages && !o.dry && o.limit == 0
    requires id in w.docs && Queued(c, Triage, o.force, w.docs[id])
    ensures var fates := FatesOf(OneForbidden(id, text, others), false);
            CompleteTick(c, o, w, fates, moves) && After(c, w, Tick(o, fates, moves)) == Some(v)
    ensures v.latched && v.calls == w.calls
  {
    var r := OneForbidden(id, text, others);
    moves := SomeTick(c, o, w, FatesOf(r, false));
    v := After(c, w, Tick(o, FatesOf(r, false), moves)).value;
    var begun := w.(latched := false);
    FatalIff(r.triage(id).fault);
    PickMembers(c, o, Triage, begun, w.listing);
    assert PatchStops(c, o, begun, r, id);
    OneRefusedPatchStopsTick(c, o, w, r, moves);
  }

  /** An extraction that is never valid fails with an error that quotes the last answer; one
      quoting a billing marker stops the run though the provider works. */
  lemma {:induction false} QuotedAnswerStopsRun(a: MetadataAnswers, dry: bool, before: string, part: string, behind: string)
    requires (dry || !a.periodCap) && !a.runCap && Extracted(a) == None && !Raised(a)
    requires part in BILLING_MARKERS + AUTH_MARKERS && a.complaint(LastAnswer(a)) == before + part + behind
    ensures MetadataFate(a, dry).Stopped? && MetadataFate(a, dry).failure == FailsRun
    ensures MetadataFate(a, dry).work.asks == |a.attempts|
  {
    QuotingIsFatal(ExtractFault(a), before, part, behind);
    AllAsked(a.valid, a.attempts);
  }

  lemma {:induction false} AllAsked<D>(valid: D -> bool, attempts: seq<X.Attempt<D>>)
    ensures var n := X.Made(valid, attempts);
            n < |attempts| ==> n > 0 && (attempts[n - 1].Raises? || valid(attempts[n - 1].data))
  {
    if attempts != [] && !X.Decides(valid, attempts[0]) {
      AllAsked(valid, attempts[1..]);
    }
  }
}
