/** What sweep ticks and nudges keep, under every schedule of every stage's worker pool: no
    document's stage goes back, other people's fields and tags survive, and a second tick
    has nothing left to do. */
module SweepTheorems {
  import opened Messages
  import opened Documents
  import opened SweepTick
  import opened StageRun
  import WP = WorkerPool
  import PC = PoolCalls

  // ----- what one write does to the document -------------------------------

  function RoleAfter(s: Stage): Role {
    match s case Triage => Triaged case Reocr => ReocrDone case Metadata => MetadataDone
  }

  function Rank(r: Resolver, d: Doc): nat {
    match RoleOf(r, Get(d.fields, r.stageId))
    case None => 0
    case Some(Triaged) => 1
    case Some(ReocrDone) => 2
    case Some(MetadataDone) => 3
  }

  /** The stage field holds exactly one entry, with this role. */
  predicate At(r: Resolver, d: Doc, role: Role)
    requires WellFormed(r)
  {
    Get(d.fields, r.stageId) == ValueFor(r, role) && Count(d.fields, r.stageId) == 1
  }

  /** The stage goes no further back; other fields, tags and the text are kept. */
  ghost predicate DocKept(r: Resolver, d: Doc, e: Doc) {
    && Rank(r, d) <= Rank(r, e)
    && Others(d.fields, Own(r)) == Others(e.fields, Own(r))
    && d.tags <= e.tags
    && d.id == e.id && d.content == e.content && d.created == e.created && d.serial == e.serial
  }

  lemma OwnWriteLands(c: Config, s: Stage, d: Doc, work: Work)
    requires WellFormed(c.resolver)
    ensures At(c.resolver, OwnWrite(c, s, d, work), RoleAfter(s))
    ensures s != Triage ==> Get(OwnWrite(c, s, d, work).fields, c.resolver.scoreId) == Get(d.fields, c.resolver.scoreId)
    ensures s == Triage ==>
              var e := OwnWrite(c, s, d, work);
              && Get(e.fields, c.resolver.scoreId) == c.coerce(c.rate(d.content).0)
              && Get(e.fields, c.resolver.notesId) == Label(c.rate(d.content).1)
    ensures s == Reocr ==> c.supersededTag in OwnWrite(c, s, d, work).tags
    ensures s == Metadata && c.newTaxonomyTag !in d.tags + work.meta.tags ==>
              (c.newTaxonomyTag in OwnWrite(c, s, d, work).tags <==> work.meta.createdTaxonomy)
    ensures s == Metadata ==> work.meta.tags <= OwnWrite(c, s, d, work).tags
    ensures var e := OwnWrite(c, s, d, work);
            match s
            case Triage => e == d.(fields := e.fields)
            case Reocr => e == d.(fields := e.fields, tags := d.tags + {c.supersededTag})
            case Metadata => e == d.(fields := e.fields, tags := e.tags, title := e.title, correspondent := e.correspondent,
                                     documentType := e.documentType)
  {
    if s == Triage {
      MergeTriageFacts(c, d.fields, c.rate(d.content).0, c.rate(d.content).1, 0);
    } else {
      SetStageFacts(c.resolver, d.fields, RoleAfter(s), c.resolver.scoreId);
    }
  }

  lemma AtRole(r: Resolver, d: Doc, role: Role)
    requires WellFormed(r) && At(r, d, role)
    ensures RoleOf(r, Get(d.fields, r.stageId)) == Some(role) && AlreadyTriaged(r, d.fields)
  {
    RoleRoundTrip(r, Get(d.fields, r.stageId), role);
    AlreadyTriagedReads(r, d.fields);
  }

  /** The label a role's stored value reads as. */
  lemma StoredLabel(r: Resolver, role: Role)
    requires WellFormed(r)
    ensures LabelOf(r, ValueFor(r, role)) == Label(LabelFor(r, role))
  {
    if r.isSelect {
      OptionInverse(r.options, LabelFor(r, role), OptionId(r.options, LabelFor(r, role)).value);
    }
  }

  /** Once a document is at a role, triage skips it, and re-OCR does unless the role is
      'triaged'. */
  lemma AtLeavesQueues(c: Config, d: Doc, role: Role)
    requires WellFormed(c.resolver) && At(c.resolver, d, role)
    ensures !Queued(c, Triage, false, d)
    ensures role != Triaged ==> !Queued(c, Reocr, false, d)
    ensures Label(LabelFor(c.resolver, role)) !in c.eligible ==> !Queued(c, Metadata, false, d)
  {
    AtRole(c.resolver, d, role);
    RoleRoundTrip(c.resolver, Get(d.fields, c.resolver.stageId), Triaged);
    StoredLabel(c.resolver, role);
  }

  lemma OwnWriteKeeps(c: Config, s: Stage, d: Doc, work: Work)
    requires WellFormed(c.resolver) && Count(d.fields, c.resolver.stageId) <= 1
    requires s != Metadata ==> Queued(c, s, false, d)
    ensures DocKept(c.resolver, d, OwnWrite(c, s, d, work))
  {
    var r := c.resolver;
    OwnWriteLands(c, s, d, work);
    AtRole(r, OwnWrite(c, s, d, work), RoleAfter(s));
    match s {
      case Triage =>
        AlreadyTriagedReads(r, d.fields);
        MergeTriageFacts(c, d.fields, c.rate(d.content).0, c.rate(d.content).1, 0);
      case Reocr =>
        RoleRoundTrip(r, Get(d.fields, r.stageId), Triaged);
        SetStageFacts(r, d.fields, ReocrDone, 0);
      case Metadata =>
        SetStageFacts(r, d.fields, MetadataDone, 0);
    }
  }

  // ----- passes ------------------------------------------------------------

  /** A stage as a tick or a nudge runs it, on a schedule of its pool; the schedule may
      break off anywhere, as a crash would. */
  datatype Pass = Pass(o: Options, s: Stage, nudge: Option<DocId>, fates: Fates, moves: seq<WP.Move>)

  /** An enabled stage; in a tick, a billable one only while nothing has failed the run. */
  predicate Runs(w: World, p: Pass) {
    p.s in p.o.stages && (p.nudge.Some? || p.s == Triage || !w.latched)
  }

  /** A tick's queue is fetched from the listing. A nudged document is pulled afresh and
      filtered as in a sweep; unknown, or without text yet, it is left to the sweep. */
  function QueueFor(c: Config, w: World, p: Pass): seq<DocId>
    requires WellFormed(c.resolver)
  {
    match p.nudge
    case None => Pick(c, p.o, p.s, w, w.listing)
    case Some(id) => if id in w.docs && w.docs[id].content != EMPTY then NudgeQueue(c, p.o, p.s, w, id) else []
  }

  function JobFor(c: Config, w: World, p: Pass): Job
    requires WellFormed(c.resolver)
  {
    Job(c, p.o, p.s, p.nudge.Some?, QueueFor(c, w, p), w.docs, p.fates)
  }

  /** The world after a pass, if its schedule is one the pool can follow. */
  function AfterPass(c: Config, w: World, p: Pass): Option<World>
    requires WellFormed(c.resolver)
  {
    if !Runs(w, p) then Some(w)
    else match Play(JobFor(c, w, p), Start(JobFor(c, w, p), w), p.moves)
      case None => None
      case Some(r) => Some(r.lib.w)
  }

  /** The pass was not cut short. */
  predicate Complete(c: Config, w: World, p: Pass)
    requires WellFormed(c.resolver)
  {
    Runs(w, p) ==>
      var j := JobFor(c, w, p);
      Play(j, Start(j, w), p.moves).Some? && WP.Finished(PlanOf(j), Play(j, Start(j, w), p.moves).value.pool)
  }

  lemma PassIsOk(c: Config, w: World, p: Pass)
    requires WellFormed(c.resolver) && Valid(w)
    ensures JobOk(JobFor(c, w, p), w)
    ensures forall id :: id in QueueFor(c, w, p) ==> Takes(c, p.o, p.s, w, id)
  {
    PickMembers(c, p.o, p.s, w, w.listing);
    if p.nudge.Some? {
      assert Distinct([p.nudge.value][..0]);
    }
  }

  /** Whatever the pool can do, the stage can. */
  lemma StageCan(j: Job, w: World, r: Run, m: WP.Move)
    requires JobOk(j, w) && WP.Tidy(PlanOf(j), r.pool) && WP.Enabled(PlanOf(j), r.pool, m)
    ensures Enabled(j, r, m) && Next(j, r, m).pool == WP.Next(PlanOf(j), r.pool, m)
  {
    if m.Act? {
      HeldIsQueued(j, r, m.id);
    }
  }

  lemma {:induction false} RunFollowsPool(j: Job, w: World, r: Run, more: seq<WP.Move>)
    requires JobOk(j, w) && WP.PlanOk(PlanOf(j)) && WP.Tidy(PlanOf(j), r.pool) && WP.Play(PlanOf(j), r.pool, more).Some?
    ensures Play(j, r, more).Some? && Play(j, r, more).value.pool == WP.Play(PlanOf(j), r.pool, more).value
  {
    if more != [] {
      var front, m := more[..|more| - 1], more[|more| - 1];
      RunFollowsPool(j, w, r, front);
      WP.PlayKeepsTidy(PlanOf(j), r.pool, front);
      StageCan(j, w, Play(j, r, front).value, m);
    }
  }

  lemma {:induction false} PlayOn(j: Job, r: Run, a: seq<WP.Move>, b: seq<WP.Move>)
    requires WellFormed(j.c.resolver) && Play(j, r, a).Some?
    ensures Play(j, r, a + b) == Play(j, Play(j, r, a).value, b)
  {
    if b == [] {
      assert a + b == a;
    } else {
      var front := b[..|b| - 1];
      PlayOn(j, r, a, front);
      assert (a + b)[..|a + b| - 1] == a + front;
    }
  }

  /** Every schedule begun can be carried on to its end. */
  lemma {:induction false} RunCompletes(j: Job, w: World, moves: seq<WP.Move>) returns (more: seq<WP.Move>)
    requires JobOk(j, w) && Play(j, Start(j, w), moves).Some?
    ensures Play(j, Start(j, w), moves + more).Some?
    ensures WP.Finished(PlanOf(j), Play(j, Start(j, w), moves + more).value.pool)
  {
    var r := Play(j, Start(j, w), moves).value;
    ReachableShape(j, w, moves);
    more := WP.PoolDrains(PlanOf(j), r.pool);
    RunFollowsPool(j, w, r, more);
    PlayOn(j, Start(j, w), moves, more);
  }

  /** Every pass begun can be completed; so it has a complete schedule. */
  lemma {:induction false} PassCompletes(c: Config, w: World, p: Pass) returns (more: seq<WP.Move>)
    requires WellFormed(c.resolver) && Valid(w) && AfterPass(c, w, p).Some?
    ensures Complete(c, w, p.(moves := p.moves + more))
  {
    more := [];
    if Runs(w, p) {
      PassIsOk(c, w, p);
      more := RunCompletes(JobFor(c, w, p), w, p.moves);
      assert JobFor(c, w, p.(moves := p.moves + more)) == JobFor(c, w, p);
    }
  }

  lemma {:induction false} PassKeepsValid(c: Config, w: World, p: Pass)
    requires WellFormed(c.resolver) && Valid(w) && AfterPass(c, w, p).Some?
    ensures Valid(AfterPass(c, w, p).value)
  {
    if Runs(w, p) {
      PassIsOk(c, w, p);
      ReachableShape(JobFor(c, w, p), w, p.moves);
    }
  }

  // ----- one pass ----------------------------------------------------------

  /** New documents carry at most one stage entry, as Paperless guarantees. */
  ghost predicate Mints(c: Config, fates: Fates) {
    forall s, id :: Count(fates(s, id).work.consumed.fields, c.resolver.stageId) <= 1
  }

  ghost predicate SingleStage(c: Config, w: World) {
    forall id :: id in w.docs ==> Count(w.docs[id].fields, c.resolver.stageId) <= 1
  }

  /** Every document of `w` is still there and kept; any that changed holds the stage
      field exactly once. */
  ghost predicate Kept(c: Config, w: World, v: World) {
    forall id :: id in w.docs ==>
      && id in v.docs && DocKept(c.resolver, w.docs[id], v.docs[id])
      && (v.docs[id] == w.docs[id] || Count(v.docs[id].fields, c.resolver.stageId) == 1)
  }

  lemma KeptTransitive(c: Config, w: World, v: World, u: World)
    requires Kept(c, w, v) && Kept(c, v, u)
    ensures Kept(c, w, u)
  {
  }

  ghost predicate Sound(c: Config, w: World) {
    Valid(w) && SingleStage(c, w)
  }

  /** What a stage took is what it works on. */
  lemma LandedWasQueued(j: Job, w: World, r: Run, id: DocId)
    requires JobOk(j, w) && Shape(j, w, r) && WP.Tidy(PlanOf(j), r.pool) && Landed(j, r.pool.progress, id)
    requires forall x :: x in j.queue ==> Takes(j.c, j.o, j.s, w, x)
    ensures id in j.queue && id in w.docs && Queued(j.c, j.s, j.o.force, w.docs[id])
  {
    HeldIsQueued(j, r, id);
  }

  lemma DocKeptByRun(j: Job, w: World, r: Run, id: DocId)
    requires JobOk(j, w) && Shape(j, w, r) && WP.Tidy(PlanOf(j), r.pool) && !j.o.force && id in w.docs
    requires Count(w.docs[id].fields, j.c.resolver.stageId) <= 1
    requires forall x :: x in j.queue ==> Takes(j.c, j.o, j.s, w, x)
    ensures id in r.lib.w.docs && DocKept(j.c.resolver, w.docs[id], r.lib.w.docs[id])
    ensures r.lib.w.docs[id] == w.docs[id] || Count(r.lib.w.docs[id].fields, j.c.resolver.stageId) == 1
  {
    if Landed(j, r.pool.progress, id) {
      LandedWasQueued(j, w, r, id);
      OwnWriteKeeps(j.c, j.s, w.docs[id], j.fates(j.s, id).work);
      OwnWriteLands(j.c, j.s, w.docs[id], j.fates(j.s, id).work);
    }
  }

  lemma NewIsSingle(j: Job, w: World, r: Run, x: DocId)
    requires JobOk(j, w) && Shape(j, w, r) && Mints(j.c, j.fates) && x in r.lib.w.docs && x !in w.docs
    ensures Count(r.lib.w.docs[x].fields, j.c.resolver.stageId) <= 1
  {
    var id := r.lib.origin[x];
    assert id in r.lib.newId && r.lib.newId[id] == x;
    CarryFacts(j.c, Made(j, id, x), j.fetched[id], 0);
  }

  lemma RunKeeps(j: Job, w: World, r: Run)
    requires JobOk(j, w) && Shape(j, w, r) && WP.Tidy(PlanOf(j), r.pool) && !j.o.force && Mints(j.c, j.fates)
    requires SingleStage(j.c, w) && forall x :: x in j.queue ==> Takes(j.c, j.o, j.s, w, x)
    ensures SingleStage(j.c, r.lib.w) && Kept(j.c, w, r.lib.w)
  {
    forall id | id in w.docs
      ensures id in r.lib.w.docs && DocKept(j.c.resolver, w.docs[id], r.lib.w.docs[id])
      ensures r.lib.w.docs[id] == w.docs[id] || Count(r.lib.w.docs[id].fields, j.c.resolver.stageId) == 1
    {
      DocKeptByRun(j, w, r, id);
    }
    forall x | x in r.lib.w.docs && x !in w.docs
      ensures Count(r.lib.w.docs[x].fields, j.c.resolver.stageId) <= 1
    {
      NewIsSingle(j, w, r, x);
    }
  }

  /** One pass without force, on any schedule and with any outcomes, even cut short. */
  lemma {:induction false} PassKeeps(c: Config, w: World, p: Pass)
    requires WellFormed(c.resolver) && Sound(c, w) && Mints(c, p.fates) && !p.o.force && AfterPass(c, w, p).Some?
    ensures Sound(c, AfterPass(c, w, p).value) && Kept(c, w, AfterPass(c, w, p).value)
  {
    if Runs(w, p) {
      var j := JobFor(c, w, p);
      PassIsOk(c, w, p);
      ReachableShape(j, w, p.moves);
      RunKeeps(j, w, Play(j, Start(j, w), p.moves).value);
    }
  }

  lemma WrittenLeaves(c: Config, s: Stage, d: Doc, work: Work)
    requires WellFormed(c.resolver) && Queued(c, s, false, d)
    ensures Queued(c, s, false, OwnWrite(c, s, d, work)) <==> s == Metadata && Label(c.resolver.metadataLabel) in c.eligible
  {
    OwnWriteLands(c, s, d, work);
    AtLeavesQueues(c, OwnWrite(c, s, d, work), RoleAfter(s));
    StoredLabel(c.resolver, MetadataDone);
  }

  /** A queued document leaves its queue exactly when its own write landed; for the
      metadata stage, only if 'metadata_done' is not itself an eligible label. */
  lemma {:induction false} LeavesQueueIffWritten(j: Job, w: World, moves: seq<WP.Move>, id: DocId)
    requires JobOk(j, w) && Play(j, Start(j, w), moves).Some?
    requires id in j.queue && Queued(j.c, j.s, false, w.docs[id])
    ensures var r := Play(j, Start(j, w), moves).value;
            && id in r.lib.w.docs
            && (Queued(j.c, j.s, false, r.lib.w.docs[id])
                <==> !Landed(j, r.pool.progress, id)
                     || (j.s == Metadata && Label(j.c.resolver.metadataLabel) in j.c.eligible))
  {
    ReachableShape(j, w, moves);
    WrittenLeaves(j.c, j.s, w.docs[id], j.fates(j.s, id).work);
  }

  // ----- whole runs --------------------------------------------------------

  /** A tick begins by lowering the run's flag; otherwise everything is passes. */
  datatype Event = Begin | Passes(pass: Pass)

  function After(c: Config, w: World, events: seq<Event>): Option<World>
    requires WellFormed(c.resolver)
  {
    if events == [] then Some(w)
    else match After(c, w, events[..|events| - 1])
      case None => None
      case Some(v) =>
        match events[|events| - 1]
        case Begin => Some(v.(latched := false))
        case Passes(p) => AfterPass(c, v, p)
  }

  /** A tick and a nudge, on a schedule for each stage. */
  function Tick(o: Options, fates: Fates, moves: Stage -> seq<WP.Move>): seq<Event> {
    [Begin, Passes(Pass(o, Triage, None, fates, moves(Triage))), Passes(Pass(o, Reocr, None, fates, moves(Reocr))),
     Passes(Pass(o, Metadata, None, fates, moves(Metadata)))]
  }

  function Nudge(o: Options, id: DocId, fates: Fates, moves: Stage -> seq<WP.Move>): seq<Event> {
    [Passes(Pass(o, Triage, Some(id), fates, moves(Triage))), Passes(Pass(o, Reocr, Some(id), fates, moves(Reocr))),
     Passes(Pass(o, Metadata, Some(id), fates, moves(Metadata)))]
  }

  /** Over any sequence of ticks and nudges without force, whole or cut short, with any
      outcomes, any stages enabled and any schedules of the workers: no document disappears
      or goes back a stage, foreign fields and existing tags survive, and a document that
      was written holds the stage field exactly once. */
  lemma {:induction false} StagesOnlyAdvance(c: Config, w: World, events: seq<Event>)
    requires WellFormed(c.resolver) && Sound(c, w) && After(c, w, events).Some?
    requires forall e :: e in events && e.Passes? ==> !e.pass.o.force && Mints(c, e.pass.fates)
    ensures Sound(c, After(c, w, events).value) && Kept(c, w, After(c, w, events).value)
  {
    if events != [] {
      var front, e := events[..|events| - 1], events[|events| - 1];
      StagesOnlyAdvance(c, w, front);
      var v := After(c, w, front).value;
      assert e in events;
      match e {
        case Begin =>
        case Passes(p) => PassKeeps(c, v, p);
      }
      KeptTransitive(c, w, v, After(c, w, events).value);
    }
  }

  // ----- one tick is a fixpoint --------------------------------------------

  ghost predicate AllDone(fates: Fates) {
    forall s, id :: fates(s, id).Done?
  }

  /** No document of `w` is left for stage `s`. */
  ghost predicate Settled(c: Config, s: Stage, w: World)
    requires WellFormed(c.resolver)
  {
    forall id :: id in w.docs ==> !Queued(c, s, false, w.docs[id])
  }

  /** Writing, without force, where 'metadata_done' is not eligible. */
  predicate Plain(c: Config, o: Options) {
    !o.force && !o.dry && Label(c.resolver.metadataLabel) !in c.eligible
  }

  /** Does stage `s` leave alone what stage `t` settled? Stages run in this order. */
  predicate NotBefore(t: Stage, s: Stage) {
    t == Triage || s == Metadata || t == s
  }

  /** A finished run in which nothing fails has landed every write it was for. */
  lemma AllLanded(j: Job, w: World, r: Run)
    requires JobOk(j, w) && WP.Tidy(PlanOf(j), r.pool) && WP.Finished(PlanOf(j), r.pool) && Plain(j.c, j.o) && AllDone(j.fates)
    ensures forall id :: id in j.queue && Works(j, id) ==> Landed(j, r.pool.progress, id)
    ensures forall id :: id in j.queue ==> id in r.pool.progress && r.pool.progress[id] == Length(j, id)
  {
    FinishedHandlesAll(j, w, r);
  }

  /** The own write leaves `t`'s queue, and never enters it. */
  lemma OwnSettles(c: Config, s: Stage, t: Stage, d: Doc, work: Work)
    requires WellFormed(c.resolver) && NotBefore(t, s) && Label(c.resolver.metadataLabel) !in c.eligible
    ensures !Queued(c, t, false, OwnWrite(c, s, d, work))
  {
    OwnWriteLands(c, s, d, work);
    AtLeavesQueues(c, OwnWrite(c, s, d, work), RoleAfter(s));
  }

  lemma CarriedSettles(j: Job, t: Stage, id: DocId, newId: DocId)
    requires WellFormed(j.c.resolver) && id in j.fetched && t != Metadata
    ensures !Queued(j.c, t, false, Carried(j, id, newId))
  {
    CarryFacts(j.c, Made(j, id, newId), j.fetched[id], 0);
    AtLeavesQueues(j.c, Carried(j, id, newId), ReocrDone);
  }

  /** A document after a finished, successful run of stage `s`: nothing for `t` if there was
      nothing before, or if `t` is `s` and the document was queued. */
  lemma DocSettles(j: Job, w: World, r: Run, t: Stage, id: DocId)
    requires JobOk(j, w) && Shape(j, w, r) && WP.Tidy(PlanOf(j), r.pool) && WP.Finished(PlanOf(j), r.pool)
    requires Plain(j.c, j.o) && AllDone(j.fates) && NotBefore(t, j.s) && id in w.docs
    requires Queued(j.c, t, false, w.docs[id]) ==> t == j.s && id in j.queue
    ensures id in r.lib.w.docs && !Queued(j.c, t, false, r.lib.w.docs[id])
  {
    AllLanded(j, w, r);
    if Landed(j, r.pool.progress, id) {
      OwnSettles(j.c, j.s, t, w.docs[id], j.fates(j.s, id).work);
    }
  }

  /** Whatever a finished, successful run added is carried over. */
  lemma NewIsCarried(j: Job, w: World, r: Run, x: DocId) returns (id: DocId)
    requires JobOk(j, w) && NewShape(j, r.lib.w.docs, r.pool.progress, r.lib.newId, r.lib.origin)
    requires forall id :: id in r.pool.progress ==> id in j.queue && r.pool.progress[id] == Length(j, id)
    requires !j.o.dry && x in r.lib.w.docs && x !in w.docs
    ensures j.s == Reocr && id in j.fetched && r.lib.w.docs[x] == Carried(j, id, x)
  {
    id := r.lib.origin[x];
    assert id in r.lib.newId && r.lib.newId[id] == x;
    assert Works(j, id) && Length(j, id) == Asks(j, id) + 4;
  }

  lemma NewSettles(j: Job, w: World, r: Run, t: Stage, x: DocId)
    requires JobOk(j, w) && Shape(j, w, r) && WP.Tidy(PlanOf(j), r.pool) && WP.Finished(PlanOf(j), r.pool)
    requires Plain(j.c, j.o) && AllDone(j.fates) && NotBefore(t, j.s) && x in r.lib.w.docs && x !in w.docs
    ensures !Queued(j.c, t, false, r.lib.w.docs[x])
  {
    AllLanded(j, w, r);
    forall id | id in r.pool.progress
      ensures id in j.queue
    {
      HeldIsQueued(j, r, id);
    }
    var id := NewIsCarried(j, w, r, x);
    CarriedSettles(j, t, id, x);
  }

  /** A complete, successful pass of stage `s`, and what it settles. */
  ghost predicate Good(c: Config, w: World, p: Pass)
    requires WellFormed(c.resolver)
  {
    Valid(w) && Plain(c, p.o) && AllDone(p.fates) && Complete(c, w, p)
  }

  lemma {:induction false} GoodPassRuns(c: Config, w: World, p: Pass)
    requires WellFormed(c.resolver) && Good(c, w, p)
    ensures AfterPass(c, w, p).Some?
    ensures var v := AfterPass(c, w, p).value; Valid(v) && v.latched == w.latched
  {
    if Runs(w, p) {
      var j := JobFor(c, w, p);
      PassIsOk(c, w, p);
      ReachableShape(j, w, p.moves);
      FlagFollowsFailure(j, w, p.moves);
      FirstFatalIsFatal(j, p.moves);
    }
  }

  /** A tick's pass without limit settles its own stage, and keeps settled what an earlier
      stage settled. */
  lemma {:induction false} PassSettles(c: Config, w: World, p: Pass, t: Stage)
    requires WellFormed(c.resolver) && Good(c, w, p) && !w.latched && p.nudge.None? && p.o.limit == 0 && NotBefore(t, p.s)
    requires (t == p.s && t in p.o.stages) || Settled(c, t, w)
    ensures AfterPass(c, w, p).Some? && Settled(c, t, AfterPass(c, w, p).value)
  {
    GoodPassRuns(c, w, p);
    if Runs(w, p) {
      var j := JobFor(c, w, p);
      PassIsOk(c, w, p);
      PickMembers(c, p.o, p.s, w, w.listing);
      ReachableShape(j, w, p.moves);
      var r := Play(j, Start(j, w), p.moves).value;
      forall id | id in r.lib.w.docs
        ensures !Queued(c, t, false, r.lib.w.docs[id])
      {
        if id in w.docs {
          DocSettles(j, w, r, t, id);
        } else {
          NewSettles(j, w, r, t, id);
        }
      }
    }
  }

  /** A pass of a settled stage does nothing, whatever its mode, limit and schedule. */
  lemma {:induction false} IdlePass(c: Config, w: World, p: Pass)
    requires WellFormed(c.resolver) && Valid(w) && !p.o.force && AfterPass(c, w, p).Some?
    requires p.s in p.o.stages ==>
               if p.nudge.Some? then p.nudge.value in w.docs ==> !Queued(c, p.s, false, w.docs[p.nudge.value])
               else Settled(c, p.s, w)
    ensures AfterPass(c, w, p) == Some(w)
  {
    if Runs(w, p) {
      var j := JobFor(c, w, p);
      PassIsOk(c, w, p);
      forall id | id in j.queue
        ensures !Works(j, id)
      {
        assert Takes(c, p.o, p.s, w, id);
        QueueIsNudged(c, w, p, id);
      }
      IdleRun(j, w, p.moves);
    }
  }

  lemma QueueIsNudged(c: Config, w: World, p: Pass, id: DocId)
    requires WellFormed(c.resolver) && id in QueueFor(c, w, p)
    ensures p.nudge.Some? ==> id == p.nudge.value
  {
  }

  // ----- ticks and nudges --------------------------------------------------

  lemma {:induction false} AfterFour(c: Config, w: World, a: Event, b: Event, d: Event, e: Event)
    requires WellFormed(c.resolver)
    ensures After(c, w, [a, b, d, e]) == match After(c, w, [a, b, d]) case None => None case Some(v) => After(c, v, [e])
    ensures After(c, w, [a, b, d]) == match After(c, w, [a, b]) case None => None case Some(v) => After(c, v, [d])
    ensures After(c, w, [a, b]) == match After(c, w, [a]) case None => None case Some(v) => After(c, v, [b])
  {
    assert [a, b, d, e][..3] == [a, b, d] && [a, b, d][..2] == [a, b] && [a, b][..1] == [a] && [e][..0] == [] && [d][..0] == [] && [b][..0] == [];
  }

  lemma {:induction false} AfterOne(c: Config, w: World, e: Event)
    requires WellFormed(c.resolver)
    ensures After(c, w, [e]) == match e case Begin => Some(w.(latched := false)) case Passes(p) => AfterPass(c, w, p)
  {
    assert [e][..0] == [];
  }

  /** The worlds between the stages of a tick. */
  lemma {:induction false} TickInSteps(c: Config, o: Options, w: World, fates: Fates, moves: Stage -> seq<WP.Move>)
    returns (triaged: World, reocred: World, done: World)
    requires WellFormed(c.resolver) && After(c, w, Tick(o, fates, moves)).Some?
    ensures AfterPass(c, w.(latched := false), Pass(o, Triage, None, fates, moves(Triage))) == Some(triaged)
    ensures AfterPass(c, triaged, Pass(o, Reocr, None, fates, moves(Reocr))) == Some(reocred)
    ensures AfterPass(c, reocred, Pass(o, Metadata, None, fates, moves(Metadata))) == Some(done)
    ensures After(c, w, Tick(o, fates, moves)) == Some(done)
  {
    var e := Tick(o, fates, moves);
    AfterFour(c, w, e[0], e[1], e[2], e[3]);
    AfterOne(c, w, e[0]);
    var v := w.(latched := false);
    AfterOne(c, v, e[1]);
    triaged := AfterPass(c, v, e[1].pass).value;
    AfterOne(c, triaged, e[2]);
    reocred := AfterPass(c, triaged, e[2].pass).value;
    AfterOne(c, reocred, e[3]);
    done := AfterPass(c, reocred, e[3].pass).value;
  }

  /** And back. */
  lemma {:induction false} StepsMakeTick(c: Config, o: Options, w: World, fates: Fates, moves: Stage -> seq<WP.Move>,
                                         triaged: World, reocred: World, done: World)
    requires WellFormed(c.resolver)
    requires AfterPass(c, w.(latched := false), Pass(o, Triage, None, fates, moves(Triage))) == Some(triaged)
    requires AfterPass(c, triaged, Pass(o, Reocr, None, fates, moves(Reocr))) == Some(reocred)
    requires AfterPass(c, reocred, Pass(o, Metadata, None, fates, moves(Metadata))) == Some(done)
    ensures After(c, w, Tick(o, fates, moves)) == Some(done)
  {
    var e := Tick(o, fates, moves);
    AfterFour(c, w, e[0], e[1], e[2], e[3]);
    AfterOne(c, w, e[0]);
    AfterOne(c, w.(latched := false), e[1]);
    AfterOne(c, triaged, e[2]);
    AfterOne(c, reocred, e[3]);
  }

  /** Three passes in a row, each complete: all of a tick, or of a nudge. */
  ghost predicate CompleteThree(c: Config, w: World, a: Pass, b: Pass, d: Pass)
    requires WellFormed(c.resolver)
  {
    && Complete(c, w, a) && AfterPass(c, w, a).Some?
    && Complete(c, AfterPass(c, w, a).value, b) && AfterPass(c, AfterPass(c, w, a).value, b).Some?
    && Complete(c, AfterPass(c, AfterPass(c, w, a).value, b).value, d)
  }

  ghost predicate CompleteTick(c: Config, o: Options, w: World, fates: Fates, moves: Stage -> seq<WP.Move>)
    requires WellFormed(c.resolver)
  {
    CompleteThree(c, w.(latched := false), Pass(o, Triage, None, fates, moves(Triage)),
                  Pass(o, Reocr, None, fates, moves(Reocr)), Pass(o, Metadata, None, fates, moves(Metadata)))
  }

  ghost predicate CompleteNudge(c: Config, o: Options, w: World, id: DocId, fates: Fates, moves: Stage -> seq<WP.Move>)
    requires WellFormed(c.resolver)
  {
    CompleteThree(c, w, Pass(o, Triage, Some(id), fates, moves(Triage)),
                  Pass(o, Reocr, Some(id), fates, moves(Reocr)), Pass(o, Metadata, Some(id), fates, moves(Metadata)))
  }

  lemma {:induction false} TickSettles(c: Config, o: Options, w: World, fates: Fates, moves: Stage -> seq<WP.Move>, v: World, t: Stage)
    requires WellFormed(c.resolver) && Valid(w) && Plain(c, o) && o.limit == 0 && AllDone(fates) && CompleteTick(c, o, w, fates, moves)
    requires After(c, w, Tick(o, fates, moves)) == Some(v)
    ensures Valid(v) && !v.latched && (t in o.stages ==> Settled(c, t, v))
  {
    var triaged, reocred, done := TickInSteps(c, o, w, fates, moves);
    var a, b, d := Pass(o, Triage, None, fates, moves(Triage)), Pass(o, Reocr, None, fates, moves(Reocr)),
                   Pass(o, Metadata, None, fates, moves(Metadata));
    GoodPassRuns(c, w.(latched := false), a);
    GoodPassRuns(c, triaged, b);
    GoodPassRuns(c, reocred, d);
    if t in o.stages {
      if t == Triage {
        PassSettles(c, w.(latched := false), a, t);
      }
      if t != Metadata {
        PassSettles(c, triaged, b, t);
      }
      PassSettles(c, reocred, d, t);
    }
  }

  lemma {:induction false} IdleTick(c: Config, o: Options, v: World, fates: Fates, moves: Stage -> seq<WP.Move>)
    requires WellFormed(c.resolver) && Valid(v) && !v.latched && !o.force && forall t :: t in o.stages ==> Settled(c, t, v)
    requires After(c, v, Tick(o, fates, moves)).Some?
    ensures After(c, v, Tick(o, fates, moves)) == Some(v)
  {
    assert v.(latched := false) == v;
    var triaged, reocred, done := TickInSteps(c, o, v, fates, moves);
    IdlePass(c, v, Pass(o, Triage, None, fates, moves(Triage)));
    IdlePass(c, v, Pass(o, Reocr, None, fates, moves(Reocr)));
    IdlePass(c, v, Pass(o, Metadata, None, fates, moves(Metadata)));
  }

  /** One successful tick is a fixpoint: without force or limit, writing, and with
      'metadata_done' not eligible, the next tick, whatever limit, mode, workers and
      schedule it has and whatever the providers would answer, writes nothing, calls no
      provider and takes no snapshot, whichever stages are enabled and counting documents
      the first tick created. */
  lemma {:induction false} OneTickIsFixpoint(c: Config, o: Options, w: World, fates: Fates, moves: Stage -> seq<WP.Move>,
                                             next: Options, later: Fates, laterMoves: Stage -> seq<WP.Move>)
    requires WellFormed(c.resolver) && Valid(w) && Plain(c, o) && o.limit == 0 && AllDone(fates) && CompleteTick(c, o, w, fates, moves)
    requires !next.force && next.stages <= o.stages
    requires After(c, w, Tick(o, fates, moves)).Some?
    requires After(c, After(c, w, Tick(o, fates, moves)).value, Tick(next, later, laterMoves)).Some?
    ensures var v := After(c, w, Tick(o, fates, moves)).value;
            After(c, v, Tick(next, later, laterMoves)) == Some(v)
  {
    var v := After(c, w, Tick(o, fates, moves)).value;
    TickSettles(c, o, w, fates, moves, v, Triage);
    forall t | t in next.stages
      ensures Settled(c, t, v)
    {
      TickSettles(c, o, w, fates, moves, v, t);
    }
    IdleTick(c, next, v, later, laterMoves);
  }

  // ----- a nudge -----------------------------------------------------------

  lemma {:induction false} NudgeInSteps(c: Config, o: Options, w: World, id: DocId, fates: Fates, moves: Stage -> seq<WP.Move>)
    returns (triaged: World, reocred: World, done: World)
    requires WellFormed(c.resolver) && After(c, w, Nudge(o, id, fates, moves)).Some?
    ensures AfterPass(c, w, Pass(o, Triage, Some(id), fates, moves(Triage))) == Some(triaged)
    ensures AfterPass(c, triaged, Pass(o, Reocr, Some(id), fates, moves(Reocr))) == Some(reocred)
    ensures AfterPass(c, reocred, Pass(o, Metadata, Some(id), fates, moves(Metadata))) == Some(done)
    ensures After(c, w, Nudge(o, id, fates, moves)) == Some(done)
  {
    var e := Nudge(o, id, fates, moves);
    AfterFour(c, w, e[0], e[1], e[2], e[2]);
    AfterOne(c, w, e[0]);
    triaged := AfterPass(c, w, e[0].pass).value;
    AfterOne(c, triaged, e[1]);
    reocred := AfterPass(c, triaged, e[1].pass).value;
    AfterOne(c, reocred, e[2]);
    done := AfterPass(c, reocred, e[2].pass).value;
  }

  /** A nudge's pass settles its document for its own stage, and keeps it settled. */
  lemma {:induction false} NudgePassSettles(c: Config, w: World, p: Pass, id: DocId, t: Stage)
    requires WellFormed(c.resolver) && Good(c, w, p) && p.nudge == Some(id) && id in w.docs && w.docs[id].content != EMPTY
    requires NotBefore(t, p.s) && ((t == p.s && t in p.o.stages) || !Queued(c, t, false, w.docs[id]))
    ensures AfterPass(c, w, p).Some? && id in AfterPass(c, w, p).value.docs
    ensures !Queued(c, t, false, AfterPass(c, w, p).value.docs[id])
  {
    GoodPassRuns(c, w, p);
    if Runs(w, p) {
      var j := JobFor(c, w, p);
      PassIsOk(c, w, p);
      ReachableShape(j, w, p.moves);
      DocSettles(j, w, Play(j, Start(j, w), p.moves).value, t, id);
    }
  }

  lemma RunKeepsText(j: Job, w: World, r: Run, id: DocId)
    requires WellFormed(j.c.resolver) && j.fetched == w.docs && DocsShape(j, r.lib.w.docs, r.pool.progress) && id in w.docs
    ensures id in r.lib.w.docs && r.lib.w.docs[id].content == w.docs[id].content
  {
    OwnKeepsText(j.c, j.s, w.docs[id], j.fates(j.s, id).work);
  }

  lemma OwnKeepsText(c: Config, s: Stage, d: Doc, work: Work)
    requires WellFormed(c.resolver)
    ensures OwnWrite(c, s, d, work).content == d.content
  {
  }

  lemma {:induction false} NudgeKeepsText(c: Config, w: World, p: Pass, id: DocId)
    requires WellFormed(c.resolver) && Valid(w) && AfterPass(c, w, p).Some? && id in w.docs
    ensures var v := AfterPass(c, w, p).value; Valid(v) && id in v.docs && v.docs[id].content == w.docs[id].content
  {
    if Runs(w, p) {
      var j := JobFor(c, w, p);
      PassIsOk(c, w, p);
      ReachableShape(j, w, p.moves);
      RunKeepsText(j, w, Play(j, Start(j, w), p.moves).value, id);
    }
  }

  lemma {:induction false} NudgeSettles(c: Config, o: Options, w: World, id: DocId, fates: Fates, moves: Stage -> seq<WP.Move>, v: World, t: Stage)
    requires WellFormed(c.resolver) && Valid(w) && Plain(c, o) && AllDone(fates) && CompleteNudge(c, o, w, id, fates, moves)
    requires id in w.docs && w.docs[id].content != EMPTY && After(c, w, Nudge(o, id, fates, moves)) == Some(v)
    ensures Valid(v) && id in v.docs && (t in o.stages ==> !Queued(c, t, false, v.docs[id]))
  {
    var triaged, reocred, done := NudgeInSteps(c, o, w, id, fates, moves);
    var a, b, d := Pass(o, Triage, Some(id), fates, moves(Triage)), Pass(o, Reocr, Some(id), fates, moves(Reocr)),
                   Pass(o, Metadata, Some(id), fates, moves(Metadata));
    NudgeKeepsText(c, w, a, id);
    NudgeKeepsText(c, triaged, b, id);
    NudgeKeepsText(c, reocred, d, id);
    if t in o.stages {
      if t == Triage {
        NudgePassSettles(c, w, a, id, t);
      }
      if t != Metadata {
        NudgePassSettles(c, triaged, b, id, t);
      }
      NudgePassSettles(c, reocred, d, id, t);
    }
  }

  /** After a successful nudge a duplicate of it is a no-op, whatever mode and schedule it has
      and whatever the providers would answer. */
  lemma {:induction false} DuplicateNudgeIsNoOp(c: Config, o: Options, w: World, id: DocId, fates: Fates, moves: Stage -> seq<WP.Move>,
                                                next: Options, later: Fates, laterMoves: Stage -> seq<WP.Move>)
    requires WellFormed(c.resolver) && Valid(w) && Plain(c, o) && AllDone(fates) && CompleteNudge(c, o, w, id, fates, moves)
    requires id in w.docs && w.docs[id].content != EMPTY && !next.force && next.stages <= o.stages
    requires After(c, w, Nudge(o, id, fates, moves)).Some?
    requires After(c, After(c, w, Nudge(o, id, fates, moves)).value, Nudge(next, id, later, laterMoves)).Some?
    ensures var v := After(c, w, Nudge(o, id, fates, moves)).value;
            After(c, v, Nudge(next, id, later, laterMoves)) == Some(v)
  {
    var v := After(c, w, Nudge(o, id, fates, moves)).value;
    NudgeSettles(c, o, w, id, fates, moves, v, Triage);
    forall t | t in next.stages
      ensures !Queued(c, t, false, v.docs[id])
    {
      NudgeSettles(c, o, w, id, fates, moves, v, t);
    }
    var triaged, reocred, done := NudgeInSteps(c, next, v, id, later, laterMoves);
    IdlePass(c, v, Pass(next, Triage, Some(id), later, laterMoves(Triage)));
    IdlePass(c, v, Pass(next, Reocr, Some(id), later, laterMoves(Reocr)));
    IdlePass(c, v, Pass(next, Metadata, Some(id), later, laterMoves(Metadata)));
  }

  // ----- dry runs ----------------------------------------------------------

  lemma {:induction false} DryPass(c: Config, w: World, p: Pass)
    requires WellFormed(c.resolver) && Valid(w) && p.o.dry && AfterPass(c, w, p).Some?
    ensures var v := AfterPass(c, w, p).value; Valid(v) && v.docs == w.docs && v.writes == w.writes
  {
    if Runs(w, p) {
      PassIsOk(c, w, p);
      ReachableShape(JobFor(c, w, p), w, p.moves);
      DryRun(JobFor(c, w, p), w, p.moves);
    }
  }

  /** Any sequence of dry ticks and nudges, the first ever tick among them, changes no
      document and sends no document write, forced or not. */
  lemma {:induction false} DryWritesNothing(c: Config, w: World, events: seq<Event>)
    requires WellFormed(c.resolver) && Valid(w) && After(c, w, events).Some?
    requires forall e :: e in events && e.Passes? ==> e.pass.o.dry
    ensures var v := After(c, w, events).value; Valid(v) && v.docs == w.docs && v.writes == w.writes
  {
    if events != [] {
      var front, e := events[..|events| - 1], events[|events| - 1];
      DryWritesNothing(c, w, front);
      assert e in events;
      if e.Passes? {
        DryPass(c, After(c, w, front).value, e.pass);
      }
    }
  }

  // ----- what a tick asks --------------------------------------------------

  /** What a pass asks the providers is what its pool's schedule logs, at most as often per
      document as its work says; a stage the run's flag keeps from starting, and triage, ask
      nothing. */
  lemma {:induction false} PassAsks(c: Config, w: World, p: Pass)
    requires WellFormed(c.resolver) && Valid(w) && AfterPass(c, w, p).Some?
    ensures Runs(w, p) ==>
              var plan := PlanOf(JobFor(c, w, p));
              && WP.PlanOk(plan) && WP.Play(plan, WP.Start(plan), p.moves).Some?
              && AfterPass(c, w, p).value.calls == w.calls + Tagged(p.s, PC.Calls(plan, WP.Start(plan), p.moves))
              && forall id :: PC.Times(PC.Calls(plan, WP.Start(plan), p.moves), id)
                              <= if p.s == Triage then 0 else p.fates(p.s, id).work.asks
    ensures p.nudge.None? && p.s != Triage && w.latched ==> AfterPass(c, w, p).value.calls == w.calls
  {
    if Runs(w, p) {
      var j := JobFor(c, w, p);
      PassIsOk(c, w, p);
      CallsAreLogged(j, Start(j, w), p.moves);
      forall id: DocId
        ensures PC.Times(PC.Calls(PlanOf(j), WP.Start(PlanOf(j)), p.moves), id) <= Asks(j, id)
      {
        AskedAtMost(j, w, p.moves, id);
      }
    }
  }
}
