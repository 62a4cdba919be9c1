/** The sweep itself, working in place on the library and the snapshot folder. */
module Sweeping {
  import opened Messages
  import opened Documents
  import opened SweepTick
  import opened StageRun
  import opened SweepTheorems
  import opened Snapshots
  import opened Faults
  import opened Pipelines
  import WP = WorkerPool
  import X = Extraction

  class Sweep {
    const config: Config
    var docs: map<DocId, Doc>
    var listing: seq<DocId>
    var nextId: DocId
    var snapshots: map<(Stage, DocId), Snap>
    var writes: seq<DocId>
    var calls: seq<(Stage, DocId)>
    var latched: bool

    ghost function State(): World
      reads this
    {
      World(docs, listing, nextId, snapshots, writes, calls, latched)
    }

    constructor (config: Config, w: World)
      ensures this.config == config && State() == w
    {
      this.config := config;
      docs, listing, nextId, snapshots := w.docs, w.listing, w.nextId, w.snapshots;
      writes, calls, latched := w.writes, w.calls, w.latched;
    }

    // ----- which documents -------------------------------------------------

    /** The first stage entry decides, so the loop returns there. */
    static method HandledAlready(r: Resolver, fields: seq<Field>) returns (yes: bool)
      requires WellFormed(r)
      ensures yes == AlreadyTriaged(r, fields)
    {
      for i := 0 to |fields|
        invariant AlreadyTriaged(r, fields) == AlreadyTriaged(r, fields[i..])
      {
        if fields[i].id == r.stageId {
          return RoleOf(r, fields[i].value).Some?;
        }
      }
      return false;
    }

    /** The custom fields as a dictionary. */
    static method AsDictionary(fields: seq<Field>) returns (cf: map<nat, Value>)
      ensures forall id :: Get(fields, id) == if id in cf then cf[id] else Null
    {
      cf := map[];
      for i := 0 to |fields|
        invariant forall id :: Get(fields[..i], id) == if id in cf then cf[id] else Null
      {
        assert fields[..i + 1][..i] == fields[..i];
        cf := cf[fields[i].id := fields[i].value];
      }
      assert fields[..|fields|] == fields;
    }

    method Matches(o: Options, s: Stage, id: DocId) returns (yes: bool)
      requires WellFormed(config.resolver) && id in docs
      ensures yes == Queued(config, s, o.force, docs[id])
    {
      var r := config.resolver;
      if s == Triage {
        var handled := HandledAlready(r, docs[id].fields);
        return o.force || !handled;
      }
      var cf := AsDictionary(docs[id].fields);
      var stage := if r.stageId in cf then cf[r.stageId] else Null;
      var score := ReadNumber(config.numberOf, if r.scoreId in cf then cf[r.scoreId] else Null);
      if s == Reocr {
        if stage != ValueFor(r, Triaged) {
          return false;
        }
        return score.Some? && score.value >= config.triageThreshold;
      }
      if LabelOf(r, stage) !in config.eligible {
        return false;
      }
      return !(score.Some? && score.value >= config.garbageThreshold);
    }

    /** Pages through the listing until the limit is reached. */
    method FetchQueue(o: Options, s: Stage) returns (queue: seq<DocId>)
      requires WellFormed(config.resolver)
      ensures queue == Pick(config, o, s, State(), listing)
    {
      queue := [];
      for i := 0 to |listing|
        invariant queue == Pick(config, o, s, State(), listing[..i])
      {
        assert listing[..i + 1][..i] == listing[..i];
        var id := listing[i];
        var take := s == Triage;
        if !take && id in docs {
          take := Matches(o, s, id);
        }
        if take {
          if o.limit > 0 && |queue| >= o.limit {
            PickIsFull(config, o, s, State(), listing, i);
            return;
          }
          queue := queue + [id];
        }
      }
      assert listing[..|listing|] == listing;
    }

    method Do(a: Action)
      modifies this
      ensures State() == Perform(old(State()), a)
    {
      match a {
        case TakeSnapshot(s, snap) =>
          if (s, snap.doc.id) !in snapshots {
            snapshots := snapshots[(s, snap.doc.id) := snap];
          }
        case CallProvider(s, id) =>
          calls := calls + [(s, id)];
        case Consume(d) =>
          docs := docs[nextId := d.(id := nextId)];
          listing := listing + [nextId];
          writes := writes + [nextId];
          nextId := nextId + 1;
        case Patch(d) =>
          docs := docs[d.id := d];
          writes := writes + [d.id];
      }
    }

    // ----- the three pipelines ---------------------------------------------

    /** Sends a patch; it lands unless it fails without landing. */
    method Send(d: Doc, reply: Reply) returns (accepted: bool)
      modifies this
      ensures accepted <==> reply.Accepted?
      ensures State() == if reply.Failed? && !reply.landed then old(State()) else Perform(old(State()), Patch(d))
    {
      if reply.Accepted? || reply.landed {
        Do(Patch(d));
      }
      accepted := reply.Accepted?;
    }

    /** Where a document handled by itself stands after `n` actions. */
    ghost predicate At(j: Job, l: Lib, id: DocId, n: nat)
      requires WellFormed(j.c.resolver) && id in j.fetched
      reads this
    {
      State() == Alone(j, l, id, n).w
    }

    method TriageOne(o: Options, nudged: bool, id: DocId, patch: Reply) returns (status: Status)
      requires WellFormed(config.resolver) && id in docs && docs[id].id == id
      modifies this
      ensures var j := Single(config, o, Triage, nudged, old(docs), id, TriageFate(patch));
              var outcome := TriageOutcome(Queued(config, Triage, o.force, old(docs)[id]), patch, o.dry);
              && status == outcome.0 && outcome.1 == Limit(j, id) && (Fatal(j, id) <==> FatalStatus(status))
              && At(j, Lib(old(State()), map[], map[]), id, outcome.1)
      ensures TriageDoes(config, o, id, patch, old(State()), State(), status)
    {
      ghost var j := Single(config, o, Triage, nudged, docs, id, TriageFate(patch));
      ghost var l := Lib(State(), map[], map[]);
      TriageReaches(j, id, patch);
      TriageDoesIt(j, l, id, patch);
      status := HandleTriage(o, nudged, id, patch, j, l);
    }

    method HandleTriage(o: Options, nudged: bool, id: DocId, patch: Reply, ghost j: Job, ghost l: Lib) returns (status: Status)
      requires WellFormed(config.resolver) && id in docs && docs[id].id == id
      requires j == Single(config, o, Triage, nudged, docs, id, TriageFate(patch)) && l == Lib(State(), map[], map[])
      modifies this
      ensures var outcome := TriageOutcome(Queued(config, Triage, o.force, old(docs)[id]), patch, o.dry);
              status == outcome.0 && At(j, l, id, outcome.1)
    {
      var handled := HandledAlready(config.resolver, docs[id].fields);
      if !o.force && handled {
        return Skipped;
      }
      var d := docs[id];
      var (score, note) := config.rate(d.content);
      if o.dry {
        return DryRun;
      }
      Do(TakeSnapshot(Triage, Snap(Keys(Triage, nudged), d)));
      assert At(j, l, id, 1);
      TriagePatches(j, l, id);
      var sent := Send(d.(fields := MergeTriage(config, d.fields, score, note)), patch);
      status := if sent then Finished else Error(patch.fault);
    }

    /** Up to the transcription; None to go on. */
    method Transcribe(o: Options, nudged: bool, id: DocId, a: ReocrAnswers) returns (stop: Option<Status>)
      requires WellFormed(config.resolver) && id in docs && docs[id].id == id
      modifies this
      ensures var j := Single(config, o, Reocr, nudged, old(docs), id, ReocrFate(a, o.dry));
              var l := Lib(old(State()), map[], map[]);
              var outcome := ReocrOutcome(a, o.dry);
              if stop.Some? then stop.value == outcome.0 && At(j, l, id, outcome.1)
              else !o.dry && At(j, l, id, 2) && docs == old(docs) && nextId == old(nextId)
                   && outcome == UploadOutcome(a)
    {
      ghost var j := Single(config, o, Reocr, nudged, docs, id, ReocrFate(a, o.dry));
      ghost var l := Lib(State(), map[], map[]);
      if !o.dry && a.periodCap {
        return Some(SpendCap);
      }
      if a.vision.Some? {
        return Some(Error(NoVision(a.vision.value)));
      }
      Do(TakeSnapshot(Reocr, Snap(Keys(Reocr, nudged), docs[id])));
      assert At(j, l, id, 1);
      if a.runCap {
        return Some(SpendCap);
      }
      if a.download.Some? {
        return Some(Error(a.download.value));
      }
      Do(CallProvider(Reocr, id));
      assert At(j, l, id, 2);
      if a.ocr.OcrRaises? {
        return Some(Error(a.ocr.fault));
      }
      if a.ocr.blank {
        return Some(EmptyOcr);
      }
      if a.overlay.Some? {
        return Some(Error(a.overlay.value));
      }
      if o.dry {
        return Some(DryRun);
      }
      return None;
    }

    /** The corrected document goes in; then its id is looked up. */
    method Replace(id: DocId, a: ReocrAnswers, ghost j: Job, ghost l: Lib) returns (status: Status)
      requires WellFormed(config.resolver) && j.c == config && j.s == Reocr && id in docs && j.fetched == docs && docs[id].id == id
      requires Asks(j, id) == 1 && j.fates(Reocr, id).work.consumed == ConsumedBy(a)
      requires l.w.nextId == nextId && l.newId == map[] && At(j, l, id, 2)
      modifies this
      ensures status == UploadOutcome(a).0 && At(j, l, id, UploadOutcome(a).1)
    {
      ReocrWrites(j, l, id);
      var d, newId := docs[id], nextId;
      match a.upload {
        case UploadFails(landed, fault) =>
          if landed.Some? {
            Do(Consume(landed.value));
          }
          status := Error(Unanswered(fault));
        case NotConsumed(fault) =>
          status := Error(fault);
        case Uploaded(made, search) =>
          Do(Consume(made));
          assert At(j, l, id, 3);
          match search {
            case SearchRaises(fault) => status := Error(fault);
            case Unknown => status := NoNewId;
            case Found => status := CarryOver(d, newId, id, a, j, l);
          }
      }
    }

    /** The new document takes over the old one's fields, and the old one is marked
        superseded. */
    method CarryOver(d: Doc, newId: DocId, id: DocId, a: ReocrAnswers, ghost j: Job, ghost l: Lib) returns (status: Status)
      requires WellFormed(config.resolver) && j.c == config && j.s == Reocr && id in j.fetched && j.fetched[id] == d && d.id == id
      requires Asks(j, id) == 1 && j.fates(Reocr, id).work.consumed == ConsumedBy(a)
      requires l.w.nextId == newId && l.newId == map[] && At(j, l, id, 3)
      requires a.upload.Uploaded? && a.upload.search.Found?
      modifies this
      ensures status == UploadOutcome(a).0 && At(j, l, id, UploadOutcome(a).1)
    {
      ReocrWrites(j, l, id);
      var carried := Send(CarryWrite(config, ConsumedBy(a).(id := newId), d), a.carry);
      if !carried {
        return Error(a.carry.fault);
      }
      var superseded := Send(SupersedeWrite(config, d), a.own);
      status := if superseded then Finished else Error(a.own.fault);
    }

    method ReocrOne(o: Options, nudged: bool, id: DocId, a: ReocrAnswers) returns (status: Status)
      requires WellFormed(config.resolver) && id in docs && docs[id].id == id
      modifies this
      ensures var j := Single(config, o, Reocr, nudged, old(docs), id, ReocrFate(a, o.dry));
              && status == ReocrOutcome(a, o.dry).0 && (Fatal(j, id) <==> FatalStatus(status))
              && At(j, Lib(old(State()), map[], map[]), id, Limit(j, id))
      ensures ReocrEnds(a, o.dry, status) && ReocrRaises(a, o.dry, status)
      ensures ReocrDoes(config, o.dry, id, a, old(State()), State())
    {
      ghost var j := Single(config, o, Reocr, nudged, docs, id, ReocrFate(a, o.dry));
      ghost var l := Lib(State(), map[], map[]);
      ReocrReaches(j, id, a);
      ReocrSays(a, o.dry);
      ReocrFaults(a, o.dry);
      ReocrDoesIt(j, l, id, a);
      status := HandleReocr(o, nudged, id, a, j, l);
    }

    method HandleReocr(o: Options, nudged: bool, id: DocId, a: ReocrAnswers, ghost j: Job, ghost l: Lib) returns (status: Status)
      requires WellFormed(config.resolver) && id in docs && docs[id].id == id
      requires j == Single(config, o, Reocr, nudged, docs, id, ReocrFate(a, o.dry)) && l == Lib(State(), map[], map[])
      modifies this
      ensures status == ReocrOutcome(a, o.dry).0 && At(j, l, id, ReocrOutcome(a, o.dry).1)
    {
      var stop := Transcribe(o, nudged, id, a);
      if stop.Some? {
        return stop.value;
      }
      status := Replace(id, a, j, l);
    }

    /** Extraction first; only what the retry loop returns is applied. */
    method MetadataOne(o: Options, nudged: bool, id: DocId, a: MetadataAnswers) returns (status: Status)
      requires WellFormed(config.resolver) && id in docs && docs[id].id == id
      modifies this
      ensures var j := Single(config, o, Metadata, nudged, old(docs), id, MetadataFate(a, o.dry));
              && status == MetadataOutcome(a, o.dry).0 && (Fatal(j, id) <==> FatalStatus(status))
              && At(j, Lib(old(State()), map[], map[]), id, Limit(j, id))
      ensures MetadataRaises(a, o.dry, status)
      ensures MetadataDoes(config, o.dry, id, a, old(State()), State(), status)
    {
      ghost var j := Single(config, o, Metadata, nudged, docs, id, MetadataFate(a, o.dry));
      ghost var l := Lib(State(), map[], map[]);
      MetadataReaches(j, id, a);
      MetadataFaults(a, o.dry);
      MetadataDoesIt(j, l, id, a);
      status := HandleMetadata(o, nudged, id, a, j, l);
    }

    method HandleMetadata(o: Options, nudged: bool, id: DocId, a: MetadataAnswers, ghost j: Job, ghost l: Lib) returns (status: Status)
      requires WellFormed(config.resolver) && id in docs && docs[id].id == id
      requires j == Single(config, o, Metadata, nudged, docs, id, MetadataFate(a, o.dry)) && l == Lib(State(), map[], map[])
      modifies this
      ensures status == MetadataOutcome(a, o.dry).0 && At(j, l, id, MetadataOutcome(a, o.dry).1)
    {
      if (!o.dry && a.periodCap) || a.runCap {
        return SpendCap;
      }
      Do(TakeSnapshot(Metadata, Snap(Keys(Metadata, nudged), docs[id])));
      assert At(j, l, id, 1);
      status := ExtractAndApply(o.dry, id, a, j, l);
    }

    /** The retry loop, and what comes of it. */
    method ExtractAndApply(dry: bool, id: DocId, a: MetadataAnswers, ghost j: Job, ghost l: Lib) returns (status: Status)
      requires WellFormed(config.resolver) && j.c == config && j.s == Metadata && id in docs && j.fetched == docs && docs[id].id == id
      requires j.fates(Metadata, id).work == MetadataWork(a) && At(j, l, id, 1) && (dry || !a.periodCap) && !a.runCap
      modifies this
      ensures status == MetadataOutcome(a, dry).0 && At(j, l, id, MetadataOutcome(a, dry).1)
    {
      var result := AskUntilValid(id, a, j, l);
      match result {
        case NeverValid(_) => return Error(ExtractFault(a));
        case ProviderError => return Error(a.fault);
        case Extracted(data, _, _, _) => status := Apply(dry, id, data, a, j, l);
      }
    }

    /** What the extracted data resolves to goes into the document's patch. */
    method Apply(dry: bool, id: DocId, data: Data, a: MetadataAnswers, ghost j: Job, ghost l: Lib) returns (status: Status)
      requires WellFormed(config.resolver) && j.c == config && j.s == Metadata && id in docs && j.fetched == docs && docs[id].id == id
      requires j.fates(Metadata, id).work == MetadataWork(a) && Pipelines.Extracted(a) == Some(data)
      requires At(j, l, id, 1 + X.Made(a.valid, a.attempts)) && (dry || !a.periodCap) && !a.runCap
      modifies this
      ensures status == MetadataOutcome(a, dry).0 && At(j, l, id, MetadataOutcome(a, dry).1)
    {
      if dry {
        return DryRun;
      }
      var resolution := ResolveNames(a.look, data);
      if resolution.Unresolved? {
        return Error(resolution.fault);
      }
      MetadataWrites(j, l, id, a, resolution.meta, 1 + X.Made(a.valid, a.attempts));
      var applied := Send(MetadataWrite(config, docs[id], resolution.meta), a.own);
      status := if applied then Finished else Error(a.own.fault);
    }

    /** Looks up or creates what the data names, in order. */
    static method ResolveNames(look: Taxonomy, data: Data) returns (resolution: Resolution)
      ensures resolution == Resolve(look, data)
    {
      var title := if data.title == EMPTY then None else Some(data.title);
      var created, correspondent, documentType := false, None, None;
      if data.correspondent != EMPTY {
        var found := look(Correspondents, data.correspondent);
        if found.Denied? {
          return Unresolved(found.fault);
        }
        created := created || found.Created?;
        correspondent := if found.id == 0 then None else Some(found.id);
      }
      if data.documentType != EMPTY {
        var found := look(DocumentTypes, data.documentType);
        if found.Denied? {
          return Unresolved(found.fault);
        }
        created := created || found.Created?;
        documentType := if found.id == 0 then None else Some(found.id);
      }
      var tags, fault, more := ResolveTags(look, data.tags);
      if fault.Some? {
        return Unresolved(fault.value);
      }
      return Resolved(Meta(title, correspondent, documentType, tags, created || more));
    }

    static method ResolveTags(look: Taxonomy, names: seq<Documents.Text>) returns (ids: set<nat>, fault: Option<Fault>, created: bool)
      ensures fault == TagsFault(look, names)
      ensures fault.None? ==> ids == TagIds(look, names) && created == TagsCreate(look, names)
    {
      ids, fault, created := {}, None, false;
      for i := 0 to |names|
        invariant fault == TagsFault(look, names[..i]) == None
        invariant ids == TagIds(look, names[..i]) && created == TagsCreate(look, names[..i])
      {
        assert names[..i + 1][..i] == names[..i];
        if names[i] != EMPTY {
          var found := look(TagNames, names[i]);
          if found.Denied? {
            FirstFault(look, names, i + 1);
            return ids, Some(found.fault), created;
          }
          created := created || found.Created?;
          ids := ids + if found.id == 0 then {} else {found.id};
        }
      }
      assert names[..|names|] == names;
    }

    /** The retry loop's calls. */
    method AskUntilValid(id: DocId, a: MetadataAnswers, ghost j: Job, ghost l: Lib) returns (result: X.Result<Data>)
      requires WellFormed(j.c.resolver) && id in j.fetched && j.s == Metadata && Asks(j, id) == X.Made(a.valid, a.attempts)
      requires At(j, l, id, 1)
      modifies this`calls
      ensures At(j, l, id, 1 + X.Made(a.valid, a.attempts))
      ensures match result
              case Extracted(data, _, _, _) => Pipelines.Extracted(a) == Some(data)
              case NeverValid(_) => Pipelines.Extracted(a) == None && !Raised(a)
              case ProviderError => Pipelines.Extracted(a) == None && Raised(a)
    {
      var asked;
      result, asked := X.ExtractValidated(a.valid, a.attempts);
      for i := 0 to asked
        invariant At(j, l, id, 1 + i)
      {
        calls := calls + [(Metadata, id)];
      }
    }

    // ----- the pool, the stages, the tick and the nudge --------------------

    /** The stage's pool: whichever of its moves comes next, a worker taking a document,
        reading the flag, acting or returning, or the collector. A `next` that names no
        possible move breaks the stage off, as a crash would. */
    method Drain(j: Job, next: WP.Pool -> WP.Move) returns (finished: bool, ghost moves: seq<WP.Move>)
      requires JobOk(j, State()) && j.c == config
      modifies this
      ensures var done := Play(j, StageRun.Start(j, old(State())), moves);
              done.Some? && State() == done.value.lib.w && (finished ==> WP.Finished(PlanOf(j), done.value.pool))
    {
      ghost var start := StageRun.Start(j, State());
      var plan := PlanOf(j);
      var pool := WP.Start(plan);
      var newId: map<DocId, DocId>, origin: map<DocId, DocId> := map[], map[];
      moves := [];
      WP.StartIsTidy(plan);
      while !WP.Finished(plan, pool)
        invariant Play(j, start, moves) == Some(Run(pool, Lib(State(), newId, origin)))
        invariant WP.Tidy(plan, pool)
        decreases WP.TotalLeft(plan, pool, plan.queue)
      {
        var m := next(pool);
        if !WP.Enabled(plan, pool, m) {
          return false, moves;
        }
        ghost var r := Run(pool, Lib(State(), newId, origin));
        StageCan(j, start.lib.w, r, m);
        WP.MoveKeepsTidy(plan, pool, m);
        WP.EveryMoveCounts(plan, pool, m);
        newId, origin := Move(j, pool, newId, origin, m);
        Follow(j, start, moves, r, m);
        moves := moves + [m];
        pool := WP.Next(plan, pool, m);
      }
      finished := true;
    }

    /** What a move of the pool does to the library. */
    method Move(j: Job, pool: WP.Pool, newId: map<DocId, DocId>, origin: map<DocId, DocId>, m: WP.Move)
      returns (newId': map<DocId, DocId>, origin': map<DocId, DocId>)
      requires WellFormed(j.c.resolver) && StageRun.Enabled(j, Run(pool, Lib(State(), newId, origin)), m)
      modifies this
      ensures Lib(State(), newId', origin') == StageRun.Next(j, Run(pool, Lib(old(State()), newId, origin)), m).lib
    {
      newId', origin' := newId, origin;
      match m {
        case Act(id) =>
          var a := ActionAt(j, id, if id in newId then newId[id] else 0, pool.progress[id]);
          if a.Consume? {
            newId', origin' := newId[id := nextId], origin[nextId := id];
          }
          Do(a);
        case Collect(id) =>
          if Fatal(j, id) && !pool.abort && j.fates(j.s, id).failure == FailsRun {
            latched := true;
          }
        case _ =>
      }
    }

    /** A stage, of a tick or for a nudged document. */
    method RunStage(o: Options, s: Stage, nudge: Option<DocId>, fates: Fates, next: WP.Pool -> WP.Move)
      returns (finished: bool, ghost moves: seq<WP.Move>)
      requires WellFormed(config.resolver) && Valid(State())
      modifies this
      ensures var p := Pass(o, s, nudge, fates, moves);
              && AfterPass(config, old(State()), p) == Some(State())
              && (finished ==> Complete(config, old(State()), p))
      ensures Valid(State())
    {
      ghost var before := State();
      finished, moves := true, [];
      if s !in o.stages || (nudge.None? && s != Triage && latched) {
        return;
      }
      var queue := [];
      match nudge {
        case None => queue := FetchQueue(o, s);
        case Some(id) => queue := Pulled(o, s, id);
      }
      PassIsOk(config, before, Pass(o, s, nudge, fates, []));
      var j := Job(config, o, s, nudge.Some?, queue, docs, fates);
      finished, moves := Drain(j, next);
      PassKeepsValid(config, before, Pass(o, s, nudge, fates, moves));
    }

    /** The nudged document, if the stage works on it. */
    method Pulled(o: Options, s: Stage, id: DocId) returns (queue: seq<DocId>)
      requires WellFormed(config.resolver)
      ensures queue == QueueFor(config, State(), Pass(o, s, Some(id), (stage, x) => Done(NOTHING), []))
    {
      if id !in docs || docs[id].content == EMPTY {
        return [];
      }
      var take := s == Triage;
      if !take {
        take := Matches(o, s, id);
      }
      queue := if take then [id] else [];
    }

    /** The three stages in order, for a tick or a nudge; a crash ends it. What happened is a
        run of passes, all three if nothing crashed. */
    method RunStages(o: Options, nudge: Option<DocId>, replies: Replies, next: Stage -> WP.Pool -> WP.Move)
      returns (finished: bool, ghost passes: seq<Event>, ghost moves: Stage -> seq<WP.Move>)
      requires WellFormed(config.resolver) && Valid(State())
      modifies this
      ensures Valid(State()) && After(config, old(State()), passes) == Some(State())
      ensures Only(o, FatesOf(replies, o.dry), passes)
      ensures finished ==>
                var fates := FatesOf(replies, o.dry);
                var a, b, d := Pass(o, Triage, nudge, fates, moves(Triage)), Pass(o, Reocr, nudge, fates, moves(Reocr)),
                               Pass(o, Metadata, nudge, fates, moves(Metadata));
                passes == [Passes(a), Passes(b), Passes(d)] && CompleteThree(config, old(State()), a, b, d)
    {
      var fates := FatesOf(replies, o.dry);
      ghost var before, triage, reocr, metadata := State(), [], [], [];
      finished, triage := RunStage(o, Triage, nudge, fates, next(Triage));
      passes := Happened(before, [], Pass(o, Triage, nudge, fates, triage));
      if finished {
        finished, reocr := RunStage(o, Reocr, nudge, fates, next(Reocr));
        passes := Happened(before, passes, Pass(o, Reocr, nudge, fates, reocr));
      }
      if finished {
        finished, metadata := RunStage(o, Metadata, nudge, fates, next(Metadata));
        passes := Happened(before, passes, Pass(o, Metadata, nudge, fates, metadata));
      }
      moves := (s: Stage) => match s case Triage => triage case Reocr => reocr case Metadata => metadata;
    }

    /** One more pass in the ghost record. */
    ghost method Happened(before: World, events: seq<Event>, p: Pass) returns (more: seq<Event>)
      requires WellFormed(config.resolver)
      requires After(config, before, events).Some?
      requires AfterPass(config, After(config, before, events).value, p) == Some(State())
      ensures more == events + [Passes(p)] && After(config, before, more) == Some(State())
    {
      more := events + [Passes(p)];
      assert more[..|events|] == events;
    }

    /** One tick. Whatever it does is a run of passes, all of a tick if nothing crashes. From a
        sound library it leaves a sound one in which nothing went back, and a dry one changes
        no document. */
    method RunOnce(o: Options, replies: Replies, next: Stage -> WP.Pool -> WP.Move)
      returns (finished: bool, ghost events: seq<Event>, ghost moves: Stage -> seq<WP.Move>)
      requires WellFormed(config.resolver) && Valid(State())
      modifies this
      ensures After(config, old(State()), events) == Some(State()) && Only(o, FatesOf(replies, o.dry), events)
      ensures var fates := FatesOf(replies, o.dry);
              finished ==> events == Tick(o, fates, moves) && CompleteTick(config, o, old(State()), fates, moves)
      ensures Sound(config, old(State())) && Mints(config, FatesOf(replies, o.dry)) && !o.force
              ==> Sound(config, State()) && Kept(config, old(State()), State())
      ensures o.dry ==> docs == old(docs) && writes == old(writes)
    {
      ghost var before := State();
      latched := false;
      ghost var passes;
      finished, passes, moves := RunStages(o, None, replies, next);
      events := [Begin] + passes;
      AfterBegin(config, before, passes);
      RunsAreSafe(config, o, before, events, FatesOf(replies, o.dry));
    }

    /** The nudged document through the enabled stages. */
    method ProcessNudge(o: Options, id: DocId, replies: Replies, next: Stage -> WP.Pool -> WP.Move)
      returns (finished: bool, ghost events: seq<Event>, ghost moves: Stage -> seq<WP.Move>)
      requires WellFormed(config.resolver) && Valid(State())
      modifies this
      ensures After(config, old(State()), events) == Some(State()) && Only(o, FatesOf(replies, o.dry), events)
      ensures var fates := FatesOf(replies, o.dry);
              finished ==> events == Nudge(o, id, fates, moves) && CompleteNudge(config, o, old(State()), id, fates, moves)
      ensures Sound(config, old(State())) && Mints(config, FatesOf(replies, o.dry)) && !o.force
              ==> Sound(config, State()) && Kept(config, old(State()), State())
      ensures o.dry ==> docs == old(docs) && writes == old(writes)
    {
      ghost var before := State();
      finished, events, moves := RunStages(o, Some(id), replies, next);
      RunsAreSafe(config, o, before, events, FatesOf(replies, o.dry));
    }

    /** Replays a stage's snapshot onto the document. */
    method RestoreFrom(s: Stage, id: DocId) returns (found: bool)
      requires id in docs
      modifies this
      ensures found == old(Restore(State(), s, id)).Some?
      ensures State() == if found then old(Restore(State(), s, id)).value else old(State())
    {
      found := (s, id) in snapshots;
      if found {
        docs := docs[id := RestoreDoc(docs[id], snapshots[(s, id)])];
        writes := writes + [id];
      }
    }
  }

  /** The second action of a triage, done by itself. */
  lemma TriagePatches(j: Job, l: Lib, id: DocId)
    requires WellFormed(j.c.resolver) && id in j.fetched && j.s == Triage
    ensures var d := j.fetched[id];
            var (score, note) := j.c.rate(d.content);
            Alone(j, l, id, 2).w == Perform(Alone(j, l, id, 1).w, Patch(d.(fields := MergeTriage(j.c, d.fields, score, note))))
  {
    assert Alone(j, l, id, 2) == Acted(j, Alone(j, l, id, 1), id, 1);
  }

  /** The pool's next move, made. */
  lemma {:induction false} Follow(j: Job, start: Run, moves: seq<WP.Move>, r: Run, m: WP.Move)
    requires WellFormed(j.c.resolver) && Play(j, start, moves) == Some(r) && StageRun.Enabled(j, r, m)
    ensures Play(j, start, moves + [m]) == Some(StageRun.Next(j, r, m))
  {
    assert (moves + [m])[..|moves|] == moves;
  }

  /** Every pass has these options and fates. */
  ghost predicate Only(o: Options, fates: Fates, events: seq<Event>) {
    forall e :: e in events && e.Passes? ==> e.pass.o == o && e.pass.fates == fates
  }

  lemma {:induction false} AfterBegin(c: Config, w: World, passes: seq<Event>)
    requires WellFormed(c.resolver)
    ensures After(c, w, [Begin] + passes) == After(c, w.(latched := false), passes)
  {
    if passes == [] {
      assert [Begin] + passes == [Begin];
      AfterOne(c, w, Begin);
    } else {
      AfterBegin(c, w, passes[..|passes| - 1]);
      assert ([Begin] + passes)[..|passes|] == [Begin] + passes[..|passes| - 1];
    }
  }

  lemma {:induction false} RunsAreSafe(c: Config, o: Options, w: World, events: seq<Event>, fates: Fates)
    requires WellFormed(c.resolver) && Valid(w) && After(c, w, events).Some?
    requires Only(o, fates, events)
    ensures var v := After(c, w, events).value;
            && (Sound(c, w) && Mints(c, fates) && !o.force ==> Sound(c, v) && Kept(c, w, v))
            && (o.dry ==> v.docs == w.docs && v.writes == w.writes)
  {
    if Sound(c, w) && Mints(c, fates) && !o.force {
      StagesOnlyAdvance(c, w, events);
    }
    if o.dry {
      DryWritesNothing(c, w, events);
    }
  }

  /** The first error is the one that counts. */
  lemma {:induction false} FirstFault(look: Taxonomy, names: seq<Documents.Text>, n: nat)
    requires n <= |names| && TagsFault(look, names[..n]).Some?
    ensures TagsFault(look, names) == TagsFault(look, names[..n])
  {
    if n == |names| {
      assert names[..n] == names;
    } else {
      var front := names[..|names| - 1];
      assert front[..n] == names[..n];
      FirstFault(look, front, n);
    }
  }

  /** Once the limit is reached, the rest of the listing adds nothing. */
  lemma {:induction false} PickIsFull(c: Config, o: Options, s: Stage, w: World, listing: seq<DocId>, i: nat)
    requires WellFormed(c.resolver) && i <= |listing| && o.limit > 0
    requires |Pick(c, o, s, w, listing[..i])| >= o.limit
    ensures Pick(c, o, s, w, listing) == Pick(c, o, s, w, listing[..i])
  {
    if i == |listing| {
      assert listing[..i] == listing;
    } else {
      var front := listing[..|listing| - 1];
      assert front[..i] == listing[..i];
      PickIsFull(c, o, s, w, front, i);
    }
  }
}
