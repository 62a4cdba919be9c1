/** What the agent's side of the hosted protocol keeps in every reachable state:
    its two files, the pushes on the wire, and where it stands in a poll. Each
    part names the fields it constrains, so a step that leaves those alone keeps
    it. */
module AgentInvariant {
  import opened Messages
  import opened JobQueue
  import opened Protocol
  import HS = HostedState

  predicate Done(cursor: HS.Cursor, id: JobId) {
    HS.AtLeast(cursor, id, HS.Executed)
  }

  /** `item` carries the one body its job has. */
  predicate Canonical(body: map<JobId, Body>, item: Item) {
    item.id in body && body[item.id] == item.body
  }

  /** Whatever was, or may still be, pushed for a job is its one body. */
  ghost predicate SentInv(wire: set<Item>, pushed: set<Item>, body: map<JobId, Body>) {
    && (forall x :: x in wire ==> Canonical(body, x))
    && (forall x :: x in pushed ==> Canonical(body, x))
  }

  /** Every unacknowledged body is still in the result queue, once. */
  ghost predicate OutboxInv(outbox: seq<Item>, body: map<JobId, Body>, acked: set<JobId>) {
    && Distinct(HS.ItemIds(outbox))
    && (forall x :: x in outbox ==> Canonical(body, x))
    && (forall id :: id in body && id !in acked ==> id in HS.Held(outbox))
  }

  /** Only executed jobs have a body; it is the placeholder exactly for those
      whose real result a crash destroyed. */
  ghost predicate BodyInv(cursor: HS.Cursor, body: map<JobId, Body>, acked: set<JobId>, orphaned: set<JobId>) {
    && acked <= body.Keys
    && (forall id :: id in body ==> Done(cursor, id) && (body[id].AlreadyDone? <==> id in orphaned))
    && (forall id :: id in orphaned ==> Done(cursor, id))
  }

  ghost predicate CursorInv(cursor: HS.Cursor, known: set<JobId>, acked: set<JobId>,
                            body: map<JobId, Body>, orphaned: set<JobId>, pc: PC) {
    && (forall id :: id in cursor ==> id in known)
    && (forall id :: HS.AtLeast(cursor, id, HS.Acked) ==> id in acked)
    && (forall id :: Done(cursor, id) ==>
          id in body || id in orphaned || (pc.CursorExecuted? && pc.job.id == id))
  }

  /** Between the lease and its handling nothing leaves the result queue. */
  predicate InHand(id: JobId, known: set<JobId>, body: map<JobId, Body>, outbox: seq<Item>) {
    id in known && (id in body ==> id in HS.Held(outbox))
  }

  predicate Undone(id: JobId, known: set<JobId>, cursor: HS.Cursor) {
    id in known && !Done(cursor, id)
  }

  predicate PcInv(pc: PC, cursor: HS.Cursor, outbox: seq<Item>, known: set<JobId>,
                  acked: set<JobId>, body: map<JobId, Body>, orphaned: set<JobId>) {
    match pc
    case Idle => true
    case Flush(todo, pull) => outbox == todo
    case PushSent(todo, pull) => outbox == todo && todo != [] && todo[0] in outbox
    case PushAnswered(todo, pull) => outbox == todo && todo != [] && todo[0].id in acked
    case PushOk(todo, pull) => outbox == todo && todo != [] && todo[0].id in acked
    case Unqueued(todo, pull) => todo != [] && outbox == todo[1..] && todo[0].id in acked
    case PullSent => true
    case PullAnswered(reply) => reply.Some? ==> InHand(reply.value.id, known, body, outbox)
    case Received(job) => InHand(job.id, known, body, outbox)
    case CursorPulled(job) => Undone(job.id, known, cursor)
    case CursorExecuting(job) => Undone(job.id, known, cursor)
    case Running(job) => Undone(job.id, known, cursor)
    case Ran(job, b) => Undone(job.id, known, cursor) && b.Completed?
    case CursorExecuted(job, b) =>
      && job.id in known && Done(cursor, job.id) && b.Completed?
      && job.id !in body && job.id !in orphaned
  }

  ghost predicate Inv(s: State) {
    var h := s.hist;
    && SentInv(s.wire, h.pushed, h.body)
    && OutboxInv(s.outbox, h.body, h.acked)
    && BodyInv(s.cursor, h.body, h.acked, h.orphaned)
    && CursorInv(s.cursor, h.known, h.acked, h.body, h.orphaned, s.pc)
    && PcInv(s.pc, s.cursor, s.outbox, h.known, h.acked, h.body, h.orphaned)
  }

  // ----- the two file writes of a flush ------------------------------------

  lemma QueueingKeepsOutbox(outbox: seq<Item>, body: map<JobId, Body>, acked: set<JobId>, item: Item)
    requires OutboxInv(outbox, body, acked) && item.id !in body
    ensures OutboxInv(HS.Enqueue(outbox, item), body[item.id := item.body], acked)
  {
    HS.EnqueueKeepsDistinct(outbox, item);
    HS.HeldMembers(outbox);
    HS.HeldMembers(HS.Enqueue(outbox, item));
    forall id | id in body && id !in acked ensures id in HS.Held(HS.Enqueue(outbox, item)) {
      var x :| x in outbox && x.id == id;
      assert x in HS.Enqueue(outbox, item);
    }
  }

  lemma UnqueueKeepsOutbox(outbox: seq<Item>, body: map<JobId, Body>, acked: set<JobId>)
    requires OutboxInv(outbox, body, acked) && outbox != [] && outbox[0].id in acked
    ensures HS.Unqueue(outbox, outbox[0].id) == outbox[1..]
    ensures OutboxInv(outbox[1..], body, acked)
  {
    HS.TailIsDistinct(outbox);
    HS.UnqueueHead(outbox);
  }

  // ----- steps -------------------------------------------------------------

  /** A push that arrives, now or late, changes nothing here but `acked`. */
  lemma AckKeepsInv(s: State, t: State, id: JobId)
    requires Inv(s) && id in s.hist.body
    requires t.cursor == s.cursor && t.outbox == s.outbox && t.pc == s.pc && t.wire == s.wire
    requires t.hist == s.hist.(acked := s.hist.acked + {id})
    ensures Inv(t)
  {
  }

  lemma QueueResultKeepsInv(s: State, item: Item)
    requires Inv(s) && (s.pc.Received? || s.pc.CursorExecuted?)
    requires s.pc.job.id == item.id && item.id !in s.hist.body && Done(s.cursor, item.id)
    requires item.body.AlreadyDone? <==> item.id in s.hist.orphaned
    ensures Inv(QueueResult(s, item))
  {
    QueueingKeepsOutbox(s.outbox, s.hist.body, s.hist.acked, item);
  }

  lemma ReceivedKeepsInv(c: Settings, s: State, report: Report, lag: Time)
    requires Inv(s) && s.pc.Received?
    ensures Inv(AgentStep(c, s, report, lag))
  {
    var job := s.pc.job;
    if Done(s.cursor, job.id) && job.id !in HS.Held(s.outbox) && !HS.AtLeast(s.cursor, job.id, HS.Acked) {
      QueueResultKeepsInv(s, Item(job.id, AlreadyDone(job.id, job.kind)));
    }
  }

  lemma StartKeepsInv(c: Settings, s: State, report: Report, lag: Time)
    requires Inv(s) && (s.pc.CursorPulled? || s.pc.CursorExecuting? || s.pc.Running?)
    ensures Inv(AgentStep(c, s, report, lag))
  {
  }

  lemma FinishKeepsInv(c: Settings, s: State, report: Report, lag: Time)
    requires Inv(s) && s.pc.Ran?
    ensures Inv(AgentStep(c, s, report, lag))
  {
  }

  lemma RunKeepsInv(c: Settings, s: State, report: Report, lag: Time)
    requires Inv(s)
    requires s.pc.CursorPulled? || s.pc.CursorExecuting? || s.pc.Running? || s.pc.Ran?
    ensures Inv(AgentStep(c, s, report, lag))
  {
    if s.pc.Ran? {
      FinishKeepsInv(c, s, report, lag);
    } else {
      StartKeepsInv(c, s, report, lag);
    }
  }

  lemma FlushKeepsInv(c: Settings, s: State, report: Report, lag: Time)
    requires Inv(s)
    requires s.pc.Flush? || s.pc.PushSent? || s.pc.PushAnswered? || s.pc.PushOk? || s.pc.Unqueued?
    ensures Inv(AgentStep(c, s, report, lag))
  {
    match s.pc
    case Flush(todo, pull) =>
    case PushSent(todo, pull) =>
      AckKeepsInv(s, ServerAck(c, s, todo[0], lag), todo[0].id);
    case PushAnswered(todo, pull) =>
    case PushOk(todo, pull) => UnqueueKeepsOutbox(s.outbox, s.hist.body, s.hist.acked);
    case Unqueued(todo, pull) =>
  }

  /** A granted lease hands over a job that is queued, hence unacknowledged. */
  lemma PulledKeepsInv(s: State, t: State, got: Option<Job>)
    requires Inv(s) && s.pc.PullSent?
    requires t.cursor == s.cursor && t.outbox == s.outbox && t.wire == s.wire
    requires t.hist == s.hist.(log := t.hist.log) && t.pc == PullAnswered(got)
    requires got.Some? ==> got.value.id in s.hist.known - s.hist.acked
    ensures Inv(t)
  {
  }

  lemma CrashKeepsInv(s: State)
    requires Inv(s)
    ensures Inv(Crashed(s))
  {
  }
}
