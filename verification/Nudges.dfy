/** The restart-safe nudge queue behind the webhook, its debounce, and its drain. Document
    ids are numbers; the queue's file survives a restart as it stands. */
module Nudges {
  import opened Messages

  type DocId = nat

  class NudgeQueue {
    const window: Time
    var pending: seq<DocId>
    var done: seq<DocId>
    var lastSeen: map<DocId, Time>

    /** Every nudge and every id marked done so far; the queue is where they lead. */
    ghost var history: seq<Event>

    constructor (window: Time)
      ensures this.window == window && Valid()
      ensures pending == [] && done == [] && lastSeen == map[] && history == []
    {
      this.window := window;
      pending, done, lastSeen, history := [], [], map[], [];
    }

    ghost function AsQueue(): Queue
      reads this
    {
      Queue(pending, lastSeen)
    }

    ghost predicate Valid()
      reads this
    {
      Distinct(pending) && Distinct(done) && AsQueue() == After(window, history)
    }

    /** The time of the nudge is kept even when it is debounced. */
    method Enqueue(id: DocId, now: Time) returns (accepted: bool)
      requires Valid()
      modifies this`pending, this`lastSeen, this`history
      ensures Valid() && history == old(history) + [Nudged(id, now)]
      ensures accepted <==> AcceptedAt(window, history, |old(history)|, id)
      ensures accepted <==> !Recent(old(Seen(id)), now, window)
      ensures pending == if accepted && id !in old(pending) then old(pending) + [id] else old(pending)
      ensures lastSeen == old(lastSeen)[id := now]
    {
      NudgeGrows(window, history, id, now);
      history := history + [Nudged(id, now)];
      var last := Seen(id);
      lastSeen := lastSeen[id := now];
      if last.Some? && now - last.value < window {
        return false;
      }
      if id !in pending {
        assert (pending + [id])[..|pending|] == pending;
        pending := pending + [id];
      }
      return true;
    }

    function Seen(id: DocId): Option<Time>
      reads this
    {
      if id in lastSeen then Some(lastSeen[id]) else None
    }

    /** The next id stays pending until it is marked done. */
    method NextPending() returns (next: Option<DocId>)
      ensures next == if pending == [] then None else Some(pending[0])
    {
      next := if pending == [] then None else Some(pending[0]);
    }

    /** Processing begins; nothing is written. */
    ghost method Begin(id: DocId)
      requires Valid()
      modifies this`history
      ensures Valid() && history == old(history) + [Begun(id)]
    {
      Grows(window, history, Begun(id));
      history := history + [Begun(id)];
    }

    method Others(id: DocId) returns (kept: seq<DocId>)
      ensures kept == Without(pending, {id})
    {
      kept := [];
      for i := 0 to |pending|
        invariant kept == Without(pending[..i], {id})
      {
        assert pending[..i + 1][..i] == pending[..i];
        if pending[i] != id {
          kept := kept + [pending[i]];
        }
      }
      assert pending[..|pending|] == pending;
    }

    /** Pending loses exactly this id, in place. */
    method MarkDone(id: DocId)
      requires Valid()
      modifies this`pending, this`done, this`history
      ensures Valid() && history == old(history) + [Finished(id)]
      ensures pending == Without(old(pending), {id})
      ensures done == if id in old(done) then old(done) else old(done) + [id]
      ensures Members(done) == old(Members(done)) + {id}
    {
      Forget(id);
      AddDone(id);
    }

    method Forget(id: DocId)
      requires Distinct(pending) && AsQueue() == After(window, history)
      modifies this`pending, this`history
      ensures Distinct(pending) && AsQueue() == After(window, history)
      ensures history == old(history) + [Finished(id)] && pending == Without(old(pending), {id})
    {
      var kept := Others(id);
      FinishGrows(window, history, id, AsQueue());
      history := history + [Finished(id)];
      pending := kept;
    }

    method AddDone(id: DocId)
      requires Distinct(done)
      modifies this`done
      ensures Distinct(done) && Members(done) == old(Members(done)) + {id}
      ensures done == if id in old(done) then old(done) else old(done) + [id]
    {
      if id !in done {
        assert (done + [id])[..|done|] == done;
        done := done + [id];
      }
    }
  }

  function Members(ids: seq<DocId>): set<DocId> {
    set id | id in ids
  }

  /** The ids whose processing raises, in order. */
  function Failing(ids: seq<DocId>, raises: set<DocId>): seq<DocId> {
    if ids == [] then []
    else (if ids[0] in raises then [ids[0]] else []) + Failing(ids[1..], raises)
  }

  /** The queue's history is that of an orderly drain, which is between two ids. */
  ghost predicate Resting(queue: NudgeQueue)
    reads queue
  {
    Orderly(queue.window, queue.history) && Current(queue.history) == None
  }

  class NudgeProcessor {
    const queue: NudgeQueue
    var processed: seq<DocId>
    var errors: seq<DocId>

    constructor (queue: NudgeQueue)
      ensures this.queue == queue && processed == [] && errors == []
    {
      this.queue := queue;
      processed, errors := [], [];
    }

    /** One turn of the drain: processes the first pending id and marks it done even if
        the processing raised. */
    method DrainOne(raises: set<DocId>)
      requires queue.Valid() && queue.pending != []
      modifies this, queue`pending, queue`done, queue`history
      ensures queue.Valid() && queue.pending == old(queue.pending)[1..]
      ensures old(Resting(queue)) ==> Resting(queue)
      ensures processed == old(processed) + [old(queue.pending)[0]]
      ensures errors == if old(queue.pending)[0] in raises then old(errors) + [old(queue.pending)[0]] else old(errors)
      ensures Members(queue.done) == old(Members(queue.done)) + {old(queue.pending)[0]}
    {
      var id := queue.pending[0];
      queue.Begin(id);
      processed := processed + [id];
      if id in raises {
        errors := errors + [id];
      }
      HeadLeaves(queue.pending);
      ghost var before := old(queue.history);
      queue.MarkDone(id);
      assert queue.history == before + [Begun(id)] + [Finished(id)];
      ProcessedOne(queue.window, before, id);
    }

    /** Ends, having processed every pending id once and in order, whether or not the
        processing raised; all of them are then done and none pending. */
    method Drain(raises: set<DocId>) returns (n: nat)
      requires queue.Valid()
      modifies this, queue`pending, queue`done, queue`history
      ensures queue.Valid() && queue.pending == []
      ensures old(Resting(queue)) ==> Resting(queue)
      ensures processed == old(processed) + old(queue.pending) && n == |old(queue.pending)|
      ensures errors == old(errors) + Failing(old(queue.pending), raises)
      ensures Members(queue.done) == old(Members(queue.done)) + old(Members(queue.pending))
    {
      n := 0;
      var next := queue.NextPending();
      while next.Some?
        invariant queue.Valid() && (old(Resting(queue)) ==> Resting(queue))
        invariant next.Some? <==> queue.pending != []
        invariant n + |queue.pending| == |old(queue.pending)|
        invariant processed + queue.pending == old(processed) + old(queue.pending)
        invariant errors + Failing(queue.pending, raises) == old(errors) + Failing(old(queue.pending), raises)
        invariant Members(queue.done) + Members(queue.pending) == old(Members(queue.done)) + old(Members(queue.pending))
        decreases |queue.pending|
      {
        Turn(processed, queue.pending, errors, Members(queue.done), raises);
        DrainOne(raises);
        n := n + 1;
        next := queue.NextPending();
      }
    }
  }

  /** A turn moves the first pending id over and loses nothing. */
  lemma {:induction false} Turn(processed: seq<DocId>, pending: seq<DocId>, errors: seq<DocId>, done: set<DocId>, raises: set<DocId>)
    requires pending != []
    ensures processed + [pending[0]] + pending[1..] == processed + pending
    ensures (if pending[0] in raises then errors + [pending[0]] else errors) + Failing(pending[1..], raises)
            == errors + Failing(pending, raises)
    ensures done + {pending[0]} + Members(pending[1..]) == done + Members(pending)
  {
    assert pending == [pending[0]] + pending[1..];
    HeadMembers(pending);
  }

  lemma HeadMembers(ids: seq<DocId>)
    requires ids != []
    ensures Members(ids) == {ids[0]} + Members(ids[1..])
  {
    assert ids == [ids[0]] + ids[1..];
  }

  lemma HeadLeaves(ids: seq<DocId>)
    requires Distinct(ids) && ids != []
    ensures Without(ids, {ids[0]}) == ids[1..]
  {
    DistinctTail(ids);
    WithoutHead(ids);
  }

  lemma {:induction false} WithoutHead(ids: seq<DocId>)
    requires ids != [] && ids[0] !in ids[1..]
    ensures Without(ids, {ids[0]}) == ids[1..]
  {
    if |ids| > 1 {
      var front := ids[..|ids| - 1];
      assert ids[1..][..|ids| - 2] == front[1..];
      assert ids[1..] == front[1..] + [ids[|ids| - 1]];
      WithoutHead(front);
    } else {
      assert ids[..0] == [] && ids[1..] == [];
    }
  }

  // ----- the debounce over a whole history ---------------------------------

  /** Is `now` inside the window after the last nudge? */
  predicate Recent(last: Option<Time>, now: Time, window: Time) {
    last.Some? && now - last.value < window
  }

  /** What happened: a nudge at a time, the processing of an id begun, an id marked done, a
      restart, which leaves the file alone but ends any processing under way. */
  datatype Event = Nudged(id: DocId, now: Time) | Begun(id: DocId) | Finished(id: DocId) | Restarted

  datatype Queue = Queue(pending: seq<DocId>, lastSeen: map<DocId, Time>)

  function Next(window: Time, q: Queue, e: Event): Queue {
    match e
    case Nudged(id, now) =>
      var seen := q.lastSeen[id := now];
      if Accepts(window, q, id, now) && id !in q.pending then Queue(q.pending + [id], seen) else Queue(q.pending, seen)
    case Finished(id) => Queue(Without(q.pending, {id}), q.lastSeen)
    case Begun(_) => q
    case Restarted => q
  }

  predicate Accepts(window: Time, q: Queue, id: DocId, now: Time) {
    !Recent(if id in q.lastSeen then Some(q.lastSeen[id]) else None, now, window)
  }

  function After(window: Time, events: seq<Event>): Queue {
    if events == [] then Queue([], map[])
    else Next(window, After(window, events[..|events| - 1]), events[|events| - 1])
  }

  lemma {:induction false} Grows(window: Time, events: seq<Event>, e: Event)
    ensures After(window, events + [e]) == Next(window, After(window, events), e)
  {
    assert (events + [e])[..|events|] == events;
  }

  lemma {:induction false} FinishGrows(window: Time, events: seq<Event>, id: DocId, q: Queue)
    requires q == After(window, events) && Distinct(q.pending)
    ensures After(window, events + [Finished(id)]) == Queue(Without(q.pending, {id}), q.lastSeen)
    ensures Distinct(Without(q.pending, {id}))
  {
    Grows(window, events, Finished(id));
    WithoutKeepsDistinct(q.pending, {id});
  }

  lemma {:induction false} NudgeGrows(window: Time, events: seq<Event>, id: DocId, now: Time)
    ensures After(window, events + [Nudged(id, now)]) == Next(window, After(window, events), Nudged(id, now))
    ensures AcceptedAt(window, events + [Nudged(id, now)], |events|, id) <==> Accepts(window, After(window, events), id, now)
  {
    assert (events + [Nudged(id, now)])[..|events|] == events;
  }

  predicate NudgeAt(events: seq<Event>, i: nat, id: DocId) {
    i < |events| && events[i].Nudged? && events[i].id == id
  }

  /** Was event `i`, a nudge, accepted when it came? */
  predicate AcceptedAt(window: Time, events: seq<Event>, i: nat, id: DocId) {
    NudgeAt(events, i, id) && Accepts(window, After(window, events[..i]), id, events[i].now)
  }

  ghost predicate ClockNeverBack(events: seq<Event>) {
    forall i, j :: 0 <= i <= j < |events| && events[i].Nudged? && events[j].Nudged? ==> events[i].now <= events[j].now
  }

  /** The queue remembers the time of the latest nudge of each id. */
  lemma {:induction false} RemembersLatest(window: Time, events: seq<Event>, id: DocId)
    ensures var q := After(window, events);
            if id in q.lastSeen
            then exists i: nat :: NudgeAt(events, i, id) && q.lastSeen[id] == events[i].now
                             && forall j :: i < j < |events| ==> !NudgeAt(events, j, id)
            else forall j :: 0 <= j < |events| ==> !NudgeAt(events, j, id)
  {
    if events != [] {
      var n := |events| - 1;
      var front := events[..n];
      RemembersLatest(window, front, id);
      if NudgeAt(events, n, id) {
        assert NudgeAt(events, n, id) && After(window, events).lastSeen[id] == events[n].now;
      } else if id in After(window, front).lastSeen {
        var i: nat :| NudgeAt(front, i, id) && After(window, front).lastSeen[id] == front[i].now
                 && forall j :: i < j < |front| ==> !NudgeAt(front, j, id);
        assert NudgeAt(events, i, id);
        forall j | i < j < |events|
          ensures !NudgeAt(events, j, id)
        {
          assert j < n ==> !NudgeAt(front, j, id);
        }
      } else {
        forall j | 0 <= j < |events|
          ensures !NudgeAt(events, j, id)
        {
          assert j < n ==> !NudgeAt(front, j, id);
        }
      }
    }
  }

  /** A nudge is accepted exactly when it comes at least the window after every earlier
      nudge of the same id, accepted or not; so accepted ones are at least the window
      apart, and nudges that keep coming faster stay debounced. */
  lemma AcceptedIffQuietBefore(window: Time, events: seq<Event>, j: nat, id: DocId)
    requires ClockNeverBack(events) && NudgeAt(events, j, id)
    ensures AcceptedAt(window, events, j, id)
            <==> forall i :: 0 <= i < j && NudgeAt(events, i, id) ==> events[j].now - events[i].now >= window
  {
    var front := events[..j];
    RemembersLatest(window, front, id);
    var q := After(window, front);
    if id in q.lastSeen {
      var last: nat :| NudgeAt(front, last, id) && q.lastSeen[id] == front[last].now
                  && forall k :: last < k < |front| ==> !NudgeAt(front, k, id);
      assert NudgeAt(events, last, id);
      forall i | 0 <= i < j && NudgeAt(events, i, id)
        ensures events[i].now <= events[last].now
      {
        assert NudgeAt(front, i, id);
      }
    } else {
      forall i | 0 <= i < j
        ensures !NudgeAt(events, i, id)
      {
        assert !NudgeAt(front, i, id);
      }
    }
  }

  /** Every debounced nudge follows an accepted one of the same id. */
  lemma {:induction false} DebouncedFollowsAccepted(window: Time, events: seq<Event>, j: nat, id: DocId)
    requires NudgeAt(events, j, id) && !AcceptedAt(window, events, j, id)
    ensures exists i :: 0 <= i < j && AcceptedAt(window, events, i, id)
    decreases j
  {
    var front := events[..j];
    RemembersLatest(window, front, id);
    assert id in After(window, front).lastSeen;
    var i: nat :| NudgeAt(front, i, id) && After(window, front).lastSeen[id] == front[i].now
                  && forall k :: i < k < |front| ==> !NudgeAt(front, k, id);
    assert NudgeAt(events, i, id);
    if !AcceptedAt(window, events, i, id) {
      DebouncedFollowsAccepted(window, events, i, id);
    }
  }

  /** Pending never holds an id twice, and an accepted nudge's id stays pending until it is
      marked done, whatever else happens. */
  lemma {:induction false} PendingUntilDone(window: Time, events: seq<Event>, i: nat, id: DocId)
    requires i < |events| ==> AcceptedAt(window, events, i, id)
    ensures Distinct(After(window, events).pending)
    ensures i < |events| && (forall j :: i < j < |events| ==> events[j] != Finished(id)) ==> id in After(window, events).pending
  {
    if events != [] {
      var n := |events| - 1;
      var front := events[..n];
      var q := After(window, front);
      if i < n {
        assert front[..i] == events[..i];
        assert NudgeAt(front, i, id);
      }
      PendingUntilDone(window, front, i, id);
      match events[n] {
        case Nudged(other, now) =>
          assert (q.pending + [other])[..|q.pending|] == q.pending;
        case Finished(other) =>
          WithoutKeepsDistinct(q.pending, {other});
          WithoutMembers(q.pending, {other});
        case Begun(_) =>
        case Restarted =>
      }
    }
  }

  // ----- which nudges are processed ----------------------------------------

  /** The id being processed. */
  function Current(events: seq<Event>): Option<DocId> {
    if events == [] then None
    else match events[|events| - 1]
      case Nudged(_, _) => Current(events[..|events| - 1])
      case Begun(id) => Some(id)
      case Finished(_) => None
      case Restarted => None
  }

  /** What one drain does: it begins with the first pending id, and marks that one done. */
  ghost predicate Orderly(window: Time, events: seq<Event>) {
    events == [] ||
    (var front, e := events[..|events| - 1], events[|events| - 1];
     Orderly(window, front) && InOrder(Current(front), After(window, front).pending, e))
  }

  predicate InOrder(current: Option<DocId>, pending: seq<DocId>, e: Event) {
    match e
    case Begun(id) => current == None && pending != [] && pending[0] == id
    case Finished(id) => current == Some(id)
    case _ => true
  }

  function Becomes(current: Option<DocId>, e: Event): Option<DocId> {
    match e
    case Nudged(_, _) => current
    case Begun(id) => Some(id)
    case Finished(_) => None
    case Restarted => None
  }

  lemma {:induction false} OrderlyGrows(window: Time, events: seq<Event>, e: Event)
    requires Orderly(window, events) && InOrder(Current(events), After(window, events).pending, e)
    ensures Orderly(window, events + [e])
    ensures Current(events + [e]) == Becomes(Current(events), e)
    ensures After(window, events + [e]) == Next(window, After(window, events), e)
  {
    assert (events + [e])[..|events|] == events;
  }

  /** One id taken from pending, processed and marked done. */
  lemma {:induction false} ProcessedOne(window: Time, events: seq<Event>, id: DocId)
    requires After(window, events).pending != [] && After(window, events).pending[0] == id
    ensures Orderly(window, events) && Current(events) == None ==>
              var more := events + [Begun(id)] + [Finished(id)];
              Orderly(window, more) && Current(more) == None
  {
    if Orderly(window, events) && Current(events) == None {
      OrderlyGrows(window, events, Begun(id));
      OrderlyGrows(window, events + [Begun(id)], Finished(id));
    }
  }

  lemma {:induction false} OrderlyPrefix(window: Time, events: seq<Event>, n: nat)
    requires Orderly(window, events) && n <= |events|
    ensures Orderly(window, events[..n])
    decreases |events|
  {
    if n == |events| {
      assert events[..n] == events;
    } else {
      OrderlyPrefix(window, events[..|events| - 1], n);
      assert events[..|events| - 1][..n] == events[..n];
    }
  }

  /** The step at `n`, in an orderly history. */
  lemma {:induction false} OrderlyAt(window: Time, events: seq<Event>, n: nat)
    requires Orderly(window, events) && n < |events|
    ensures Orderly(window, events[..n]) && After(window, events[..n + 1]) == Next(window, After(window, events[..n]), events[n])
    ensures events[n].Begun? ==> Current(events[..n]) == None && events[n].id in After(window, events[..n]).pending
    ensures events[n].Finished? ==> Current(events[..n]) == Some(events[n].id)
    ensures Current(events[..n + 1]) == Becomes(Current(events[..n]), events[n])
  {
    OrderlyPrefix(window, events, n + 1);
    OrderlyPrefix(window, events, n);
    assert events[..n + 1][..n] == events[..n] && events[..n + 1][n] == events[n];
  }

  /** What is processed is pending. */
  lemma {:induction false} CurrentIsPending(window: Time, events: seq<Event>)
    requires Orderly(window, events)
    ensures Current(events).Some? ==> Current(events).value in After(window, events).pending
  {
    if events != [] {
      CurrentIsPending(window, events[..|events| - 1]);
    }
  }

  /** A nudge that comes while its id is being processed, and whose id is marked done at the
      end of that processing: both are erased together. */
  ghost predicate Swallowed(events: seq<Event>, k: nat, id: DocId) {
    && k < |events| && Current(events[..k]) == Some(id)
    && exists f :: k < f < |events| && events[f] == Finished(id) && forall m :: k < m < f ==> events[m].Nudged?
  }

  predicate BegunAt(events: seq<Event>, b: nat, id: DocId) {
    b < |events| && events[b] == Begun(id)
  }

  /** While nothing but nudges comes the same id is processed. */
  lemma {:induction false} SameCurrent(window: Time, events: seq<Event>, k: nat, n: nat)
    requires Orderly(window, events) && k <= n <= |events| && forall m :: k <= m < n ==> events[m].Nudged?
    ensures Current(events[..n]) == Current(events[..k])
    decreases n
  {
    if k < n {
      SameCurrent(window, events, k, n - 1);
      OrderlyAt(window, events, n - 1);
    }
  }

  lemma {:induction false} AllGone(ids: seq<DocId>, gone: set<DocId>)
    requires forall id :: id in ids ==> id in gone
    ensures Without(ids, gone) == []
  {
    if ids != [] {
      AllGone(ids[..|ids| - 1], gone);
    }
  }

  /** Only marking it done takes an id out of pending. */
  lemma {:induction false} PendingStep(window: Time, events: seq<Event>, k: nat, id: DocId)
    requires Orderly(window, events) && k < |events|
    ensures id in After(window, events[..k]).pending && events[k] != Finished(id) ==> id in After(window, events[..k + 1]).pending
    ensures events[k] == Finished(id) ==> id !in After(window, events[..k + 1]).pending
  {
    OrderlyAt(window, events, k);
    if events[k].Finished? {
      WithoutMembers(After(window, events[..k]).pending, {events[k].id});
    }
  }

  /** A pending id that is not pending later was marked done in between, the first time at `f`. */
  lemma {:induction false} FirstDone(window: Time, events: seq<Event>, k: nat, n: nat, id: DocId) returns (f: nat)
    requires Orderly(window, events) && k <= n <= |events|
    requires id in After(window, events[..k]).pending && id !in After(window, events[..n]).pending
    ensures k <= f < n && events[f] == Finished(id)
    ensures forall m :: k <= m < f ==> events[m] != Finished(id)
    decreases n - k
  {
    PendingStep(window, events, k, id);
    if events[k] == Finished(id) {
      f := k;
    } else {
      f := FirstDone(window, events, k + 1, n, id);
    }
  }

  /** An id not pending that is pending later was accepted in between, while not processed. */
  lemma {:induction false} AcceptedSince(window: Time, events: seq<Event>, f: nat, n: nat, id: DocId) returns (k: nat)
    requires Orderly(window, events) && f <= n <= |events|
    requires id !in After(window, events[..f]).pending && id in After(window, events[..n]).pending
    ensures f <= k < n && AcceptedAt(window, events, k, id) && Current(events[..k]) != Some(id)
    decreases n
  {
    OrderlyAt(window, events, n - 1);
    var q := After(window, events[..n - 1]);
    if id in q.pending {
      k := AcceptedSince(window, events, f, n - 1, id);
    } else {
      WithoutMembers(q.pending, if events[n - 1].Finished? then {events[n - 1].id} else {});
      CurrentIsPending(window, events[..n - 1]);
      k := n - 1;
    }
  }

  /** Where the processing that is under way at `n` began. */
  lemma {:induction false} BeganAt(window: Time, events: seq<Event>, n: nat, id: DocId) returns (b: nat)
    requires Orderly(window, events) && n <= |events| && Current(events[..n]) == Some(id)
    ensures BegunAt(events, b, id) && b < n && forall m :: b < m < n ==> events[m].Nudged?
    decreases n
  {
    OrderlyAt(window, events, n - 1);
    if events[n - 1].Begun? {
      b := n - 1;
    } else {
      b := BeganAt(window, events, n - 1, id);
    }
  }

  lemma {:induction false} NotSwallowedBegins(window: Time, events: seq<Event>, k: nat, id: DocId) returns (b: nat)
    requires Orderly(window, events) && After(window, events).pending == []
    requires AcceptedAt(window, events, k, id) && !Swallowed(events, k, id)
    ensures k < b && BegunAt(events, b, id)
  {
    OrderlyAt(window, events, k);
    assert events[..|events|] == events;
    var f := FirstDone(window, events, k + 1, |events|, id);
    OrderlyAt(window, events, f);
    b := BeganAt(window, events, f, id);
    if b < k {
      SameCurrent(window, events, b + 1, k);
      OrderlyAt(window, events, b);
    }
  }

  /** Marked done at `f`, an id can only be begun again if it is accepted after that. */
  lemma {:induction false} BegunAgain(window: Time, events: seq<Event>, f: nat, b: nat, id: DocId) returns (k: nat)
    requires Orderly(window, events) && f < b < |events| && events[f] == Finished(id) && BegunAt(events, b, id)
    ensures f < k && AcceptedAt(window, events, k, id) && !Swallowed(events, k, id)
  {
    PendingStep(window, events, f, id);
    OrderlyAt(window, events, b);
    k := AcceptedSince(window, events, f + 1, b, id);
  }

  lemma {:induction false} SwallowedNeedsAnother(window: Time, events: seq<Event>, i: nat, b: nat, id: DocId) returns (k: nat)
    requires Orderly(window, events) && Swallowed(events, i, id) && i < b && BegunAt(events, b, id)
    ensures i < k && AcceptedAt(window, events, k, id) && !Swallowed(events, k, id)
  {
    var f :| i < f < |events| && events[f] == Finished(id) && forall m :: i < m < f ==> events[m].Nudged?;
    k := BegunAgain(window, events, f, b, id);
  }

  /** Once the queue is drained: an accepted nudge has been followed by a processing of its id
      that began after it, exactly if it or a later accepted nudge of the id was not swallowed
      by a processing already under way. Restarts lose none. */
  lemma {:induction false} ProcessedUnlessSwallowed(window: Time, events: seq<Event>, i: nat, id: DocId)
    requires Orderly(window, events) && After(window, events).pending == [] && AcceptedAt(window, events, i, id)
    ensures (exists b :: i < b && BegunAt(events, b, id))
            <==> exists k :: i <= k && AcceptedAt(window, events, k, id) && !Swallowed(events, k, id)
  {
    if k: nat :| i <= k && AcceptedAt(window, events, k, id) && !Swallowed(events, k, id) {
      var b := NotSwallowedBegins(window, events, k, id);
    }
    if b: nat :| i < b && BegunAt(events, b, id) {
      if Swallowed(events, i, id) {
        var k := SwallowedNeedsAnother(window, events, i, b, id);
      }
    }
  }

  /** The id is nudged, its processing begins, and it is nudged again once the window has
      passed. */
  function NudgedTwice(id: DocId, now: Time, later: Time): seq<Event> {
    [Nudged(id, now), Begun(id), Nudged(id, later)]
  }

  lemma {:induction false} NudgedOnce(window: Time, id: DocId, now: Time)
    ensures var two := [Nudged(id, now), Begun(id)];
            Orderly(window, two) && After(window, two) == Queue([id], map[id := now]) && Current(two) == Some(id)
  {
    OrderlyGrows(window, [], Nudged(id, now));
    assert [] + [Nudged(id, now)] == [Nudged(id, now)];
    assert After(window, [Nudged(id, now)]) == Queue([] + [id], map[][id := now]);
    OrderlyGrows(window, [Nudged(id, now)], Begun(id));
    assert [Nudged(id, now)] + [Begun(id)] == [Nudged(id, now), Begun(id)];
  }

  lemma {:induction false} SecondIsAccepted(window: Time, id: DocId, now: Time, later: Time)
    requires later - now >= window
    ensures var three := NudgedTwice(id, now, later);
            && Orderly(window, three) && After(window, three).pending == [id] && Current(three) == Some(id)
            && Accepts(window, After(window, three[..2]), id, later)
  {
    var two := [Nudged(id, now), Begun(id)];
    NudgedOnce(window, id, now);
    OrderlyGrows(window, two, Nudged(id, later));
    assert NudgedTwice(id, now, later) == two + [Nudged(id, later)];
    assert NudgedTwice(id, now, later)[..2] == two;
  }

  /** That nudge is accepted; and when the processing ends nothing is pending and nothing begins
      after it. */
  lemma {:induction false} SwallowedNudge(window: Time, id: DocId, now: Time, later: Time)
    requires later - now >= window
    ensures var events := NudgedTwice(id, now, later) + [Finished(id)];
            && Orderly(window, events) && After(window, events).pending == []
            && AcceptedAt(window, events, 2, id) && !exists b :: 2 < b && BegunAt(events, b, id)
  {
    var three := NudgedTwice(id, now, later);
    SecondIsAccepted(window, id, now, later);
    OrderlyGrows(window, three, Finished(id));
    AllGone([id], {id});
    assert (three + [Finished(id)])[..2] == three[..2];
  }
}
