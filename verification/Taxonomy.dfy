/** Lazy creation of tags, correspondents and document types by concurrent workers:
    look up, take the lock, look up again, create. */
module Taxonomy {
  import opened Messages

  /** One of the three endpoints, and a name stripped and folded. */
  datatype Key = Key(endpoint: nat, folded: nat)

  type Id = nat

  /** One call. It read the index and missed; holds the lock; missed again under it; has
      the id Paperless minted; has returned, with "created" or not; or raised. An absent or
      empty name has no key and returns nothing at once; one of spaces is not empty and has
      one, as any other name. */
  datatype Phase =
    | Started | Missed | Locked | MissedAgain
    | Posted(id: Id)
    | Returned(found: Option<Id>, created: bool)
    | Raised

  datatype Caller = Caller(key: Option<Key>, phase: Phase)

  /** A creation, and the call that sent it. */
  datatype Post = Post(key: Key, id: Id, sender: nat)

  /** What a creation comes to: an id; one whose answer is lost; or nothing. */
  datatype Reply = Answered(id: Id) | Lost | Refused

  /** `posts` are the creations answered, `lost` the keys of those Paperless made although the
      answer never came. */
  datatype Resolver = Resolver(
    index: map<Key, Id>, lock: Option<nat>, callers: seq<Caller>, posts: seq<Post>, lost: seq<Key>)

  predicate Enabled(r: Resolver, i: nat) {
    i < |r.callers|
    && match r.callers[i].phase
       case Missed => r.lock == None
       case Returned(_, _) => false
       case Raised => false
       case _ => true
  }

  function Moved(r: Resolver, i: nat, p: Phase): Resolver
    requires i < |r.callers|
  {
    r.(callers := r.callers[i := r.callers[i].(phase := p)])
  }

  /** Call `i` takes its next step; `reply` is what a creation would get. */
  function Next(r: Resolver, i: nat, reply: Reply): Resolver
    requires Enabled(r, i)
  {
    var c := r.callers[i];
    match c.key
    case None => Moved(r, i, Returned(None, false))
    case Some(k) =>
      match c.phase
      case Started => Moved(r, i, if k in r.index then Returned(Some(r.index[k]), false) else Missed)
      case Missed => Moved(r, i, Locked).(lock := Some(i))
      case Locked =>
        if k in r.index then Moved(r, i, Returned(Some(r.index[k]), false)).(lock := None)
        else Moved(r, i, MissedAgain)
      case MissedAgain =>
        (match reply
         case Refused => Moved(r, i, Raised).(lock := None)
         case Lost => Moved(r, i, Raised).(lock := None, lost := r.lost + [k])
         case Answered(id) => Moved(r, i, Posted(id)).(posts := r.posts + [Post(k, id, i)]))
      case Posted(id) => Moved(r, i, Returned(Some(id), true)).(index := r.index[k := id], lock := None)
      case Returned(_, _) => r
      case Raised => r
  }

  datatype Step = Step(caller: nat, reply: Reply)

  function After(r: Resolver, steps: seq<Step>): Option<Resolver> {
    if steps == [] then Some(r)
    else
      var before := After(r, steps[..|steps| - 1]);
      var s := steps[|steps| - 1];
      if before.Some? && Enabled(before.value, s.caller) then Some(Next(before.value, s.caller, s.reply)) else None
  }

  function Opening(index: map<Key, Id>, names: seq<Option<Key>>): Resolver {
    Resolver(index, None, seq(|names|, i requires 0 <= i < |names| => Caller(names[i], Started)), [], [])
  }

  // ----- the invariant -----------------------------------------------------

  predicate InLock(p: Phase) {
    p.Locked? || p.MissedAgain? || p.Posted?
  }

  /** What call `i` knows: whether it is the holder, and what its phase says of the index
      and of its own post. */
  ghost predicate CallerOk(r: Resolver, i: nat)
    requires i < |r.callers|
  {
    var c := r.callers[i];
    && (InLock(c.phase) <==> r.lock == Some(i))
    && match c.key
       case None => c.phase.Started? || c.phase == Returned(None, false)
       case Some(k) =>
         match c.phase
         case MissedAgain => k !in r.index
         case Posted(id) => k !in r.index && Post(k, id, i) in r.posts
         case Returned(found, created) =>
           && k in r.index && found == Some(r.index[k])
           && (created <==> Post(k, r.index[k], i) in r.posts)
         case _ => true
  }

  /** A post names a key that was not there at first, is the only one for its key, and is
      in the index unless its call still holds the lock with it. */
  ghost predicate PostOk(index: map<Key, Id>, r: Resolver, j: nat)
    requires j < |r.posts|
  {
    var p := r.posts[j];
    && p.key !in index && p.sender < |r.callers| && r.callers[p.sender].key == Some(p.key)
    && (if p.key in r.index then r.index[p.key] == p.id && r.callers[p.sender].phase == Returned(Some(p.id), true)
        else r.callers[p.sender].phase == Posted(p.id))
    && (forall k :: 0 <= k < |r.posts| && k != j ==> r.posts[k].key != p.key)
  }

  ghost predicate Sound(index: map<Key, Id>, r: Resolver) {
    && (r.lock.Some? ==> r.lock.value < |r.callers|)
    && (forall i :: 0 <= i < |r.callers| ==> CallerOk(r, i))
    && (forall j :: 0 <= j < |r.posts| ==> PostOk(index, r, j))
    && (forall k :: k in index ==> k in r.index && r.index[k] == index[k])
    && (forall k :: k in r.lost ==> k !in index)
  }

  /** A call that has not posted has no post to its name, and while it holds the lock
      nobody else's is unfinished. */
  lemma NoPostYet(index: map<Key, Id>, r: Resolver, i: nat, p: Post)
    requires Sound(index, r) && i < |r.callers| && p in r.posts
    requires !r.callers[i].phase.Posted? && !r.callers[i].phase.Returned?
    ensures p.sender != i
    ensures r.lock == Some(i) ==> p.key in r.index
  {
    var j :| 0 <= j < |r.posts| && r.posts[j] == p;
    assert PostOk(index, r, j) && CallerOk(r, p.sender);
  }

  lemma StepKeepsCallers(index: map<Key, Id>, r: Resolver, i: nat, reply: Reply, j: nat)
    requires Sound(index, r) && Enabled(r, i) && j < |r.callers|
    ensures CallerOk(Next(r, i, reply), j)
  {
    assert CallerOk(r, i) && CallerOk(r, j);
    if j == i && (r.callers[i].phase.Started? || r.callers[i].phase.Locked?) && r.callers[i].key.Some? {
      var k := r.callers[i].key.value;
      if k in r.index && Post(k, r.index[k], i) in r.posts {
        NoPostYet(index, r, i, Post(k, r.index[k], i));
      }
    }
  }

  lemma StepKeepsPosts(index: map<Key, Id>, r: Resolver, i: nat, reply: Reply, j: nat)
    requires Sound(index, r) && Enabled(r, i) && j < |Next(r, i, reply).posts|
    ensures PostOk(index, Next(r, i, reply), j)
  {
    assert CallerOk(r, i);
    var v := Next(r, i, reply);
    if j < |r.posts| {
      assert PostOk(index, r, j) && CallerOk(r, r.posts[j].sender);
    }
    if r.callers[i].phase.MissedAgain? && v.posts != r.posts {
      forall m | 0 <= m < |r.posts|
        ensures r.posts[m].key != v.posts[|r.posts|].key
      {
        NoPostYet(index, r, i, r.posts[m]);
      }
    }
    if r.callers[i].phase.Posted? && j < |r.posts| && r.posts[j].key == r.callers[i].key.value {
      var m :| 0 <= m < |r.posts| && r.posts[m] == Post(r.callers[i].key.value, r.callers[i].phase.id, i);
      assert PostOk(index, r, m);
    }
  }

  lemma StepKeepsSound(index: map<Key, Id>, r: Resolver, i: nat, reply: Reply)
    requires Sound(index, r) && Enabled(r, i)
    ensures Sound(index, Next(r, i, reply))
  {
    var v := Next(r, i, reply);
    assert CallerOk(r, i);
    forall j | 0 <= j < |v.posts|
      ensures PostOk(index, v, j)
    {
      StepKeepsPosts(index, r, i, reply, j);
    }
    forall j | 0 <= j < |v.callers|
      ensures CallerOk(v, j)
    {
      StepKeepsCallers(index, r, i, reply, j);
    }
  }

  lemma {:induction false} RunKeepsSound(index: map<Key, Id>, r: Resolver, steps: seq<Step>)
    requires Sound(index, r) && After(r, steps).Some?
    ensures Sound(index, After(r, steps).value)
    ensures |After(r, steps).value.callers| == |r.callers|
    ensures forall i :: 0 <= i < |r.callers| ==> After(r, steps).value.callers[i].key == r.callers[i].key
  {
    if steps != [] {
      var front, s := steps[..|steps| - 1], steps[|steps| - 1];
      RunKeepsSound(index, r, front);
      StepKeepsSound(index, After(r, front).value, s.caller, s.reply);
    }
  }

  /** Call `a` is finished, was for key `k`, and says "created" or not. */
  predicate Finished(r: Resolver, a: nat, k: Key, created: bool) {
    && a < |r.callers| && r.callers[a].key == Some(k)
    && r.callers[a].phase.Returned? && r.callers[a].phase.created == created
  }

  /** However any calls interleave and whichever creations fail: a key's creation is answered at
      most once, and none is made if it was there; all finished calls for it have the same
      id. */
  lemma CreatedAtMostOnce(index: map<Key, Id>, names: seq<Option<Key>>, steps: seq<Step>)
    requires After(Opening(index, names), steps).Some?
    ensures var r := After(Opening(index, names), steps).value;
            && (forall j, k :: 0 <= j < k < |r.posts| ==> r.posts[j].key != r.posts[k].key)
            && (forall j :: 0 <= j < |r.posts| ==> r.posts[j].key !in index)
            && (forall a: nat, k: Key, created: bool :: Finished(r, a, k, created) ==>
                  k in r.index && r.callers[a].phase.found == Some(r.index[k]))
  {
    RunKeepsSound(index, Opening(index, names), steps);
    var r := After(Opening(index, names), steps).value;
    forall a: nat, k: Key, created: bool | Finished(r, a, k, created)
      ensures k in r.index && r.callers[a].phase.found == Some(r.index[k])
    {
      assert CallerOk(r, a);
    }
    forall j, k | 0 <= j < k < |r.posts|
      ensures r.posts[j].key != r.posts[k].key
    {
      assert PostOk(index, r, j);
    }
    forall j | 0 <= j < |r.posts|
      ensures r.posts[j].key !in index
    {
      assert PostOk(index, r, j);
    }
  }

  /** How often Paperless made a thing of this key: answered, or with the answer lost. */
  function AnsweredTimes(posts: seq<Post>, k: Key): nat {
    if posts == [] then 0 else AnsweredTimes(posts[..|posts| - 1], k) + if posts[|posts| - 1].key == k then 1 else 0
  }

  function LostTimes(lost: seq<Key>, k: Key): nat {
    if lost == [] then 0 else LostTimes(lost[..|lost| - 1], k) + if lost[|lost| - 1] == k then 1 else 0
  }

  function Made(r: Resolver, k: Key): nat {
    AnsweredTimes(r.posts, k) + LostTimes(r.lost, k)
  }

  lemma {:induction false} AnsweredIs(posts: seq<Post>, k: Key)
    requires forall i, j :: 0 <= i < j < |posts| ==> posts[i].key != posts[j].key
    ensures AnsweredTimes(posts, k) == if exists p :: p in posts && p.key == k then 1 else 0
  {
    if posts != [] {
      var front := posts[..|posts| - 1];
      AnsweredIs(front, k);
      assert posts == front + [posts[|posts| - 1]];
    }
  }

  /** So Paperless makes a thing more than once exactly if it lost the answer to a creation of it
      and then made it again. */
  lemma {:induction false} MadeOnceIff(index: map<Key, Id>, names: seq<Option<Key>>, steps: seq<Step>, k: Key)
    requires After(Opening(index, names), steps).Some?
    ensures var r := After(Opening(index, names), steps).value;
            && Made(r, k) <= 1 + LostTimes(r.lost, k)
            && (Made(r, k) <= 1 <==> LostTimes(r.lost, k) == 0 || (LostTimes(r.lost, k) == 1 && forall p :: p in r.posts ==> p.key != k))
  {
    CreatedAtMostOnce(index, names, steps);
    AnsweredIs(After(Opening(index, names), steps).value.posts, k);
  }

  lemma CreatorPosted(index: map<Key, Id>, r: Resolver, b: nat, k: Key)
    requires Sound(index, r) && Finished(r, b, k, true)
    ensures k in r.index && Post(k, r.index[k], b) in r.posts && k !in index
  {
    assert CallerOk(r, b);
    var j :| 0 <= j < |r.posts| && r.posts[j] == Post(k, r.index[k], b);
    assert PostOk(index, r, j);
  }

  /** Once no call holds the lock: a key that was not there and now is was reported
      "created" by exactly one call, and any other key by none. */
  lemma ExactlyOneReportsCreated(index: map<Key, Id>, names: seq<Option<Key>>, steps: seq<Step>, k: Key)
    requires After(Opening(index, names), steps).Some?
    requires After(Opening(index, names), steps).value.lock == None
    ensures var r := After(Opening(index, names), steps).value;
            && (k in r.index && k !in index <==> exists a: nat :: Finished(r, a, k, true))
            && (forall a: nat, b: nat :: Finished(r, a, k, true) && Finished(r, b, k, true) ==> a == b)
  {
    RunKeepsSound(index, Opening(index, names), steps);
    OnlyPostedIsNew(index, Opening(index, names), steps, k);
    var r := After(Opening(index, names), steps).value;
    if k in r.index && k !in index {
      var j :| 0 <= j < |r.posts| && r.posts[j].key == k;
      assert PostOk(index, r, j);
      assert Finished(r, r.posts[j].sender, k, true);
    }
    forall a: nat | Finished(r, a, k, true)
      ensures k in r.index && k !in index
    {
      CreatorPosted(index, r, a, k);
    }
    forall a: nat, b: nat | Finished(r, a, k, true) && Finished(r, b, k, true)
      ensures a == b
    {
      CreatorPosted(index, r, a, k);
      CreatorPosted(index, r, b, k);
      var j :| 0 <= j < |r.posts| && r.posts[j] == Post(k, r.index[k], a);
      var m :| 0 <= m < |r.posts| && r.posts[m] == Post(k, r.index[k], b);
      assert PostOk(index, r, j);
    }
  }

  lemma {:induction false} OnlyPostedIsNew(index: map<Key, Id>, r: Resolver, steps: seq<Step>, k: Key)
    requires Sound(index, r) && After(r, steps).Some? && r.index == index
    ensures var v := After(r, steps).value;
            k in v.index && k !in index ==> exists j :: 0 <= j < |v.posts| && v.posts[j].key == k
  {
    if steps != [] {
      var front, s := steps[..|steps| - 1], steps[|steps| - 1];
      OnlyPostedIsNew(index, r, front, k);
      RunKeepsSound(index, r, front);
      var b := After(r, front).value;
      var v := After(r, steps).value;
      assert CallerOk(b, s.caller);
      if k in v.index && k !in index {
        if k in b.index {
          var j :| 0 <= j < |b.posts| && b.posts[j].key == k;
          assert v.posts[j].key == k;
        } else {
          var p := Post(k, b.callers[s.caller].phase.id, s.caller);
          var j :| 0 <= j < |b.posts| && b.posts[j] == p;
          assert v.posts[j].key == k;
        }
      }
    }
  }

  // ----- the calls, in place -----------------------------------------------

  /** Each method but the last is one step of one call, so calls may interleave between
      them. */
  class TaxonomyResolver {
    var index: map<Key, Id>
    var lock: Option<nat>
    var callers: seq<Caller>
    var posts: seq<Post>
    ghost var lost: seq<Key>

    ghost function State(): Resolver
      reads this
    {
      Resolver(index, lock, callers, posts, lost)
    }

    constructor (known: map<Key, Id>, names: seq<Option<Key>>)
      ensures State() == Opening(known, names)
    {
      index, lock, posts, lost := known, None, [], [];
      callers := seq(|names|, i requires 0 <= i < |names| => Caller(names[i], Started));
    }

    method Become(i: nat, p: Phase)
      requires i < |callers|
      modifies this`callers
      ensures State() == Moved(old(State()), i, p)
    {
      callers := callers[i := callers[i].(phase := p)];
    }

    /** Reuse first, without the lock. */
    method LookUp(i: nat)
      requires i < |callers| && callers[i].phase == Started
      modifies this
      ensures State() == Next(old(State()), i, Refused)
    {
      var name := callers[i].key;
      if name.None? {
        Become(i, Returned(None, false));
      } else if name.value in index {
        Become(i, Returned(Some(index[name.value]), false));
      } else {
        Become(i, Missed);
      }
    }

    method TakeLock(i: nat)
      requires i < |callers| && callers[i].phase == Missed && callers[i].key.Some? && lock == None
      modifies this
      ensures State() == Next(old(State()), i, Refused)
    {
      lock := Some(i);
      Become(i, Locked);
    }

    /** Another call may have created it in the meantime. */
    method LookAgain(i: nat)
      requires i < |callers| && callers[i].phase == Locked && callers[i].key.Some?
      modifies this
      ensures State() == Next(old(State()), i, Refused)
    {
      var key := callers[i].key.value;
      if key in index {
        Become(i, Returned(Some(index[key]), false));
        lock := None;
      } else {
        Become(i, MissedAgain);
      }
    }

    method Create(i: nat, reply: Reply)
      requires i < |callers| && callers[i].phase == MissedAgain && callers[i].key.Some?
      modifies this
      ensures State() == Next(old(State()), i, reply)
    {
      match reply {
        case Refused =>
          Become(i, Raised);
          lock := None;
        case Lost =>
          lost := lost + [callers[i].key.value];
          Become(i, Raised);
          lock := None;
        case Answered(id) =>
          posts := posts + [Post(callers[i].key.value, id, i)];
          Become(i, Posted(id));
      }
    }

    method Enter(i: nat)
      requires i < |callers| && callers[i].phase.Posted? && callers[i].key.Some?
      modifies this
      ensures State() == Next(old(State()), i, Refused)
    {
      var id := callers[i].phase.id;
      index := index[callers[i].key.value := id];
      Become(i, Returned(Some(id), true));
      lock := None;
    }

    /** From the miss on, undisturbed: nobody created it, so this call does. */
    method CreateLocked(i: nat, reply: Reply, ghost start: Resolver, ghost before: seq<Step>) returns (ghost steps: seq<Step>)
      requires After(start, before) == Some(State())
      requires i < |callers| && callers[i].phase == Missed && lock == None && callers[i].key.Some? && callers[i].key.value !in index
      modifies this
      ensures After(start, steps) == Some(State()) && lock == None
      ensures var key := old(callers)[i].key;
              if !reply.Answered? then callers == old(callers)[i := Caller(key, Raised)] && index == old(index) && posts == old(posts)
              else callers == old(callers)[i := Caller(key, Returned(Some(reply.id), true))]
                   && index == old(index)[key.value := reply.id] && posts == old(posts) + [Post(key.value, reply.id, i)]
    {
      TakeLock(i);
      steps := Follow(start, before, Step(i, Refused), State());
      LookAgain(i);
      steps := Follow(start, steps, Step(i, Refused), State());
      Create(i, reply);
      steps := Follow(start, steps, Step(i, reply), State());
      if callers[i].phase.Posted? {
        Enter(i);
        steps := Follow(start, steps, Step(i, Refused), State());
      }
    }

    /** A whole call that nobody disturbs: a run of its own steps. Only a missing name is
        created, and it is in the index from then on. */
    method ResolveOrCreate(i: nat, reply: Reply) returns (outcome: Phase, ghost steps: seq<Step>)
      requires i < |callers| && callers[i].phase == Started && lock == None
      modifies this
      ensures After(old(State()), steps) == Some(State()) && lock == None
      ensures callers == old(callers)[i := Caller(old(callers)[i].key, outcome)]
      ensures var name := old(callers)[i].key;
              if name.None? || name.value in old(index)
              then outcome == Returned(if name.None? then None else Some(old(index)[name.value]), false)
                   && index == old(index) && posts == old(posts)
              else if !reply.Answered? then outcome == Raised && index == old(index) && posts == old(posts)
              else outcome == Returned(Some(reply.id), true) && index == old(index)[name.value := reply.id]
                   && posts == old(posts) + [Post(name.value, reply.id, i)]
    {
      ghost var start := State();
      LookUp(i);
      steps := Follow(start, [], Step(i, Refused), State());
      if callers[i].phase.Missed? {
        steps := CreateLocked(i, reply, start, steps);
      }
      outcome := callers[i].phase;
    }
  }

  lemma {:induction false} Follow(start: Resolver, steps: seq<Step>, s: Step, v: Resolver) returns (more: seq<Step>)
    requires After(start, steps).Some? && Enabled(After(start, steps).value, s.caller)
    requires v == Next(After(start, steps).value, s.caller, s.reply)
    ensures more == steps + [s] && After(start, more) == Some(v)
  {
    more := steps + [s];
    assert more[..|steps|] == steps;
  }
}
