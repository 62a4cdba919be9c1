/** The hosted job protocol as a step machine: one control-plane queue, one agent
    with its two durable files, and an unreliable wire between them. Every file
    write, every request and every response is a step of its own, and a crash may
    fall between any two of them. */
module Protocol {
  import opened Messages
  import opened JobQueue
  import opened ResultCache
  import HS = HostedState

  /** Settings of the control plane; any values. */
  datatype Settings = Settings(visibilityTimeout: Time, resultsMax: int, resultsTtl: Time)

  /** Where the agent is inside `poll_once`. `todo` is what the running flush has
      still to push; `pull` says whether a request for work follows the flush. */
  datatype PC =
    | Idle
    | Flush(todo: seq<Item>, pull: bool)
    | PushSent(todo: seq<Item>, pull: bool)      // POST on the wire
    | PushAnswered(todo: seq<Item>, pull: bool)  // handled; the 200 is on the wire
    | PushOk(todo: seq<Item>, pull: bool)        // 200 read
    | Unqueued(todo: seq<Item>, pull: bool)      // entry removed from the result queue
    | PullSent                                   // GET on the wire
    | PullAnswered(reply: Option<Job>)           // leased or empty; reply on the wire
    | Received(job: Job)
    | CursorPulled(job: Job)
    | CursorExecuting(job: Job)
    | Running(job: Job)                          // inside the job runner
    | Ran(job: Job, body: Body)
    | CursorExecuted(job: Job, body: Body)

  datatype Delivery = Delivery(id: JobId, at: Time)

  /** What happened so far. No step reads it. */
  datatype History = History(
    issued: seq<JobId>,          // every job ever enqueued, in order
    known: set<JobId>,           // the same, as a set
    acked: set<JobId>,           // ids whose result reached the control plane
    body: map<JobId, Body>,      // the body first put in the result queue
    orphaned: set<JobId>,        // crashed between 'executed' and queueing the result
    pushed: set<Item>,           // every push ever sent
    log: seq<Delivery>,          // every lease granted
    starts: multiset<JobId>,     // calls of the job runner
    aborts: multiset<JobId>)     // runner calls cut short before 'executed' was written

  datatype State = State(
    now: Time,
    queue: seq<Job>, cache: seq<Entry>,       // control plane
    cursor: HS.Cursor, outbox: seq<Item>,     // the agent's files
    pc: PC,
    wire: set<Item>,                          // pushes that may still arrive, again or late
    hist: History)

  datatype Event =
    | Submit(id: JobId, kind: JobKind, payload: Payload)  // an admin enqueues a job
    | Tick(dt: Time)
    | Step(report: Report, lag: Time)         // the agent or the wire does the next thing
    | Lose                                    // the request or the response on the wire is lost
    | Crash                                   // the agent dies, or the runner raises
    | LatePush(item: Item, lag: Time)         // a push the agent gave up on arrives
    | LatePull(lag: Time)                     // a request for work it gave up on arrives

  function Init(now: Time): State {
    State(now, [], [], map[], [], Idle, {},
          History([], {}, {}, map[], {}, {}, [], multiset{}, multiset{}))
  }

  // ----- the control plane's two operations --------------------------------

  function ServerAck(c: Settings, s: State, item: Item, lag: Time): State {
    s.(now := s.now + lag,
       queue := RemoveJob(s.queue, item.id),
       cache := Prune(Record(s.cache, Entry(item.id, item.body, s.now)),
                      s.now + lag, c.resultsTtl, c.resultsMax),
       hist := s.hist.(acked := s.hist.acked + {item.id}))
  }

  function ServerLease(c: Settings, s: State, lag: Time): (State, Option<Job>) {
    var (q, got) := Lease(s.queue, s.now, s.now + lag, c.visibilityTimeout);
    (s.(now := s.now + lag, queue := q,
        hist := s.hist.(log := if got.None? then s.hist.log
                               else s.hist.log + [Delivery(got.value.id, s.now + lag)])),
     got)
  }

  // ----- the agent ---------------------------------------------------------

  /** Puts a result in the durable queue and starts flushing it. */
  function QueueResult(s: State, item: Item): State {
    var box := HS.Enqueue(s.outbox, item);
    s.(outbox := box, pc := Flush(box, false),
       hist := s.hist.(body := s.hist.body[item.id := item.body]))
  }

  /** A redelivered job that was already executed is only pushed again, and only if
      neither its result is queued nor its push acknowledged. */
  function Redelivered(s: State, job: Job): State {
    if job.id !in HS.Held(s.outbox) && !HS.AtLeast(s.cursor, job.id, HS.Acked)
    then QueueResult(s, Item(job.id, AlreadyDone(job.id, job.kind)))
    else s.(pc := Flush(s.outbox, false))
  }

  function AfterFlush(s: State, pull: bool): State {
    s.(pc := if pull then PullSent else Idle)
  }

  function AgentStep(c: Settings, s: State, report: Report, lag: Time): State {
    match s.pc
    case Idle => s.(pc := Flush(s.outbox, true))
    case Flush(todo, pull) =>
      if todo == [] then AfterFlush(s, pull)
      else s.(pc := PushSent(todo, pull), wire := s.wire + {todo[0]},
              hist := s.hist.(pushed := s.hist.pushed + {todo[0]}))
    case PushSent(todo, pull) =>
      if todo == [] then s else ServerAck(c, s, todo[0], lag).(pc := PushAnswered(todo, pull))
    case PushAnswered(todo, pull) => s.(pc := PushOk(todo, pull))
    case PushOk(todo, pull) =>
      if todo == [] then s
      else s.(outbox := HS.Unqueue(s.outbox, todo[0].id), pc := Unqueued(todo, pull))
    case Unqueued(todo, pull) =>
      if todo == [] then s
      else s.(cursor := HS.Advance(s.cursor, todo[0].id, HS.Acked), pc := Flush(todo[1..], pull))
    case PullSent =>
      var (t, got) := ServerLease(c, s, lag);
      t.(pc := PullAnswered(got))
    case PullAnswered(reply) => s.(pc := if reply.None? then Idle else Received(reply.value))
    case Received(job) =>
      if HS.AtLeast(s.cursor, job.id, HS.Executed) then Redelivered(s, job)
      else s.(cursor := HS.Advance(s.cursor, job.id, HS.Pulled), pc := CursorPulled(job))
    case CursorPulled(job) =>
      s.(cursor := HS.Advance(s.cursor, job.id, HS.Executing), pc := CursorExecuting(job))
    case CursorExecuting(job) =>
      s.(pc := Running(job), hist := s.hist.(starts := s.hist.starts + multiset{job.id}))
    case Running(job) => s.(pc := Ran(job, Completed(job.id, job.kind, report)))
    case Ran(job, body) =>
      s.(cursor := HS.Advance(s.cursor, job.id, HS.Executed), pc := CursorExecuted(job, body))
    case CursorExecuted(job, body) => QueueResult(s, Item(job.id, body))
  }

  /** A transport error: a flush stops and leaves the rest queued, and a pull ends
      the poll. */
  function Lost(s: State): State {
    match s.pc
    case PushSent(todo, pull) => AfterFlush(s, pull)
    case PushAnswered(todo, pull) => AfterFlush(s, pull)
    case PullSent => s.(pc := Idle)
    case PullAnswered(reply) => s.(pc := Idle)
    case _ => s
  }

  /** Only the files survive. */
  function Crashed(s: State): State {
    s.(pc := Idle,
       hist := match s.pc
               case CursorExecuted(job, body) => s.hist.(orphaned := s.hist.orphaned + {job.id})
               case Running(job) => s.hist.(aborts := s.hist.aborts + multiset{job.id})
               case Ran(job, body) => s.hist.(aborts := s.hist.aborts + multiset{job.id})
               case _ => s.hist)
  }

  /** The runner raises for any other job, each time. */
  predicate Runnable(job: Job) {
    Readable(job.kind, job.payload)
  }

  predicate Enabled(s: State, e: Event) {
    match e
    case Submit(id, kind, payload) => id != NO_ID && id !in s.hist.known
    case Tick(dt) => dt >= 0.0
    case Step(report, lag) => lag >= 0.0 && (s.pc.Running? ==> Runnable(s.pc.job))
    case Lose => s.pc.PushSent? || s.pc.PushAnswered? || s.pc.PullSent? || s.pc.PullAnswered?
    case Crash => true
    case LatePush(item, lag) => item in s.wire && lag >= 0.0
    case LatePull(lag) => lag >= 0.0
  }

  function Next(c: Settings, s: State, e: Event): State {
    match e
    case Submit(id, kind, payload) =>
      s.(queue := s.queue + [NewJob(id, kind, payload, s.now)],
         hist := s.hist.(issued := s.hist.issued + [id], known := s.hist.known + {id}))
    case Tick(dt) => s.(now := s.now + dt)
    case Step(report, lag) => AgentStep(c, s, report, lag)
    case Lose => Lost(s)
    case Crash => Crashed(s)
    case LatePush(item, lag) => ServerAck(c, s, item, lag)
    case LatePull(lag) => ServerLease(c, s, lag).0
  }

  // ----- runs --------------------------------------------------------------

  function After(c: Settings, s: State, run: seq<Event>): State {
    if run == [] then s else Next(c, After(c, s, run[..|run| - 1]), run[|run| - 1])
  }

  /** Every event of the run is possible where it occurs. */
  predicate Possible(c: Settings, s: State, run: seq<Event>) {
    run == [] ||
    (var front := run[..|run| - 1];
     Possible(c, s, front) && Enabled(After(c, s, front), run[|run| - 1]))
  }

  lemma {:induction false} Chain(c: Settings, s: State, a: seq<Event>, b: seq<Event>)
    requires Possible(c, s, a) && Possible(c, After(c, s, a), b)
    ensures Possible(c, s, a + b) && After(c, s, a + b) == After(c, After(c, s, a), b)
  {
    if b == [] {
      assert a + b == a;
    } else {
      var front := b[..|b| - 1];
      Chain(c, s, a, front);
      assert (a + b)[..|a + b| - 1] == a + front;
    }
  }
}
