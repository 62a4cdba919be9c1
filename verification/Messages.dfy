/** The vocabulary shared by the agent and the control plane: job ids, result
    bodies, and a small Option type. */
module Messages {
  datatype Option<+T> = None | Some(value: T)

  /** A job id is only ever compared, so each distinct id is a number; 0 stands
      for the empty id. */
  type JobId = nat

  const NO_ID: JobId := 0

  datatype JobKind = ProcessDocument | RunSweep | Unknown(tag: nat)

  /** A value in a job's payload, as the runner's `int` and its truth test see it: absent; a
      number, 0 being false; or something else, false (an empty text, say) or true. */
  datatype Arg = Missing | Number(n: int) | Other(truthy: bool)

  /** Nobody checks a payload before the agent's runner reads it. */
  datatype Payload = NoDictionary | Dictionary(documentId: Arg, docId: Arg)

  predicate Truthy(a: Arg) {
    match a
    case Missing => false
    case Number(n) => n != 0
    case Other(truthy) => truthy
  }

  /** Does the runner get past reading the job? It knows two kinds, reads a dictionary, and a
      document's id has to be a number: the first of the two keys unless that is false. */
  predicate Readable(kind: JobKind, payload: Payload) {
    && payload.Dictionary?
    && match kind
       case ProcessDocument => (if Truthy(payload.documentId) then payload.documentId else payload.docId).Number?
       case RunSweep => true
       case Unknown(_) => false
  }

  /** Seconds, as the clock of whichever side is speaking reports them. */
  type Time = real

  /** What the engine reports for a finished job: outcome counts and spend. */
  datatype Report = Report(counts: map<string, nat>, spendMicroUsd: int)

  /** A result body, as pushed to the control plane. */
  datatype Body =
    | Completed(jobId: JobId, kind: JobKind, report: Report)
    | AlreadyDone(jobId: JobId, kind: JobKind)

  /** A pending push: the entry of the agent's durable result queue. */
  datatype Item = Item(id: JobId, body: Body)

  /** No value occurs twice. */
  predicate Distinct(ids: seq<JobId>) {
    ids == [] || (ids[|ids| - 1] !in ids[..|ids| - 1] && Distinct(ids[..|ids| - 1]))
  }

  lemma {:induction false} DistinctAt(ids: seq<JobId>, i: nat, j: nat)
    requires Distinct(ids) && i < j < |ids|
    ensures ids[i] != ids[j]
  {
    if j < |ids| - 1 {
      DistinctAt(ids[..|ids| - 1], i, j);
    }
  }

  /** Dropping the first keeps the rest distinct, and from it. */
  lemma {:induction false} DistinctTail(ids: seq<JobId>)
    requires Distinct(ids) && ids != []
    ensures Distinct(ids[1..]) && ids[0] !in ids[1..]
  {
    if |ids| > 1 {
      var front := ids[..|ids| - 1];
      DistinctTail(front);
      assert ids[1..][..|ids| - 2] == front[1..];
      assert ids[1..] == front[1..] + [ids[|ids| - 1]];
    }
  }

  /** `ids` without the members of `gone`, order kept. */
  function Without(ids: seq<JobId>, gone: set<JobId>): seq<JobId> {
    if ids == [] then []
    else
      var rest := Without(ids[..|ids| - 1], gone);
      if ids[|ids| - 1] in gone then rest else rest + [ids[|ids| - 1]]
  }

  lemma {:induction false} WithoutMembers(ids: seq<JobId>, gone: set<JobId>)
    ensures forall x :: x in Without(ids, gone) <==> x in ids && x !in gone
  {
    if ids != [] {
      WithoutMembers(ids[..|ids| - 1], gone);
      assert ids == ids[..|ids| - 1] + [ids[|ids| - 1]];
    }
  }

  lemma {:induction false} WithoutTwice(ids: seq<JobId>, a: set<JobId>, b: set<JobId>)
    ensures Without(Without(ids, a), b) == Without(ids, a + b)
  {
    if ids != [] {
      var front := ids[..|ids| - 1];
      WithoutTwice(front, a, b);
      var last := ids[|ids| - 1];
      if last !in a {
        var kept := Without(front, a) + [last];
        assert kept[..|kept| - 1] == Without(front, a);
      }
    }
  }

  lemma {:induction false} WithoutNothing(ids: seq<JobId>, gone: set<JobId>)
    requires forall x :: x in ids ==> x !in gone
    ensures Without(ids, gone) == ids
  {
    if ids != [] {
      WithoutNothing(ids[..|ids| - 1], gone);
      assert ids == ids[..|ids| - 1] + [ids[|ids| - 1]];
    }
  }

  lemma {:induction false} WithoutKeepsDistinct(ids: seq<JobId>, gone: set<JobId>)
    requires Distinct(ids)
    ensures Distinct(Without(ids, gone))
  {
    if ids != [] {
      WithoutKeepsDistinct(ids[..|ids| - 1], gone);
      WithoutMembers(ids[..|ids| - 1], gone);
      assert ids[|ids| - 1] !in ids[..|ids| - 1];
    }
  }

  /** A queue that has everything gone is empty, and the count only falls. */
  lemma {:induction false} WithoutLength(ids: seq<JobId>, gone: set<JobId>)
    ensures |Without(ids, gone)| <= |ids|
    ensures (exists x :: x in ids && x in gone) ==> |Without(ids, gone)| < |ids|
  {
    if ids != [] {
      WithoutLength(ids[..|ids| - 1], gone);
    }
  }
}
