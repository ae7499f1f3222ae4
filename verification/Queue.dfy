/**
 The committed state of the work queue and the atomic steps that change it.

 Every step of a worker carries the token it got from its claim.  `at` is the value of now() in the
 step's transaction, which is the transaction's start and may lie before the commit.
 */
module Queue {
  import opened Domain

  const LEASE_SECONDS: nat := 900
  const MAX_RETRIES: nat := 3

  datatype Status = Pending | Running | Completed | Failed {
    predicate Terminal() { Completed? || Failed? }
  }

  datatype Lease = Lease(id: LeaseId, until: Time)

  /** One row of ai.processing_jobs. */
  datatype Row = Row(
    document: Document,
    created: Time,
    status: Status,
    attempts: nat,
    lease: Option<Lease>,
    retries: nat,
    nextVisible: Time,
    failure: Option<FailureCode>)

  /** Book-keeping the tables do not store: what happened to a job since it was created. */
  datatype Ledger = Ledger(armedAt: nat, reclaims: nat, rearms: nat)

  datatype Result =
    | Ready(document: Document, questions: seq<Question>)
    | Rejected(document: Document, code: FailureCode)

  /** One row of ai.outbox. */
  datatype OutRow = OutRow(job: JobId, result: Result)

  /** One row of ai.processing_job_dlq; the table's job_id is UNIQUE. */
  datatype DeadLetter = DeadLetter(document: Document, lastAttempt: nat, code: FailureCode)

  datatype World = World(
    clock: Time,
    jobs: map<JobId, Row>,
    outbox: seq<OutRow>,
    dead: map<JobId, DeadLetter>,
    chunks: map<Document, seq<Chunk>>,
    ledger: map<JobId, Ledger>)

  const INITIAL := World(0, map[], [], map[], map[], map[])

  /** What a claim hands to the worker and every later statement is fenced by. */
  datatype Token = Token(job: JobId, attempt: nat, lease: LeaseId)

  datatype Action =
    | Tick(elapsed: nat)
    | Enqueue(job: JobId, document: Document, at: Time)
    | Claim(job: JobId, at: Time, lease: LeaseId)
    | Complete(token: Token, at: Time, chunks: seq<Chunk>, questions: seq<Question>)
    | Fail(token: Token, at: Time, code: FailureCode)
    | Reschedule(token: Token, at: Time, code: FailureCode)
    | Bury(token: Token, at: Time, code: FailureCode)

  // ---- the SQL conditions and row updates ----

  predicate Eligible(row: Row, at: Time) {
    || (row.status.Pending? && row.nextVisible <= at)
    || (row.status.Running? && row.lease.Some? && row.lease.value.until <= at)
  }

  /** The row is held by this token, whether or not its lease has run out. */
  predicate Holds(w: World, t: Token) {
    && t.job in w.jobs
    && var row := w.jobs[t.job];
       row.attempts == t.attempt && row.status.Running? && row.lease.Some? && row.lease.value.id == t.lease
  }

  /** The condition every later statement of a worker carries: still its row, and the lease not run out at its now(). */
  predicate Fence(w: World, t: Token, at: Time) {
    Holds(w, t) && w.jobs[t.job].lease.value.until > at
  }

  /** A transaction begun now can still pass the fence. */
  predicate Live(w: World, t: Token) {
    Fence(w, t, w.clock)
  }

  function Delay(retries: nat): (seconds: nat)
    requires retries < MAX_RETRIES
    ensures 0 < seconds <= 300
  {
    if retries == 0 then 5 else if retries == 1 then 30 else 300
  }

  function NewRow(document: Document, at: Time): Row {
    Row(document, at, Pending, 0, None, 0, at, None)
  }

  function Rearmed(row: Row): Row {
    row.(status := Pending, attempts := row.attempts + 1, retries := 0)
  }

  function Claimed(row: Row, at: Time, lease: LeaseId): Row {
    row.(attempts := row.attempts + 1, lease := Some(Lease(lease, at + LEASE_SECONDS)), status := Running)
  }

  function Finished(row: Row, status: Status, failure: Option<FailureCode>): Row {
    row.(status := status, failure := failure, lease := None)
  }

  function Rescheduled(row: Row, at: Time, code: FailureCode): Row
    requires row.retries < MAX_RETRIES
  {
    row.(status := Pending, retries := row.retries + 1, failure := Some(code), lease := None,
         nextVisible := at + Delay(row.retries))
  }

  // ---- the atomic steps ----

  /** UNIQUE (document_id, job_type): there is one job type, hence one job for each document. */
  ghost predicate Owns(w: World, job: JobId, document: Document) {
    if job in w.jobs then w.jobs[job].document == document
    else forall other :: other in w.jobs ==> w.jobs[other].document.id != document.id
  }

  ghost predicate Enabled(w: World, a: Action) {
    match a
    case Tick(_) => true
    case Enqueue(job, document, at) => at <= w.clock && Owns(w, job, document)
    case Claim(job, at, _) => at <= w.clock && job in w.jobs && Eligible(w.jobs[job], at)
    case Complete(t, at, chunks, questions) => at <= w.clock && Fence(w, t, at) && Assembled(chunks, questions)
    case Fail(t, at, _) => at <= w.clock && Fence(w, t, at)
    case Reschedule(t, at, _) => at <= w.clock && Fence(w, t, at) && w.jobs[t.job].retries < MAX_RETRIES
    // The insert into the dead-letter table has no ON CONFLICT clause.
    case Bury(t, at, _) =>
      at <= w.clock && Fence(w, t, at) && w.jobs[t.job].retries >= MAX_RETRIES && t.job !in w.dead
  }

  ghost predicate LedgerCovers(w: World) {
    w.ledger.Keys == w.jobs.Keys
  }

  /** The job a step writes to. */
  function Target(a: Action): Option<JobId> {
    match a
    case Tick(_) => None
    case Enqueue(job, _, _) => Some(job)
    case Claim(job, _, _) => Some(job)
    case Complete(t, _, _, _) => Some(t.job)
    case Fail(t, _, _) => Some(t.job)
    case Reschedule(t, _, _) => Some(t.job)
    case Bury(t, _, _) => Some(t.job)
  }

  ghost function RowAfter(w: World, a: Action): Row
    requires Enabled(w, a) && !a.Tick?
  {
    match a
    case Enqueue(job, document, at) =>
      if job !in w.jobs then NewRow(document, at)
      else if w.jobs[job].status.Failed? then Rearmed(w.jobs[job])
      else w.jobs[job]
    case Claim(job, at, lease) => Claimed(w.jobs[job], at, lease)
    case Complete(t, _, _, _) => Finished(w.jobs[t.job], Completed, None)
    case Fail(t, _, code) => Finished(w.jobs[t.job], Failed, Some(code))
    case Reschedule(t, at, code) => Rescheduled(w.jobs[t.job], at, code)
    case Bury(t, _, code) => Finished(w.jobs[t.job], Failed, Some(code))
  }

  ghost function LedgerAfter(w: World, a: Action): Ledger
    requires LedgerCovers(w) && Enabled(w, a) && !a.Tick?
  {
    match a
    case Enqueue(job, _, _) =>
      if job !in w.jobs then Ledger(0, 0, 0)
      else if w.jobs[job].status.Failed? then Ledger(w.jobs[job].attempts + 1, 0, w.ledger[job].rearms + 1)
      else w.ledger[job]
    case Claim(job, _, _) =>
      if w.jobs[job].status.Running? then w.ledger[job].(reclaims := w.ledger[job].reclaims + 1) else w.ledger[job]
    case Complete(t, _, _, _) => w.ledger[t.job]
    case Fail(t, _, _) => w.ledger[t.job]
    case Reschedule(t, _, _) => w.ledger[t.job]
    case Bury(t, _, _) => w.ledger[t.job]
  }

  /** The result written to the outbox in the step's own transaction. */
  ghost function Published(w: World, a: Action): Option<Result>
    requires Enabled(w, a)
  {
    match a
    case Complete(t, _, _, questions) => Some(Ready(w.jobs[t.job].document, questions))
    case Fail(t, _, code) => Some(Rejected(w.jobs[t.job].document, code))
    case Bury(t, _, code) => Some(Rejected(w.jobs[t.job].document, code))
    case _ => None
  }

  ghost function Next(w: World, a: Action): World
    requires LedgerCovers(w) && Enabled(w, a)
  {
    if a.Tick? then
      w.(clock := w.clock + a.elapsed)
    else
      var job := Target(a).value;
      var row := RowAfter(w, a);
      w.(jobs := w.jobs[job := row],
         ledger := w.ledger[job := LedgerAfter(w, a)],
         outbox := if Published(w, a).Some? then w.outbox + [OutRow(job, Published(w, a).value)] else w.outbox,
         chunks := if a.Complete? then w.chunks[row.document := a.chunks] else w.chunks,
         dead := if a.Bury? then w.dead[job := DeadLetter(row.document, row.attempts, a.code)] else w.dead)
  }

  /** `acts` is a run from `w` to `w'`. */
  ghost predicate Exec(w: World, acts: seq<Action>, w': World)
    decreases |acts|
  {
    if acts == [] then w == w'
    else LedgerCovers(w) && Enabled(w, acts[0]) && Exec(Next(w, acts[0]), acts[1..], w')
  }

  lemma {:induction false} ExecAppend(w: World, first: seq<Action>, mid: World, second: seq<Action>, w': World)
    requires Exec(w, first, mid) && Exec(mid, second, w')
    ensures Exec(w, first + second, w')
    decreases |first|
  {
    if first == [] {
      assert first + second == second;
    } else {
      ExecAppend(Next(w, first[0]), first[1..], mid, second, w');
      assert (first + second)[1..] == first[1..] + second;
    }
  }

  lemma ExecOne(w: World, a: Action)
    requires LedgerCovers(w) && Enabled(w, a)
    ensures Exec(w, [a], Next(w, a))
  {
    assert [a][1..] == [];
  }

  // ---- the steps, column by column ----

  /** When a step is possible: the conditions of its statements. */
  lemma StepNeeds(w: World, a: Action)
    ensures Enabled(w, a) <==>
            match a
            case Tick(_) => true
            case Enqueue(job, document, at) =>
              && at <= w.clock
              && (job in w.jobs ==> w.jobs[job].document == document)
              && (job !in w.jobs ==> forall j :: j in w.jobs ==> w.jobs[j].document.id != document.id)
            case Claim(job, at, _) =>
              && at <= w.clock && job in w.jobs
              && var row := w.jobs[job];
                 || (row.status == Pending && row.nextVisible <= at)
                 || (row.status == Running && row.lease.Some? && row.lease.value.until <= at)
            case Complete(t, at, chunks, questions) => Fenced(w, t, at) && Assembled(chunks, questions)
            case Fail(t, at, _) => Fenced(w, t, at)
            case Reschedule(t, at, _) => Fenced(w, t, at) && w.jobs[t.job].retries < 3
            case Bury(t, at, _) => Fenced(w, t, at) && w.jobs[t.job].retries >= 3 && t.job !in w.dead
  {
  }

  /** RUNNING with the token's attempt and lease, which has not run out at the transaction's start. */
  predicate Fenced(w: World, t: Token, at: Time) {
    && at <= w.clock && t.job in w.jobs
    && var row := w.jobs[t.job];
       row.status == Running && row.attempts == t.attempt && row.lease.Some?
       && row.lease.value.id == t.lease && at < row.lease.value.until
  }

  /** What a step writes to the row of a job that is there. */
  lemma StepWrites(w: World, a: Action)
    requires LedgerCovers(w) && Enabled(w, a) && !a.Tick? && Target(a).value in w.jobs
    ensures var row, row' := w.jobs[Target(a).value], Next(w, a).jobs[Target(a).value];
            match a
            case Enqueue(_, _, _) =>
              row' == if row.status == Failed then row.(status := Pending, attempts := row.attempts + 1, retries := 0)
                      else row
            case Claim(_, at, lease) =>
              row' == row.(status := Running, attempts := row.attempts + 1, lease := Some(Lease(lease, at + 900)))
            case Complete(_, _, _, _) => row' == row.(status := Completed, failure := None, lease := None)
            case Fail(_, _, code) => row' == row.(status := Failed, failure := Some(code), lease := None)
            case Bury(_, _, code) => row' == row.(status := Failed, failure := Some(code), lease := None)
            case Reschedule(_, at, code) =>
              row' == row.(status := Pending, retries := row.retries + 1, failure := Some(code), lease := None,
                           nextVisible := at + if row.retries == 0 then 5 else if row.retries == 1 then 30 else 300)
  {
  }

  /** What a step writes beside it: a new row, the result, the dead letter and the chunks. */
  lemma StepAdds(w: World, a: Action)
    requires LedgerCovers(w) && Enabled(w, a)
    ensures a.Enqueue? && a.job !in w.jobs ==>
              Next(w, a).jobs == w.jobs[a.job := Row(a.document, a.at, Pending, 0, None, 0, a.at, None)]
    ensures a.Complete? ==>
              && Next(w, a).outbox == w.outbox + [OutRow(a.token.job, Ready(w.jobs[a.token.job].document, a.questions))]
              && Next(w, a).chunks == w.chunks[w.jobs[a.token.job].document := a.chunks]
    ensures a.Fail? || a.Bury? ==>
              Next(w, a).outbox == w.outbox + [OutRow(a.token.job, Rejected(w.jobs[a.token.job].document, a.code))]
    ensures a.Bury? ==>
              Next(w, a).dead ==
              w.dead[a.token.job := DeadLetter(w.jobs[a.token.job].document, w.jobs[a.token.job].attempts, a.code)]
    ensures !a.Complete? && !a.Fail? && !a.Bury? ==> Next(w, a).outbox == w.outbox
    ensures !a.Bury? ==> Next(w, a).dead == w.dead
    ensures !a.Complete? ==> Next(w, a).chunks == w.chunks
    ensures Next(w, a).clock == w.clock + if a.Tick? then a.elapsed else 0
  {
  }
}
