/**
 The worker's transactions statement by statement.

 Any number of sessions run at once.  A statement sees the committed rows; an UPDATE or SELECT ... FOR UPDATE
 waits for, then takes, the row's lock, which is held to the end of the transaction; what a transaction writes
 is private until it commits; and a session can end at any point without committing (error, crash, deadline,
 or the early return when a fence fails).  A commit whose answer is lost is a commit or an end.
 Sessions refine the atomic steps of `Queue`.
 */
module Sessions {
  import opened Domain
  import opened Queue
  import opened QueueSafety
  import opened QueueTokens

  type SessionId = nat

  datatype Call =
    | ClaimCall
    | CompleteCall(token: Token, chunks: seq<Chunk>, questions: seq<Question>)
    | FailCall(token: Token, code: FailureCode)
    | RetryCall(token: Token, code: FailureCode)
    | BuryCall(token: Token, code: FailureCode)

  datatype Stage =
    | Begun
    | Probed                                               // the unlocked existence check passed
    | Replaced(deleted: seq<Chunk>)                        // chunks deleted, new ones inserted
    | Selected(job: JobId)                                 // row read and locked
    | Released                                             // between the two transactions of a final retry
    | Updated(job: JobId, row: Row, deleted: seq<Chunk>)   // row written and locked
    | Lettered(job: JobId, row: Row)                       // dead letter inserted
    | Logged(job: JobId, row: Row, deleted: seq<Chunk>)    // outbox row inserted

  /** `start` is the value of now() in the session's transaction. */
  datatype Session = Session(start: Time, call: Call, stage: Stage)

  datatype System = System(world: World, sessions: map<SessionId, Session>)

  function Lock(x: Session): Option<JobId> {
    match x.stage
    case Selected(job) => Some(job)
    case Updated(job, _, _) => Some(job)
    case Lettered(job, _) => Some(job)
    case Logged(job, _, _) => Some(job)
    case _ => None
  }

  ghost predicate Locked(sys: System, job: JobId) {
    exists s :: s in sys.sessions && Lock(sys.sessions[s]) == Some(job)
  }

  ghost predicate Unlocked(sys: System, job: JobId) {
    !Locked(sys, job)
  }

  function ChunksOf(w: World, document: Document): seq<Chunk> {
    if document in w.chunks then w.chunks[document] else []
  }

  function Without(kept: seq<Chunk>, deleted: seq<Chunk>): seq<Chunk> {
    if kept == [] then []
    else (if kept[0] in deleted then [] else [kept[0]]) + Without(kept[1..], deleted)
  }

  lemma {:induction false} WithoutAll(kept: seq<Chunk>, deleted: seq<Chunk>)
    requires forall c :: c in kept ==> c in deleted
    ensures Without(kept, deleted) == []
    decreases |kept|
  {
    if kept != [] {
      WithoutAll(kept[1..], deleted);
    }
  }

  // ---- statements ----

  ghost predicate Candidate(sys: System, at: Time, job: JobId) {
    job in sys.world.jobs && Eligible(sys.world.jobs[job], at) && Unlocked(sys, job)
  }

  /** The oldest candidate; rows locked by other transactions are skipped. */
  ghost predicate Oldest(sys: System, at: Time, job: JobId) {
    && Candidate(sys, at, job)
    && forall other :: Candidate(sys, at, other) ==> sys.world.jobs[job].created <= sys.world.jobs[other].created
  }

  /** The session's next statement takes it to `stage`. */
  ghost predicate Statement(sys: System, x: Session, stage: Stage) {
    var w := sys.world;
    match x.call
    case ClaimCall =>
      (match x.stage
       case Begun => stage.Selected? && Oldest(sys, x.start, stage.job)
       case Selected(job) =>
         job in w.jobs && exists lease :: stage == Updated(job, Claimed(w.jobs[job], x.start, lease), [])
       case _ => false)
    case CompleteCall(t, chunks, questions) =>
      (match x.stage
       case Begun => Fence(w, t, x.start) && stage == Probed
       case Probed => t.job in w.jobs && stage == Replaced(ChunksOf(w, w.jobs[t.job].document))
       case Replaced(deleted) =>
         && Unlocked(sys, t.job) && Fence(w, t, x.start)
         && stage == Updated(t.job, Finished(w.jobs[t.job], Completed, None), deleted)
       case Updated(job, row, deleted) => stage == Logged(job, row, deleted)
       case _ => false)
    case FailCall(t, code) =>
      (match x.stage
       case Begun =>
         && Unlocked(sys, t.job) && Fence(w, t, x.start)
         && stage == Updated(t.job, Finished(w.jobs[t.job], Failed, Some(code)), [])
       case Updated(job, row, _) => stage == Logged(job, row, [])
       case _ => false)
    case RetryCall(t, code) =>
      (match x.stage
       case Begun => Unlocked(sys, t.job) && Fence(w, t, x.start) && stage == Selected(t.job)
       case Selected(job) =>
         && Fence(w, t, x.start)
         && w.jobs[t.job].retries < MAX_RETRIES
         && stage == Updated(job, Rescheduled(w.jobs[t.job], x.start, code), [])
       case _ => false)
    case BuryCall(t, code) =>
      (match x.stage
       case Begun =>
         && Unlocked(sys, t.job) && Fence(w, t, x.start)
         && stage == Updated(t.job, Finished(w.jobs[t.job], Failed, Some(code)), [])
       case Updated(job, row, _) => job !in w.dead && stage == Lettered(job, row)
       case Lettered(job, row) => stage == Logged(job, row, [])
       case _ => false)
  }

  predicate CanCommit(x: Session) {
    match x.call
    case ClaimCall => x.stage.Updated?
    case RetryCall(_, _) => x.stage.Updated?
    case _ => x.stage.Logged?
  }

  /** The atomic step a session stands for once it is ready to commit. */
  ghost function Effect(x: Session): Action
    requires CanCommit(x)
  {
    match x.call
    case ClaimCall => Claim(x.stage.job, x.start, if x.stage.row.lease.Some? then x.stage.row.lease.value.id else 0)
    case CompleteCall(t, chunks, questions) => Complete(t, x.start, chunks, questions)
    case FailCall(t, code) => Fail(t, x.start, code)
    case RetryCall(t, code) => Reschedule(t, x.start, code)
    case BuryCall(t, code) => Bury(t, x.start, code)
  }

  /** Commit publishes exactly what the session's own statements staged. */
  function Committed(w: World, x: Session): World
    requires CanCommit(x) && LedgerCovers(w) && x.stage.job in w.jobs
  {
    var job, row := x.stage.job, x.stage.row;
    var book := w.ledger[job];
    var written := w.(jobs := w.jobs[job := row]);
    match x.call
    case ClaimCall =>
      written.(ledger :=
        if w.jobs[job].status.Running? then w.ledger[job := book.(reclaims := book.reclaims + 1)] else w.ledger)
    case CompleteCall(t, chunks, questions) =>
      written.(chunks := w.chunks[row.document := Without(ChunksOf(w, row.document), x.stage.deleted) + chunks],
               outbox := w.outbox + [OutRow(job, Ready(row.document, questions))])
    case FailCall(t, code) => written.(outbox := w.outbox + [OutRow(job, Rejected(row.document, code))])
    case RetryCall(_, _) => written
    case BuryCall(t, code) =>
      written.(dead := w.dead[job := DeadLetter(row.document, row.attempts, code)],
               outbox := w.outbox + [OutRow(job, Rejected(row.document, code))])
  }

  function CallToken(call: Call): Option<Token> {
    match call
    case ClaimCall => None
    case CompleteCall(t, _, _) => Some(t)
    case FailCall(t, _) => Some(t)
    case RetryCall(t, _) => Some(t)
    case BuryCall(t, _) => Some(t)
  }

  // ---- the interleaved system ----

  datatype Label =
    | Pass(elapsed: nat)
    | Ingest(job: JobId, document: Document)
    | Begin(s: SessionId, call: Call)
    | Execute(s: SessionId, stage: Stage)
    | Release(s: SessionId)
    | Reopen(s: SessionId)
    | Commit(s: SessionId)
    | End(s: SessionId)

  ghost predicate Possible(sys: System, l: Label) {
    var w, xs := sys.world, sys.sessions;
    match l
    case Pass(_) => true
    case Ingest(job, document) => Owns(w, job, document) && Unlocked(sys, job)
    case Begin(s, call) =>
      && s !in xs
      && !call.BuryCall?
      && (CallToken(call).Some? ==> Issued(w, CallToken(call).value))
      && (call.CompleteCall? ==> Assembled(call.chunks, call.questions))
    case Execute(s, stage) => s in xs && Statement(sys, xs[s], stage)
    // Retry at the limit rolls its transaction back before it opens the second one.
    case Release(s) =>
      && s in xs && xs[s].call.RetryCall? && xs[s].stage.Selected?
      && xs[s].stage.job in w.jobs && w.jobs[xs[s].stage.job].retries >= MAX_RETRIES
    case Reopen(s) => s in xs && xs[s].call.BuryCall? && xs[s].stage == Released
    case Commit(s) => s in xs && CanCommit(xs[s]) && LedgerCovers(w) && xs[s].stage.job in w.jobs
    case End(s) => s in xs
  }

  ghost function After(sys: System, l: Label): System
    requires Possible(sys, l) && LedgerCovers(sys.world)
  {
    var w, xs := sys.world, sys.sessions;
    match l
    case Pass(elapsed) => sys.(world := Next(w, Tick(elapsed)))
    case Ingest(job, document) => sys.(world := Next(w, Enqueue(job, document, w.clock)))
    case Begin(s, call) => sys.(sessions := xs[s := Session(w.clock, call, Begun)])
    case Execute(s, stage) => sys.(sessions := xs[s := xs[s].(stage := stage)])
    case Release(s) =>
      sys.(sessions := xs[s := xs[s].(call := BuryCall(xs[s].call.token, xs[s].call.code), stage := Released)])
    case Reopen(s) => sys.(sessions := xs[s := xs[s].(start := w.clock, stage := Begun)])
    case Commit(s) => System(Committed(w, xs[s]), xs - {s})
    case End(s) => sys.(sessions := xs - {s})
  }

  // ---- the invariant that makes a commit atomic ----

  ghost predicate TokenSession(w: World, t: Token, start: Time, job: JobId) {
    job == t.job && Fence(w, t, start)
  }

  ghost predicate SessionInv(w: World, x: Session) {
    && x.start <= w.clock
    && (CallToken(x.call).Some? ==> Issued(w, CallToken(x.call).value))
    && match x.call
       case ClaimCall =>
         (match x.stage
          case Begun => true
          case Selected(job) => job in w.jobs && Eligible(w.jobs[job], x.start)
          case Updated(job, row, _) =>
            && job in w.jobs && Eligible(w.jobs[job], x.start)
            && row.lease.Some? && row == Claimed(w.jobs[job], x.start, row.lease.value.id)
          case _ => false)
       case CompleteCall(t, chunks, questions) =>
         && Assembled(chunks, questions)
         && (match x.stage
             case Begun => true
             case Probed => true
             case Replaced(deleted) => Holds(w, t) ==> deleted == ChunksOf(w, w.jobs[t.job].document)
             case Updated(job, row, deleted) => CompletionStaged(w, t, x.start, job, row, deleted)
             case Logged(job, row, deleted) => CompletionStaged(w, t, x.start, job, row, deleted)
             case _ => false)
       case FailCall(t, code) =>
         (match x.stage
          case Begun => true
          case Updated(job, row, _) => FailureStaged(w, t, x.start, job, row, code)
          case Logged(job, row, _) => FailureStaged(w, t, x.start, job, row, code)
          case _ => false)
       case RetryCall(t, code) =>
         (match x.stage
          case Begun => true
          case Selected(job) => TokenSession(w, t, x.start, job)
          case Updated(job, row, _) =>
            && TokenSession(w, t, x.start, job)
            && w.jobs[job].retries < MAX_RETRIES
            && row == Rescheduled(w.jobs[job], x.start, code)
          case _ => false)
       case BuryCall(t, code) =>
         && (Holds(w, t) ==> w.jobs[t.job].retries >= MAX_RETRIES)
         && (match x.stage
             case Released => true
             case Begun => true
             case Updated(job, row, _) => FailureStaged(w, t, x.start, job, row, code)
             case Lettered(job, row) => FailureStaged(w, t, x.start, job, row, code) && job !in w.dead
             case Logged(job, row, _) => FailureStaged(w, t, x.start, job, row, code) && job !in w.dead
             case _ => false)
  }

  ghost predicate CompletionStaged(w: World, t: Token, start: Time, job: JobId, row: Row, deleted: seq<Chunk>) {
    && TokenSession(w, t, start, job)
    && row == Finished(w.jobs[job], Completed, None)
    && deleted == ChunksOf(w, w.jobs[job].document)
  }

  ghost predicate FailureStaged(w: World, t: Token, start: Time, job: JobId, row: Row, code: FailureCode) {
    TokenSession(w, t, start, job) && row == Finished(w.jobs[job], Failed, Some(code))
  }

  ghost predicate Exclusive(xs: map<SessionId, Session>) {
    forall r, s :: r in xs && s in xs && r != s && Lock(xs[r]).Some? ==> Lock(xs[r]) != Lock(xs[s])
  }

  ghost predicate SystemInv(sys: System) {
    && Inv(sys.world)
    && Exclusive(sys.sessions)
    && forall s :: s in sys.sessions ==> SessionInv(sys.world, sys.sessions[s])
  }

  lemma ReplacementIsExact(w: World, document: Document, chunks: seq<Chunk>)
    ensures Without(ChunksOf(w, document), ChunksOf(w, document)) + chunks == chunks
  {
    WithoutAll(ChunksOf(w, document), ChunksOf(w, document));
    assert [] + chunks == chunks;
  }

  lemma ClaimCommitIsAtomic(w: World, x: Session)
    requires Inv(w) && SessionInv(w, x) && CanCommit(x) && x.call.ClaimCall?
    ensures x.stage.job in w.jobs && Enabled(w, Effect(x)) && Committed(w, x) == Next(w, Effect(x))
  {
    var a := Effect(x);
    assert Enabled(w, a) && RowAfter(w, a) == x.stage.row && Published(w, a) == None;
    if !w.jobs[x.stage.job].status.Running? {
      assert w.ledger[x.stage.job := w.ledger[x.stage.job]] == w.ledger;
    }
  }

  lemma TokenCommitIsAtomic(w: World, x: Session)
    requires Inv(w) && SessionInv(w, x) && CanCommit(x) && !x.call.ClaimCall?
    ensures x.stage.job in w.jobs && Enabled(w, Effect(x)) && Committed(w, x) == Next(w, Effect(x))
  {
    var job := x.stage.job;
    assert w.ledger[job := w.ledger[job]] == w.ledger;
    match x.call
    case CompleteCall(t, chunks, questions) =>
      assert CompletionStaged(w, t, x.start, job, x.stage.row, x.stage.deleted);
      ReplacementIsExact(w, w.jobs[job].document, chunks);
    case FailCall(t, code) =>
    case RetryCall(t, code) =>
    case BuryCall(t, code) =>
  }

  /** A session ready to commit stands exactly for its atomic, fenced step. */
  lemma CommitIsAtomic(w: World, x: Session)
    requires Inv(w) && SessionInv(w, x) && CanCommit(x)
    ensures x.stage.job in w.jobs && Enabled(w, Effect(x)) && Target(Effect(x)) == Lock(x)
    ensures Committed(w, x) == Next(w, Effect(x))
  {
    if x.call.ClaimCall? {
      ClaimCommitIsAtomic(w, x);
    } else {
      TokenCommitIsAtomic(w, x);
    }
  }

  /** A step that does not touch the row a session has locked leaves the session's invariant standing. */
  lemma StepKeepsSession(w: World, a: Action, x: Session)
    requires Inv(w) && Enabled(w, a) && SessionInv(w, x)
    requires Target(a).Some? ==> Lock(x) != Target(a)
    ensures SessionInv(Next(w, a), x)
  {
    var w' := Next(w, a);
    if CallToken(x.call).Some? {
      StepKeepsDead(w, a, CallToken(x.call).value, x.start);
      if Holds(w', CallToken(x.call).value) {
        TokenRowFacts(w, a, CallToken(x.call).value);
      }
    }
    if Lock(x).Some? && Lock(x).value in w.jobs {
      OtherRowFacts(w, a, Lock(x).value);
    }
  }

  /** While a token holds its job, neither the retry count nor the document's chunks change. */
  lemma TokenRowFacts(w: World, a: Action, t: Token)
    requires Inv(w) && Enabled(w, a) && Issued(w, t) && Holds(Next(w, a), t)
    ensures Holds(w, t)
    ensures Next(w, a).jobs[t.job].retries == w.jobs[t.job].retries
    ensures Next(w, a).jobs[t.job].document == w.jobs[t.job].document
    ensures ChunksOf(Next(w, a), w.jobs[t.job].document) == ChunksOf(w, w.jobs[t.job].document)
  {
    StepKeepsDead(w, a, t, 0);
  }

  lemma OtherRowFacts(w: World, a: Action, job: JobId)
    requires Inv(w) && Enabled(w, a) && job in w.jobs && Target(a) != Some(job)
    ensures job in Next(w, a).jobs && Next(w, a).jobs[job] == w.jobs[job]
    ensures job !in w.dead ==> job !in Next(w, a).dead
    ensures ChunksOf(Next(w, a), w.jobs[job].document) == ChunksOf(w, w.jobs[job].document)
  {
  }

  /** A session that commits or ends leaves the others' locks exclusive. */
  lemma RemovalKeepsExclusive(xs: map<SessionId, Session>, s: SessionId)
    requires Exclusive(xs)
    ensures Exclusive(xs - {s})
  {
  }

  /** A statement takes a lock only when no other session has it. */
  lemma StatementLocks(sys: System, s: SessionId, stage: Stage)
    requires SystemInv(sys) && s in sys.sessions && Statement(sys, sys.sessions[s], stage)
    ensures var y := sys.sessions[s].(stage := stage);
            Lock(y).Some? ==> Lock(y) == Lock(sys.sessions[s]) || Unlocked(sys, Lock(y).value)
  {
    assert SessionInv(sys.world, sys.sessions[s]);
  }

  lemma StatementKeepsSession(sys: System, s: SessionId, stage: Stage)
    requires SystemInv(sys) && s in sys.sessions && Statement(sys, sys.sessions[s], stage)
    ensures SessionInv(sys.world, sys.sessions[s].(stage := stage))
  {
    assert SessionInv(sys.world, sys.sessions[s]);
  }

  lemma ReplaceSession(sys: System, s: SessionId, y: Session)
    requires SystemInv(sys) && SessionInv(sys.world, y)
    requires Lock(y).Some? ==> (s in sys.sessions && Lock(y) == Lock(sys.sessions[s])) || Unlocked(sys, Lock(y).value)
    ensures SystemInv(sys.(sessions := sys.sessions[s := y]))
  {
  }

  /** The committed state moves only by an atomic step, and only at an ingest, a tick or a commit. */
  ghost function Atomic(sys: System, l: Label): seq<Action>
    requires Possible(sys, l)
  {
    match l
    case Pass(elapsed) => [Tick(elapsed)]
    case Ingest(job, document) => [Enqueue(job, document, sys.world.clock)]
    case Commit(s) => [Effect(sys.sessions[s])]
    case _ => []
  }

  lemma WorldStepKeepsSystem(sys: System, a: Action, xs: map<SessionId, Session>)
    requires SystemInv(sys) && Enabled(sys.world, a)
    requires forall s :: s in xs ==> s in sys.sessions && xs[s] == sys.sessions[s]
    requires Target(a).Some? ==> forall s :: s in xs ==> Lock(xs[s]) != Target(a)
    ensures SystemInv(System(Next(sys.world, a), xs))
  {
    StepKeepsInv(sys.world, a);
    forall s | s in xs ensures SessionInv(Next(sys.world, a), xs[s]) {
      StepKeepsSession(sys.world, a, xs[s]);
    }
  }

  lemma TickRefines(sys: System, elapsed: nat)
    requires SystemInv(sys)
    ensures StepIsAtomic(sys, Pass(elapsed))
  {
    ExecOne(sys.world, Tick(elapsed));
    WorldStepKeepsSystem(sys, Tick(elapsed), sys.sessions);
  }

  lemma IngestRefines(sys: System, job: JobId, document: Document)
    requires SystemInv(sys) && Possible(sys, Ingest(job, document))
    ensures StepIsAtomic(sys, Ingest(job, document))
  {
    var a := Enqueue(job, document, sys.world.clock);
    ExecOne(sys.world, a);
    WorldStepKeepsSystem(sys, a, sys.sessions);
  }

  lemma CommitRefines(sys: System, s: SessionId)
    requires SystemInv(sys) && Possible(sys, Commit(s))
    ensures StepIsAtomic(sys, Commit(s))
  {
    CommitIsAtomic(sys.world, sys.sessions[s]);
    ExecOne(sys.world, Effect(sys.sessions[s]));
    WorldStepKeepsSystem(sys, Effect(sys.sessions[s]), sys.sessions - {s});
  }

  lemma StatementRefines(sys: System, s: SessionId, stage: Stage)
    requires SystemInv(sys) && Possible(sys, Execute(s, stage))
    ensures StepIsAtomic(sys, Execute(s, stage))
  {
    StatementLocks(sys, s, stage);
    StatementKeepsSession(sys, s, stage);
    ReplaceSession(sys, s, sys.sessions[s].(stage := stage));
  }

  lemma BeginRefines(sys: System, s: SessionId, call: Call)
    requires SystemInv(sys) && Possible(sys, Begin(s, call))
    ensures StepIsAtomic(sys, Begin(s, call))
  {
    ReplaceSession(sys, s, Session(sys.world.clock, call, Begun));
  }

  lemma EndRefines(sys: System, s: SessionId)
    requires SystemInv(sys) && Possible(sys, End(s))
    ensures StepIsAtomic(sys, End(s))
  {
    RemovalKeepsExclusive(sys.sessions, s);
  }

  /** The first transaction of a final retry ends, or the second begins. */
  lemma ReopenRefines(sys: System, l: Label)
    requires SystemInv(sys) && Possible(sys, l) && (l.Release? || l.Reopen?)
    ensures StepIsAtomic(sys, l)
  {
    assert SessionInv(sys.world, sys.sessions[l.s]);
    ReplaceSession(sys, l.s, After(sys, l).sessions[l.s]);
  }

  ghost predicate StepIsAtomic(sys: System, l: Label)
    requires Possible(sys, l) && LedgerCovers(sys.world)
  {
    SystemInv(After(sys, l)) && Exec(sys.world, Atomic(sys, l), After(sys, l).world)
  }

  /** Every step of the interleaved system is an atomic step of the queue or leaves the tables alone. */
  lemma StepRefines(sys: System, l: Label)
    requires SystemInv(sys) && Possible(sys, l)
    ensures SystemInv(After(sys, l))
    ensures Exec(sys.world, Atomic(sys, l), After(sys, l).world)
  {
    match l
    case Pass(elapsed) => TickRefines(sys, elapsed);
    case Ingest(job, document) => IngestRefines(sys, job, document);
    case Commit(s) => CommitRefines(sys, s);
    case Execute(s, stage) => StatementRefines(sys, s, stage);
    case Begin(s, call) => BeginRefines(sys, s, call);
    case Release(_) => ReopenRefines(sys, l);
    case Reopen(_) => ReopenRefines(sys, l);
    case End(s) => EndRefines(sys, s);
  }

  // ---- runs ----

  const START := System(INITIAL, map[])

  ghost predicate Interleaving(sys: System, labels: seq<Label>, sys': System)
    decreases |labels|
  {
    if labels == [] then sys == sys'
    else
      && Possible(sys, labels[0]) && LedgerCovers(sys.world)
      && Interleaving(After(sys, labels[0]), labels[1..], sys')
  }

  /** Refinement: the committed tables of every interleaving are those of a run of atomic fenced steps. */
  lemma {:induction false} InterleavingRefines(sys: System, labels: seq<Label>, sys': System)
    returns (acts: seq<Action>)
    requires SystemInv(sys) && Interleaving(sys, labels, sys')
    ensures SystemInv(sys') && Exec(sys.world, acts, sys'.world)
    decreases |labels|
  {
    if labels == [] {
      acts := [];
    } else {
      StepRefines(sys, labels[0]);
      var rest := InterleavingRefines(After(sys, labels[0]), labels[1..], sys');
      acts := Atomic(sys, labels[0]) + rest;
      ExecAppend(sys.world, Atomic(sys, labels[0]), After(sys, labels[0]).world, rest, sys'.world);
    }
  }

  /** In every interleaving each job's published results are FAILED* READY?, one for each arming that has ended. */
  lemma InterleavingKeepsOutbox(labels: seq<Label>, sys: System, job: JobId)
    requires Interleaving(START, labels, sys) && job in sys.world.jobs
    ensures job in sys.world.ledger
    ensures var row, log := sys.world.jobs[job], ResultsOf(sys.world.outbox, job);
            && |log| == sys.world.ledger[job].rearms + (if row.status.Terminal() then 1 else 0)
            && (forall k :: 0 <= k < |log| ==> (log[k].Ready? <==> k == |log| - 1 && row.status.Completed?))
            && (row.status.Completed? ==>
                  && row.document in sys.world.chunks
                  && log != []
                  && Assembled(sys.world.chunks[row.document], log[|log| - 1].questions))
  {
    InitialInv();
    var acts := InterleavingRefines(START, labels, sys);
    assert JobInv(sys.world, job);
  }

  lemma CommitNeedsHolder(w: World, x: Session)
    requires SessionInv(w, x) && CanCommit(x) && CallToken(x.call).Some?
    ensures Holds(w, CallToken(x.call).value)
  {
  }

  lemma DeadAcrossInterleaving(sys: System, labels: seq<Label>, sys': System, t: Token)
    requires SystemInv(sys) && Issued(sys.world, t) && !Holds(sys.world, t) && Interleaving(sys, labels, sys')
    ensures SystemInv(sys') && !Holds(sys'.world, t)
  {
    var acts := InterleavingRefines(sys, labels, sys');
    DeadStaysDead(sys.world, acts, sys'.world, t, 0);
  }

  lemma StaleSession(sys: System, t: Token, s: SessionId)
    requires SystemInv(sys) && !Holds(sys.world, t)
    requires s in sys.sessions && CallToken(sys.sessions[s].call) == Some(t)
    ensures !CanCommit(sys.sessions[s])
  {
    assert SessionInv(sys.world, sys.sessions[s]);
    if CanCommit(sys.sessions[s]) {
      CommitNeedsHolder(sys.world, sys.sessions[s]);
    }
  }

  /** A session whose token has lost its job can never commit, in any continuation of the interleaving. */
  lemma StaleSessionCannotCommit(sys: System, t: Token, labels: seq<Label>, sys': System, s: SessionId)
    requires SystemInv(sys) && Issued(sys.world, t) && !Holds(sys.world, t)
    requires Interleaving(sys, labels, sys') && s in sys'.sessions && CallToken(sys'.sessions[s].call) == Some(t)
    ensures !CanCommit(sys'.sessions[s])
  {
    DeadAcrossInterleaving(sys, labels, sys', t);
    StaleSession(sys', t, s);
  }

  lemma {:induction false} OldestExists(w: World, jobs: set<JobId>) returns (job: JobId)
    requires jobs != {} && jobs <= w.jobs.Keys
    ensures job in jobs && forall other :: other in jobs ==> w.jobs[job].created <= w.jobs[other].created
    decreases jobs
  {
    var first :| first in jobs;
    if jobs == {first} {
      job := first;
    } else {
      job := OldestExists(w, jobs - {first});
      if w.jobs[first].created <= w.jobs[job].created {
        job := first;
      }
    }
  }

  /** A claim finds a row exactly when some unlocked row is eligible, and then an oldest one. */
  lemma ClaimFindsOldest(sys: System, x: Session)
    requires x.call.ClaimCall? && x.stage.Begun?
    ensures (exists stage :: Statement(sys, x, stage)) <==> exists job :: Candidate(sys, x.start, job)
    ensures forall stage :: Statement(sys, x, stage) ==> stage.Selected? && Oldest(sys, x.start, stage.job)
  {
    if job :| Candidate(sys, x.start, job) {
      var all := set j | j in sys.world.jobs && Candidate(sys, x.start, j);
      assert job in all;
      var oldest := OldestExists(sys.world, all);
      assert Statement(sys, x, Selected(oldest));
    }
  }
}
