/**
 PostgresStore, in the form the worker has it (worker/internal/processing/postgres.go).

 `Yield` stands between any two statements: other sessions may take any number of atomic steps there (Sessions
 shows that they move the tables in no other way), except on the row this session has locked, and never with
 this worker's token.  Any statement may break, and a commit may report an error whether or not it took effect;
 which ones break is an input, so that an error can be traced to what broke.
 */
module Store {
  import opened Domain
  import opened Queue
  import opened QueueSafety
  import opened QueueTokens
  import opened Sessions

  datatype ClaimedJob = ClaimedJob(token: Token, document: Document)

  datatype RetryResult = RetryResult(scheduled: bool, finalized: bool)

  /** Steps of the other sessions: not with token `mine`, and not on the row this session has locked. */
  ghost predicate Foreign(acts: seq<Action>, mine: Option<Token>, held: Option<JobId>) {
    forall i :: 0 <= i < |acts| ==>
      (mine.Some? ==> TokenOf(acts[i]) != mine) && (held.Some? ==> Target(acts[i]) != held)
  }

  ghost predicate Others(w: World, w': World, mine: Option<Token>, held: Option<JobId>) {
    exists acts :: Exec(w, acts, w') && Foreign(acts, mine, held)
  }

  /** The call's whole effect on the tables is one atomic step among steps of the other sessions. */
  ghost predicate TookStep(w: World, a: Action, w': World, mine: Option<Token>) {
    exists before ::
      && Others(w, before, mine, None)
      && LedgerCovers(before) && Enabled(before, a)
      && Others(Next(before, a), w', mine, None)
  }

  // The one step of a call, at some now() of its own.

  ghost predicate Completes(w: World, w': World, t: Token, chunks: seq<Chunk>, questions: seq<Question>) {
    exists at :: TookStep(w, Complete(t, at, chunks, questions), w', Some(t))
  }

  ghost predicate Fails(w: World, w': World, t: Token, code: FailureCode) {
    exists at :: TookStep(w, Queue.Fail(t, at, code), w', Some(t))
  }

  ghost predicate Reschedules(w: World, w': World, t: Token, code: FailureCode) {
    exists at :: TookStep(w, Reschedule(t, at, code), w', Some(t))
  }

  ghost predicate Buries(w: World, w': World, t: Token, code: FailureCode) {
    exists at :: TookStep(w, Bury(t, at, code), w', Some(t))
  }

  /**
   Between steps of the other sessions, the row the token holds is made PENDING again, with one retry more, and hidden
   for 5, 30 or 300 seconds; everything else in the tables stays.
   */
  ghost predicate Postponed(w: World, w': World, t: Token, code: FailureCode) {
    exists before, after, at: Time ::
      && Others(w, before, Some(t), None) && Others(after, w', Some(t), None)
      && at <= before.clock && Holds(before, t) && at < before.jobs[t.job].lease.value.until
      && RowPostponed(before, after, t.job, at, code)
  }

  ghost predicate RowPostponed(before: World, after: World, job: JobId, at: Time, code: FailureCode) {
    && job in before.jobs && before.jobs[job].retries < 3
    && after.jobs == before.jobs[job := Hidden(before.jobs[job], at, code)]
    && after.clock == before.clock && after.outbox == before.outbox
    && after.dead == before.dead && after.chunks == before.chunks
  }

  function Hidden(row: Row, at: Time, code: FailureCode): Row {
    var seconds := if row.retries == 0 then 5 else if row.retries == 1 then 30 else 300;
    row.(status := Pending, retries := row.retries + 1, failure := Some(code), lease := None,
         nextVisible := at + seconds)
  }

  lemma RescheduleHides(w: World, t: Token, at: Time, code: FailureCode)
    requires LedgerCovers(w) && Enabled(w, Reschedule(t, at, code))
    ensures RowPostponed(w, Next(w, Reschedule(t, at, code)), t.job, at, code)
  {
  }

  lemma RescheduledIsPostponed(w: World, w': World, t: Token, code: FailureCode)
    requires Reschedules(w, w', t, code)
    ensures Postponed(w, w', t, code)
  {
    var at :| TookStep(w, Reschedule(t, at, code), w', Some(t));
    var before :| Others(w, before, Some(t), None) && LedgerCovers(before) && Enabled(before, Reschedule(t, at, code))
                  && Others(Next(before, Reschedule(t, at, code)), w', Some(t), None);
    RescheduleHides(before, t, at, code);
  }

  lemma OthersNone(w: World, mine: Option<Token>, held: Option<JobId>)
    ensures Others(w, w, mine, held)
  {
    assert Exec(w, [], w) && Foreign([], mine, held);
  }

  lemma OthersTrans(w: World, mid: World, w': World, mine: Option<Token>, held: Option<JobId>)
    requires Others(w, mid, mine, held) && Others(mid, w', mine, held)
    ensures Others(w, w', mine, held)
  {
    var first :| Exec(w, first, mid) && Foreign(first, mine, held);
    var second :| Exec(mid, second, w') && Foreign(second, mine, held);
    ExecAppend(w, first, mid, second, w');
    assert Foreign(first + second, mine, held);
  }

  ghost predicate RowKept(w: World, w': World, job: JobId)
    requires job in w.jobs
  {
    && job in w'.jobs && w'.jobs[job] == w.jobs[job]
    && (job !in w.dead ==> job !in w'.dead)
    && ChunksOf(w', w.jobs[job].document) == ChunksOf(w, w.jobs[job].document)
  }

  lemma ForeignStepKeepsRow(w: World, a: Action, job: JobId)
    requires Inv(w) && Enabled(w, a) && Target(a) != Some(job) && job in w.jobs
    ensures Inv(Next(w, a)) && RowKept(w, Next(w, a), job)
  {
    StepKeepsInv(w, a);
    OtherRowFacts(w, a, job);
  }

  lemma RowKeptTrans(w: World, mid: World, w': World, job: JobId)
    requires job in w.jobs && RowKept(w, mid, job) && RowKept(mid, w', job)
    ensures RowKept(w, w', job)
  {
  }

  lemma ForeignTail(acts: seq<Action>, mine: Option<Token>, held: Option<JobId>)
    requires Foreign(acts, mine, held) && acts != []
    ensures Foreign(acts[1..], mine, held)
    ensures held.Some? ==> Target(acts[0]) != held
  {
    assert forall i :: 0 <= i < |acts| - 1 ==> acts[1..][i] == acts[i + 1];
  }

  lemma {:induction false} ForeignKeepsRow(w: World, acts: seq<Action>, w': World, job: JobId)
    requires Inv(w) && Exec(w, acts, w') && Foreign(acts, None, Some(job)) && job in w.jobs
    ensures RowKept(w, w', job)
    decreases |acts|
  {
    if acts != [] {
      ForeignTail(acts, None, Some(job));
      ForeignStepKeepsRow(w, acts[0], job);
      ForeignKeepsRow(Next(w, acts[0]), acts[1..], w', job);
      RowKeptTrans(w, Next(w, acts[0]), w', job);
    }
  }

  /** While the token holds its job, the document's chunks stay as they were. */
  lemma {:induction false} HolderKeepsChunks(w: World, acts: seq<Action>, w': World, t: Token)
    requires Inv(w) && Exec(w, acts, w') && Issued(w, t) && Holds(w', t)
    ensures Holds(w, t) && w'.jobs[t.job].document == w.jobs[t.job].document
    ensures w'.jobs[t.job].retries == w.jobs[t.job].retries
    ensures ChunksOf(w', w.jobs[t.job].document) == ChunksOf(w, w.jobs[t.job].document)
    decreases |acts|
  {
    if acts != [] {
      StepKeepsInv(w, acts[0]);
      StepKeepsDead(w, acts[0], t, 0);
      HolderKeepsChunks(Next(w, acts[0]), acts[1..], w', t);
      TokenRowFacts(w, acts[0], t);
    }
  }

  lemma {:induction false} DocumentIsFixed(w: World, acts: seq<Action>, w': World, job: JobId)
    requires Inv(w) && Exec(w, acts, w') && job in w.jobs
    ensures job in w'.jobs && w'.jobs[job].document == w.jobs[job].document
    decreases |acts|
  {
    if acts != [] {
      StepKeepsInv(w, acts[0]);
      StepKeepsDocuments(w, acts[0]);
      DocumentIsFixed(Next(w, acts[0]), acts[1..], w', job);
    }
  }

  /** What steps of the other sessions keep. */
  lemma OthersKeep(w: World, w': World, mine: Option<Token>, held: Option<JobId>, t: Token, at: Time)
    requires Inv(w) && Others(w, w', mine, held) && Issued(w, t)
    ensures Inv(w') && Issued(w', t) && w.clock <= w'.clock
    ensures w'.jobs[t.job].document == w.jobs[t.job].document
    ensures !Fence(w, t, at) ==> !Fence(w', t, at)
    ensures !Live(w, t) ==> !Live(w', t)
    ensures Holds(w', t) ==>
              && Holds(w, t)
              && w'.jobs[t.job].retries == w.jobs[t.job].retries
              && ChunksOf(w', w.jobs[t.job].document) == ChunksOf(w, w.jobs[t.job].document)
    ensures held == Some(t.job) ==> w'.jobs[t.job] == w.jobs[t.job] && (t.job !in w.dead ==> t.job !in w'.dead)
  {
    var acts :| Exec(w, acts, w') && Foreign(acts, mine, held);
    RunKeepsInv(w, acts, w');
    DeadStaysDead(w, acts, w', t, at);
    DocumentIsFixed(w, acts, w', t.job);
    if Holds(w', t) {
      HolderKeepsChunks(w, acts, w', t);
    }
    if held == Some(t.job) {
      assert Foreign(acts, None, held);
      ForeignKeepsRow(w, acts, w', t.job);
    }
  }

  /** A fence that failed at an earlier time means the token is dead now. */
  lemma FailedFence(w: World, t: Token, at: Time)
    requires !Fence(w, t, at) && at <= w.clock
    ensures !Live(w, t)
  {
  }

  /** A session's invariant survives whatever the other sessions do. */
  lemma {:induction false} ForeignKeepsSession(w: World, acts: seq<Action>, w': World, mine: Option<Token>, x: Session)
    requires Inv(w) && Exec(w, acts, w') && Foreign(acts, mine, Lock(x)) && SessionInv(w, x)
    ensures SessionInv(w', x)
    decreases |acts|
  {
    if acts != [] {
      StepKeepsInv(w, acts[0]);
      StepKeepsSession(w, acts[0], x);
      assert forall i :: 0 <= i < |acts| - 1 ==> acts[1..][i] == acts[i + 1];
      ForeignKeepsSession(Next(w, acts[0]), acts[1..], w', mine, x);
    }
  }

  /** Committing is one atomic step, and it spends the session's token. */
  lemma CommitTakesStep(origin: World, w: World, mine: Option<Token>, x: Session)
    requires Inv(w) && SessionInv(w, x) && CanCommit(x) && Others(origin, w, mine, None)
    ensures x.stage.job in w.jobs && Inv(Committed(w, x))
    ensures TookStep(origin, Effect(x), Committed(w, x), mine)
    ensures forall t :: CallToken(x.call) == Some(t) ==> Issued(Committed(w, x), t) && !Live(Committed(w, x), t)
  {
    CommitIsAtomic(w, x);
    StepKeepsInv(w, Effect(x));
    OthersNone(Committed(w, x), mine, None);
    if CallToken(x.call).Some? {
      CommitSpendsToken(w, Effect(x));
    }
  }

  /** A dead letter is never taken away. */
  lemma {:induction false} DeadLettersStay(w: World, acts: seq<Action>, w': World, job: JobId)
    requires LedgerCovers(w) && Exec(w, acts, w') && job in w.dead
    ensures job in w'.dead
    decreases |acts|
  {
    if acts != [] {
      DeadLettersStay(Next(w, acts[0]), acts[1..], w', job);
    }
  }

  lemma OthersKeepDeadLetters(w: World, w': World, mine: Option<Token>, held: Option<JobId>, job: JobId)
    requires LedgerCovers(w) && Others(w, w', mine, held)
    ensures job in w.dead ==> job in w'.dead
  {
    var acts :| Exec(w, acts, w') && Foreign(acts, mine, held);
    if job in w.dead {
      DeadLettersStay(w, acts, w', job);
    }
  }

  lemma ForeignLeavesHolder(w: World, a: Action, t: Token)
    requires Inv(w) && Enabled(w, a) && Holds(w, t) && TokenOf(a) != Some(t)
    requires Next(w, a).clock < w.jobs[t.job].lease.value.until
    ensures Holds(Next(w, a), t) && Next(w, a).jobs[t.job] == w.jobs[t.job]
  {
  }

  lemma {:induction false} TimeRunsOn(w: World, acts: seq<Action>, w': World)
    requires LedgerCovers(w) && Exec(w, acts, w')
    ensures w.clock <= w'.clock
    decreases |acts|
  {
    if acts != [] {
      TimeRunsOn(Next(w, acts[0]), acts[1..], w');
    }
  }

  lemma {:induction false} ForeignRunLeavesHolder(w: World, acts: seq<Action>, w': World, t: Token)
    requires Inv(w) && Exec(w, acts, w') && Foreign(acts, Some(t), None) && Holds(w, t)
    requires w'.clock < w.jobs[t.job].lease.value.until
    ensures Live(w', t)
    decreases |acts|
  {
    if acts != [] {
      assert TokenOf(acts[0]) != Some(t);
      assert forall i :: 0 <= i < |acts| - 1 ==> acts[1..][i] == acts[i + 1];
      StepKeepsInv(w, acts[0]);
      TimeRunsOn(Next(w, acts[0]), acts[1..], w');
      ForeignLeavesHolder(w, acts[0], t);
      ForeignRunLeavesHolder(Next(w, acts[0]), acts[1..], w', t);
    }
  }

  /** Until its lease runs out, nobody but the holder can end a claim. */
  lemma LiveInTime(w: World, w': World, t: Token)
    requires Inv(w) && Others(w, w', Some(t), None) && Holds(w, t) && w'.clock < w.jobs[t.job].lease.value.until
    ensures Live(w', t)
  {
    var acts :| Exec(w, acts, w') && Foreign(acts, Some(t), None);
    ForeignRunLeavesHolder(w, acts, w', t);
  }

  /** All that is left to do is the result. */
  predicate Unlogged(x: Session) {
    if x.call.BuryCall? then x.stage.Lettered? else (x.call.CompleteCall? || x.call.FailCall?) && x.stage.Updated?
  }

  function WithResult(x: Session): Session
    requires Unlogged(x)
  {
    x.(stage := Logged(x.stage.job, x.stage.row, if x.stage.Updated? then x.stage.deleted else []))
  }

  ghost predicate Describes(w: World, job: ClaimedJob) {
    Issued(w, job.token) && w.jobs[job.token.job].document == job.document
  }

  /** A call of the store, with its outcome. */
  datatype Called =
    | Claiming(claimed: Option<ClaimedJob>, err: bool)
    | Persisting(job: ClaimedJob, chunks: seq<Chunk>, questions: seq<Question>, persisted: bool, err: bool)
    | Failing(job: ClaimedJob, code: FailureCode, finalized: bool, err: bool)
    | Retrying(job: ClaimedJob, code: FailureCode, result: RetryResult, err: bool)

  /** At some moment of the stretch the job's budget was used up and its dead letter stood in the way of another one. */
  ghost predicate Blocked(w: World, w': World, t: Token) {
    exists mid ::
      && Others(w, mid, Some(t), None)
      && BlockedAt(mid, t)
      && Others(mid, w', Some(t), None)
  }

  ghost predicate BlockedAt(w: World, t: Token) {
    t.job in w.dead && t.job in w.jobs && w.jobs[t.job].retries >= 3
  }

  lemma NowBlocked(w: World, w': World, t: Token)
    requires Others(w, w', Some(t), None) && BlockedAt(w', t)
    ensures Blocked(w, w', t)
  {
    OthersNone(w', Some(t), None);
  }

  lemma PrependBlocked(origin: World, middle: World, w: World, t: Token)
    requires Others(origin, middle, Some(t), None) && Blocked(middle, w, t)
    ensures Blocked(origin, w, t)
  {
    var mid :| Others(middle, mid, Some(t), None) && BlockedAt(mid, t) && Others(mid, w, Some(t), None);
    OthersTrans(origin, middle, mid, Some(t), None);
  }

  class PostgresStore {
    /** Whether the i-th statement or commit breaks. */
    const breaks: nat -> bool
    var world: World
    var statements: nat
    ghost var calls: seq<Called>

    constructor (world: World, breaks: nat -> bool)
      ensures this.world == world && this.breaks == breaks && statements == 0 && calls == []
    {
      this.world, this.breaks, statements, calls := world, breaks, 0, [];
    }

    /** The outcome of the next statement. */
    method Statement() returns (broken: bool)
      modifies this`statements
      ensures statements == old(statements) + 1 && broken == breaks(old(statements))
    {
      broken := breaks(statements);
      statements := statements + 1;
    }

    /** Other sessions may act here. */
    method Yield(ghost origin: World, ghost mine: Option<Token>, ghost tx: Session)
      requires Inv(world) && SessionInv(world, tx) && Others(origin, world, mine, None)
      modifies this`world
      ensures Inv(world) && SessionInv(world, tx) && Others(origin, world, mine, None)
      ensures Others(old(world), world, mine, Lock(tx))
    {
      OthersNone(world, mine, Lock(tx));
    }

    /** An error leaves it open whether the commit took effect. */
    method Commit(ghost origin: World, ghost mine: Option<Token>, tx: Session) returns (err: bool)
      requires Inv(world) && SessionInv(world, tx) && CanCommit(tx) && Others(origin, world, mine, None)
      modifies this`world, this`statements
      ensures Inv(world) && statements == old(statements) + 1 && err == breaks(old(statements))
      ensures !err ==> TookStep(origin, Effect(tx), world, mine)
      ensures err ==> TookStep(origin, Effect(tx), world, mine) || Others(origin, world, mine, None)
      ensures !err ==> forall t :: CallToken(tx.call) == Some(t) ==> !Live(world, t)
    {
      CommitTakesStep(origin, world, mine, tx);
      err := Statement();
      var effective: bool := *;
      if effective || !err {
        world := Committed(world, tx);
      }
    }

    /** The result is inserted into the outbox, and the transaction commits. */
    method PublishAndCommit(ghost origin: World, ghost mine: Option<Token>, tx: Session) returns (ok: bool, err: bool)
      requires Inv(world) && SessionInv(world, tx) && Unlogged(tx) && Others(origin, world, mine, None)
      modifies this`world, this`statements
      ensures Inv(world)
      ensures statements >= old(statements) && (err ==> !Smooth(breaks, old(statements), statements))
      ensures !err ==> ok && TookStep(origin, Effect(WithResult(tx)), world, mine) && !Live(world, tx.call.token)
      ensures !ok ==> Others(origin, world, mine, None)
      ensures ok && err ==> TookStep(origin, Effect(WithResult(tx)), world, mine) || Others(origin, world, mine, None)
    {
      Yield(origin, mine, tx);
      var broken := Statement();
      if broken {
        return false, true;
      }
      Yield(origin, mine, WithResult(tx));
      err := Commit(origin, mine, WithResult(tx));
      ok := true;
    }

    /** The SELECT of a claim. */
    method SelectOldest(locked: set<JobId>, at: Time) returns (id: Option<JobId>)
      ensures id.None? ==> forall j :: j in world.jobs && j !in locked ==> !Eligible(world.jobs[j], at)
      ensures id.Some? ==>
                && id.value in world.jobs && id.value !in locked && Eligible(world.jobs[id.value], at)
                && forall j :: j in world.jobs && j !in locked && Eligible(world.jobs[j], at) ==>
                     world.jobs[id.value].created <= world.jobs[j].created
    {
      var eligible := set j | j in world.jobs && j !in locked && Eligible(world.jobs[j], at);
      if eligible == {} {
        assert forall j :: j in world.jobs && j !in locked && Eligible(world.jobs[j], at) ==> j in eligible;
        return None;
      }
      ghost var oldest := OldestExists(world, eligible);
      var j :| j in eligible && forall i :: i in eligible ==> world.jobs[j].created <= world.jobs[i].created;
      id := Some(j);
    }

    /** The UPDATE of a claim, and its commit. */
    method TakeRow(id: JobId, selected: Session, ghost origin: World) returns (job: Option<ClaimedJob>, err: bool)
      requires Inv(world) && SessionInv(world, selected) && Others(origin, world, None, None)
      requires selected.call.ClaimCall? && selected.stage == Selected(id)
      modifies this`world, this`statements
      ensures statements >= old(statements) && (err ==> !Smooth(breaks, old(statements), statements))
      ensures Inv(world) && (job.None? <==> err)
      ensures err ==>
                || Others(origin, world, None, None)
                || (exists lease :: TookStep(origin, Queue.Claim(id, selected.start, lease), world, None))
      ensures job.Some? ==>
                && job.value.token.job == id
                && TookStep(origin, Queue.Claim(id, selected.start, job.value.token.lease), world, None)
                && Describes(world, job.value) && Holds(world, job.value.token)
    {
      job, err := None, true;
      Yield(origin, None, selected);
      var broken := Statement();
      if broken {
        return;
      }
      var lease: LeaseId := *;
      var row := Claimed(world.jobs[id], selected.start, lease);
      var tx := selected.(stage := Updated(id, row, []));
      Yield(origin, None, tx);
      ClaimCommitFacts(origin, world, tx);
      broken := Statement();
      var effective: bool := *;
      if effective || !broken {
        world := Committed(world, tx);
      }
      if !broken {
        job, err := Some(ClaimedJob(Token(id, row.attempts, lease), row.document)), false;
      }
    }

    /**
     Claims an oldest eligible row that no other session has locked (`locked`), as seen at the SELECT; returns
     nothing without an error only when there is none.
     */
    method Claim(locked: set<JobId>) returns (job: Option<ClaimedJob>, err: bool, ghost seen: World, ghost at: Time)
      requires Inv(world)
      modifies this
      ensures calls == old(calls) + [Claiming(job, err)]
      ensures statements >= old(statements) && (err ==> !Smooth(breaks, old(statements), statements))
      ensures Inv(world) && Others(old(world), seen, None, None) && at <= seen.clock
      ensures job.None? && !err ==> forall j :: j in seen.jobs && j !in locked ==> !Eligible(seen.jobs[j], at)
      ensures job.None? && !err ==> Others(old(world), world, None, None)
      ensures err ==>
                || Others(old(world), world, None, None)
                || (exists id, lease :: TookStep(old(world), Queue.Claim(id, at, lease), world, None))
      ensures job.Some? ==>
                && !err
                && TookStep(old(world), Queue.Claim(job.value.token.job, at, job.value.token.lease), world, None)
                && Describes(world, job.value) && Holds(world, job.value.token)
                && job.value.token.job in seen.jobs && job.value.token.job !in locked
                && Eligible(seen.jobs[job.value.token.job], at)
                && forall j :: j in seen.jobs && j !in locked && Eligible(seen.jobs[j], at) ==>
                     seen.jobs[job.value.token.job].created <= seen.jobs[j].created
    {
      ghost var origin := world;
      OthersNone(world, None, None);
      seen, at, job, err := world, world.clock, None, true;
      label attempt: {
        var broken := Statement();
        if broken {
          break attempt;
        }
        var tx := Session(world.clock, ClaimCall, Begun);
        Yield(origin, None, tx);
        seen := world;
        broken := Statement();
        if broken {
          break attempt;
        }
        var id := SelectOldest(locked, tx.start);
        if id.None? {
          err := false;
        } else {
          job, err := TakeRow(id.value, tx.(stage := Selected(id.value)), origin);
        }
      }
      calls := calls + [Claiming(job, err)];
    }

    /** The document's chunks are deleted and the new ones inserted one by one; nothing is visible before the commit. */
    method StageChunks(job: ClaimedJob, chunks: seq<Chunk>, probed: Session, ghost origin: World)
      returns (tx: Session, broken: bool)
      requires Inv(world) && SessionInv(world, probed) && Others(origin, world, Some(job.token), None)
      requires Inv(origin) && Describes(origin, job)
      requires probed.call.CompleteCall? && probed.call.token == job.token && probed.call.chunks == chunks
      modifies this`world, this`statements
      ensures statements >= old(statements) && (broken ==> !Smooth(breaks, old(statements), statements))
      ensures Inv(world) && SessionInv(world, tx) && Others(origin, world, Some(job.token), None)
      ensures !broken ==> tx.start == probed.start && tx.call == probed.call && tx.stage.Replaced?
    {
      ghost var mine := Some(job.token);
      OthersKeepDocument(origin, world, mine, None, job);
      tx := probed.(stage := Replaced(ChunksOf(world, job.document)));
      var inserted: seq<Chunk> := [];
      for i := 0 to |chunks|
        invariant inserted == chunks[..i] && statements >= old(statements)
        invariant Inv(world) && SessionInv(world, tx) && Others(origin, world, mine, None)
      {
        Yield(origin, mine, tx);
        broken := Statement();
        if broken {
          return;
        }
        PrefixGrows(chunks, i);
        inserted := inserted + [chunks[i]];
      }
      WholePrefix(chunks);
      tx := tx.(call := CompleteCall(job.token, inserted, tx.call.questions));
      broken := false;
    }

    /** With the chunks staged: the job becomes COMPLETED and its result is published. */
    method CompleteStaged(job: ClaimedJob, staged: Session, ghost origin: World) returns (persisted: bool, err: bool)
      requires Inv(world) && SessionInv(world, staged) && Others(origin, world, Some(job.token), None)
      requires staged.call.CompleteCall? && staged.call.token == job.token && staged.stage.Replaced?
      modifies this`world, this`statements
      ensures statements >= old(statements) && (err ==> !Smooth(breaks, old(statements), statements))
      ensures Inv(world)
      ensures persisted && !err ==> Completes(origin, world, job.token, staged.call.chunks, staged.call.questions)
      ensures !persisted ==> Others(origin, world, Some(job.token), None)
      ensures persisted && err ==>
                || Completes(origin, world, job.token, staged.call.chunks, staged.call.questions)
                || Others(origin, world, Some(job.token), None)
      ensures !err ==> !Live(world, job.token)
    {
      ghost var mine := Some(job.token);
      if !Fence(world, job.token, staged.start) {
        FailedFence(world, job.token, staged.start);
        return false, false;
      }
      var row := Finished(world.jobs[job.token.job], Completed, None);
      var tx := staged.(stage := Updated(job.token.job, row, staged.stage.deleted));
      persisted, err := PublishAndCommit(origin, mine, tx);
    }

    method PersistAndComplete(job: ClaimedJob, chunks: seq<Chunk>, questions: seq<Question>)
      returns (persisted: bool, err: bool)
      requires Inv(world) && Describes(world, job) && Assembled(chunks, questions)
      modifies this
      ensures calls == old(calls) + [Persisting(job, chunks, questions, persisted, err)]
      ensures statements >= old(statements) && (err ==> !Smooth(breaks, old(statements), statements))
      ensures Inv(world)
      ensures persisted && !err ==> Completes(old(world), world, job.token, chunks, questions)
      ensures !persisted ==> Others(old(world), world, Some(job.token), None)
      ensures persisted && err ==>
                || Completes(old(world), world, job.token, chunks, questions)
                || Others(old(world), world, Some(job.token), None)
      ensures !err ==> !Live(world, job.token)
    {
      ghost var origin, mine := world, Some(job.token);
      OthersNone(world, mine, None);
      persisted, err := false, true;
      label attempt: {
        var broken := Statement();
        if broken {
          break attempt;
        }
        var tx := Session(world.clock, CompleteCall(job.token, chunks, questions), Begun);
        Yield(origin, mine, tx);
        broken := Statement();
        if broken {
          break attempt;
        }
        if !Fence(world, job.token, tx.start) {
          FailedFence(world, job.token, tx.start);
          err := false;
          break attempt;
        }
        tx := tx.(stage := Probed);
        Yield(origin, mine, tx);
        broken := Statement();
        if broken {
          break attempt;
        }
        tx, broken := StageChunks(job, chunks, tx, origin);
        if !broken {
          persisted, err := CompleteStaged(job, tx, origin);
        }
      }
      calls := calls + [Persisting(job, chunks, questions, persisted, err)];
    }

    /** Fail: the row becomes FAILED and its result is published, in one transaction. */
    method Fail(job: ClaimedJob, code: FailureCode) returns (finalized: bool, err: bool)
      requires Inv(world) && Describes(world, job)
      modifies this
      ensures calls == old(calls) + [Failing(job, code, finalized, err)]
      ensures statements >= old(statements) && (err ==> !Smooth(breaks, old(statements), statements))
      ensures Inv(world)
      ensures finalized && !err ==> Fails(old(world), world, job.token, code)
      ensures !finalized ==> Others(old(world), world, Some(job.token), None)
      ensures finalized && err ==>
                Fails(old(world), world, job.token, code) || Others(old(world), world, Some(job.token), None)
      ensures !err ==> !Live(world, job.token)
    {
      ghost var origin, mine := world, Some(job.token);
      OthersNone(world, mine, None);
      finalized, err := false, true;
      label attempt: {
        var broken := Statement();
        if broken {
          break attempt;
        }
        var tx := Session(world.clock, FailCall(job.token, code), Begun);
        Yield(origin, mine, tx);
        broken := Statement();
        if broken {
          break attempt;
        }
        if !Fence(world, job.token, tx.start) {
          FailedFence(world, job.token, tx.start);
          err := false;
          break attempt;
        }
        var row := Finished(world.jobs[job.token.job], Failed, Some(code));
        tx := tx.(stage := Updated(job.token.job, row, []));
        finalized, err := PublishAndCommit(origin, mine, tx);
      }
      calls := calls + [Failing(job, code, finalized, err)];
    }

    /** The second transaction of a final retry.  A dead letter left by an earlier arming makes the insert fail. */
    method FinalizeWithDLQ(job: ClaimedJob, code: FailureCode) returns (finalized: bool, err: bool)
      requires Inv(world) && Describes(world, job)
      requires Holds(world, job.token) ==> world.jobs[job.token.job].retries >= 3
      modifies this`world, this`statements
      ensures statements >= old(statements)
      ensures err ==> !Smooth(breaks, old(statements), statements) || Blocked(old(world), world, job.token)
      ensures Inv(world)
      ensures finalized && !err ==> Buries(old(world), world, job.token, code)
      ensures !finalized ==> Others(old(world), world, Some(job.token), None)
      ensures finalized && err ==>
                Buries(old(world), world, job.token, code) || Others(old(world), world, Some(job.token), None)
      ensures !err ==> !Live(world, job.token)
      ensures job.token.job in old(world).dead ==> !finalized
    {
      ghost var origin, mine := world, Some(job.token);
      OthersNone(world, mine, None);
      var broken := Statement();
      if broken {
        return false, true;
      }
      var tx := Session(world.clock, BuryCall(job.token, code), Begun);
      Yield(origin, mine, tx);
      broken := Statement();
      if broken {
        return false, true;
      }
      if !Fence(world, job.token, tx.start) {
        FailedFence(world, job.token, tx.start);
        return false, false;
      }
      OthersKeep(origin, world, mine, None, job.token, 0);
      ghost var read := world;
      var row := Finished(world.jobs[job.token.job], Failed, Some(code));
      tx := tx.(stage := Updated(job.token.job, row, []));
      Yield(origin, mine, tx);
      broken := Statement();
      OthersKeepDeadLetters(origin, world, mine, None, job.token.job);
      if broken {
        return false, true;
      }
      if job.token.job in world.dead {
        OthersKeep(read, world, mine, Lock(tx), job.token, 0);
        NowBlocked(origin, world, job.token);
        return false, true;
      }
      tx := tx.(stage := Lettered(job.token.job, row));
      finalized, err := PublishAndCommit(origin, mine, tx);
    }

    method Retry(job: ClaimedJob, code: FailureCode) returns (result: RetryResult, err: bool)
      requires Inv(world) && Describes(world, job)
      modifies this
      ensures calls == old(calls) + [Retrying(job, code, result, err)]
      ensures statements >= old(statements)
      ensures err ==> !Smooth(breaks, old(statements), statements) || Blocked(old(world), world, job.token)
      ensures Inv(world)
      ensures result.scheduled ==> !err && Reschedules(old(world), world, job.token, code)
      ensures result.scheduled ==> Postponed(old(world), world, job.token, code)
      ensures result.finalized && !err ==> Buries(old(world), world, job.token, code)
      ensures !err && !result.scheduled && !result.finalized ==> Others(old(world), world, Some(job.token), None)
      ensures err ==>
                || Reschedules(old(world), world, job.token, code)
                || Buries(old(world), world, job.token, code)
                || Others(old(world), world, Some(job.token), None)
      ensures !err ==> !Live(world, job.token)
      ensures job.token.job in old(world).dead ==> !result.finalized
    {
      ghost var origin, mine := world, Some(job.token);
      OthersNone(world, mine, None);
      result, err := RetryResult(false, false), true;
      label attempt: {
        var broken := Statement();
        if broken {
          break attempt;
        }
        var tx := Session(world.clock, RetryCall(job.token, code), Begun);
        Yield(origin, mine, tx);
        broken := Statement();
        if broken {
          break attempt;
        }
        if !Fence(world, job.token, tx.start) {
          FailedFence(world, job.token, tx.start);
          err := false;
          break attempt;
        }
        tx := tx.(stage := Selected(job.token.job));
        var retries := world.jobs[job.token.job].retries;
        ghost var read := world;
        Yield(origin, mine, tx);
        OthersKeep(read, world, mine, Lock(tx), job.token, tx.start);
        broken := Statement();
        if broken {
          break attempt;
        }
        if retries >= MAX_RETRIES {
          var finalized;
          finalized, err := FinalizeLater(job, code, origin);
          result := RetryResult(false, finalized);
          break attempt;
        }
        var row := Rescheduled(world.jobs[job.token.job], tx.start, code);
        tx := tx.(stage := Updated(job.token.job, row, []));
        Yield(origin, mine, tx);
        err := Commit(origin, mine, tx);
        result := RetryResult(!err, false);
        if !err {
          RescheduledIsPostponed(origin, world, job.token, code);
        }
      }
      calls := calls + [Retrying(job, code, result, err)];
    }

    /** The row lock is released first, so other sessions may act before the second transaction begins. */
    method FinalizeLater(job: ClaimedJob, code: FailureCode, ghost origin: World) returns (finalized: bool, err: bool)
      requires Inv(world) && Inv(origin) && Describes(origin, job) && Others(origin, world, Some(job.token), None)
      requires Holds(world, job.token) ==> world.jobs[job.token.job].retries >= 3
      modifies this`world, this`statements
      ensures statements >= old(statements)
      ensures err ==> !Smooth(breaks, old(statements), statements) || Blocked(origin, world, job.token)
      ensures Inv(world)
      ensures finalized && !err ==> Buries(origin, world, job.token, code)
      ensures !finalized ==> Others(origin, world, Some(job.token), None)
      ensures finalized && err ==>
                Buries(origin, world, job.token, code) || Others(origin, world, Some(job.token), None)
      ensures !err ==> !Live(world, job.token)
      ensures job.token.job in origin.dead ==> !finalized
    {
      ghost var mine, read := Some(job.token), world;
      OthersKeepDocument(origin, world, mine, None, job);
      Yield(origin, mine, Session(world.clock, ClaimCall, Begun));
      OthersKeep(read, world, mine, None, job.token, 0);
      ghost var middle := world;
      OthersKeepDeadLetters(origin, middle, mine, None, job.token.job);
      finalized, err := FinalizeWithDLQ(job, code);
      BuriedLater(origin, middle, world, job.token, code);
    }
  }

  lemma PrefixGrows<T>(s: seq<T>, i: nat)
    requires i < |s|
    ensures s[..i] + [s[i]] == s[..i + 1]
  {
  }

  lemma WholePrefix<T>(s: seq<T>)
    ensures s[..|s|] == s
  {
  }

  lemma PrependOthers(origin: World, middle: World, w: World, mine: Option<Token>)
    requires Others(origin, middle, mine, None)
    ensures Others(middle, w, mine, None) ==> Others(origin, w, mine, None)
    ensures forall a :: TookStep(middle, a, w, mine) ==> TookStep(origin, a, w, mine)
  {
    if Others(middle, w, mine, None) {
      OthersTrans(origin, middle, w, mine, None);
    }
    forall a | TookStep(middle, a, w, mine) ensures TookStep(origin, a, w, mine) {
      var before :| Others(middle, before, mine, None) && LedgerCovers(before) && Enabled(before, a)
                    && Others(Next(before, a), w, mine, None);
      OthersTrans(origin, middle, before, mine, None);
    }
  }

  lemma BuriedLater(origin: World, middle: World, w: World, t: Token, code: FailureCode)
    requires Others(origin, middle, Some(t), None)
    ensures Others(middle, w, Some(t), None) ==> Others(origin, w, Some(t), None)
    ensures Buries(middle, w, t, code) ==> Buries(origin, w, t, code)
    ensures Blocked(middle, w, t) ==> Blocked(origin, w, t)
  {
    PrependOthers(origin, middle, w, Some(t));
    if Blocked(middle, w, t) {
      PrependBlocked(origin, middle, w, t);
    }
  }

  lemma ClaimCommitFacts(origin: World, w: World, tx: Session)
    requires Inv(w) && SessionInv(w, tx) && tx.call.ClaimCall? && tx.stage.Updated? && Others(origin, w, None, None)
    ensures Inv(Committed(w, tx)) && TookStep(origin, Effect(tx), Committed(w, tx), None)
    ensures var t := Token(tx.stage.job, tx.stage.row.attempts, tx.stage.row.lease.value.id);
            var job := ClaimedJob(t, tx.stage.row.document);
            Describes(Committed(w, tx), job) && Holds(Committed(w, tx), job.token)
  {
    CommitTakesStep(origin, w, None, tx);
  }

  lemma OthersKeepDocument(w: World, w': World, mine: Option<Token>, held: Option<JobId>, job: ClaimedJob)
    requires Inv(w) && Others(w, w', mine, held) && Describes(w, job)
    ensures Describes(w', job)
  {
    OthersKeep(w, w', mine, held, job.token, 0);
  }
}
