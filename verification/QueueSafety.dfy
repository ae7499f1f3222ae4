/** What every run of the queue keeps. */
module QueueSafety {
  import opened Domain
  import opened Queue

  /** The results published for one job, oldest first. */
  ghost function ResultsOf(outbox: seq<OutRow>, job: JobId): seq<Result> {
    if outbox == [] then []
    else
      var last := outbox[|outbox| - 1];
      ResultsOf(outbox[..|outbox| - 1], job) + (if last.job == job then [last.result] else [])
  }

  lemma ResultsOfAppend(outbox: seq<OutRow>, row: OutRow, job: JobId)
    ensures ResultsOf(outbox + [row], job) == ResultsOf(outbox, job) + (if row.job == job then [row.result] else [])
  {
    assert (outbox + [row])[..|outbox|] == outbox;
  }

  // ---- the invariant ----

  /** Leases, retry budget, visibility, and the exact account of attempts within the current arming. */
  ghost predicate RowInv(row: Row, book: Ledger, clock: Time) {
    && (row.status.Running? <==> row.lease.Some?)
    && (row.lease.Some? ==> row.lease.value.until <= clock + 900)
    && row.nextVisible <= clock + 300
    && row.retries <= 3
    && row.attempts == book.armedAt + row.retries + book.reclaims + (if row.status.Pending? then 0 else 1)
  }

  /** FAILED* READY?, one result for each re-arm and one more once the job is terminal. */
  ghost predicate LogInv(row: Row, book: Ledger, log: seq<Result>) {
    && |log| == book.rearms + (if row.status.Terminal() then 1 else 0)
    && (forall k :: 0 <= k < |log| ==> log[k].document == row.document)
    && (forall k :: 0 <= k < |log| ==> (log[k].Ready? <==> k == |log| - 1 && row.status.Completed?))
  }

  /** A completed job's stored chunks are those its published questions were made from. */
  ghost predicate StoredInv(row: Row, chunks: map<Document, seq<Chunk>>, log: seq<Result>) {
    row.status.Completed? ==>
      && row.document in chunks
      && |log| > 0
      && log[|log| - 1].Ready?
      && Assembled(chunks[row.document], log[|log| - 1].questions)
  }

  ghost predicate JobInv(w: World, job: JobId)
    requires LedgerCovers(w) && job in w.jobs
  {
    var log := ResultsOf(w.outbox, job);
    && RowInv(w.jobs[job], w.ledger[job], w.clock)
    && LogInv(w.jobs[job], w.ledger[job], log)
    && StoredInv(w.jobs[job], w.chunks, log)
    && (job in w.dead ==> w.dead[job].lastAttempt <= w.jobs[job].attempts)
  }

  ghost predicate DistinctDocuments(w: World) {
    forall i, j :: i in w.jobs && j in w.jobs && i != j ==> w.jobs[i].document.id != w.jobs[j].document.id
  }

  ghost predicate Inv(w: World) {
    && LedgerCovers(w)
    && DistinctDocuments(w)
    && w.dead.Keys <= w.jobs.Keys
    && (forall job :: job !in w.jobs ==> ResultsOf(w.outbox, job) == [])
    && (forall job :: job in w.jobs ==> JobInv(w, job))
  }

  lemma StepLog(w: World, a: Action, job: JobId)
    requires LedgerCovers(w) && Enabled(w, a)
    ensures ResultsOf(Next(w, a).outbox, job) ==
            ResultsOf(w.outbox, job) +
            (if Published(w, a).Some? && Target(a) == Some(job) then [Published(w, a).value] else [])
  {
    if Published(w, a).Some? {
      ResultsOfAppend(w.outbox, OutRow(Target(a).value, Published(w, a).value), job);
    }
  }

  lemma FreshRowInv(w: World, a: Action)
    requires LedgerCovers(w) && Enabled(w, a) && a.Enqueue? && a.job !in w.jobs
    ensures RowInv(RowAfter(w, a), LedgerAfter(w, a), w.clock)
    ensures LogInv(RowAfter(w, a), LedgerAfter(w, a), [])
  {
  }

  lemma WrittenRowInv(w: World, a: Action)
    requires LedgerCovers(w) && Enabled(w, a) && !a.Tick? && Target(a).value in w.jobs
    requires RowInv(w.jobs[Target(a).value], w.ledger[Target(a).value], w.clock)
    ensures RowInv(RowAfter(w, a), LedgerAfter(w, a), w.clock)
  {
  }

  lemma WrittenLogInv(w: World, a: Action, log: seq<Result>)
    requires LedgerCovers(w) && Enabled(w, a) && !a.Tick? && Target(a).value in w.jobs
    requires LogInv(w.jobs[Target(a).value], w.ledger[Target(a).value], log)
    ensures LogInv(RowAfter(w, a), LedgerAfter(w, a),
                   log + (if Published(w, a).Some? then [Published(w, a).value] else []))
  {
  }

  /** The job a step targets keeps its invariant. */
  lemma TargetKeepsInv(w: World, a: Action, job: JobId)
    requires Inv(w) && Enabled(w, a) && Target(a) == Some(job) && LedgerCovers(Next(w, a))
    ensures JobInv(Next(w, a), job)
  {
    StepLog(w, a, job);
    if job in w.jobs {
      assert JobInv(w, job);
      WrittenRowInv(w, a);
      WrittenLogInv(w, a, ResultsOf(w.outbox, job));
    } else {
      FreshRowInv(w, a);
    }
  }

  lemma OtherRowUntouched(w: World, a: Action, job: JobId)
    requires LedgerCovers(w) && Enabled(w, a) && Target(a) != Some(job) && job in w.jobs
    ensures LedgerCovers(Next(w, a)) && w.clock <= Next(w, a).clock
    ensures job in Next(w, a).jobs && Next(w, a).jobs[job] == w.jobs[job] && Next(w, a).ledger[job] == w.ledger[job]
    ensures job in Next(w, a).dead <==> job in w.dead
    ensures job in w.dead ==> Next(w, a).dead[job] == w.dead[job]
  {
  }

  /** Only a completion writes chunks, and only those of its own document. */
  lemma OtherChunksUntouched(w: World, a: Action, job: JobId)
    requires LedgerCovers(w) && Enabled(w, a) && Target(a) != Some(job) && job in w.jobs && DistinctDocuments(w)
    ensures var d := w.jobs[job].document;
            (d in Next(w, a).chunks <==> d in w.chunks) && (d in w.chunks ==> Next(w, a).chunks[d] == w.chunks[d])
  {
    assert a.Complete? ==> w.jobs[a.token.job].document.id != w.jobs[job].document.id;
  }

  /** What the invariant of a job depends on. */
  lemma JobInvCarries(w: World, w': World, job: JobId)
    requires LedgerCovers(w) && LedgerCovers(w') && job in w.jobs && job in w'.jobs && JobInv(w, job)
    requires w'.jobs[job] == w.jobs[job] && w'.ledger[job] == w.ledger[job] && w.clock <= w'.clock
    requires ResultsOf(w'.outbox, job) == ResultsOf(w.outbox, job)
    requires var d := w.jobs[job].document; d in w.chunks ==> d in w'.chunks && w'.chunks[d] == w.chunks[d]
    requires job in w'.dead ==> job in w.dead && w'.dead[job] == w.dead[job]
    ensures JobInv(w', job)
  {
  }

  /** Every other job keeps it too: its row, log, ledger and chunks are untouched. */
  lemma OthersKeepInv(w: World, a: Action, job: JobId)
    requires Inv(w) && Enabled(w, a) && Target(a) != Some(job) && job in w.jobs
    ensures job in Next(w, a).jobs && LedgerCovers(Next(w, a)) && JobInv(Next(w, a), job)
    ensures Next(w, a).jobs[job] == w.jobs[job]
  {
    OtherRowUntouched(w, a, job);
    OtherChunksUntouched(w, a, job);
    StepLog(w, a, job);
    JobInvCarries(w, Next(w, a), job);
  }

  lemma StepKeepsDocuments(w: World, a: Action)
    requires LedgerCovers(w) && DistinctDocuments(w) && Enabled(w, a)
    ensures DistinctDocuments(Next(w, a))
    ensures forall job :: job in w.jobs ==>
              job in Next(w, a).jobs && Next(w, a).jobs[job].document == w.jobs[job].document
  {
  }

  lemma StepKeepsTables(w: World, a: Action)
    requires LedgerCovers(w) && DistinctDocuments(w) && w.dead.Keys <= w.jobs.Keys && Enabled(w, a)
    ensures LedgerCovers(Next(w, a)) && DistinctDocuments(Next(w, a))
    ensures w.jobs.Keys <= Next(w, a).jobs.Keys && Next(w, a).dead.Keys <= Next(w, a).jobs.Keys
  {
    StepKeepsDocuments(w, a);
  }

  lemma StepKeepsJob(w: World, a: Action, job: JobId)
    requires Inv(w) && Enabled(w, a) && job in Next(w, a).jobs && LedgerCovers(Next(w, a))
    ensures JobInv(Next(w, a), job)
  {
    if Target(a) == Some(job) {
      TargetKeepsInv(w, a, job);
    } else {
      OthersKeepInv(w, a, job);
    }
  }

  lemma StepKeepsInv(w: World, a: Action)
    requires Inv(w) && Enabled(w, a)
    ensures Inv(Next(w, a))
  {
    StepKeepsTables(w, a);
    forall job | job in Next(w, a).jobs ensures JobInv(Next(w, a), job) {
      StepKeepsJob(w, a, job);
    }
    forall job | job !in Next(w, a).jobs ensures ResultsOf(Next(w, a).outbox, job) == [] {
      StepLog(w, a, job);
    }
  }

  lemma {:induction false} RunKeepsInv(w: World, acts: seq<Action>, w': World)
    requires Inv(w) && Exec(w, acts, w')
    ensures Inv(w')
    decreases |acts|
  {
    if acts != [] {
      StepKeepsInv(w, acts[0]);
      RunKeepsInv(Next(w, acts[0]), acts[1..], w');
    }
  }

  lemma InitialInv()
    ensures Inv(INITIAL)
  {
  }

  // ---- one result for each arming ----

  ghost predicate Rearms(w: World, a: Action, job: JobId) {
    a.Enqueue? && a.job == job && job in w.jobs && w.jobs[job].status.Failed?
  }

  ghost function RearmCount(w: World, acts: seq<Action>, job: JobId): nat
    decreases |acts|
  {
    if acts == [] || !LedgerCovers(w) || !Enabled(w, acts[0]) then 0
    else (if Rearms(w, acts[0], job) then 1 else 0) + RearmCount(Next(w, acts[0]), acts[1..], job)
  }

  ghost function ClaimCount(acts: seq<Action>, job: JobId): nat {
    if acts == [] then 0
    else (if acts[0].Claim? && acts[0].job == job then 1 else 0) + ClaimCount(acts[1..], job)
  }

  ghost function AttemptsOf(w: World, job: JobId): nat {
    if job in w.jobs then w.jobs[job].attempts else 0
  }

  ghost function RearmsOf(w: World, job: JobId): nat {
    if job in w.ledger then w.ledger[job].rearms else 0
  }

  lemma StepCounts(w: World, a: Action, job: JobId)
    requires LedgerCovers(w) && Enabled(w, a)
    ensures var rearmed := if Rearms(w, a, job) then 1 else 0;
            && AttemptsOf(Next(w, a), job) == AttemptsOf(w, job) + rearmed + (if a.Claim? && a.job == job then 1 else 0)
            && RearmsOf(Next(w, a), job) == RearmsOf(w, job) + rearmed
  {
  }

  /** The attempts column counts claims and re-arms, nothing else. */
  lemma {:induction false} AttemptsCountClaimsAndRearms(w: World, acts: seq<Action>, w': World, job: JobId)
    requires LedgerCovers(w) && Exec(w, acts, w')
    ensures AttemptsOf(w', job) == AttemptsOf(w, job) + ClaimCount(acts, job) + RearmCount(w, acts, job)
    ensures RearmsOf(w', job) == RearmsOf(w, job) + RearmCount(w, acts, job)
    decreases |acts|
  {
    if acts != [] {
      StepCounts(w, acts[0], job);
      AttemptsCountClaimsAndRearms(Next(w, acts[0]), acts[1..], w', job);
    }
  }

  /**
   In every run each job has published one result for each re-arm, plus one if it is terminal now;
   all are failures except that a completed job's last one is READY, and its questions cite the stored chunks.
   */
  lemma OutboxAccount(acts: seq<Action>, w: World, job: JobId)
    requires Exec(INITIAL, acts, w) && job in w.jobs
    ensures var log := ResultsOf(w.outbox, job);
            && |log| == RearmCount(INITIAL, acts, job) + (if w.jobs[job].status.Terminal() then 1 else 0)
            && (forall k :: 0 <= k < |log| ==> (log[k].Ready? <==> k == |log| - 1 && w.jobs[job].status.Completed?))
            && (w.jobs[job].status.Completed? ==>
                  && w.jobs[job].document in w.chunks
                  && log != []
                  && Assembled(w.chunks[w.jobs[job].document], log[|log| - 1].questions))
  {
    InitialInv();
    RunKeepsInv(INITIAL, acts, w);
    AttemptsCountClaimsAndRearms(INITIAL, acts, w, job);
    assert JobInv(w, job);
  }

  /** Within one arming every claim is paid for by a retry, an expired lease, or the claim in progress. */
  lemma ClaimsWithinArming(acts: seq<Action>, w: World, job: JobId)
    requires Exec(INITIAL, acts, w) && job in w.jobs
    ensures w.jobs[job].retries <= 3 && job in w.ledger
    ensures w.jobs[job].attempts - w.ledger[job].armedAt ==
            w.jobs[job].retries + w.ledger[job].reclaims + (if w.jobs[job].status.Pending? then 0 else 1)
    ensures w.ledger[job].reclaims == 0 ==> w.jobs[job].attempts <= w.ledger[job].armedAt + 4
  {
    InitialInv();
    RunKeepsInv(INITIAL, acts, w);
    assert JobInv(w, job);
  }

  /** No job is lost: fifteen minutes from now at the latest, a job that has not ended can be claimed again. */
  lemma NoJobLost(acts: seq<Action>, w: World, job: JobId, at: Time)
    requires Exec(INITIAL, acts, w) && job in w.jobs && !w.jobs[job].status.Terminal()
    requires at >= w.clock + (if w.jobs[job].status.Pending? then 300 else 900)
    ensures Eligible(w.jobs[job], at)
  {
    InitialInv();
    RunKeepsInv(INITIAL, acts, w);
    assert JobInv(w, job);
  }
}
