/**
 The retry budget and the dead-letter table.

 The table's job_id column is UNIQUE and the worker's insert has no ON CONFLICT clause, while a re-arm
 resets the retry count and leaves the old dead letter in place.  A re-armed job that was buried once
 can therefore not be buried again: its final transaction always fails.
 */
module DeadLetters {
  import opened Domain
  import opened Queue
  import opened QueueSafety

  /** A dead letter appears only at the end of the retry budget, with the FAILED row and its result. */
  lemma DeadLetterOnlyAtLimit(w: World, a: Action)
    requires Inv(w) && Enabled(w, a) && Next(w, a).dead != w.dead
    ensures a.Bury?
    ensures var job, w' := a.token.job, Next(w, a);
            && w.jobs[job].retries == 3
            && job !in w.dead
            && w'.dead == w.dead[job := DeadLetter(w.jobs[job].document, w.jobs[job].attempts, a.code)]
            && w'.jobs[job].status.Failed? && w'.jobs[job].failure == Some(a.code)
            && w'.outbox == w.outbox + [OutRow(job, Rejected(w.jobs[job].document, a.code))]
  {
    assert JobInv(w, a.token.job);
  }

  /** What a technical failure can still do with a live claim: reschedule below the limit, bury at it. */
  lemma TechnicalFailure(w: World, t: Token, code: FailureCode)
    requires Inv(w) && Live(w, t)
    ensures Enabled(w, Reschedule(t, w.clock, code)) <==> w.jobs[t.job].retries < 3
    ensures Enabled(w, Bury(t, w.clock, code)) <==> w.jobs[t.job].retries == 3 && t.job !in w.dead
  {
    assert JobInv(w, t.job);
  }

  /** Steps under which every attempt at the job ends in a technical failure or not at all. */
  ghost predicate TechnicalOnly(acts: seq<Action>, job: JobId) {
    forall i :: 0 <= i < |acts| ==>
      !(acts[i].Complete? && acts[i].token.job == job) && !(acts[i].Fail? && acts[i].token.job == job)
  }

  /** With an old dead letter in the table, technical failures never end the job. */
  lemma {:induction false} OldDeadLetterBlocks(w: World, acts: seq<Action>, w': World, job: JobId)
    requires Exec(w, acts, w') && TechnicalOnly(acts, job)
    requires job in w.jobs && job in w.dead && !w.jobs[job].status.Terminal()
    ensures job in w'.jobs && job in w'.dead && !w'.jobs[job].status.Terminal()
    decreases |acts|
  {
    if acts != [] {
      assert forall i :: 0 <= i < |acts| - 1 ==> acts[1..][i] == acts[i + 1];
      OldDeadLetterBlocks(Next(w, acts[0]), acts[1..], w', job);
    }
  }

  // ---- runs of technical failures ----

  /** A run from `w` to `w'` in which the job is claimed `claims` times and every attempt fails technically. */
  ghost predicate TechnicalRun(w: World, acts: seq<Action>, w': World, job: JobId, claims: nat) {
    Exec(w, acts, w') && TechnicalOnly(acts, job) && ClaimCount(acts, job) == claims
  }

  lemma TechnicalStep(w: World, a: Action, job: JobId)
    requires Inv(w) && Enabled(w, a)
    requires !(a.Complete? && a.token.job == job) && !(a.Fail? && a.token.job == job)
    ensures TechnicalRun(w, [a], Next(w, a), job, if a.Claim? && a.job == job then 1 else 0) && Inv(Next(w, a))
  {
    ExecOne(w, a);
    StepKeepsInv(w, a);
    ClaimCountOne(a, job);
  }

  lemma ClaimCountOne(a: Action, job: JobId)
    ensures ClaimCount([a], job) == if a.Claim? && a.job == job then 1 else 0
  {
    assert [a][1..] == [] && ClaimCount([], job) == 0;
  }

  lemma {:induction false} ClaimCountAppend(first: seq<Action>, second: seq<Action>, job: JobId)
    ensures ClaimCount(first + second, job) == ClaimCount(first, job) + ClaimCount(second, job)
    decreases |first|
  {
    if first == [] {
      assert first + second == second;
    } else {
      assert (first + second)[1..] == first[1..] + second;
      ClaimCountAppend(first[1..], second, job);
    }
  }

  lemma TechnicalAppend(w: World, first: seq<Action>, mid: World, second: seq<Action>, w': World, job: JobId, m: nat,
                        n: nat)
    requires TechnicalRun(w, first, mid, job, m) && TechnicalRun(mid, second, w', job, n)
    ensures TechnicalRun(w, first + second, w', job, m + n)
  {
    ExecAppend(w, first, mid, second, w');
    ClaimCountAppend(first, second, job);
  }

  /** Wait, then claim. */
  lemma WaitAndClaim(w: World, job: JobId, wait: nat) returns (acts: seq<Action>, w': World, t: Token)
    requires Inv(w) && job in w.jobs && Eligible(w.jobs[job], w.clock + wait)
    ensures TechnicalRun(w, acts, w', job, 1) && Inv(w') && w'.dead == w.dead && t.job == job && Live(w', t)
    ensures w'.jobs[job].retries == w.jobs[job].retries
  {
    var later := Next(w, Tick(wait));
    TechnicalStep(w, Tick(wait), job);
    var attempt := w.jobs[job].attempts + 1;
    var claim := Claim(job, later.clock, attempt);
    TechnicalStep(later, claim, job);
    acts, w', t := [Tick(wait)] + [claim], Next(later, claim), Token(job, attempt, attempt);
    TechnicalAppend(w, [Tick(wait)], later, [claim], w', job, 0, 1);
  }

  /** Below the limit a claim that fails technically puts the job back with one retry more. */
  lemma FailOnce(w: World, job: JobId, code: FailureCode) returns (acts: seq<Action>, w': World)
    requires Inv(w) && job in w.jobs && w.jobs[job].status.Pending? && w.jobs[job].retries < 3
    ensures TechnicalRun(w, acts, w', job, 1) && Inv(w') && w'.dead == w.dead
    ensures job in w'.jobs && w'.jobs[job].status.Pending? && w'.jobs[job].retries == w.jobs[job].retries + 1
  {
    assert JobInv(w, job);
    var claim, claimed, t := WaitAndClaim(w, job, 300);
    var retry := Reschedule(t, claimed.clock, code);
    TechnicalStep(claimed, retry, job);
    w' := Next(claimed, retry);
    TechnicalAppend(w, claim, claimed, [retry], w', job, 1, 0);
    acts := claim + [retry];
  }

  /** From a waiting job, technical failures alone lead to a live claim with the budget used up. */
  lemma {:induction false} ExhaustRetries(w: World, job: JobId, code: FailureCode)
    returns (acts: seq<Action>, w': World, t: Token)
    requires Inv(w) && job in w.jobs && w.jobs[job].status.Pending? && w.jobs[job].retries <= 3
    ensures TechnicalRun(w, acts, w', job, 3 - w.jobs[job].retries + 1)
    ensures Inv(w') && Live(w', t) && t.job == job && w'.jobs[job].retries == 3 && w'.dead == w.dead
    decreases 3 - w.jobs[job].retries
  {
    if w.jobs[job].retries == 3 {
      assert JobInv(w, job);
      acts, w', t := WaitAndClaim(w, job, 300);
    } else {
      var first, waiting := FailOnce(w, job, code);
      var rest;
      rest, w', t := ExhaustRetries(waiting, job, code);
      TechnicalAppend(w, first, waiting, rest, w', job, 1, 3 - waiting.jobs[job].retries + 1);
      acts := first + rest;
    }
  }

  /** A waiting job with no old dead letter is buried after at most four claims that all fail technically. */
  lemma BuriedWithinFourClaims(w: World, job: JobId, code: FailureCode) returns (acts: seq<Action>, w': World)
    requires Inv(w) && job in w.jobs && w.jobs[job].status.Pending? && job !in w.dead
    ensures w.jobs[job].retries <= 3
    ensures TechnicalRun(w, acts, w', job, 3 - w.jobs[job].retries + 1)
    ensures Inv(w') && job in w'.jobs && w'.jobs[job].status.Failed? && job in w'.dead
  {
    assert JobInv(w, job);
    var run, last, t := ExhaustRetries(w, job, code);
    TechnicalFailure(last, t, code);
    var bury := Bury(t, last.clock, code);
    TechnicalStep(last, bury, job);
    w' := Next(last, bury);
    TechnicalAppend(w, run, last, [bury], w', job, 3 - w.jobs[job].retries + 1, 0);
    acts := run + [bury];
  }

  /** What remains of the budget of a claim that is live: reschedule and go on, or bury at once. */
  lemma LiveClaimIsBuried(w: World, t: Token, code: FailureCode) returns (acts: seq<Action>, w': World, claims: nat)
    requires Inv(w) && Live(w, t) && t.job !in w.dead
    ensures w.jobs[t.job].retries <= 3 && claims == 3 - w.jobs[t.job].retries
    ensures TechnicalRun(w, acts, w', t.job, claims)
    ensures t.job in w'.jobs && w'.jobs[t.job].status.Failed?
  {
    assert JobInv(w, t.job);
    TechnicalFailure(w, t, code);
    claims := 3 - w.jobs[t.job].retries;
    if claims == 0 {
      var bury := Bury(t, w.clock, code);
      TechnicalStep(w, bury, t.job);
      acts, w' := [bury], Next(w, bury);
    } else {
      var retry := Reschedule(t, w.clock, code);
      TechnicalStep(w, retry, t.job);
      var waiting := Next(w, retry);
      var rest;
      rest, w' := BuriedWithinFourClaims(waiting, t.job, code);
      TechnicalAppend(w, [retry], waiting, rest, w', t.job, 0, claims);
      acts := [retry] + rest;
    }
  }

  /** A running job is claimed again once its lease has run out, and then buried. */
  lemma RunningJobIsBuried(w: World, job: JobId, code: FailureCode) returns (acts: seq<Action>, w': World)
    requires Inv(w) && job in w.jobs && w.jobs[job].status.Running? && job !in w.dead
    ensures w.jobs[job].retries <= 3
    ensures TechnicalRun(w, acts, w', job, 3 - w.jobs[job].retries + 1)
    ensures job in w'.jobs && w'.jobs[job].status.Failed?
  {
    assert JobInv(w, job);
    var claim, claimed, t := WaitAndClaim(w, job, 900);
    var rest, claims;
    rest, w', claims := LiveClaimIsBuried(claimed, t, code);
    TechnicalAppend(w, claim, claimed, rest, w', job, 1, claims);
    acts := claim + rest;
  }

  /** Some run of technical failures ends the job. */
  ghost predicate CanFailTechnically(w: World, job: JobId) {
    exists acts, w' ::
      Exec(w, acts, w') && TechnicalOnly(acts, job) && job in w'.jobs && w'.jobs[job].status.Failed?
  }

  /**
   The documented promise that exhausted technical retries end the job holds exactly when the job has
   no dead letter from an earlier arming.
   */
  lemma TechnicalFailuresEndTheJobIff(w: World, job: JobId)
    requires Inv(w) && job in w.jobs && !w.jobs[job].status.Terminal()
    ensures CanFailTechnically(w, job) <==> job !in w.dead
  {
    if job !in w.dead {
      if w.jobs[job].status.Pending? {
        var acts, w' := BuriedWithinFourClaims(w, job, ProcessingFailed);
      } else {
        var acts, w' := RunningJobIsBuried(w, job, ProcessingFailed);
      }
    } else if CanFailTechnically(w, job) {
      var acts, w' :| Exec(w, acts, w') && TechnicalOnly(acts, job) && job in w'.jobs && w'.jobs[job].status.Failed?;
      OldDeadLetterBlocks(w, acts, w', job);
    }
  }

  lemma BuriedJobCanBeRearmed() returns (acts: seq<Action>, w: World)
    ensures Exec(INITIAL, acts, w) && Inv(w)
    ensures 0 in w.jobs && w.jobs[0].status.Pending? && w.jobs[0].retries == 0 && 0 in w.dead
  {
    InitialInv();
    var create := Enqueue(0, Document(0, 0), 0);
    var created := Next(INITIAL, create);
    TechnicalStep(INITIAL, create, 0);
    var burial, buried := BuriedWithinFourClaims(created, 0, ProcessingFailed);
    var rearm := Enqueue(0, buried.jobs[0].document, buried.clock);
    w := Next(buried, rearm);
    TechnicalStep(buried, rearm, 0);
    ExecAppend(INITIAL, [create], created, burial, buried);
    ExecAppend(INITIAL, [create] + burial, buried, [rearm], w);
    acts := [create] + burial + [rearm];
  }

  /** With the budget exhausted and an old dead letter, the holder can neither retry nor bury. */
  lemma NeitherRetryNorBury(w: World, t: Token)
    requires t.job in w.jobs && t.job in w.dead && w.jobs[t.job].retries >= 3
    ensures forall code :: !Enabled(w, Reschedule(t, w.clock, code)) && !Enabled(w, Bury(t, w.clock, code))
  {
  }

  /** Such a state is reachable: enqueue, exhaust the budget, re-arm, exhaust it again. */
  lemma StuckJobIsReachable() returns (acts: seq<Action>, w: World, t: Token)
    ensures Exec(INITIAL, acts, w) && Inv(w) && Live(w, t)
    ensures w.jobs[t.job].retries == 3 && t.job in w.dead
    ensures forall code :: !Enabled(w, Reschedule(t, w.clock, code)) && !Enabled(w, Bury(t, w.clock, code))
  {
    var first, rearmed := BuriedJobCanBeRearmed();
    var again;
    again, w, t := ExhaustRetries(rearmed, 0, ProcessingFailed);
    ExecAppend(INITIAL, first, rearmed, again, w);
    NeitherRetryNorBury(w, t);
    acts := first + again;
  }

  /** From there the job can be claimed any number of times and still not end. */
  lemma {:induction false} ClaimedWithoutEnd(w: World, job: JobId, n: nat) returns (acts: seq<Action>, w': World)
    requires Inv(w) && job in w.jobs && w.jobs[job].status.Running?
    ensures TechnicalRun(w, acts, w', job, n) && Inv(w') && job in w'.jobs && w'.jobs[job].status.Running?
    decreases n
  {
    if n == 0 {
      acts, w' := [], w;
    } else {
      assert JobInv(w, job);
      var claim, claimed, t := WaitAndClaim(w, job, 900);
      var rest;
      rest, w' := ClaimedWithoutEnd(claimed, job, n - 1);
      TechnicalAppend(w, claim, claimed, rest, w', job, 1, n - 1);
      acts := claim + rest;
    }
  }
}
