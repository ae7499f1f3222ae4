/** Claim tokens: at most one holds a job, and one that has lost its job can never commit again. */
module QueueTokens {
  import opened Domain
  import opened Queue

  ghost function TokenOf(a: Action): Option<Token> {
    match a
    case Tick(_) => None
    case Enqueue(_, _, _) => None
    case Claim(_, _, _) => None
    case Complete(t, _, _, _) => Some(t)
    case Fail(t, _, _) => Some(t)
    case Reschedule(t, _, _) => Some(t)
    case Bury(t, _, _) => Some(t)
  }

  /** A token some claim has already handed out. */
  ghost predicate Issued(w: World, t: Token) {
    t.job in w.jobs && t.attempt <= w.jobs[t.job].attempts
  }

  lemma OneHolder(w: World, t: Token, u: Token)
    requires Holds(w, t) && Holds(w, u) && t.job == u.job
    ensures t == u
  {
  }

  /** A claim makes its own token live and kills every token issued before for that job. */
  lemma ClaimTransfersTheJob(w: World, a: Action, t: Token)
    requires LedgerCovers(w) && Enabled(w, a) && a.Claim?
    ensures var granted := Token(a.job, w.jobs[a.job].attempts + 1, a.lease);
            && Holds(Next(w, a), granted)
            && (w.clock < a.at + 900 ==> Live(Next(w, a), granted))
            && Issued(Next(w, a), granted)
            && !Issued(w, granted)
    ensures Issued(w, t) && t.job == a.job ==> !Holds(Next(w, a), t)
  {
  }

  lemma StepKeepsDead(w: World, a: Action, t: Token, at: Time)
    requires LedgerCovers(w) && Enabled(w, a) && Issued(w, t)
    ensures Issued(Next(w, a), t)
    ensures !Holds(w, t) ==> !Holds(Next(w, a), t)
    ensures !Fence(w, t, at) ==> !Fence(Next(w, a), t, at)
    ensures w.clock <= Next(w, a).clock
  {
    if !a.Tick? && Target(a).value == t.job && Holds(Next(w, a), t) {
      assert a.Enqueue? && Next(w, a).jobs[t.job] == w.jobs[t.job];
    }
  }

  /** A token that does not pass the fence at a given time never will again at that time or later. */
  lemma {:induction false} DeadStaysDead(w: World, acts: seq<Action>, w': World, t: Token, at: Time)
    requires Exec(w, acts, w') && Issued(w, t)
    ensures Issued(w', t) && w.clock <= w'.clock
    ensures !Holds(w, t) ==> !Holds(w', t)
    ensures !Fence(w, t, at) ==> forall later :: at <= later ==> !Fence(w', t, later)
    ensures !Live(w, t) ==> !Live(w', t)
    decreases |acts|
  {
    if acts != [] {
      StepKeepsDead(w, acts[0], t, at);
      StepKeepsDead(w, acts[0], t, w.clock);
      DeadStaysDead(Next(w, acts[0]), acts[1..], w', t, at);
      DeadStaysDead(Next(w, acts[0]), acts[1..], w', t, w.clock);
    }
  }

  /** Whatever a token commits uses it up. */
  lemma CommitSpendsToken(w: World, a: Action)
    requires LedgerCovers(w) && Enabled(w, a) && TokenOf(a).Some?
    ensures Holds(w, TokenOf(a).value) && !Holds(Next(w, a), TokenOf(a).value)
    ensures Issued(w, TokenOf(a).value) && Issued(Next(w, a), TokenOf(a).value)
  {
  }

  /** Once a token no longer holds its job, no later step of any run is taken by it. */
  lemma {:induction false} DeadTokenCommitsNothing(w: World, acts: seq<Action>, w': World, t: Token)
    requires Exec(w, acts, w') && Issued(w, t) && !Holds(w, t)
    ensures forall i :: 0 <= i < |acts| ==> TokenOf(acts[i]) != Some(t)
    decreases |acts|
  {
    if acts != [] {
      StepKeepsDead(w, acts[0], t, 0);
      DeadTokenCommitsNothing(Next(w, acts[0]), acts[1..], w', t);
      assert forall i :: 1 <= i < |acts| ==> acts[i] == acts[1..][i - 1];
    }
  }

  /** In any run, one claim leads to at most one committed outcome. */
  lemma {:induction false} OneOutcomePerClaim(w: World, acts: seq<Action>, w': World, i: nat, j: nat)
    requires Exec(w, acts, w') && i < j < |acts| && TokenOf(acts[i]).Some?
    ensures TokenOf(acts[i]) != TokenOf(acts[j])
    decreases |acts|
  {
    var next := Next(w, acts[0]);
    if i == 0 {
      CommitSpendsToken(w, acts[0]);
      DeadTokenCommitsNothing(next, acts[1..], w', TokenOf(acts[0]).value);
      assert acts[j] == acts[1..][j - 1];
    } else {
      assert acts[i] == acts[1..][i - 1] && acts[j] == acts[1..][j - 1];
      OneOutcomePerClaim(next, acts[1..], w', i - 1, j - 1);
    }
  }
}
