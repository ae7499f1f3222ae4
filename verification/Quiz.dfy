/** The quiz aggregate (app/src/modules/assessment/domain/quiz.ts) and what it lets through. */
module QuizAggregate {
  import opened Domain
  import opened Sorting

  /**
   The parts that look inside texts: whether a candidate passes all checks of Question.create, its stem after
   trimming, collapsing white space and lower-casing, and how chunk ids and stems collate (the last keys of
   compareCandidates).
   */
  datatype Rules = Rules(valid: Question -> bool, stemKey: Question -> Text, collates: (Question, Question) -> bool)

  /** compareCandidates: by chunk index, then ordinal, then collation. */
  function CandidateOrder(rules: Rules): (Question, Question) -> bool {
    (l: Question, r: Question) =>
      || l.chunkIndex < r.chunkIndex
      || (l.chunkIndex == r.chunkIndex
          && (l.ordinal < r.ordinal || (l.ordinal == r.ordinal && rules.collates(l, r))))
  }

  datatype QuestionKey = QuestionKey(chunk: ChunkId, ordinal: nat)

  function KeyOf(q: Question): QuestionKey {
    QuestionKey(q.chunk, q.ordinal)
  }

  predicate Repeats(rules: Rules, t: Question, q: Question) {
    rules.stemKey(t) == rules.stemKey(q) || KeyOf(t) == KeyOf(q)
  }

  /** A candidate that repeats an accepted stem or key is dropped. */
  predicate Fresh(rules: Rules, taken: seq<Question>, q: Question) {
    forall t :: t in taken ==> !Repeats(rules, t, q)
  }

  /** The candidates kept, in order: the valid ones that repeat no earlier kept one. */
  function Kept(rules: Rules, candidates: seq<Question>): seq<Question> {
    if candidates == [] then []
    else
      var before := Kept(rules, candidates[..|candidates| - 1]);
      var q := candidates[|candidates| - 1];
      if rules.valid(q) && Fresh(rules, before, q) then before + [q] else before
  }

  /** Kept questions are renumbered from zero. */
  function Compacted(kept: seq<Question>): (r: seq<Question>)
    ensures |r| == |kept|
    ensures forall i :: 0 <= i < |kept| ==> r[i] == kept[i].(ordinal := i)
  {
    if kept == [] then []
    else
      var n := |kept| - 1;
      Compacted(kept[..n]) + [kept[n].(ordinal := n)]
  }

  /** Quiz.create, or None for INSUFFICIENT_VALID_QUESTIONS. */
  function Create(rules: Rules, minimum: nat, handed: seq<Question>): Option<seq<Question>> {
    var kept := Kept(rules, Sort(CandidateOrder(rules), handed));
    if minimum < 1 || |kept| < minimum then None else Some(Compacted(kept))
  }

  ghost function StemsOf(rules: Rules, kept: seq<Question>): set<Text> {
    set q | q in kept :: rules.stemKey(q)
  }

  ghost function KeysOf(kept: seq<Question>): set<QuestionKey> {
    set q | q in kept :: KeyOf(q)
  }

  lemma FreshIff(rules: Rules, kept: seq<Question>, q: Question)
    ensures Fresh(rules, kept, q) <==> rules.stemKey(q) !in StemsOf(rules, kept) && KeyOf(q) !in KeysOf(kept)
  {
  }

  lemma OneMoreIn(kept: seq<Question>, q: Question)
    ensures forall t :: t in kept + [q] <==> t in kept || t == q
  {
  }

  lemma StemsGrow(rules: Rules, kept: seq<Question>, q: Question)
    ensures StemsOf(rules, kept + [q]) == StemsOf(rules, kept) + {rules.stemKey(q)}
  {
    OneMoreIn(kept, q);
  }

  lemma KeysGrow(kept: seq<Question>, q: Question)
    ensures KeysOf(kept + [q]) == KeysOf(kept) + {KeyOf(q)}
  {
    OneMoreIn(kept, q);
  }

  lemma CompactedGrows(kept: seq<Question>, q: Question)
    ensures Compacted(kept + [q]) == Compacted(kept) + [q.(ordinal := |kept|)]
  {
    assert (kept + [q])[..|kept|] == kept;
  }

  /** The loop of Quiz.create, with its two sets. */
  method KeepFresh(rules: Rules, candidates: seq<Question>) returns (questions: seq<Question>)
    ensures questions == Compacted(Kept(rules, candidates))
  {
    var stems: set<Text> := {};
    var keys: set<QuestionKey> := {};
    questions := [];
    ghost var kept: seq<Question> := [];
    for i := 0 to |candidates|
      invariant kept == Kept(rules, candidates[..i]) && questions == Compacted(kept)
      invariant stems == StemsOf(rules, kept) && keys == KeysOf(kept)
    {
      var q := candidates[i];
      assert candidates[..i + 1][..i] == candidates[..i];
      FreshIff(rules, kept, q);
      if rules.valid(q) && rules.stemKey(q) !in stems && KeyOf(q) !in keys {
        StemsGrow(rules, kept, q);
        KeysGrow(kept, q);
        CompactedGrows(kept, q);
        stems := stems + {rules.stemKey(q)};
        keys := keys + {KeyOf(q)};
        questions := questions + [q.(ordinal := |questions|)];
        kept := kept + [q];
      }
    }
    assert candidates[..|candidates|] == candidates;
  }

  method CreateQuiz(rules: Rules, minimum: nat, handed: seq<Question>) returns (r: Option<seq<Question>>)
    ensures r == Create(rules, minimum, handed)
  {
    var questions := KeepFresh(rules, Sort(CandidateOrder(rules), handed));
    r := if minimum < 1 || |questions| < minimum then None else Some(questions);
  }

  lemma SplitLast(s: seq<Question>)
    requires s != []
    ensures forall q :: q in s <==> q in s[..|s| - 1] || q == s[|s| - 1]
  {
    assert s == s[..|s| - 1] + [s[|s| - 1]];
  }

  ghost predicate NoRepeats(rules: Rules, questions: seq<Question>) {
    forall i, j :: 0 <= i < j < |questions| ==> !Repeats(rules, questions[i], questions[j])
  }

  lemma NoRepeatsAppend(rules: Rules, before: seq<Question>, q: Question)
    requires NoRepeats(rules, before) && Fresh(rules, before, q)
    ensures NoRepeats(rules, before + [q])
  {
    assert forall i :: 0 <= i < |before| ==> before[i] in before;
  }

  /** Kept questions are valid candidates, and none repeats an earlier one. */
  lemma {:induction false} KeptAreFresh(rules: Rules, candidates: seq<Question>)
    ensures forall q :: q in Kept(rules, candidates) ==> q in candidates && rules.valid(q)
    ensures NoRepeats(rules, Kept(rules, candidates))
    decreases |candidates|
  {
    if candidates != [] {
      SplitLast(candidates);
      var before, q := Kept(rules, candidates[..|candidates| - 1]), candidates[|candidates| - 1];
      KeptAreFresh(rules, candidates[..|candidates| - 1]);
      if rules.valid(q) && Fresh(rules, before, q) {
        NoRepeatsAppend(rules, before, q);
      }
    }
  }

  /** A valid candidate is dropped only because it repeats a kept one. */
  lemma {:induction false} DroppedRepeats(rules: Rules, candidates: seq<Question>, q: Question)
    requires q in candidates && rules.valid(q)
    ensures exists t :: t in Kept(rules, candidates) && Repeats(rules, t, q)
    decreases |candidates|
  {
    SplitLast(candidates);
    var shorter := candidates[..|candidates| - 1];
    if q in shorter {
      DroppedRepeats(rules, shorter, q);
      var t :| t in Kept(rules, shorter) && Repeats(rules, t, q);
      assert t in Kept(rules, candidates);
    } else if Fresh(rules, Kept(rules, shorter), q) {
      assert q in Kept(rules, candidates) && Repeats(rules, q, q);
    } else {
      var t :| t in Kept(rules, shorter) && Repeats(rules, t, q);
      assert t in Kept(rules, candidates);
    }
  }

  /** With a minimum of one, the aggregate accepts a result exactly when some candidate is valid. */
  lemma AcceptsIffSomeValid(rules: Rules, handed: seq<Question>)
    ensures Create(rules, 1, handed).Some? <==> exists q :: q in handed && rules.valid(q)
  {
    var candidates := Sort(CandidateOrder(rules), handed);
    SortKeeps(CandidateOrder(rules), handed);
    SameElements(candidates, handed);
    KeptAreFresh(rules, candidates);
    if Kept(rules, candidates) != [] {
      assert Kept(rules, candidates)[0] in Kept(rules, candidates);
    } else if q :| q in candidates && rules.valid(q) {
      DroppedRepeats(rules, candidates, q);
    }
  }

  // ---- what a quiz is, without the loop ----

  /** By chunk, and within a chunk by ordinal. */
  predicate NotAfter(t: Question, q: Question) {
    t.chunkIndex < q.chunkIndex || (t.chunkIndex == q.chunkIndex && t.ordinal <= q.ordinal)
  }

  predicate SameStemOrPlace(rules: Rules, t: Question, q: Question) {
    rules.stemKey(t) == rules.stemKey(q) || (t.chunk == q.chunk && t.ordinal == q.ordinal)
  }

  /**
   The quiz is `kept`, renumbered: valid candidates in order of chunk and ordinal, no two with one stem or place, and
   every valid candidate shares its stem or place with a kept one that is not after it.
   */
  ghost predicate MadeOf(rules: Rules, handed: seq<Question>, kept: seq<Question>, quiz: seq<Question>) {
    && |quiz| == |kept|
    && (forall i :: 0 <= i < |quiz| ==> quiz[i] == kept[i].(ordinal := i))
    && (forall q :: q in kept ==> q in handed && rules.valid(q))
    && (forall i, j :: 0 <= i < j < |kept| ==>
          !SameStemOrPlace(rules, kept[i], kept[j]) && NotAfter(kept[i], kept[j]))
    && (forall q :: q in handed && rules.valid(q) ==> Represented(rules, kept, q))
  }

  ghost predicate Represented(rules: Rules, kept: seq<Question>, q: Question) {
    exists t :: t in kept && SameStemOrPlace(rules, t, q) && NotAfter(t, q)
  }

  lemma OrderIsPreorder(rules: Rules)
    requires Preorder(rules.collates)
    ensures Preorder(CandidateOrder(rules))
  {
  }

  lemma {:induction false} KeptInOrder(rules: Rules, candidates: seq<Question>)
    requires Sorted(CandidateOrder(rules), candidates)
    ensures Sorted(CandidateOrder(rules), Kept(rules, candidates))
    decreases |candidates|
  {
    if candidates != [] {
      var n := |candidates| - 1;
      var before := Kept(rules, candidates[..n]);
      KeptInOrder(rules, candidates[..n]);
      KeptAreFresh(rules, candidates[..n]);
      forall i | 0 <= i < |before| ensures CandidateOrder(rules)(before[i], candidates[n]) {
        assert before[i] in before;
        var k :| 0 <= k < n && candidates[..n][k] == before[i];
        assert candidates[k] == before[i];
      }
    }
  }

  lemma {:induction false} RepresentedEarlier(rules: Rules, candidates: seq<Question>, k: nat)
    requires Sorted(CandidateOrder(rules), candidates) && k < |candidates| && rules.valid(candidates[k])
    ensures Represented(rules, Kept(rules, candidates), candidates[k])
    decreases |candidates|
  {
    var n, q := |candidates| - 1, candidates[k];
    var before := Kept(rules, candidates[..n]);
    if k < n {
      RepresentedEarlier(rules, candidates[..n], k);
      var t :| t in before && SameStemOrPlace(rules, t, q) && NotAfter(t, q);
      assert t in Kept(rules, candidates);
    } else if Fresh(rules, before, q) {
      assert q in Kept(rules, candidates) && SameStemOrPlace(rules, q, q) && NotAfter(q, q);
    } else {
      var t :| t in before && Repeats(rules, t, q);
      KeptAreFresh(rules, candidates[..n]);
      var i :| 0 <= i < n && candidates[..n][i] == t;
      assert CandidateOrder(rules)(candidates[i], candidates[n]);
      assert t in Kept(rules, candidates) && SameStemOrPlace(rules, t, q) && NotAfter(t, q);
    }
  }

  /** What the aggregate accepts, provided the collation of chunk ids and stems is an order. */
  lemma CreateMakes(rules: Rules, minimum: nat, handed: seq<Question>) returns (kept: seq<Question>)
    requires Preorder(rules.collates)
    ensures MadeOf(rules, handed, kept, Compacted(kept))
    ensures Create(rules, minimum, handed) ==
            if minimum >= 1 && |kept| >= minimum then Some(Compacted(kept)) else None
  {
    var candidates := Sort(CandidateOrder(rules), handed);
    kept := Kept(rules, candidates);
    OrderIsPreorder(rules);
    SortSorts(CandidateOrder(rules), handed);
    SameElements(candidates, handed);
    KeptAreFresh(rules, candidates);
    KeptInOrder(rules, candidates);
    forall i, j | 0 <= i < j < |kept| ensures !SameStemOrPlace(rules, kept[i], kept[j]) && NotAfter(kept[i], kept[j]) {
      assert CandidateOrder(rules)(kept[i], kept[j]) && !Repeats(rules, kept[i], kept[j]);
    }
    forall q | q in handed && rules.valid(q) ensures Represented(rules, kept, q) {
      var k :| 0 <= k < |candidates| && candidates[k] == q;
      RepresentedEarlier(rules, candidates, k);
    }
  }

  /** The quiz does not depend on the order of the handoff when the order tells the candidates apart. */
  lemma HandoffOrderIrrelevant(rules: Rules, minimum: nat, handed: seq<Question>, others: seq<Question>)
    requires multiset(handed) == multiset(others)
    requires Preorder(CandidateOrder(rules)) && Discriminates(CandidateOrder(rules), handed)
    ensures Create(rules, minimum, handed) == Create(rules, minimum, others)
  {
    SortIgnoresOrder(CandidateOrder(rules), handed, others);
  }

  /** Results published by the worker are already in order, so the quiz keeps the order of the chunks. */
  lemma PublishedInOrder(rules: Rules, chunks: seq<Chunk>, questions: seq<Question>)
    requires Assembled(chunks, questions)
    requires forall i :: 0 <= i < |chunks| ==> chunks[i].index == i
    ensures Sort(CandidateOrder(rules), questions) == questions
  {
    forall i, j | 0 <= i < j < |questions| ensures CandidateOrder(rules)(questions[i], questions[j]) {
      assert Cites(questions[i], chunks[i], i) && Cites(questions[j], chunks[j], j);
    }
    SortOfSorted(CandidateOrder(rules), questions);
  }
}
