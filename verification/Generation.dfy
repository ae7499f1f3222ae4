/** The question list of the backend's generator (app/src/modules/ai/quiz-generation.service.ts). */
module Generation {
  import opened Domain
  import opened BoundedMap
  import opened Sorting

  type Generated = seq<Draft>

  function ByIndex(): (Chunk, Chunk) -> bool {
    (left: Chunk, right: Chunk) => left.index <= right.index
  }

  /** The questions of one chunk, numbered on from `first`. */
  function QuestionsOf(chunk: Chunk, drafts: Generated, first: nat): (questions: seq<Question>)
    ensures |questions| == |drafts|
    ensures forall d :: 0 <= d < |drafts| ==> questions[d] == QuestionOf(chunk, first + d, drafts[d])
  {
    if drafts == [] then []
    else
      var n := |drafts| - 1;
      QuestionsOf(chunk, drafts[..n], first) + [QuestionOf(chunk, first + n, drafts[n])]
  }

  /** How many questions come before those of chunk k. */
  function Offset(outputs: seq<Generated>, k: nat): nat
    requires k <= |outputs|
  {
    if k == 0 then 0 else Offset(outputs, k - 1) + |outputs[k - 1]|
  }

  /** Question d of chunk k stands, with that ordinal, behind all questions of the chunks before. */
  ghost predicate LaidAt(chunks: seq<Chunk>, outputs: seq<Generated>, questions: seq<Question>, k: nat, d: nat)
    requires k < |chunks| == |outputs| && d < |outputs[k]|
  {
    var at := Offset(outputs, k) + d;
    at < |questions| && questions[at] == QuestionOf(chunks[k], at, outputs[k][d])
  }

  /** So stand all questions of the first n chunks, and there are no others. */
  ghost predicate Laid(chunks: seq<Chunk>, outputs: seq<Generated>, n: nat, questions: seq<Question>)
    requires n <= |chunks| == |outputs|
  {
    && |questions| == Offset(outputs, n)
    && forall k, d :: 0 <= k < n && 0 <= d < |outputs[k]| ==> LaidAt(chunks, outputs, questions, k, d)
  }

  lemma {:induction false} OffsetsGrow(outputs: seq<Generated>, k: nat, n: nat)
    requires k < n <= |outputs|
    ensures Offset(outputs, k) + |outputs[k]| <= Offset(outputs, n)
    decreases n
  {
    if k < n - 1 {
      OffsetsGrow(outputs, k, n - 1);
    }
  }

  /** Every position belongs to exactly one draft. */
  lemma {:induction false} PositionHasDraft(outputs: seq<Generated>, n: nat, at: nat) returns (k: nat, d: nat)
    requires n <= |outputs| && at < Offset(outputs, n)
    ensures k < n && d < |outputs[k]| && at == Offset(outputs, k) + d
    decreases n
  {
    if at < Offset(outputs, n - 1) {
      k, d := PositionHasDraft(outputs, n - 1, at);
    } else {
      k, d := n - 1, at - Offset(outputs, n - 1);
    }
  }

  /** Ordinals are positions, citations name the chunk generated from, and chunk order is kept. */
  lemma LaidInOrder(chunks: seq<Chunk>, outputs: seq<Generated>, questions: seq<Question>, i: nat, j: nat)
    requires |chunks| == |outputs| && Laid(chunks, outputs, |chunks|, questions) && Sorted(ByIndex(), chunks)
    requires i < j < |questions|
    ensures questions[i].ordinal == i && questions[i].chunkIndex <= questions[j].chunkIndex
    ensures exists k :: 0 <= k < |chunks| && Cites(questions[i], chunks[k], i) && questions[i].draft in outputs[k]
  {
    var k, d := PositionHasDraft(outputs, |chunks|, i);
    var m, e := PositionHasDraft(outputs, |chunks|, j);
    assert LaidAt(chunks, outputs, questions, k, d) && LaidAt(chunks, outputs, questions, m, e);
    if m < k {
      OffsetsGrow(outputs, m, k);
    }
    assert k < m ==> ByIndex()(chunks[k], chunks[m]);
    assert Cites(questions[i], chunks[k], i);
  }

  method AppendQuestions(accumulated: seq<Question>, chunk: Chunk, drafts: Generated) returns (r: seq<Question>)
    ensures r == accumulated + QuestionsOf(chunk, drafts, |accumulated|)
  {
    r := accumulated;
    for d := 0 to |drafts|
      invariant r == accumulated + QuestionsOf(chunk, drafts[..d], |accumulated|)
    {
      assert drafts[..d + 1][..d] == drafts[..d];
      r := r + [QuestionOf(chunk, |r|, drafts[d])];
    }
    assert drafts[..|drafts|] == drafts;
  }

  lemma AppendLays(chunks: seq<Chunk>, outputs: seq<Generated>, n: nat, questions: seq<Question>)
    requires n < |chunks| == |outputs| && Laid(chunks, outputs, n, questions)
    ensures Laid(chunks, outputs, n + 1, questions + QuestionsOf(chunks[n], outputs[n], |questions|))
  {
    var appended := questions + QuestionsOf(chunks[n], outputs[n], |questions|);
    forall k, d | 0 <= k < n + 1 && 0 <= d < |outputs[k]| ensures LaidAt(chunks, outputs, appended, k, d) {
      if k < n {
        LaidBefore(chunks, outputs, questions, appended, k, d);
      } else {
        LaidBehind(chunks, outputs, questions, k, d);
      }
    }
  }

  lemma LaidBefore(chunks: seq<Chunk>, outputs: seq<Generated>, questions: seq<Question>, longer: seq<Question>,
                   k: nat, d: nat)
    requires k < |chunks| == |outputs| && d < |outputs[k]| && LaidAt(chunks, outputs, questions, k, d)
    requires questions <= longer
    ensures LaidAt(chunks, outputs, longer, k, d)
  {
    var at := Offset(outputs, k) + d;
    assert longer[at] == questions[at];
  }

  lemma LaidBehind(chunks: seq<Chunk>, outputs: seq<Generated>, questions: seq<Question>, k: nat, d: nat)
    requires k < |chunks| == |outputs| && d < |outputs[k]| && |questions| == Offset(outputs, k)
    ensures LaidAt(chunks, outputs, questions + QuestionsOf(chunks[k], outputs[k], |questions|), k, d)
  {
    var added := QuestionsOf(chunks[k], outputs[k], |questions|);
    assert (questions + added)[|questions| + d] == added[d];
  }

  /** The questions are laid out from what each chunk's generation resolves to, whatever the schedule was. */
  method Generate<E(!new)>(concurrency: int, chunks: seq<Chunk>, generateForChunk: Chunk -> Settlement<Generated, E>)
      returns (r: Completion<Question, E>)
    ensures r.Values? ==>
              && AllResolve(Sort(ByIndex(), chunks), generateForChunk)
              && Laid(Sort(ByIndex(), chunks), Mapped(Sort(ByIndex(), chunks), generateForChunk), |chunks|, r.values)
    ensures r.Values? <==>
              AllResolve(Sort(ByIndex(), chunks), generateForChunk) && (concurrency >= 1 || chunks == [])
    ensures concurrency >= 1 && Reasoned(Sort(ByIndex(), chunks), generateForChunk) ==>
              (r.Thrown? <==> SomeRejected(Sort(ByIndex(), chunks), generateForChunk))
    ensures r.Thrown? ==>
              exists chunk :: chunk in Sort(ByIndex(), chunks) && generateForChunk(chunk) == Rejected(Defined(r.error))
  {
    var orderedChunks := Sort(ByIndex(), chunks);
    var generated, moves, end := MapWithBoundedConcurrency(concurrency, orderedChunks, generateForChunk);
    match generated {
      case Thrown(error) =>
        r := Thrown(error);
      case Incomplete =>
        r := Incomplete;
      case Values(outputs) =>
        var questions := LayOut(orderedChunks, outputs);
        r := Values(questions);
    }
  }

  method LayOut(chunks: seq<Chunk>, outputs: seq<Generated>) returns (questions: seq<Question>)
    requires |chunks| == |outputs|
    ensures Laid(chunks, outputs, |chunks|, questions)
  {
    questions := [];
    for k := 0 to |chunks|
      invariant Laid(chunks, outputs, k, questions)
    {
      AppendLays(chunks, outputs, k, questions);
      questions := AppendQuestions(questions, chunks[k], outputs[k]);
    }
  }

  /** With distinct chunk indexes, the questions do not depend on the order the chunks arrive in either. */
  lemma ArrivalOrderIrrelevant(chunks: seq<Chunk>, others: seq<Chunk>)
    requires multiset(chunks) == multiset(others)
    requires forall x, y :: x in chunks && y in chunks && x.index == y.index ==> x == y
    ensures Sort(ByIndex(), chunks) == Sort(ByIndex(), others)
  {
    SortIgnoresOrder(ByIndex(), chunks, others);
  }
}
