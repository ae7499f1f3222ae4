/**
 The return relay (app/src/worker/return-relay.service.ts).

 Delivery is at least once: a row's effect first, its published mark after it.  Other writers (users, workers, other
 relays) may act at every await, and every await may throw, before or after its write took effect.
 */
module ReturnSeam {
  import opened Domain
  import opened QuizAggregate
  import opened Relays
  import opened Sorting

  /**
   What the relay shares with other writers: documents and quizzes, ai.outbox, the confirmations in course.outbox, and,
   as history, the rows of ai.outbox that have been projected.
   */
  datatype State = State(
    content: Content,
    rows: seq<Message<Payload>>,
    course: seq<Document>,
    projected: set<nat>)

  /** The writes for a row of ai.outbox, and what other writers do between two of them. */
  datatype Write =
    | Store(row: nat, document: Document, quiz: seq<Question>)
    | Settle(row: nat, document: Document, status: DocumentStatus)
    | Mark(row: nat)
    | Foreign(after: State)

  function ContentAfter(c: Content, x: Write): Content {
    match x
    case Store(_, d, quiz) => Persist(c, d, quiz)
    case Settle(_, d, status) => Project(c, d, status)
    case _ => c
  }

  function RowsAfter(rows: seq<Message<Payload>>, x: Write): seq<Message<Payload>> {
    if x.Mark? && x.row < |rows| then rows[x.row := rows[x.row].(published := true)] else rows
  }

  function ProjectedAfter(projected: set<nat>, x: Write): set<nat> {
    if x.Settle? then projected + {x.row} else projected
  }

  function Written(s: State, x: Write): State {
    if x.Foreign? then x.after
    else State(ContentAfter(s.content, x), RowsAfter(s.rows, x), s.course, ProjectedAfter(s.projected, x))
  }

  function Replay(s: State, xs: seq<Write>): State {
    if xs == [] then s else Written(Replay(s, xs[..|xs| - 1]), xs[|xs| - 1])
  }

  /** The relay's own writes, in order. */
  function Own(xs: seq<Write>): seq<Write> {
    if xs == [] then []
    else Own(xs[..|xs| - 1]) + if xs[|xs| - 1].Foreign? then [] else [xs[|xs| - 1]]
  }

  lemma OneMore(s: State, xs: seq<Write>, x: Write)
    ensures Replay(s, xs + [x]) == Written(Replay(s, xs), x)
    ensures Own(xs + [x]) == Own(xs) + if x.Foreign? then [] else [x]
  {
    assert (xs + [x])[..|xs|] == xs;
  }

  // ---- what is written for a row ----

  /** The quiz, if the aggregate accepts one; the status; the mark. */
  function RowWrites(rules: Rules, payload: Payload, id: nat): seq<Write>
    requires payload.Parsed?
  {
    QuizWrites(rules, payload, id) + [Settle(id, payload.document, FinalStatus(rules, payload)), Mark(id)]
  }

  function QuizWrites(rules: Rules, payload: Payload, id: nat): seq<Write>
    requires payload.Parsed?
  {
    match QuizOf(rules, payload)
    case Some(quiz) => [Store(id, payload.document, quiz)]
    case None => []
  }

  /** The writes for the first n of the given rows. */
  ghost function Script(rules: Rules, rows: seq<Message<Payload>>, ids: seq<nat>, n: nat): seq<Write>
    requires RowIds(rows, ids) && n <= |ids| && forall k :: 0 <= k < n ==> rows[ids[k]].payload.Parsed?
  {
    if n == 0 then []
    else Script(rules, rows, ids, n - 1) + RowWrites(rules, rows[ids[n - 1]].payload, ids[n - 1])
  }

  lemma {:induction false} ReplayAppend(s: State, xs: seq<Write>, ys: seq<Write>)
    ensures Replay(s, xs + ys) == Replay(Replay(s, xs), ys)
    decreases |ys|
  {
    if ys == [] {
      assert xs + ys == xs;
    } else {
      var n := |ys| - 1;
      assert xs + ys == (xs + ys[..n]) + [ys[n]];
      OneMore(s, xs + ys[..n], ys[n]);
      ReplayAppend(s, xs, ys[..n]);
    }
  }

  lemma QuizWritesPersist(rules: Rules, s: State, payload: Payload, id: nat)
    requires payload.Parsed?
    ensures Replay(s, QuizWrites(rules, payload, id)) == s.(content := AfterPersist(rules, s.content, payload))
  {
    match QuizOf(rules, payload)
    case Some(quiz) => OneWrite(s, Store(id, payload.document, quiz));
    case None =>
  }

  lemma OneWrite(s: State, x: Write)
    ensures Replay(s, [x]) == Written(s, x)
  {
    assert [x] == [] + [x];
    OneMore(s, [], x);
  }

  lemma TwoWrites(s: State, x: Write, y: Write)
    ensures Replay(s, [x, y]) == Written(Written(s, x), y)
  {
    assert [x, y] == [x] + [y];
    OneWrite(s, x);
    OneMore(s, [x], y);
  }

  /** Undisturbed, a row's writes are its delivery and its mark. */
  lemma RowDelivers(rules: Rules, s: State, payload: Payload, id: nat)
    requires payload.Parsed? && id < |s.rows|
    ensures Replay(s, RowWrites(rules, payload, id)) ==
            State(Deliver(rules, s.content, payload), s.rows[id := s.rows[id].(published := true)], s.course,
                  s.projected + {id})
  {
    var settle, mark := Settle(id, payload.document, FinalStatus(rules, payload)), Mark(id);
    ReplayAppend(s, QuizWrites(rules, payload, id), [settle, mark]);
    QuizWritesPersist(rules, s, payload, id);
    TwoWrites(s.(content := AfterPersist(rules, s.content, payload)), settle, mark);
  }

  lemma NextDelivers(rules: Rules, s: State, before: seq<Write>, payload: Payload, id: nat)
    requires payload.Parsed? && id < |Replay(s, before).rows|
    ensures var mid := Replay(s, before);
            Replay(s, before + RowWrites(rules, payload, id)) ==
            State(Deliver(rules, mid.content, payload), mid.rows[id := mid.rows[id].(published := true)], mid.course,
                  mid.projected + {id})
  {
    ReplayAppend(s, before, RowWrites(rules, payload, id));
    RowDelivers(rules, Replay(s, before), payload, id);
  }

  ghost function FirstIds(ids: seq<nat>, n: nat): set<nat>
    requires n <= |ids|
  {
    if n == 0 then {} else FirstIds(ids, n - 1) + {ids[n - 1]}
  }

  /** The tables after the first n rows, each delivered and marked in order. */
  ghost function AfterRows(rules: Rules, s: State, ids: seq<nat>, n: nat): State
    requires RowIds(s.rows, ids) && n <= |ids|
  {
    State(DeliverFirst(rules, s.content, s.rows, ids, n), MarkFirst(s.rows, ids, n), s.course,
          s.projected + FirstIds(ids, n))
  }

  /** One row more. */
  lemma OneMoreRow(rules: Rules, s: State, ids: seq<nat>, n: nat, mid: State)
    requires RowIds(s.rows, ids) && 0 < n <= |ids| && s.rows[ids[n - 1]].payload.Parsed?
    requires mid == AfterRows(rules, s, ids, n - 1)
    ensures var payload, id := s.rows[ids[n - 1]].payload, ids[n - 1];
            State(Deliver(rules, mid.content, payload), mid.rows[id := mid.rows[id].(published := true)], mid.course,
                  mid.projected + {id}) == AfterRows(rules, s, ids, n)
  {
  }

  ghost predicate DeliversFirst(rules: Rules, s: State, ids: seq<nat>, n: nat)
    requires RowIds(s.rows, ids) && n <= |ids| && forall k :: 0 <= k < n ==> s.rows[ids[k]].payload.Parsed?
  {
    Replay(s, Script(rules, s.rows, ids, n)) == AfterRows(rules, s, ids, n)
  }

  lemma NothingDelivered(rules: Rules, s: State, ids: seq<nat>)
    requires RowIds(s.rows, ids)
    ensures DeliversFirst(rules, s, ids, 0)
  {
  }

  lemma ScriptGoesOn(rules: Rules, s: State, ids: seq<nat>, n: nat)
    requires RowIds(s.rows, ids) && 0 < n <= |ids| && forall k :: 0 <= k < n ==> s.rows[ids[k]].payload.Parsed?
    requires DeliversFirst(rules, s, ids, n - 1)
    ensures DeliversFirst(rules, s, ids, n)
  {
    NextDelivers(rules, s, Script(rules, s.rows, ids, n - 1), s.rows[ids[n - 1]].payload, ids[n - 1]);
    OneMoreRow(rules, s, ids, n, AfterRows(rules, s, ids, n - 1));
  }

  /** Undisturbed, the script delivers the rows in order and marks exactly them. */
  lemma {:induction false} ScriptDelivers(rules: Rules, s: State, ids: seq<nat>, n: nat)
    requires RowIds(s.rows, ids) && n <= |ids| && forall k :: 0 <= k < n ==> s.rows[ids[k]].payload.Parsed?
    ensures DeliversFirst(rules, s, ids, n)
    decreases n
  {
    if n == 0 {
      NothingDelivered(rules, s, ids);
    } else {
      ScriptDelivers(rules, s, ids, n - 1);
      ScriptGoesOn(rules, s, ids, n);
    }
  }

  /** The own writes are the script of the first `done` rows and then `part`, some of the next row's. */
  ghost predicate Delivered(rules: Rules, rows: seq<Message<Payload>>, ids: seq<nat>, done: nat, own: seq<Write>,
                            part: seq<Write>)
  {
    && RowIds(rows, ids) && done <= |ids|
    && (forall k :: 0 <= k < done ==> rows[ids[k]].payload.Parsed?)
    && own == Script(rules, rows, ids, done) + part
    && (part != [] ==>
          && done < |ids| && rows[ids[done]].payload.Parsed?
          && part <= RowWrites(rules, rows[ids[done]].payload, ids[done]))
  }

  lemma RowDelivered(rules: Rules, rows: seq<Message<Payload>>, ids: seq<nat>, done: nat, own: seq<Write>,
                     row: seq<Write>)
    requires Delivered(rules, rows, ids, done, own, []) && done < |ids|
    requires var payload := rows[ids[done]].payload;
             if payload.Parsed? then row <= RowWrites(rules, payload, ids[done]) else row == []
    ensures Delivered(rules, rows, ids, done, own + row, row)
    ensures rows[ids[done]].payload.Parsed? && row == RowWrites(rules, rows[ids[done]].payload, ids[done]) ==>
              Delivered(rules, rows, ids, done + 1, own + row, [])
  {
    assert own == Script(rules, rows, ids, done);
    assert own + row == own + row + [];
  }

  // ---- what every writer keeps to ----

  ghost predicate RowOf(rows: seq<Message<Payload>>, i: nat, d: Document) {
    i < |rows| && rows[i].payload.Parsed? && rows[i].payload.document == d
  }

  ghost predicate Brings(rules: Rules, rows: seq<Message<Payload>>, i: nat, d: Document, quiz: seq<Question>) {
    RowOf(rows, i, d) && QuizOf(rules, rows[i].payload) == Some(quiz)
  }

  /** READY exactly for a READY row with a valid question among those it brings; FAILED otherwise. */
  ghost predicate Says(rules: Rules, rows: seq<Message<Payload>>, i: nat, d: Document, status: DocumentStatus) {
    RowOf(rows, i, d) && status == if MeansReady(rules, rows[i].payload) then DocReady else DocFailed
  }

  /** Quizzes stay as they are, and a new one is what the aggregate made of some row. */
  ghost predicate QuizzesGrow(rules: Rules, s: State, s': State) {
    && (forall d :: d in s.content.quizzes ==>
          d in s'.content.quizzes && s'.content.quizzes[d] == s.content.quizzes[d])
    && (forall d :: d in s'.content.quizzes && d !in s.content.quizzes ==>
          exists i :: Brings(rules, s'.rows, i, d, s'.content.quizzes[d]))
  }

  /** Confirmed between the two states. */
  ghost predicate Confirmed(s: State, s': State, d: Document) {
    |s.course| <= |s'.course| && d in s'.course[|s.course|..]
  }

  /** How a document came to a status it did not have: an upload, a confirmation, or a row that says so. */
  ghost predicate Accounted(rules: Rules, s: State, s': State, d: Document)
    requires d in s'.content.docs
  {
    match s'.content.docs[d]
    case Uploaded => d !in s.content.docs
    case Processing => Confirmed(s, s', d)
    case status => exists i :: Says(rules, s'.rows, i, d, status)
  }

  ghost predicate StatusesMove(rules: Rules, s: State, s': State) {
    && s.course <= s'.course
    && (forall d :: d in s.content.docs ==>
          d in s'.content.docs && (s.content.docs[d].DocReady? ==> s'.content.docs[d].DocReady?))
    && (forall d :: d in s'.content.docs && !(d in s.content.docs && s.content.docs[d] == s'.content.docs[d]) ==>
          Accounted(rules, s, s', d))
  }

  /** The row's document is no longer PROCESSING, unless it was confirmed again meanwhile. */
  ghost predicate Settled(s: State, s': State, i: nat) {
    && i < |s'.rows| && s'.rows[i].payload.Parsed?
    && var d := s'.rows[i].payload.document;
       d in s'.content.docs && s'.content.docs[d].Processing? ==> Confirmed(s, s', d)
  }

  ghost predicate ProjectionsGrow(s: State, s': State) {
    && s.projected <= s'.projected
    && forall i :: i in s'.projected && i !in s.projected ==> Settled(s, s', i)
  }

  /** The row has had its effect: its quiz is stored, and it was projected. */
  ghost predicate Answered(rules: Rules, s: State, i: nat) {
    && i < |s.rows| && s.rows[i].payload.Parsed? && i in s.projected
    && (CarriesQuiz(rules, s.rows[i].payload) ==> s.rows[i].payload.document in s.content.quizzes)
  }

  ghost predicate MarksFollow(rules: Rules, s: State, s': State) {
    forall i :: 0 <= i < |s'.rows| && s'.rows[i].published && !(i < |s.rows| && s.rows[i].published) ==>
      Answered(rules, s', i)
  }

  /** What every writer does, step by step and over any stretch of time. */
  ghost predicate Guarded(rules: Rules, s: State, s': State) {
    && RowsGrow(s.rows, s'.rows)
    && QuizzesGrow(rules, s, s')
    && StatusesMove(rules, s, s')
    && ProjectionsGrow(s, s')
    && MarksFollow(rules, s, s')
  }

  lemma AnsweredStays(rules: Rules, s: State, s': State, i: nat)
    requires Answered(rules, s, i) && RowsGrow(s.rows, s'.rows) && QuizzesGrow(rules, s, s')
    requires s.projected <= s'.projected
    ensures Answered(rules, s', i)
  {
  }

  lemma ConfirmedStays(s: State, s': State, s'': State, d: Document)
    requires s.course <= s'.course <= s''.course
    ensures Confirmed(s, s', d) || Confirmed(s', s'', d) ==> Confirmed(s, s'', d)
  {
    var early, late, all := s'.course[|s.course|..], s''.course[|s'.course|..], s''.course[|s.course|..];
    assert all == early + late;
  }

  lemma QuizzesTransitive(rules: Rules, s: State, s': State, s'': State)
    requires RowsGrow(s'.rows, s''.rows) && QuizzesGrow(rules, s, s') && QuizzesGrow(rules, s', s'')
    ensures QuizzesGrow(rules, s, s'')
  {
    forall d | d in s''.content.quizzes && d !in s.content.quizzes
      ensures exists i :: Brings(rules, s''.rows, i, d, s''.content.quizzes[d])
    {
      if d in s'.content.quizzes {
        var i :| Brings(rules, s'.rows, i, d, s'.content.quizzes[d]);
        assert Brings(rules, s''.rows, i, d, s''.content.quizzes[d]);
      }
    }
  }

  lemma AccountedLater(rules: Rules, s: State, s': State, s'': State, d: Document)
    requires s.course <= s'.course <= s''.course && RowsGrow(s'.rows, s''.rows)
    requires d in s'.content.docs && d in s''.content.docs && s''.content.docs[d] == s'.content.docs[d]
    requires Accounted(rules, s, s', d)
    ensures Accounted(rules, s, s'', d)
  {
    var status := s'.content.docs[d];
    ConfirmedStays(s, s', s'', d);
    if status.DocReady? || status.DocFailed? {
      var i :| Says(rules, s'.rows, i, d, status);
      assert Says(rules, s''.rows, i, d, status);
    }
  }

  lemma AccountedBefore(rules: Rules, s: State, s': State, s'': State, d: Document)
    requires s.course <= s'.course <= s''.course && d in s''.content.docs
    requires d in s.content.docs ==> d in s'.content.docs
    requires Accounted(rules, s', s'', d)
    ensures Accounted(rules, s, s'', d)
  {
    ConfirmedStays(s, s', s'', d);
  }

  lemma StatusesTransitive(rules: Rules, s: State, s': State, s'': State)
    requires RowsGrow(s'.rows, s''.rows) && StatusesMove(rules, s, s') && StatusesMove(rules, s', s'')
    ensures StatusesMove(rules, s, s'')
  {
    forall d | d in s''.content.docs && !(d in s.content.docs && s.content.docs[d] == s''.content.docs[d])
      ensures Accounted(rules, s, s'', d)
    {
      if d in s'.content.docs && s'.content.docs[d] == s''.content.docs[d] {
        AccountedLater(rules, s, s', s'', d);
      } else {
        AccountedBefore(rules, s, s', s'', d);
      }
    }
  }

  lemma SettledStays(rules: Rules, s: State, s': State, s'': State, i: nat)
    requires s.course <= s'.course && RowsGrow(s'.rows, s''.rows) && StatusesMove(rules, s', s'') && Settled(s, s', i)
    ensures Settled(s, s'', i)
  {
    ConfirmedStays(s, s', s'', s'.rows[i].payload.document);
  }

  lemma SettledBefore(s: State, s': State, s'': State, i: nat)
    requires s.course <= s'.course <= s''.course && Settled(s', s'', i)
    ensures Settled(s, s'', i)
  {
    ConfirmedStays(s, s', s'', s''.rows[i].payload.document);
  }

  lemma ProjectionsTransitive(rules: Rules, s: State, s': State, s'': State)
    requires RowsGrow(s'.rows, s''.rows) && StatusesMove(rules, s, s') && StatusesMove(rules, s', s'')
    requires ProjectionsGrow(s, s') && ProjectionsGrow(s', s'')
    ensures ProjectionsGrow(s, s'')
  {
    forall i | i in s''.projected && i !in s.projected ensures Settled(s, s'', i) {
      if i in s'.projected {
        SettledStays(rules, s, s', s'', i);
      } else {
        SettledBefore(s, s', s'', i);
      }
    }
  }

  lemma MarksTransitive(rules: Rules, s: State, s': State, s'': State)
    requires RowsGrow(s'.rows, s''.rows) && QuizzesGrow(rules, s', s'') && s'.projected <= s''.projected
    requires MarksFollow(rules, s, s') && MarksFollow(rules, s', s'')
    ensures MarksFollow(rules, s, s'')
  {
    forall i | 0 <= i < |s''.rows| && s''.rows[i].published && !(i < |s.rows| && s.rows[i].published)
      ensures Answered(rules, s'', i)
    {
      if i < |s'.rows| && s'.rows[i].published {
        AnsweredStays(rules, s', s'', i);
      }
    }
  }

  lemma GuardedTransitive(rules: Rules, s: State, s': State, s'': State)
    requires Guarded(rules, s, s') && Guarded(rules, s', s'')
    ensures Guarded(rules, s, s'')
  {
    QuizzesTransitive(rules, s, s', s'');
    StatusesTransitive(rules, s, s', s'');
    ProjectionsTransitive(rules, s, s', s'');
    MarksTransitive(rules, s, s', s'');
  }

  lemma GuardedReflexive(rules: Rules, s: State)
    ensures Guarded(rules, s, s)
  {
  }

  // ---- logs of writes in their turn ----

  /** READY documents have quizzes, and quizzes have questions. */
  ghost predicate Safe(c: Content) { ReadyHasQuiz(c) && QuizzesNonEmpty(c) }

  /**
   A write in its turn: a row's quiz is stored first, its status is projected then, and it is marked last.  Others keep
   to the same rules, and keep READY documents with their quizzes.
   */
  ghost predicate Allowed(rules: Rules, s: State, x: Write) {
    match x
    case Store(i, d, quiz) => Brings(rules, s.rows, i, d, quiz)
    case Settle(i, d, status) =>
      Says(rules, s.rows, i, d, status) && (CarriesQuiz(rules, s.rows[i].payload) ==> d in s.content.quizzes)
    case Mark(i) => Answered(rules, s, i)
    case Foreign(after) => Guarded(rules, s, after) && (Safe(s.content) ==> Safe(after.content))
  }

  ghost predicate Fair(rules: Rules, s: State, xs: seq<Write>) {
    xs == [] || (Fair(rules, s, xs[..|xs| - 1]) && Allowed(rules, Replay(s, xs[..|xs| - 1]), xs[|xs| - 1]))
  }

  lemma FairGoesOn(rules: Rules, s: State, xs: seq<Write>, x: Write)
    requires Fair(rules, s, xs) && Allowed(rules, Replay(s, xs), x)
    ensures Fair(rules, s, xs + [x])
  {
    assert (xs + [x])[..|xs|] == xs;
  }

  /** Nothing the others do takes a write's turn away. */
  lemma AllowedStays(rules: Rules, s: State, s': State, x: Write)
    requires Allowed(rules, s, x) && !x.Foreign? && Guarded(rules, s, s')
    ensures Allowed(rules, s', x)
  {
    if x.Mark? {
      AnsweredStays(rules, s, s', x.row);
    }
  }

  lemma StoreIsGuarded(rules: Rules, s: State, x: Write)
    requires x.Store? && Allowed(rules, s, x)
    ensures Guarded(rules, s, Written(s, x))
  {
    var s' := Written(s, x);
    if x.document !in s.content.quizzes {
      assert Brings(rules, s'.rows, x.row, x.document, s'.content.quizzes[x.document]);
    }
  }

  lemma SettleIsGuarded(rules: Rules, s: State, x: Write)
    requires x.Settle? && Allowed(rules, s, x)
    ensures Guarded(rules, s, Written(s, x)) && Settled(s, Written(s, x), x.row)
  {
    var s' := Written(s, x);
    assert Says(rules, s'.rows, x.row, x.document, x.status);
    assert !x.status.Processing? && !x.status.Uploaded?;
  }

  lemma MarkIsGuarded(rules: Rules, s: State, x: Write)
    requires x.Mark? && Allowed(rules, s, x)
    ensures Guarded(rules, s, Written(s, x)) && Written(s, x).rows[x.row].published
  {
    var s' := Written(s, x);
    assert RowsGrow(s.rows, s'.rows) && QuizzesGrow(rules, s, s');
    AnsweredStays(rules, s, s', x.row);
  }

  lemma WriteIsGuarded(rules: Rules, s: State, x: Write)
    requires Allowed(rules, s, x)
    ensures Guarded(rules, s, Written(s, x))
  {
    match x
    case Store(_, _, _) => StoreIsGuarded(rules, s, x);
    case Settle(_, _, _) => SettleIsGuarded(rules, s, x);
    case Mark(_) => MarkIsGuarded(rules, s, x);
    case Foreign(_) =>
  }

  /** Writes in their turn, however interleaved, keep to the rules over their whole length. */
  lemma {:induction false} FairIsGuarded(rules: Rules, s: State, xs: seq<Write>)
    requires Fair(rules, s, xs)
    ensures Guarded(rules, s, Replay(s, xs))
    decreases |xs|
  {
    if xs == [] {
      GuardedReflexive(rules, s);
    } else {
      var before, x := xs[..|xs| - 1], xs[|xs| - 1];
      FairIsGuarded(rules, s, before);
      WriteIsGuarded(rules, Replay(s, before), x);
      GuardedTransitive(rules, s, Replay(s, before), Written(Replay(s, before), x));
    }
  }

  /** What is left of an own write in the end. */
  ghost predicate Left(s: State, s': State, x: Write) {
    match x
    case Settle(i, _, _) => Settled(s, s', i)
    case Mark(i) => i < |s'.rows| && s'.rows[i].published
    case _ => true
  }

  /** Whatever the others do after it, an own projection and an own mark show in the end. */
  lemma {:induction false} OwnWritesShow(rules: Rules, s: State, xs: seq<Write>, x: Write)
    requires Fair(rules, s, xs) && x in Own(xs)
    ensures Left(s, Replay(s, xs), x)
    decreases |xs|
  {
    var before, last := xs[..|xs| - 1], xs[|xs| - 1];
    var mid := Replay(s, before);
    FairIsGuarded(rules, s, before);
    WriteIsGuarded(rules, mid, last);
    if x in Own(before) {
      OwnWritesShow(rules, s, before, x);
      if x.Settle? {
        SettledStays(rules, s, mid, Written(mid, last), x.row);
      }
    } else if x.Settle? {
      SettleIsGuarded(rules, mid, x);
      SettledBefore(s, mid, Written(mid, x), x.row);
    } else if x.Mark? {
      MarkIsGuarded(rules, mid, x);
    }
  }

  lemma RowHas(rules: Rules, payload: Payload, id: nat)
    requires payload.Parsed?
    ensures Mark(id) in RowWrites(rules, payload, id)
    ensures Settle(id, payload.document, FinalStatus(rules, payload)) in RowWrites(rules, payload, id)
  {
    var quiz, row := QuizWrites(rules, payload, id), RowWrites(rules, payload, id);
    assert row[|quiz|] == Settle(id, payload.document, FinalStatus(rules, payload)) && row[|quiz| + 1] == Mark(id);
  }

  lemma Joined(before: seq<Write>, row: seq<Write>, x: Write)
    ensures x in before || x in row ==> x in before + row
  {
  }

  lemma {:induction false} ScriptHas(rules: Rules, rows: seq<Message<Payload>>, ids: seq<nat>, n: nat, k: nat)
    requires RowIds(rows, ids) && k < n <= |ids| && forall j :: 0 <= j < n ==> rows[ids[j]].payload.Parsed?
    ensures Mark(ids[k]) in Script(rules, rows, ids, n)
    ensures var payload := rows[ids[k]].payload;
            Settle(ids[k], payload.document, FinalStatus(rules, payload)) in Script(rules, rows, ids, n)
    decreases n
  {
    var before, row := Script(rules, rows, ids, n - 1), RowWrites(rules, rows[ids[n - 1]].payload, ids[n - 1]);
    Joined(before, row, Mark(ids[k]));
    Joined(before, row, Settle(ids[k], rows[ids[k]].payload.document, FinalStatus(rules, rows[ids[k]].payload)));
    if k == n - 1 {
      RowHas(rules, rows[ids[k]].payload, ids[k]);
    } else {
      ScriptHas(rules, rows, ids, n - 1, k);
    }
  }

  /** A delivered row is marked, and its effect is there. */
  ghost predicate Done(rules: Rules, s: State, s': State, i: nat) {
    i < |s'.rows| && s'.rows[i].published && Answered(rules, s', i) && Settled(s, s', i)
  }

  lemma DeliveredIsDone(rules: Rules, s: State, ids: seq<nat>, done: nat, xs: seq<Write>, part: seq<Write>, k: nat)
    requires Fair(rules, s, xs) && Delivered(rules, s.rows, ids, done, Own(xs), part) && k < done
    requires !s.rows[ids[k]].published
    ensures Done(rules, s, Replay(s, xs), ids[k])
  {
    var payload := s.rows[ids[k]].payload;
    ScriptHas(rules, s.rows, ids, done, k);
    FairIsGuarded(rules, s, xs);
    OwnWritesShow(rules, s, xs, Mark(ids[k]));
    OwnWritesShow(rules, s, xs, Settle(ids[k], payload.document, FinalStatus(rules, payload)));
  }

  /**
   What the tables show for a delivered row.  When all rows of its document mean the same and nobody confirmed it again,
   it is READY exactly if they are READY and bring a valid question (or no questions).  A quiz is there if the row
   brings a valid question, and a new one only if some row does.
   */
  ghost predicate Shown(rules: Rules, s: State, s': State, i: nat)
    requires i < |s'.rows| && s'.rows[i].payload.Parsed?
  {
    var d := s'.rows[i].payload.document;
    && (d in s.content.docs && s.content.docs[d].Processing? && !Confirmed(s, s', d)
        && OneMeaning(rules, s'.rows, i) ==>
          && d in s'.content.docs
          && s'.content.docs[d] == if MeansReady(rules, s'.rows[i].payload) then DocReady else DocFailed)
    && (CarriesQuiz(rules, s'.rows[i].payload) ==> d in s'.content.quizzes)
    && (d in s'.content.quizzes && d !in s.content.quizzes ==> Carried(rules, s'.rows, d))
  }

  ghost predicate OneMeaning(rules: Rules, rows: seq<Message<Payload>>, i: nat)
    requires i < |rows| && rows[i].payload.Parsed?
  {
    forall j: nat :: RowOf(rows, j, rows[i].payload.document) ==>
      (MeansReady(rules, rows[j].payload) <==> MeansReady(rules, rows[i].payload))
  }

  ghost predicate Carried(rules: Rules, rows: seq<Message<Payload>>, d: Document) {
    exists j: nat :: RowOf(rows, j, d) && CarriesQuiz(rules, rows[j].payload)
  }

  lemma BroughtIsCarried(rules: Rules, rows: seq<Message<Payload>>, j: nat, d: Document, quiz: seq<Question>)
    requires Brings(rules, rows, j, d, quiz)
    ensures Carried(rules, rows, d)
  {
    PayloadMeaning(rules, rows[j].payload);
  }

  lemma ResultShows(rules: Rules, s: State, s': State, i: nat)
    requires Guarded(rules, s, s') && Done(rules, s, s', i)
    ensures Shown(rules, s, s', i)
  {
    var d := s'.rows[i].payload.document;
    if d in s'.content.quizzes && d !in s.content.quizzes {
      var j: nat :| Brings(rules, s'.rows, j, d, s'.content.quizzes[d]);
      BroughtIsCarried(rules, s'.rows, j, d, s'.content.quizzes[d]);
    }
  }

  /** A new quiz is made of the questions of some row of its document. */
  lemma QuizIsMade(rules: Rules, s: State, s': State, d: Document) returns (j: nat, kept: seq<Question>)
    requires Guarded(rules, s, s') && Preorder(rules.collates)
    requires d in s'.content.quizzes && d !in s.content.quizzes
    ensures Brings(rules, s'.rows, j, d, s'.content.quizzes[d]) && CarriesQuiz(rules, s'.rows[j].payload)
    ensures MadeOf(rules, s'.rows[j].payload.questions.value, kept, s'.content.quizzes[d])
  {
    j :| Brings(rules, s'.rows, j, d, s'.content.quizzes[d]);
    PayloadMeaning(rules, s'.rows[j].payload);
    kept := PayloadQuiz(rules, s'.rows[j].payload);
  }

  // ---- READY means quiz, under interference ----

  /** READY comes with questions, as the worker writes it. */
  predicate Paired(payload: Payload) {
    payload.Parsed? && payload.ready ==> payload.questions.Some?
  }

  predicate AllPaired(rows: seq<Message<Payload>>) {
    forall i :: 0 <= i < |rows| ==> Paired(rows[i].payload)
  }

  lemma StoreIsSafe(c: Content, d: Document, quiz: seq<Question>)
    requires Safe(c) && quiz != []
    ensures Safe(Persist(c, d, quiz))
  {
  }

  lemma SettleIsSafe(c: Content, d: Document, status: DocumentStatus)
    requires Safe(c) && (status.DocReady? ==> d in c.quizzes)
    ensures Safe(Project(c, d, status))
  {
  }

  /** A row keeps the invariant with each of its writes in its turn, if READY comes with questions. */
  lemma WriteIsSafe(rules: Rules, s: State, x: Write)
    requires Allowed(rules, s, x) && Safe(s.content)
    requires x.Settle? ==> Paired(s.rows[x.row].payload)
    ensures Safe(Written(s, x).content)
  {
    match x
    case Store(_, d, quiz) => StoreIsSafe(s.content, d, quiz);
    case Settle(_, d, status) => SettleIsSafe(s.content, d, status);
    case Mark(_) =>
    case Foreign(_) =>
  }

  lemma RowSoFar(rules: Rules, payload: Payload, id: nat, quiz: seq<Write>, last: seq<Write>)
    requires payload.Parsed? && quiz <= QuizWrites(rules, payload, id)
    requires last <= [Settle(id, payload.document, FinalStatus(rules, payload)), Mark(id)]
    requires last != [] ==> quiz == QuizWrites(rules, payload, id)
    ensures quiz + last <= RowWrites(rules, payload, id)
    ensures |last| == 2 ==> quiz + last == RowWrites(rules, payload, id)
  {
  }

  lemma SumAssociates(a: seq<Write>, b: seq<Write>, c: seq<Write>)
    ensures a + b + c == a + (b + c)
  {
  }

  /** Rows that were read stay as they were read, but for their marks. */
  lemma StillThere(rules: Rules, s: State, xs: seq<Write>, i: nat)
    requires Fair(rules, s, xs) && i < |s.rows|
    ensures i < |Replay(s, xs).rows| && Replay(s, xs).rows[i].payload == s.rows[i].payload
  {
    FairIsGuarded(rules, s, xs);
  }

  lemma AllDone(rules: Rules, s: State, limit: nat, done: nat, xs: seq<Write>, part: seq<Write>)
    requires Fair(rules, s, xs) && Delivered(rules, s.rows, Unpublished(s.rows, limit), done, Own(xs), part)
    ensures Guarded(rules, s, Replay(s, xs))
    ensures forall k :: 0 <= k < done ==>
              && Done(rules, s, Replay(s, xs), Unpublished(s.rows, limit)[k])
              && Shown(rules, s, Replay(s, xs), Unpublished(s.rows, limit)[k])
  {
    FairIsGuarded(rules, s, xs);
    UnpublishedFacts(s.rows, limit);
    forall k | 0 <= k < done
      ensures Done(rules, s, Replay(s, xs), Unpublished(s.rows, limit)[k])
      ensures Shown(rules, s, Replay(s, xs), Unpublished(s.rows, limit)[k])
    {
      DeliveredIsDone(rules, s, Unpublished(s.rows, limit), done, xs, part, k);
      ResultShows(rules, s, Replay(s, xs), Unpublished(s.rows, limit)[k]);
    }
  }

  lemma TakesItsTurn(rules: Rules, start: State, xs: seq<Write>, x: Write)
    requires Fair(rules, start, xs) && Allowed(rules, Replay(start, xs), x) && !x.Foreign?
    ensures Fair(rules, start, xs + [x]) && Replay(start, xs + [x]) == Written(Replay(start, xs), x)
    ensures Own(xs + [x]) == Own(xs) + [x] && Guarded(rules, Replay(start, xs), Written(Replay(start, xs), x))
  {
    OneMore(start, xs, x);
    FairGoesOn(rules, start, xs, x);
    WriteIsGuarded(rules, Replay(start, xs), x);
  }

  class ReturnRelay {
    const rules: Rules
    /** Whether the i-th awaited statement throws. */
    const breaks: nat -> bool
    var statements: nat
    var content: Content
    var rows: seq<Message<Payload>>
    var course: seq<Document>
    ghost var projected: set<nat>

    constructor (rules: Rules, breaks: nat -> bool, content: Content, rows: seq<Message<Payload>>,
                 course: seq<Document>)
      ensures this.rules == rules && this.breaks == breaks && statements == 0
      ensures this.content == content && this.rows == rows && this.course == course && projected == {}
    {
      this.rules, this.breaks, statements := rules, breaks, 0;
      this.content, this.rows, this.course, projected := content, rows, course, {};
    }

    ghost function Now(): State
      reads this
    {
      State(content, rows, course, projected)
    }

    /** The tables are what the log in its turns made of them. */
    ghost predicate At(start: State, xs: seq<Write>)
      reads this
    {
      Now() == Replay(start, xs) && Fair(rules, start, xs)
    }

    /** Row `id` is there, with that payload. */
    ghost predicate Row(id: nat, payload: Payload)
      reads this
    {
      id < |rows| && rows[id].payload == payload
    }

    /** Other writers may act here. */
    method Yield(ghost start: State, ghost xs: seq<Write>) returns (ghost xs': seq<Write>)
      requires At(start, xs)
      modifies this`content, this`rows, this`course, this`projected
      ensures At(start, xs') && Own(xs') == Own(xs)
      ensures Guarded(rules, old(Now()), Now()) && (Safe(old(content)) ==> Safe(content))
    {
      xs' := xs;
      GuardedReflexive(rules, Now());
    }

    /** A write takes effect. */
    method Perform(x: Write, ghost start: State, ghost xs: seq<Write>) returns (ghost xs': seq<Write>)
      requires !x.Foreign? && At(start, xs) && Allowed(rules, Now(), x)
      modifies this`content, this`rows, this`projected
      ensures Now() == Written(old(Now()), x) && Guarded(rules, old(Now()), Now())
      ensures At(start, xs') && Own(xs') == Own(xs) + [x]
    {
      TakesItsTurn(rules, start, xs, x);
      xs' := xs + [x];
      content, rows, projected := ContentAfter(content, x), RowsAfter(rows, x), ProjectedAfter(projected, x);
    }

    /** One awaited write: others act first; it may throw before or after it took effect. */
    method Await(x: Write, ghost start: State, ghost xs: seq<Write>)
        returns (thrown: bool, ghost took: bool, ghost before: State, ghost xs': seq<Write>)
      requires !x.Foreign? && At(start, xs) && Allowed(rules, Now(), x)
      modifies this
      ensures Guarded(rules, old(Now()), before) && Allowed(rules, before, x)
      ensures Safe(old(content)) ==> Safe(before.content)
      ensures Now() == (if took then Written(before, x) else before) && Guarded(rules, before, Now())
      ensures At(start, xs') && Own(xs') == Own(xs) + if took then [x] else []
      ensures statements == old(statements) + 1 && thrown == breaks(old(statements)) && (!thrown ==> took)
    {
      xs' := Yield(start, xs);
      before, took := Now(), false;
      AllowedStays(rules, old(Now()), before, x);
      GuardedReflexive(rules, before);
      thrown := breaks(statements);
      statements := statements + 1;
      var effective: bool := *;
      if effective || !thrown {
        took := true;
        xs' := Perform(x, start, xs');
      }
    }

    /** Store the quiz if the payload brings an acceptable one; the status to project. */
    method PersistQuiz(payload: Payload, id: nat, ghost start: State, ghost xs: seq<Write>)
        returns (thrown: bool, status: DocumentStatus, ghost xs': seq<Write>, ghost own: seq<Write>)
      requires payload.Parsed? && Row(id, payload) && At(start, xs)
      modifies this
      ensures statements >= old(statements) && (thrown ==> !Smooth(breaks, old(statements), statements))
      ensures Row(id, payload) && At(start, xs')
      ensures Own(xs') == Own(xs) + own && own <= QuizWrites(rules, payload, id)
      ensures !thrown ==>
                && own == QuizWrites(rules, payload, id) && status == FinalStatus(rules, payload)
                && status == (if MeansReady(rules, payload) then DocReady else DocFailed)
                && (own != [] <==> CarriesQuiz(rules, payload))
                && (CarriesQuiz(rules, payload) ==> payload.document in content.quizzes)
      ensures Safe(old(content)) ==> Safe(content)
    {
      PayloadMeaning(rules, payload);
      thrown, xs', own := false, xs, [];
      status := if payload.ready then DocReady else DocFailed;
      if payload.ready && payload.questions.Some? {
        var quiz := CreateQuiz(rules, MinimumOne(), payload.questions.value);
        if quiz.Some? {
          thrown, xs', own := StoreQuiz(payload, id, quiz.value, start, xs);
        } else {
          // Invalid generated questions are terminal for this result.
          status := DocFailed;
        }
      }
    }

    method StoreQuiz(payload: Payload, id: nat, quiz: seq<Question>, ghost start: State, ghost xs: seq<Write>)
        returns (thrown: bool, ghost xs': seq<Write>, ghost own: seq<Write>)
      requires payload.Parsed? && Row(id, payload) && At(start, xs) && QuizOf(rules, payload) == Some(quiz)
      modifies this
      ensures statements >= old(statements) && (thrown ==> !Smooth(breaks, old(statements), statements))
      ensures Row(id, payload) && At(start, xs')
      ensures Own(xs') == Own(xs) + own && own <= [Store(id, payload.document, quiz)]
      ensures !thrown ==> own == [Store(id, payload.document, quiz)] && payload.document in content.quizzes
      ensures Safe(old(content)) ==> Safe(content)
    {
      ghost var took, before, x := false, Now(), Store(id, payload.document, quiz);
      thrown, took, before, xs' := Await(Store(id, payload.document, quiz), start, xs);
      own := if took then [x] else [];
      if Safe(before.content) {
        WriteIsSafe(rules, before, x);
      }
    }

    /** Project the status, then mark the row. */
    method SettleAndMark(payload: Payload, id: nat, status: DocumentStatus, ghost start: State, ghost xs: seq<Write>)
        returns (thrown: bool, ghost xs': seq<Write>, ghost own: seq<Write>)
      requires payload.Parsed? && Row(id, payload) && At(start, xs) && status == FinalStatus(rules, payload)
      requires CarriesQuiz(rules, payload) ==> payload.document in content.quizzes
      modifies this
      ensures statements >= old(statements) && (thrown ==> !Smooth(breaks, old(statements), statements))
      ensures At(start, xs') && Own(xs') == Own(xs) + own
      ensures own <= [Settle(id, payload.document, status), Mark(id)]
      ensures !thrown ==> own == [Settle(id, payload.document, status), Mark(id)]
      ensures Paired(payload) && Safe(old(content)) ==> Safe(content)
    {
      thrown, xs', own := ProjectRow(payload, id, status, start, xs);
      if !thrown {
        ghost var took, before;
        thrown, took, before, xs' := Await(Mark(id), start, xs');
        own := own + if took then [Mark(id)] else [];
      }
    }

    method ProjectRow(payload: Payload, id: nat, status: DocumentStatus, ghost start: State, ghost xs: seq<Write>)
        returns (thrown: bool, ghost xs': seq<Write>, ghost own: seq<Write>)
      requires payload.Parsed? && Row(id, payload) && At(start, xs) && status == FinalStatus(rules, payload)
      requires CarriesQuiz(rules, payload) ==> payload.document in content.quizzes
      modifies this
      ensures statements >= old(statements) && (thrown ==> !Smooth(breaks, old(statements), statements))
      ensures At(start, xs') && Own(xs') == Own(xs) + own && own <= [Settle(id, payload.document, status)]
      ensures !thrown ==> own == [Settle(id, payload.document, status)] && Answered(rules, Now(), id)
      ensures Paired(payload) && Safe(old(content)) ==> Safe(content)
    {
      PayloadMeaning(rules, payload);
      ghost var took, before, x := false, Now(), Settle(id, payload.document, status);
      thrown, took, before, xs' := Await(Settle(id, payload.document, status), start, xs);
      own := if took then [x] else [];
      if Safe(before.content) && Paired(payload) {
        WriteIsSafe(rules, before, x);
      }
    }

    /** One row: its own writes are those of the row, or a prefix of them when it throws. */
    method DeliverRow(payload: Payload, id: nat, ghost start: State, ghost xs: seq<Write>)
        returns (thrown: bool, ghost xs': seq<Write>, ghost own: seq<Write>)
      requires Row(id, payload) && At(start, xs)
      modifies this
      ensures statements >= old(statements)
      ensures thrown ==> payload.Malformed? || !Smooth(breaks, old(statements), statements)
      ensures At(start, xs') && Own(xs') == Own(xs) + own
      ensures if payload.Parsed? then own <= RowWrites(rules, payload, id) else thrown && own == []
      ensures !thrown ==> own == RowWrites(rules, payload, id)
      ensures Paired(payload) && Safe(old(content)) ==> Safe(content)
    {
      xs', own := xs, [];
      if payload.Malformed? {
        return true, xs', own;
      }
      var status;
      thrown, status, xs', own := PersistQuiz(payload, id, start, xs);
      if !thrown {
        ghost var quiz, last := own, [];
        thrown, xs', last := SettleAndMark(payload, id, status, start, xs');
        own := quiz + last;
        SumAssociates(Own(xs), quiz, last);
        RowSoFar(rules, payload, id, quiz, last);
      } else {
        RowSoFar(rules, payload, id, own, []);
        assert own + [] == own;
      }
    }

    /** How far the loop has come. */
    ghost predicate Pumping(start: State, ids: seq<nat>, done: nat, thrown: bool, xs: seq<Write>, part: seq<Write>,
                            first: nat)
      reads this
    {
      && At(start, xs)
      && Delivered(rules, start.rows, ids, done, Own(xs), part) && (!thrown ==> part == [])
      && first <= statements
      && (thrown ==>
            && done < |ids|
            && (start.rows[ids[done]].payload.Malformed? || !Smooth(breaks, first, statements)))
      && (AllPaired(start.rows) && Safe(start.content) ==> Safe(content))
    }

    /** The next row it read. */
    method DeliverNext(pending: seq<Message<Payload>>, ids: seq<nat>, done: nat, ghost start: State,
                       ghost xs: seq<Write>, ghost first: nat)
        returns (done': nat, thrown: bool, ghost xs': seq<Write>, ghost part: seq<Write>)
      requires pending == start.rows && done < |ids| && Pumping(start, ids, done, false, xs, [], first)
      modifies this
      ensures Pumping(start, ids, done', thrown, xs', part, first)
      ensures done' == if thrown then done else done + 1
    {
      ghost var before := statements;
      StillThere(rules, start, xs, ids[done]);
      thrown, xs', part := DeliverRow(pending[ids[done]].payload, ids[done], start, xs);
      RowDelivered(rules, pending, ids, done, Own(xs), part);
      if !Smooth(breaks, before, statements) {
        BrokeEarlier(breaks, first, before, statements);
      }
      done', part := if thrown then done else done + 1, if thrown then part else [];
    }

    /** The loop over the rows it read. */
    method DeliverRows(pending: seq<Message<Payload>>, ids: seq<nat>, ghost start: State)
        returns (done: nat, thrown: bool, ghost xs: seq<Write>, ghost part: seq<Write>)
      requires start == Now() && pending == rows && RowIds(pending, ids)
      modifies this
      ensures Pumping(start, ids, done, thrown, xs, part, old(statements)) && (done < |ids| <==> thrown)
    {
      done, thrown, xs, part := 0, false, [], [];
      while done < |ids| && !thrown
        invariant done <= |ids| && Pumping(start, ids, done, thrown, xs, part, old(statements))
        decreases |ids| - done, !thrown
      {
        done, thrown, xs, part := DeliverNext(pending, ids, done, start, xs, old(statements));
      }
    }

    /**
     The relay's own writes are the whole script of the first `done` rows it read, in order, and, when it throws,
     some of the next row's.  In the tables those rows are marked and have had their effect; and over the whole call
     no row is marked, no quiz stored and no status set by anybody but as the rows say.  It throws only if a statement
     did, or at a malformed row.  A READY document keeps having a quiz whatever the other writers do, as long as they
     keep that too.
     */
    method Pump(limit: nat) returns (done: nat, thrown: bool, ghost xs: seq<Write>, ghost part: seq<Write>)
      modifies this
      ensures var ids := Unpublished(old(rows), limit);
              && Delivered(rules, old(rows), ids, done, Own(xs), part)
              && OldestUnpublished(old(rows), limit, ids)
              && (done < |ids| ==> thrown)
              && (thrown ==>
                    || !Smooth(breaks, old(statements), statements)
                    || (done < |ids| && old(rows)[ids[done]].payload.Malformed?))
              && (forall k :: 0 <= k < done ==> Done(rules, old(Now()), Now(), ids[k]))
              && forall k :: 0 <= k < done ==> Shown(rules, old(Now()), Now(), ids[k])
      ensures At(old(Now()), xs) && Guarded(rules, old(Now()), Now())
      ensures AllPaired(old(rows)) && Safe(old(content)) ==> Safe(content)
    {
      ghost var start := Now();
      UnpublishedFacts(rows, limit);
      UnpublishedAreOldest(rows, limit);
      thrown := breaks(statements);
      statements := statements + 1;
      if thrown {
        return 0, true, [], [];
      }
      done, thrown, xs, part := DeliverRows(rows, Unpublished(rows, limit), start);
      AllDone(rules, start, limit, done, xs, part);
    }
  }
}
