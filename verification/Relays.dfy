/** What the two relays write: document statuses and quizzes on the way back, jobs on the way there. */
module Relays {
  import opened Domain
  import opened Queue
  import opened QueueSafety
  import opened QuizAggregate
  import opened Sorting

  datatype DocumentStatus = Uploaded | Processing | DocReady | DocFailed

  /** What the return relay writes: document statuses and persisted quizzes. */
  datatype Content = Content(docs: map<Document, DocumentStatus>, quizzes: map<Document, seq<Question>>)

  /** A result row as the relay parses it; a malformed payload makes it throw. */
  datatype Payload =
    | Parsed(document: Document, ready: bool, questions: Option<seq<Question>>)
    | Malformed

  /** A row of either outbox table, oldest first in its sequence. */
  datatype Message<P> = Message(payload: P, published: bool)

  /** The payload the worker writes for a result: READY always comes with its questions. */
  function PayloadOf(r: Result): Payload {
    match r
    case Ready(document, questions) => Parsed(document, true, Some(questions))
    case Rejected(document, _) => Parsed(document, false, None)
  }

  /** The status projection is a compare-and-set on PROCESSING. */
  function Project(c: Content, document: Document, status: DocumentStatus): Content {
    if document in c.docs && c.docs[document].Processing? then c.(docs := c.docs[document := status]) else c
  }

  /** Idempotent on (document, promptVersion): an existing quiz is left alone. */
  function Persist(c: Content, document: Document, quiz: seq<Question>): Content {
    if document in c.quizzes then c else c.(quizzes := c.quizzes[document := quiz])
  }

  function MinimumOne(): nat { 1 }

  /** The quiz the aggregate accepts, if a READY payload carries questions. */
  function QuizOf(rules: Rules, p: Payload): Option<seq<Question>>
    requires p.Parsed?
  {
    if p.ready && p.questions.Some? then Create(rules, MinimumOne(), p.questions.value) else None
  }

  function AfterPersist(rules: Rules, c: Content, p: Payload): Content
    requires p.Parsed?
  {
    match QuizOf(rules, p)
    case Some(quiz) => Persist(c, p.document, quiz)
    case None => c
  }

  function FinalStatus(rules: Rules, p: Payload): DocumentStatus
    requires p.Parsed?
  {
    if p.ready && (p.questions.Some? ==> QuizOf(rules, p).Some?) then DocReady else DocFailed
  }

  ghost predicate SomeValid(rules: Rules, questions: seq<Question>) {
    exists q :: q in questions && rules.valid(q)
  }

  /** READY, with questions of which one is valid. */
  ghost predicate CarriesQuiz(rules: Rules, p: Payload) {
    p.Parsed? && p.ready && p.questions.Some? && SomeValid(rules, p.questions.value)
  }

  /** READY, and not with questions of which none is valid. */
  ghost predicate MeansReady(rules: Rules, p: Payload) {
    p.Parsed? && p.ready && (p.questions.Some? ==> SomeValid(rules, p.questions.value))
  }

  /** One valid question is enough; without any, the document fails. */
  lemma PayloadMeaning(rules: Rules, p: Payload)
    requires p.Parsed?
    ensures QuizOf(rules, p).Some? <==> CarriesQuiz(rules, p)
    ensures FinalStatus(rules, p) == if MeansReady(rules, p) then DocReady else DocFailed
  {
    if p.questions.Some? {
      AcceptsIffSomeValid(rules, p.questions.value);
    }
  }

  /** The quiz a payload brings. */
  lemma PayloadQuiz(rules: Rules, p: Payload) returns (kept: seq<Question>)
    requires CarriesQuiz(rules, p) && Preorder(rules.collates)
    ensures QuizOf(rules, p).Some? && QuizOf(rules, p).value != []
    ensures MadeOf(rules, p.questions.value, kept, QuizOf(rules, p).value)
  {
    PayloadMeaning(rules, p);
    kept := CreateMakes(rules, MinimumOne(), p.questions.value);
  }

  /** The whole effect of one result row. */
  function Deliver(rules: Rules, c: Content, p: Payload): Content {
    if p.Malformed? then c else Project(AfterPersist(rules, c, p), p.document, FinalStatus(rules, p))
  }

  /** What a crash can leave of one row's effect. */
  ghost predicate Partial(rules: Rules, c: Content, p: Payload, c': Content) {
    c' == c || (p.Parsed? && c' == AfterPersist(rules, c, p)) || c' == Deliver(rules, c, p)
  }

  /** Redelivering a row, after any crash, ends where one delivery would have. */
  lemma RedeliveryConverges(rules: Rules, c: Content, p: Payload, c': Content)
    requires Partial(rules, c, p, c')
    ensures Deliver(rules, c', p) == Deliver(rules, c, p)
  {
  }

  /** A READY document has a quiz with at least one question. */
  ghost predicate ReadyHasQuiz(c: Content) {
    forall d :: d in c.docs && c.docs[d].DocReady? ==> d in c.quizzes && c.quizzes[d] != []
  }

  ghost predicate QuizzesNonEmpty(c: Content) {
    forall d :: d in c.quizzes ==> c.quizzes[d] != []
  }

  /**
   A delivery keeps that invariant exactly unless it is a READY payload without questions for a PROCESSING
   document that has no quiz.
   */
  lemma DeliveryKeepsReadyIff(rules: Rules, c: Content, p: Payload)
    requires ReadyHasQuiz(c) && QuizzesNonEmpty(c)
    ensures QuizzesNonEmpty(Deliver(rules, c, p))
    ensures ReadyHasQuiz(Deliver(rules, c, p)) <==>
            !(p.Parsed? && p.ready && p.questions.None?
              && p.document in c.docs && c.docs[p.document].Processing? && p.document !in c.quizzes)
  {
    if p.Parsed? {
      var d := p.document;
      var c' := Deliver(rules, c, p);
      assert forall other :: other != d && other in c'.docs ==> other in c.docs && c'.docs[other] == c.docs[other];
      assert forall q :: q in c.quizzes ==> q in c'.quizzes && c'.quizzes[q] == c.quizzes[q];
      if d in c'.docs {
        assert c'.docs[d].DocReady? || c'.docs[d] == c.docs[d] || c'.docs[d].DocFailed?;
      }
    }
  }

  /** Such a payload: the Node repository's result event has no questions field. */
  lemma ReadyWithoutQuestions(rules: Rules, d: Document)
    ensures var c := Content(map[d := Processing], map[]);
            && ReadyHasQuiz(c) && QuizzesNonEmpty(c)
            && !ReadyHasQuiz(Deliver(rules, c, Parsed(d, true, None)))
            && Deliver(rules, c, Parsed(d, true, None)).docs[d].DocReady?
  {
    var c := Content(map[d := Processing], map[]);
    DeliveryKeepsReadyIff(rules, c, Parsed(d, true, None));
  }

  /** The rows a pump reads: the oldest unpublished ones, at most `limit`. */
  function Unpublished<P>(rows: seq<Message<P>>, limit: nat): seq<nat> {
    if rows == [] || limit == 0 then []
    else
      var before := Unpublished(rows[..|rows| - 1], limit);
      if |before| < limit && !rows[|rows| - 1].published then before + [|rows| - 1] else before
  }

  lemma {:induction false} UnpublishedFacts<P>(rows: seq<Message<P>>, limit: nat)
    ensures |Unpublished(rows, limit)| <= limit
    ensures forall k :: 0 <= k < |Unpublished(rows, limit)| ==>
              Unpublished(rows, limit)[k] < |rows| && !rows[Unpublished(rows, limit)[k]].published
    ensures forall j, k :: 0 <= j < k < |Unpublished(rows, limit)| ==>
              Unpublished(rows, limit)[j] < Unpublished(rows, limit)[k]
    decreases |rows|
  {
    if rows != [] && limit != 0 {
      UnpublishedFacts(rows[..|rows| - 1], limit);
    }
  }

  /** Rows left out come behind the limit. */
  ghost predicate LeftOut<P>(rows: seq<Message<P>>, limit: nat, ids: seq<nat>, i: nat) {
    i < |rows| && !rows[i].published && i !in ids ==> |ids| == limit && forall k :: 0 <= k < |ids| ==> ids[k] < i
  }

  /** `ids` are the oldest rows that are not published: all of them, or `limit`. */
  ghost predicate OldestUnpublished<P>(rows: seq<Message<P>>, limit: nat, ids: seq<nat>) {
    && |ids| <= limit
    && (forall k :: 0 <= k < |ids| ==> ids[k] < |rows| && !rows[ids[k]].published)
    && (forall j, k :: 0 <= j < k < |ids| ==> ids[j] < ids[k])
    && (forall i: nat :: LeftOut(rows, limit, ids, i))
  }

  /** One row more: it is taken if it fits, and else what was left out stays so. */
  lemma LeftOutStays<P>(rows: seq<Message<P>>, limit: nat, before: seq<nat>, i: nat)
    requires rows != [] && |before| <= limit && forall k :: 0 <= k < |before| ==> before[k] < |rows| - 1
    requires LeftOut(rows[..|rows| - 1], limit, before, i)
    ensures |before| < limit && !rows[|rows| - 1].published ==> LeftOut(rows, limit, before + [|rows| - 1], i)
    ensures !(|before| < limit && !rows[|rows| - 1].published) ==> LeftOut(rows, limit, before, i)
  {
    assert i in before || i == |rows| - 1 ==> i in before + [|rows| - 1];
  }

  lemma {:induction false} LeftOutBehind<P>(rows: seq<Message<P>>, limit: nat, i: nat)
    ensures LeftOut(rows, limit, Unpublished(rows, limit), i)
    decreases |rows|
  {
    if rows != [] && limit != 0 {
      UnpublishedFacts(rows[..|rows| - 1], limit);
      LeftOutBehind(rows[..|rows| - 1], limit, i);
      LeftOutStays(rows, limit, Unpublished(rows[..|rows| - 1], limit), i);
    }
  }

  lemma UnpublishedAreOldest<P>(rows: seq<Message<P>>, limit: nat)
    ensures OldestUnpublished(rows, limit, Unpublished(rows, limit))
  {
    UnpublishedFacts(rows, limit);
    forall i: nat ensures LeftOut(rows, limit, Unpublished(rows, limit), i) {
      LeftOutBehind(rows, limit, i);
    }
  }

  /** `ids` are row numbers, in increasing order. */
  ghost predicate RowIds<P>(rows: seq<Message<P>>, ids: seq<nat>) {
    && (forall k :: 0 <= k < |ids| ==> ids[k] < |rows|)
    && (forall j, k :: 0 <= j < k < |ids| ==> ids[j] < ids[k])
  }

  /** Rows are appended, their payloads are fixed, and marks are never taken back. */
  ghost predicate RowsGrow<P>(rows: seq<Message<P>>, rows': seq<Message<P>>) {
    && |rows| <= |rows'|
    && forall i :: 0 <= i < |rows| ==>
         rows'[i].payload == rows[i].payload && (rows[i].published ==> rows'[i].published)
  }

  /** The content after the first n of the given rows are delivered in order. */
  ghost function DeliverFirst(rules: Rules, c: Content, rows: seq<Message<Payload>>, ids: seq<nat>, n: nat): Content
    requires RowIds(rows, ids) && n <= |ids|
  {
    if n == 0 then c else Deliver(rules, DeliverFirst(rules, c, rows, ids, n - 1), rows[ids[n - 1]].payload)
  }

  /** The rows after the first n of the given ones are marked published. */
  ghost function MarkFirst<P>(rows: seq<Message<P>>, ids: seq<nat>, n: nat): (r: seq<Message<P>>)
    requires RowIds(rows, ids) && n <= |ids|
    ensures |r| == |rows|
  {
    if n == 0 then rows
    else
      var before := MarkFirst(rows, ids, n - 1);
      before[ids[n - 1] := before[ids[n - 1]].(published := true)]
  }

  lemma {:induction false} MarkFirstFacts<P>(rows: seq<Message<P>>, ids: seq<nat>, n: nat)
    requires RowIds(rows, ids) && n <= |ids|
    ensures forall i :: 0 <= i < |rows| ==> MarkFirst(rows, ids, n)[i].payload == rows[i].payload
    ensures forall i :: 0 <= i < |rows| ==>
              (MarkFirst(rows, ids, n)[i].published <==> rows[i].published || exists k :: 0 <= k < n && ids[k] == i)
    decreases n
  {
    if n > 0 {
      MarkFirstFacts(rows, ids, n - 1);
    }
  }

  // ---- the upsert of the forward relay ----

  lemma {:induction false} Above(ids: set<nat>) returns (n: nat)
    ensures forall i :: i in ids ==> i < n
    decreases ids
  {
    if ids == {} {
      n := 0;
    } else {
      var i :| i in ids;
      var m := Above(ids - {i});
      n := if i < m then m else i + 1;
      assert forall j :: j in ids ==> j == i || j in ids - {i};
    }
  }

  ghost predicate HasJob(w: World, document: Document) {
    exists job :: job in w.jobs && w.jobs[job].document == document
  }

  /** A document has one owner, whatever row mentions it. */
  ghost predicate SameOwner(w: World, document: Document) {
    forall job :: job in w.jobs && w.jobs[job].document.id == document.id ==> w.jobs[job].document == document
  }

  /** Enqueue changes nothing while the job is waiting, running or completed. */
  lemma EnqueueLeavesActiveJob(w: World, job: JobId, document: Document, at: Time)
    requires LedgerCovers(w) && Enabled(w, Enqueue(job, document, at))
    requires job in w.jobs && !w.jobs[job].status.Failed?
    ensures Next(w, Enqueue(job, document, at)) == w
  {
    assert w.jobs[job := w.jobs[job]] == w.jobs && w.ledger[job := w.ledger[job]] == w.ledger;
  }

  lemma EnqueueInserts(w: World, job: JobId, document: Document)
    requires Inv(w) && job !in w.jobs && SameOwner(w, document)
    requires forall j :: j in w.jobs ==> w.jobs[j].document != document
    ensures Enabled(w, Enqueue(job, document, w.clock))
    ensures Next(w, Enqueue(job, document, w.clock)) ==
            w.(jobs := w.jobs[job := NewRow(document, w.clock)], ledger := w.ledger[job := Ledger(0, 0, 0)])
  {
  }

  lemma EnqueueRearms(w: World, job: JobId)
    requires Inv(w) && job in w.jobs && w.jobs[job].status.Failed?
    ensures Enabled(w, Enqueue(job, w.jobs[job].document, w.clock))
    ensures Next(w, Enqueue(job, w.jobs[job].document, w.clock)) ==
            w.(jobs := w.jobs[job := Rearmed(w.jobs[job])],
               ledger := w.ledger[job := Ledger(Rearmed(w.jobs[job]).attempts, 0, w.ledger[job].rearms + 1)])
  {
  }

  lemma EnqueueEffect(w: World, job: JobId, document: Document, at: Time)
    requires Inv(w) && Enabled(w, Enqueue(job, document, at))
    ensures var w' := Next(w, Enqueue(job, document, at));
            && Inv(w') && HasJob(w', document) && job in w'.jobs && !w'.jobs[job].status.Failed?
            && w'.jobs[job].document == document && w'.clock == w.clock
  {
    StepKeepsInv(w, Enqueue(job, document, at));
    assert Next(w, Enqueue(job, document, at)).jobs[job].document == document;
  }

  /** Repeating an enqueue at once changes nothing more. */
  lemma EnqueueIsIdempotent(w: World, job: JobId, document: Document, at: Time, again: Time)
    requires Inv(w) && Enabled(w, Enqueue(job, document, at)) && again <= w.clock
    ensures var w' := Next(w, Enqueue(job, document, at));
            && Inv(w') && Enabled(w', Enqueue(job, document, again)) && Next(w', Enqueue(job, document, again)) == w'
  {
    EnqueueEffect(w, job, document, at);
    EnqueueLeavesActiveJob(Next(w, Enqueue(job, document, at)), job, document, again);
  }

  /** The rows agree with each other and with the jobs on who owns a document. */
  ghost predicate Consistent(w: World, rows: seq<Message<Document>>) {
    && (forall i :: 0 <= i < |rows| ==> SameOwner(w, rows[i].payload))
    && (forall i, j :: 0 <= i < |rows| && 0 <= j < |rows| && rows[i].payload.id == rows[j].payload.id ==>
          rows[i].payload == rows[j].payload)
  }

  lemma StepKeepsJobs(w: World, a: Action)
    requires Inv(w) && Enabled(w, a)
    ensures forall document :: HasJob(w, document) ==> HasJob(Next(w, a), document)
  {
    StepKeepsDocuments(w, a);
    forall document | HasJob(w, document) ensures HasJob(Next(w, a), document) {
      var job :| job in w.jobs && w.jobs[job].document == document;
      assert Next(w, a).jobs[job].document == document;
    }
  }

  lemma EnqueueKeepsConsistent(w: World, a: Action, rows: seq<Message<Document>>)
    requires Inv(w) && Consistent(w, rows) && a.Enqueue? && Enabled(w, a)
    requires exists i :: 0 <= i < |rows| && rows[i].payload == a.document
    ensures Consistent(Next(w, a), rows)
  {
  }
}
