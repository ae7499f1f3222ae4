/**
 The whole pipeline: confirmation, forward relay, queue, return relays and quiz persistence, interleaved in any
 order, with a crash possible between any two steps of a relay and any number of redeliveries.
 */
module Delivery {
  import opened Domain
  import opened Queue
  import opened QueueSafety
  import opened QuizAggregate
  import opened Relays

  type RelayId = nat

  datatype Progress = Taken | QuizStored | Projected

  /** A return relay at work on one row of ai.outbox. */
  datatype Courier = Courier(index: nat, progress: Progress)

  datatype Platform = Platform(
    queue: World,
    content: Content,
    course: seq<Document>,          // course.outbox, oldest first
    enqueued: set<nat>,             // its rows handed to the queue
    acknowledged: set<nat>,         // its rows marked published
    published: set<nat>,            // rows of ai.outbox marked published
    couriers: map<RelayId, Courier>)

  const EMPTY := Platform(INITIAL, Content(map[], map[]), [], {}, {}, {}, map[])

  datatype Event =
    | Work(action: Action)                    // any step of the queue but an enqueue
    | Upload(document: Document)
    | Confirm(document: Document)
    | Forward(row: nat, job: JobId)           // possible again after a crash, until the row is acknowledged
    | Acknowledge(row: nat)
    | Take(relay: RelayId, index: nat)        // reads an unpublished row; several relays may hold the same one
    | StoreQuiz(relay: RelayId)
    | Conclude(relay: RelayId)
    | Publish(relay: RelayId)
    | Crash(relay: RelayId)

  ghost function PayloadAt(p: Platform, index: nat): Payload
    requires index < |p.queue.outbox|
  {
    PayloadOf(p.queue.outbox[index].result)
  }

  ghost predicate CourierAt(p: Platform, relay: RelayId, progress: Progress) {
    relay in p.couriers && p.couriers[relay].index < |p.queue.outbox| && p.couriers[relay].progress == progress
  }

  ghost predicate CanHappen(rules: Rules, p: Platform, e: Event) {
    match e
    case Work(a) => !a.Enqueue? && Enabled(p.queue, a)
    case Upload(d) => forall other :: other in p.content.docs ==> other.id != d.id
    case Confirm(d) => d in p.content.docs && (p.content.docs[d].Uploaded? || p.content.docs[d].DocFailed?)
    case Forward(row, job) =>
      row < |p.course| && row !in p.acknowledged && Enabled(p.queue, Enqueue(job, p.course[row], p.queue.clock))
    case Acknowledge(row) => row < |p.course| && row in p.enqueued
    case Take(relay, index) => relay !in p.couriers && index < |p.queue.outbox| && index !in p.published
    case StoreQuiz(relay) =>
      CourierAt(p, relay, Taken) && QuizOf(rules, PayloadAt(p, p.couriers[relay].index)).Some?
    case Conclude(relay) =>
      && relay in p.couriers && p.couriers[relay].index < |p.queue.outbox|
      && p.couriers[relay].progress ==
           (if FinalStatus(rules, PayloadAt(p, p.couriers[relay].index)).DocReady? then QuizStored else Taken)
    case Publish(relay) => CourierAt(p, relay, Projected)
    case Crash(relay) => relay in p.couriers
  }

  ghost function Happen(rules: Rules, p: Platform, e: Event): Platform
    requires LedgerCovers(p.queue) && CanHappen(rules, p, e)
  {
    match e
    case Work(a) => p.(queue := Next(p.queue, a))
    case Upload(d) => p.(content := p.content.(docs := p.content.docs[d := Uploaded]))
    case Confirm(d) => p.(content := p.content.(docs := p.content.docs[d := Processing]), course := p.course + [d])
    case Forward(row, job) =>
      p.(queue := Next(p.queue, Enqueue(job, p.course[row], p.queue.clock)), enqueued := p.enqueued + {row})
    case Acknowledge(row) => p.(acknowledged := p.acknowledged + {row})
    case Take(relay, index) => p.(couriers := p.couriers[relay := Courier(index, Taken)])
    case StoreQuiz(relay) =>
      p.(content := AfterPersist(rules, p.content, PayloadAt(p, p.couriers[relay].index)),
         couriers := p.couriers[relay := p.couriers[relay].(progress := QuizStored)])
    case Conclude(relay) =>
      var payload := PayloadAt(p, p.couriers[relay].index);
      p.(content := Project(p.content, payload.document, FinalStatus(rules, payload)),
         couriers := p.couriers[relay := p.couriers[relay].(progress := Projected)])
    case Publish(relay) => p.(published := p.published + {p.couriers[relay].index}, couriers := p.couriers - {relay})
    case Crash(relay) => p.(couriers := p.couriers - {relay})
  }

  // ---- the invariant ----

  /** The document's quiz was made from a READY result the queue published for it. */
  ghost predicate QuizFromResult(rules: Rules, outbox: seq<OutRow>, d: Document, quiz: seq<Question>) {
    exists k :: 0 <= k < |outbox| && MadeFrom(rules, outbox[k].result, d, quiz)
  }

  ghost predicate MadeFrom(rules: Rules, r: Result, d: Document, quiz: seq<Question>) {
    r.Ready? && r.document == d && Create(rules, 1, r.questions) == Some(quiz)
  }

  /** The queue published a result for the document that brings no quiz: a failure, or no valid question. */
  ghost predicate RefusedByResult(rules: Rules, outbox: seq<OutRow>, d: Document) {
    exists k :: 0 <= k < |outbox| && Refuses(rules, outbox[k].result, d)
  }

  ghost predicate Refuses(rules: Rules, r: Result, d: Document) {
    r.document == d && !(r.Ready? && SomeValid(rules, r.questions))
  }

  ghost predicate CourierInv(p: Platform, c: Courier) {
    c.index < |p.queue.outbox| && (c.progress.QuizStored? ==> PayloadAt(p, c.index).document in p.content.quizzes)
  }

  ghost predicate PlatformInv(rules: Rules, p: Platform) {
    && Inv(p.queue)
    && (forall d :: d in p.content.quizzes ==> QuizFromResult(rules, p.queue.outbox, d, p.content.quizzes[d]))
    && (forall d :: d in p.content.docs && p.content.docs[d].DocReady? ==> d in p.content.quizzes)
    && (forall d :: d in p.content.docs && p.content.docs[d].DocFailed? ==> RefusedByResult(rules, p.queue.outbox, d))
    && (forall r :: r in p.couriers ==> CourierInv(p, p.couriers[r]))
    && (forall row :: row in p.enqueued ==> row < |p.course| && HasJob(p.queue, p.course[row]))
    && p.acknowledged <= p.enqueued
  }

  lemma QueueStepKeeps(rules: Rules, p: Platform, a: Action)
    requires PlatformInv(rules, p) && Enabled(p.queue, a)
    ensures PlatformInv(rules, p.(queue := Next(p.queue, a)))
  {
    var q := p.(queue := Next(p.queue, a));
    StepKeepsInv(p.queue, a);
    StepKeepsJobs(p.queue, a);
    OutboxGrows(p.queue, a);
    forall d | d in q.content.quizzes ensures QuizFromResult(rules, q.queue.outbox, d, q.content.quizzes[d]) {
      var k :| 0 <= k < |p.queue.outbox| && MadeFrom(rules, p.queue.outbox[k].result, d, p.content.quizzes[d]);
      assert q.queue.outbox[k] == p.queue.outbox[k];
    }
    forall d | d in q.content.docs && q.content.docs[d].DocFailed? ensures RefusedByResult(rules, q.queue.outbox, d) {
      var k :| 0 <= k < |p.queue.outbox| && Refuses(rules, p.queue.outbox[k].result, d);
      assert q.queue.outbox[k] == p.queue.outbox[k];
    }
    forall r | r in q.couriers ensures CourierInv(q, q.couriers[r]) {
      assert CourierInv(p, p.couriers[r]);
    }
  }

  lemma OutboxGrows(w: World, a: Action)
    requires LedgerCovers(w) && Enabled(w, a)
    ensures w.outbox <= Next(w, a).outbox
  {
  }

  lemma StoreQuizKeeps(rules: Rules, p: Platform, relay: RelayId)
    requires PlatformInv(rules, p) && CanHappen(rules, p, StoreQuiz(relay))
    ensures PlatformInv(rules, Happen(rules, p, StoreQuiz(relay)))
  {
    var p' := Happen(rules, p, StoreQuiz(relay));
    var index := p.couriers[relay].index;
    forall d | d in p'.content.quizzes ensures QuizFromResult(rules, p'.queue.outbox, d, p'.content.quizzes[d]) {
      if d !in p.content.quizzes {
        assert MadeFrom(rules, p.queue.outbox[index].result, d, p'.content.quizzes[d]);
      }
    }
    forall r | r in p'.couriers ensures CourierInv(p', p'.couriers[r]) {
      if r != relay {
        assert CourierInv(p, p.couriers[r]);
      }
    }
  }

  /** What the document's status becomes is what the published result says: READY takes one valid question. */
  lemma ConcludeSays(rules: Rules, p: Platform, relay: RelayId)
    requires PlatformInv(rules, p) && CanHappen(rules, p, Conclude(relay))
    ensures var r := p.queue.outbox[p.couriers[relay].index].result;
            Happen(rules, p, Conclude(relay)).content.docs ==
            if r.document in p.content.docs && p.content.docs[r.document].Processing? then
              p.content.docs[r.document := if r.Ready? && SomeValid(rules, r.questions) then DocReady else DocFailed]
            else p.content.docs
  {
    PayloadMeaning(rules, PayloadAt(p, p.couriers[relay].index));
  }

  lemma ConcludeKeeps(rules: Rules, p: Platform, relay: RelayId)
    requires PlatformInv(rules, p) && CanHappen(rules, p, Conclude(relay))
    ensures PlatformInv(rules, Happen(rules, p, Conclude(relay)))
  {
    assert CourierInv(p, p.couriers[relay]);
    var p' := Happen(rules, p, Conclude(relay));
    ConcludeSays(rules, p, relay);
    forall d | d in p'.content.docs && p'.content.docs[d].DocFailed?
      ensures RefusedByResult(rules, p'.queue.outbox, d)
    {
      if !(d in p.content.docs && p.content.docs[d].DocFailed?) {
        assert Refuses(rules, p.queue.outbox[p.couriers[relay].index].result, d);
      }
    }
    forall r | r in p'.couriers ensures CourierInv(p', p'.couriers[r]) {
      if r != relay {
        assert CourierInv(p, p.couriers[r]);
      }
    }
  }

  lemma CourierStepKeeps(rules: Rules, p: Platform, e: Event)
    requires PlatformInv(rules, p) && CanHappen(rules, p, e) && (e.Take? || e.Publish? || e.Crash?)
    ensures PlatformInv(rules, Happen(rules, p, e))
  {
    var p' := Happen(rules, p, e);
    forall r | r in p'.couriers ensures CourierInv(p', p'.couriers[r]) {
      if r in p.couriers {
        assert CourierInv(p, p.couriers[r]);
      }
    }
  }

  lemma CourseStepKeeps(rules: Rules, p: Platform, e: Event)
    requires PlatformInv(rules, p) && CanHappen(rules, p, e) && (e.Upload? || e.Confirm? || e.Acknowledge?)
    ensures PlatformInv(rules, Happen(rules, p, e))
  {
    var p' := Happen(rules, p, e);
    forall r | r in p'.couriers ensures CourierInv(p', p'.couriers[r]) {
      assert CourierInv(p, p.couriers[r]);
    }
  }

  lemma EventKeepsInv(rules: Rules, p: Platform, e: Event)
    requires PlatformInv(rules, p) && CanHappen(rules, p, e)
    ensures PlatformInv(rules, Happen(rules, p, e))
  {
    match e
    case Work(a) => QueueStepKeeps(rules, p, a);
    case Forward(row, job) =>
      var a := Enqueue(job, p.course[row], p.queue.clock);
      QueueStepKeeps(rules, p, a);
      EnqueueEffect(p.queue, job, p.course[row], p.queue.clock);
    case StoreQuiz(relay) => StoreQuizKeeps(rules, p, relay);
    case Conclude(relay) => ConcludeKeeps(rules, p, relay);
    case Upload(_) => CourseStepKeeps(rules, p, e);
    case Confirm(_) => CourseStepKeeps(rules, p, e);
    case Acknowledge(_) => CourseStepKeeps(rules, p, e);
    case Take(_, _) => CourierStepKeeps(rules, p, e);
    case Publish(_) => CourierStepKeeps(rules, p, e);
    case Crash(_) => CourierStepKeeps(rules, p, e);
  }

  ghost predicate History(rules: Rules, p: Platform, events: seq<Event>, p': Platform)
    decreases |events|
  {
    if events == [] then p == p'
    else
      && LedgerCovers(p.queue) && CanHappen(rules, p, events[0])
      && History(rules, Happen(rules, p, events[0]), events[1..], p')
  }

  lemma {:induction false} HistoryKeepsInv(rules: Rules, p: Platform, events: seq<Event>, p': Platform)
    requires PlatformInv(rules, p) && History(rules, p, events, p')
    ensures PlatformInv(rules, p')
    decreases |events|
  {
    if events != [] {
      EventKeepsInv(rules, p, events[0]);
      HistoryKeepsInv(rules, Happen(rules, p, events[0]), events[1..], p');
    }
  }

  lemma {:induction false} PublishedInLog(outbox: seq<OutRow>, k: nat) returns (i: nat)
    requires k < |outbox|
    ensures var log := ResultsOf(outbox, outbox[k].job); i < |log| && log[i] == outbox[k].result
    decreases |outbox|
  {
    var n := |outbox| - 1;
    if k == n {
      i := |ResultsOf(outbox[..n], outbox[k].job)|;
    } else {
      i := PublishedInLog(outbox[..n], k);
    }
  }

  /** Every published READY result belongs to a completed job whose stored chunks its questions cite. */
  lemma ReadyResultIsCompleted(w: World, k: nat)
    requires Inv(w) && k < |w.outbox| && w.outbox[k].result.Ready?
    ensures var job := w.outbox[k].job;
            && job in w.jobs && w.jobs[job].status.Completed?
            && w.jobs[job].document == w.outbox[k].result.document
            && w.jobs[job].document in w.chunks
            && Assembled(w.chunks[w.jobs[job].document], w.outbox[k].result.questions)
  {
    var i := PublishedInLog(w.outbox, k);
    assert JobInv(w, w.outbox[k].job);
  }

  /**
   End to end: in every history a READY document has a quiz; the quiz has a question and is what the aggregate
   made of the READY result of the document's completed job, whose questions cite the chunks stored for it.
   */
  lemma ReadyMeansQuiz(rules: Rules, events: seq<Event>, p: Platform, d: Document)
    requires History(rules, EMPTY, events, p)
    requires d in p.content.docs && p.content.docs[d].DocReady?
    ensures d in p.content.quizzes && p.content.quizzes[d] != []
    ensures exists job, questions ::
              && job in p.queue.jobs && p.queue.jobs[job].document == d && p.queue.jobs[job].status.Completed?
              && d in p.queue.chunks && Assembled(p.queue.chunks[d], questions)
              && Create(rules, 1, questions) == Some(p.content.quizzes[d])
  {
    InitialInv();
    HistoryKeepsInv(rules, EMPTY, events, p);
    var k :| 0 <= k < |p.queue.outbox| && MadeFrom(rules, p.queue.outbox[k].result, d, p.content.quizzes[d]);
    ReadyResultIsCompleted(p.queue, k);
    var job, questions := p.queue.outbox[k].job, p.queue.outbox[k].result.questions;
    assert job in p.queue.jobs && p.queue.jobs[job].document == d;
  }

  /** And a FAILED document was refused by a result its job published: a failure, or one without a valid question. */
  lemma FailedMeansRefused(rules: Rules, events: seq<Event>, p: Platform, d: Document)
    requires History(rules, EMPTY, events, p)
    requires d in p.content.docs && p.content.docs[d].DocFailed?
    ensures exists k ::
              && 0 <= k < |p.queue.outbox| && p.queue.outbox[k].result.document == d
              && (p.queue.outbox[k].result.Ready? ==>
                    forall q :: q in p.queue.outbox[k].result.questions ==> !rules.valid(q))
  {
    InitialInv();
    HistoryKeepsInv(rules, EMPTY, events, p);
    var k :| 0 <= k < |p.queue.outbox| && Refuses(rules, p.queue.outbox[k].result, d);
  }

  /** No confirmed document is lost at the forward seam: an acknowledged row has its job. */
  lemma AcknowledgedHasJob(rules: Rules, events: seq<Event>, p: Platform, row: nat)
    requires History(rules, EMPTY, events, p) && row in p.acknowledged
    ensures row < |p.course| && HasJob(p.queue, p.course[row])
  {
    InitialInv();
    HistoryKeepsInv(rules, EMPTY, events, p);
  }
}
