/**
 Whether a confirmed document is still answered.

 A document that failed may be confirmed again, but the upsert re-arms only a FAILED job.  When the aggregate refused
 the questions of a completed job, a confirmation is therefore followed by no result: the document stays PROCESSING.
 */
module Settlement {
  import opened Domain
  import opened Queue
  import opened QueueSafety
  import opened QuizAggregate
  import opened Relays
  import opened Delivery

  predicate IsProcessing(c: Content, d: Document) { d in c.docs && c.docs[d].Processing? }

  ghost predicate ResultFor(p: Platform, k: nat, d: Document) {
    k < |p.queue.outbox| && p.queue.outbox[k].result.document == d
  }

  ghost predicate CompletedFor(w: World, job: JobId, d: Document) {
    job in w.jobs && w.jobs[job].document == d && w.jobs[job].status.Completed?
  }

  /** Its job is completed, its results are published, and no relay still has one of them to project. */
  ghost predicate Stuck(p: Platform, d: Document) {
    && IsProcessing(p.content, d)
    && (exists job :: CompletedFor(p.queue, job, d))
    && (forall k :: ResultFor(p, k, d) ==> k in p.published)
    && (forall r :: r in p.couriers && ResultFor(p, p.couriers[r].index, d) ==> p.couriers[r].progress.Projected?)
  }

  /** Some continuation ends with the document READY or FAILED. */
  ghost predicate CanBeSettled(rules: Rules, p: Platform, d: Document) {
    exists events, p' :: History(rules, p, events, p') && !IsProcessing(p'.content, d)
  }

  // ---- more of what every history keeps ----

  /** A document id has one owner; rows and jobs are for uploaded documents; PROCESSING comes with a row. */
  ghost predicate Owned(p: Platform) {
    && (forall d, e :: d in p.content.docs && e in p.content.docs && d.id == e.id ==> d == e)
    && (forall row :: 0 <= row < |p.course| ==> p.course[row] in p.content.docs)
    && (forall job :: job in p.queue.jobs ==> p.queue.jobs[job].document in p.content.docs)
    && (forall d :: IsProcessing(p.content, d) ==> d in p.course)
  }

  ghost predicate StoredQuizzes(rules: Rules, p: Platform) {
    forall r :: r in p.couriers && p.couriers[r].progress.QuizStored? && p.couriers[r].index < |p.queue.outbox| ==>
      QuizOf(rules, PayloadAt(p, p.couriers[r].index)).Some?
  }

  ghost predicate PublishedInRange(p: Platform) {
    forall k :: k in p.published ==> k < |p.queue.outbox|
  }

  ghost predicate Latest(outbox: seq<OutRow>, job: JobId, k: nat) {
    k < |outbox| && outbox[k].job == job && forall i :: k < i < |outbox| ==> outbox[i].job != job
  }

  ghost predicate AllHanded(p: Platform, d: Document) {
    forall row: nat :: row < |p.course| && p.course[row] == d ==> row in p.enqueued
  }

  /** The result is still to be projected. */
  ghost predicate Owed(p: Platform, k: nat) {
    && k !in p.published
    && forall r :: r in p.couriers && p.couriers[r].index == k ==> !p.couriers[r].progress.Projected?
  }

  ghost predicate FailedFor(p: Platform, job: JobId) {
    && job in p.queue.jobs && p.queue.jobs[job].status.Failed?
    && IsProcessing(p.content, p.queue.jobs[job].document) && AllHanded(p, p.queue.jobs[job].document)
  }

  /** A PROCESSING document whose job failed and was not armed again is owed the job's latest result. */
  ghost predicate Owing(p: Platform) {
    forall job, k :: FailedFor(p, job) && Latest(p.queue.outbox, job, k) ==> Owed(p, k)
  }

  ghost predicate Sound(rules: Rules, p: Platform) {
    PlatformInv(rules, p) && Owned(p) && StoredQuizzes(rules, p) && PublishedInRange(p) && Owing(p)
  }

  /** A result carries the document of its job. */
  lemma ResultNamesJob(w: World, k: nat)
    requires Inv(w) && k < |w.outbox|
    ensures w.outbox[k].job in w.jobs && w.outbox[k].result.document == w.jobs[w.outbox[k].job].document
  {
    var i := PublishedInLog(w.outbox, k);
    assert JobInv(w, w.outbox[k].job);
  }

  lemma WorkKeepsJobs(w: World, a: Action)
    requires LedgerCovers(w) && Enabled(w, a) && !a.Enqueue?
    ensures Next(w, a).jobs.Keys == w.jobs.Keys
    ensures forall job :: job in w.jobs ==> Next(w, a).jobs[job].document == w.jobs[job].document
  {
  }

  lemma QueueStepKeepsOwned(p: Platform, a: Action)
    requires LedgerCovers(p.queue) && Enabled(p.queue, a) && Owned(p)
    requires a.Enqueue? ==> a.document in p.content.docs
    ensures Owned(p.(queue := Next(p.queue, a)))
  {
    if !a.Enqueue? {
      WorkKeepsJobs(p.queue, a);
    }
  }

  lemma ContentStepKeepsOwned(p: Platform, p': Platform)
    requires Owned(p) && p'.queue == p.queue && p'.course == p.course && p'.content.docs.Keys == p.content.docs.Keys
    requires forall d :: IsProcessing(p'.content, d) ==> IsProcessing(p.content, d)
    ensures Owned(p')
  {
    assert forall d :: d in p'.content.docs <==> d in p'.content.docs.Keys;
    assert forall d :: d in p.content.docs <==> d in p.content.docs.Keys;
  }

  lemma EventKeepsOwned(rules: Rules, p: Platform, e: Event)
    requires LedgerCovers(p.queue) && Owned(p) && CanHappen(rules, p, e)
    ensures Owned(Happen(rules, p, e))
  {
    match e
    case Work(a) => QueueStepKeepsOwned(p, a);
    case Forward(row, job) => QueueStepKeepsOwned(p, Enqueue(job, p.course[row], p.queue.clock));
    case Upload(d) => assert !IsProcessing(Happen(rules, p, e).content, d);
    case Confirm(d) => assert forall x :: x in p.course + [d] <==> x in p.course || x == d;
    case StoreQuiz(_) => ContentStepKeepsOwned(p, Happen(rules, p, e));
    case Conclude(_) => ContentStepKeepsOwned(p, Happen(rules, p, e));
    case _ =>
  }

  lemma EventKeepsStoredQuizzes(rules: Rules, p: Platform, e: Event)
    requires PlatformInv(rules, p) && StoredQuizzes(rules, p) && CanHappen(rules, p, e)
    ensures StoredQuizzes(rules, Happen(rules, p, e))
  {
    var p' := Happen(rules, p, e);
    OutboxOnlyGrows(rules, p, e);
    forall r | r in p'.couriers && p'.couriers[r].progress.QuizStored? && p'.couriers[r].index < |p'.queue.outbox|
      ensures QuizOf(rules, PayloadAt(p', p'.couriers[r].index)).Some?
    {
      if r in p.couriers && p'.couriers[r] == p.couriers[r] {
        assert CourierInv(p, p.couriers[r]);
      }
    }
  }

  lemma OutboxOnlyGrows(rules: Rules, p: Platform, e: Event)
    requires PlatformInv(rules, p) && CanHappen(rules, p, e)
    ensures p.queue.outbox <= Happen(rules, p, e).queue.outbox
  {
    match e
    case Work(a) => OutboxGrows(p.queue, a);
    case Forward(row, job) => OutboxGrows(p.queue, Enqueue(job, p.course[row], p.queue.clock));
    case _ =>
  }

  lemma EventKeepsRange(rules: Rules, p: Platform, e: Event)
    requires PlatformInv(rules, p) && PublishedInRange(p) && CanHappen(rules, p, e)
    ensures PublishedInRange(Happen(rules, p, e))
  {
    OutboxOnlyGrows(rules, p, e);
  }

  /** What a step of the queue does to a job that is failed afterwards. */
  lemma FailedByWork(w: World, a: Action, job: JobId, k: nat)
    requires LedgerCovers(w) && Enabled(w, a) && !a.Enqueue?
    requires job in Next(w, a).jobs && Next(w, a).jobs[job].status.Failed? && Latest(Next(w, a).outbox, job, k)
    ensures job in w.jobs && w.jobs[job].document == Next(w, a).jobs[job].document
    ensures k == |w.outbox| || (w.jobs[job].status.Failed? && Latest(w.outbox, job, k))
  {
    WorkKeepsJobs(w, a);
    OutboxGrows(w, a);
    var w' := Next(w, a);
    if Target(a) == Some(job) {
      assert w'.outbox[|w.outbox|].job == job;
    } else {
      assert w'.jobs[job] == w.jobs[job];
    }
  }

  lemma WorkKeepsOwed(rules: Rules, p: Platform, a: Action, job: JobId, k: nat)
    requires Sound(rules, p) && CanHappen(rules, p, Work(a))
    requires var p' := Happen(rules, p, Work(a)); FailedFor(p', job) && Latest(p'.queue.outbox, job, k)
    ensures Owed(Happen(rules, p, Work(a)), k)
  {
    FailedByWork(p.queue, a, job, k);
    if k == |p.queue.outbox| {
      forall r | r in p.couriers ensures p.couriers[r].index != k {
        assert CourierInv(p, p.couriers[r]);
      }
    } else {
      assert FailedFor(p, job);
    }
  }

  /** An enqueue leaves failed only jobs it does not touch. */
  lemma FailedByEnqueue(w: World, target: JobId, document: Document, job: JobId)
    requires Inv(w) && Enabled(w, Enqueue(target, document, w.clock))
    requires var w' := Next(w, Enqueue(target, document, w.clock)); job in w'.jobs && w'.jobs[job].status.Failed?
    ensures Next(w, Enqueue(target, document, w.clock)).outbox == w.outbox
    ensures job in w.jobs && w.jobs[job] == Next(w, Enqueue(target, document, w.clock)).jobs[job]
    ensures w.jobs[job].document != document
  {
    assert job != target;
  }

  lemma ForwardKeepsOwed(rules: Rules, p: Platform, row: nat, target: JobId, job: JobId, k: nat)
    requires Inv(p.queue) && Owing(p) && CanHappen(rules, p, Forward(row, target))
    requires var p' := Happen(rules, p, Forward(row, target)); FailedFor(p', job) && Latest(p'.queue.outbox, job, k)
    ensures Owed(Happen(rules, p, Forward(row, target)), k)
  {
    FailedByEnqueue(p.queue, target, p.course[row], job);
    assert FailedFor(p, job);
  }

  lemma ConcludeKeepsOwed(rules: Rules, p: Platform, relay: RelayId, job: JobId, k: nat)
    requires Inv(p.queue) && Owing(p) && CanHappen(rules, p, Conclude(relay))
    requires var p' := Happen(rules, p, Conclude(relay)); FailedFor(p', job) && Latest(p'.queue.outbox, job, k)
    ensures Owed(Happen(rules, p, Conclude(relay)), k)
  {
    var index := p.couriers[relay].index;
    ResultNamesJob(p.queue, k);
    assert FailedFor(p, job);
    assert PayloadAt(p, index).document != p.queue.jobs[job].document;
  }

  lemma ConfirmKeepsOwed(rules: Rules, p: Platform, d: Document, job: JobId, k: nat)
    requires Sound(rules, p) && CanHappen(rules, p, Confirm(d))
    requires var p' := Happen(rules, p, Confirm(d)); FailedFor(p', job) && Latest(p'.queue.outbox, job, k)
    ensures Owed(Happen(rules, p, Confirm(d)), k)
  {
    var p' := Happen(rules, p, Confirm(d));
    assert p'.course[|p.course|] == d && |p.course| !in p.enqueued;
    assert forall row: nat :: row < |p.course| ==> p'.course[row] == p.course[row];
    assert FailedFor(p, job);
  }

  lemma CourseEventKeepsOwed(rules: Rules, p: Platform, e: Event, job: JobId, k: nat)
    requires LedgerCovers(p.queue) && Owing(p) && CanHappen(rules, p, e) && (e.Upload? || e.Acknowledge?)
    requires FailedFor(Happen(rules, p, e), job) && Latest(Happen(rules, p, e).queue.outbox, job, k)
    ensures Owed(Happen(rules, p, e), k)
  {
    assert FailedFor(p, job);
  }

  lemma CourierEventKeepsOwed(rules: Rules, p: Platform, e: Event, job: JobId, k: nat)
    requires LedgerCovers(p.queue) && Owing(p) && CanHappen(rules, p, e)
    requires e.Take? || e.StoreQuiz? || e.Publish? || e.Crash?
    requires FailedFor(Happen(rules, p, e), job) && Latest(Happen(rules, p, e).queue.outbox, job, k)
    ensures Owed(Happen(rules, p, e), k)
  {
    assert Happen(rules, p, e).content.docs == p.content.docs;
    assert FailedFor(p, job);
    assert Owed(p, k);
  }

  lemma EventKeepsOwing(rules: Rules, p: Platform, e: Event)
    requires Sound(rules, p) && CanHappen(rules, p, e)
    ensures Owing(Happen(rules, p, e))
  {
    var p' := Happen(rules, p, e);
    forall job, k | FailedFor(p', job) && Latest(p'.queue.outbox, job, k) ensures Owed(p', k) {
      match e
      case Work(a) => WorkKeepsOwed(rules, p, a, job, k);
      case Forward(row, target) => ForwardKeepsOwed(rules, p, row, target, job, k);
      case Conclude(relay) => ConcludeKeepsOwed(rules, p, relay, job, k);
      case Confirm(d) => ConfirmKeepsOwed(rules, p, d, job, k);
      case Upload(_) => CourseEventKeepsOwed(rules, p, e, job, k);
      case Acknowledge(_) => CourseEventKeepsOwed(rules, p, e, job, k);
      case _ => CourierEventKeepsOwed(rules, p, e, job, k);
    }
  }

  lemma EventKeepsSound(rules: Rules, p: Platform, e: Event)
    requires Sound(rules, p) && CanHappen(rules, p, e)
    ensures Sound(rules, Happen(rules, p, e))
  {
    EventKeepsInv(rules, p, e);
    EventKeepsOwned(rules, p, e);
    EventKeepsStoredQuizzes(rules, p, e);
    EventKeepsRange(rules, p, e);
    EventKeepsOwing(rules, p, e);
  }

  lemma {:induction false} HistoryKeepsSound(rules: Rules, p: Platform, events: seq<Event>, p': Platform)
    requires Sound(rules, p) && History(rules, p, events, p')
    ensures Sound(rules, p')
    decreases |events|
  {
    if events != [] {
      EventKeepsSound(rules, p, events[0]);
      HistoryKeepsSound(rules, Happen(rules, p, events[0]), events[1..], p');
    }
  }

  // ---- a stuck document stays stuck ----

  lemma CompletedPublishesNothing(w: World, a: Action, job: JobId, d: Document, k: nat)
    requires LedgerCovers(w) && DistinctDocuments(w) && Enabled(w, a) && CompletedFor(w, job, d)
    requires k < |Next(w, a).outbox| && Next(w, a).outbox[k].result.document == d
    ensures k < |w.outbox| && w.outbox[k] == Next(w, a).outbox[k]
  {
    OutboxGrows(w, a);
  }

  lemma StuckHasNoNewResult(rules: Rules, p: Platform, e: Event, d: Document, k: nat)
    requires Inv(p.queue) && CanHappen(rules, p, e) && Stuck(p, d) && ResultFor(Happen(rules, p, e), k, d)
    ensures ResultFor(p, k, d)
  {
    var job :| CompletedFor(p.queue, job, d);
    match e
    case Work(a) => CompletedPublishesNothing(p.queue, a, job, d, k);
    case Forward(row, target) =>
      CompletedPublishesNothing(p.queue, Enqueue(target, p.course[row], p.queue.clock), job, d, k);
    case _ =>
  }

  lemma CompletedForEver(w: World, a: Action, job: JobId, d: Document)
    requires LedgerCovers(w) && Enabled(w, a) && CompletedFor(w, job, d)
    ensures CompletedFor(Next(w, a), job, d)
  {
  }

  lemma CompletedStays(rules: Rules, p: Platform, e: Event, job: JobId, d: Document)
    requires LedgerCovers(p.queue) && CanHappen(rules, p, e) && CompletedFor(p.queue, job, d)
    ensures CompletedFor(Happen(rules, p, e).queue, job, d)
  {
    match e
    case Work(a) => CompletedForEver(p.queue, a, job, d);
    case Forward(row, target) => CompletedForEver(p.queue, Enqueue(target, p.course[row], p.queue.clock), job, d);
    case _ =>
  }

  lemma StuckStaysProcessing(rules: Rules, p: Platform, e: Event, d: Document)
    requires LedgerCovers(p.queue) && CanHappen(rules, p, e) && Stuck(p, d)
    ensures IsProcessing(Happen(rules, p, e).content, d)
  {
    if e.Conclude? {
      assert !ResultFor(p, p.couriers[e.relay].index, d);
    }
  }

  lemma StuckHoldsNothing(rules: Rules, p: Platform, e: Event, d: Document, r: RelayId)
    requires LedgerCovers(p.queue) && CanHappen(rules, p, e) && Stuck(p, d)
    requires r in Happen(rules, p, e).couriers && ResultFor(p, Happen(rules, p, e).couriers[r].index, d)
    ensures Happen(rules, p, e).couriers[r].progress.Projected?
  {
  }

  lemma StuckStays(rules: Rules, p: Platform, e: Event, d: Document)
    requires Sound(rules, p) && CanHappen(rules, p, e) && Stuck(p, d)
    ensures Stuck(Happen(rules, p, e), d)
  {
    var p' := Happen(rules, p, e);
    var job :| CompletedFor(p.queue, job, d);
    CompletedStays(rules, p, e, job, d);
    StuckStaysProcessing(rules, p, e, d);
    forall k | ResultFor(p', k, d) ensures k in p'.published {
      StuckHasNoNewResult(rules, p, e, d, k);
    }
    forall r | r in p'.couriers && ResultFor(p', p'.couriers[r].index, d) ensures p'.couriers[r].progress.Projected? {
      StuckHasNoNewResult(rules, p, e, d, p'.couriers[r].index);
      StuckHoldsNothing(rules, p, e, d, r);
    }
  }

  lemma {:induction false} StuckForEver(rules: Rules, p: Platform, events: seq<Event>, p': Platform, d: Document)
    requires Sound(rules, p) && Stuck(p, d) && History(rules, p, events, p')
    ensures Stuck(p', d)
    decreases |events|
  {
    if events != [] {
      EventKeepsSound(rules, p, events[0]);
      StuckStays(rules, p, events[0], d);
      StuckForEver(rules, Happen(rules, p, events[0]), events[1..], p', d);
    }
  }

  // ---- any other document can be settled ----

  lemma HistoryOne(rules: Rules, p: Platform, e: Event)
    requires Sound(rules, p) && CanHappen(rules, p, e)
    ensures History(rules, p, [e], Happen(rules, p, e)) && Sound(rules, Happen(rules, p, e))
  {
    EventKeepsSound(rules, p, e);
    assert [e][1..] == [];
  }

  lemma {:induction false} HistoryAppend(rules: Rules, p: Platform, first: seq<Event>, mid: Platform,
                                         second: seq<Event>, p': Platform)
    requires History(rules, p, first, mid) && History(rules, mid, second, p')
    ensures History(rules, p, first + second, p')
    decreases |first|
  {
    if first == [] {
      assert first + second == second;
    } else {
      assert (first + second)[1..] == first[1..] + second;
      HistoryAppend(rules, Happen(rules, p, first[0]), first[1..], mid, second, p');
    }
  }

  /** One event first. */
  lemma SettledAfter(rules: Rules, p: Platform, e: Event, d: Document)
    requires Sound(rules, p) && CanHappen(rules, p, e)
    ensures Sound(rules, Happen(rules, p, e))
    ensures CanBeSettled(rules, Happen(rules, p, e), d) ==> CanBeSettled(rules, p, d)
  {
    var mid := Happen(rules, p, e);
    HistoryOne(rules, p, e);
    if CanBeSettled(rules, mid, d) {
      var events, p' :| History(rules, mid, events, p') && !IsProcessing(p'.content, d);
      HistoryAppend(rules, p, [e], mid, events, p');
    }
  }

  lemma WorkFirst(rules: Rules, p: Platform, a: Action, d: Document) returns (p': Platform)
    requires Sound(rules, p) && Enabled(p.queue, a) && !a.Enqueue?
    ensures Sound(rules, p') && p' == p.(queue := Next(p.queue, a))
    ensures CanBeSettled(rules, p', d) ==> CanBeSettled(rules, p, d)
  {
    SettledAfter(rules, p, Work(a), d);
    p' := Happen(rules, p, Work(a));
  }

  lemma SettledAtOnce(rules: Rules, p: Platform, d: Document)
    requires !IsProcessing(p.content, d)
    ensures CanBeSettled(rules, p, d)
  {
    assert History(rules, p, [], p);
  }

  /** A relay holds a result of the document whose quiz, if it brings one, is stored. */
  lemma ConcludeSettles(rules: Rules, p: Platform, d: Document, relay: RelayId)
    requires Sound(rules, p) && CanHappen(rules, p, Conclude(relay)) && ResultFor(p, p.couriers[relay].index, d)
    ensures CanBeSettled(rules, p, d)
  {
    SettledAfter(rules, p, Conclude(relay), d);
    SettledAtOnce(rules, Happen(rules, p, Conclude(relay)), d);
  }

  /** A relay holds a result of the document that it has not projected. */
  lemma HeldSettles(rules: Rules, p: Platform, d: Document, relay: RelayId)
    requires Sound(rules, p) && relay in p.couriers && ResultFor(p, p.couriers[relay].index, d)
    requires !p.couriers[relay].progress.Projected?
    ensures CanBeSettled(rules, p, d)
  {
    var payload := PayloadAt(p, p.couriers[relay].index);
    assert payload.ready ==> payload.questions.Some?;
    if p.couriers[relay].progress.Taken? && QuizOf(rules, payload).Some? {
      SettledAfter(rules, p, StoreQuiz(relay), d);
      ConcludeSettles(rules, Happen(rules, p, StoreQuiz(relay)), d, relay);
    } else {
      ConcludeSettles(rules, p, d, relay);
    }
  }

  /** A result of the document is unpublished: a relay can take it, after a crash if it holds another row. */
  lemma UnpublishedSettles(rules: Rules, p: Platform, d: Document, k: nat)
    requires Sound(rules, p) && ResultFor(p, k, d) && k !in p.published
    ensures CanBeSettled(rules, p, d)
  {
    if 0 in p.couriers {
      SettledAfter(rules, p, Crash(0), d);
      IdleTakes(rules, Happen(rules, p, Crash(0)), d, k);
    } else {
      IdleTakes(rules, p, d, k);
    }
  }

  lemma IdleTakes(rules: Rules, p: Platform, d: Document, k: nat)
    requires Sound(rules, p) && ResultFor(p, k, d) && k !in p.published && 0 !in p.couriers
    ensures CanBeSettled(rules, p, d)
  {
    SettledAfter(rules, p, Take(0, k), d);
    HeldSettles(rules, Happen(rules, p, Take(0, k)), d, 0);
  }

  ghost predicate JobOf(p: Platform, job: JobId, d: Document) {
    job in p.queue.jobs && p.queue.jobs[job].document == d
  }

  lemma FailPublishes(w: World, t: Token)
    requires Inv(w) && Live(w, t)
    ensures Enabled(w, Fail(t, w.clock, ProcessingFailed))
    ensures var w' := Next(w, Fail(t, w.clock, ProcessingFailed));
            |w'.outbox| == |w.outbox| + 1 && w'.outbox[|w.outbox|].result.document == w.jobs[t.job].document
  {
  }

  ghost predicate LiveFor(w: World, t: Token, d: Document) {
    Live(w, t) && w.jobs[t.job].document == d
  }

  lemma ClaimIsLive(w: World, job: JobId) returns (t: Token)
    requires Inv(w) && job in w.jobs && Eligible(w.jobs[job], w.clock)
    ensures Enabled(w, Claim(job, w.clock, 0)) && LiveFor(Next(w, Claim(job, w.clock, 0)), t, w.jobs[job].document)
  {
    t := Token(job, w.jobs[job].attempts + 1, 0);
  }

  lemma LiveJobSettles(rules: Rules, p: Platform, d: Document, t: Token)
    requires Sound(rules, p) && LiveFor(p.queue, t, d)
    ensures CanBeSettled(rules, p, d)
  {
    FailPublishes(p.queue, t);
    var p' := WorkFirst(rules, p, Fail(t, p.queue.clock, ProcessingFailed), d);
    UnpublishedSettles(rules, p', d, |p.queue.outbox|);
  }

  lemma EligibleJobSettles(rules: Rules, p: Platform, d: Document, job: JobId)
    requires Sound(rules, p) && JobOf(p, job, d) && Eligible(p.queue.jobs[job], p.queue.clock)
    ensures CanBeSettled(rules, p, d)
  {
    var t := ClaimIsLive(p.queue, job);
    var p' := WorkFirst(rules, p, Claim(job, p.queue.clock, 0), d);
    LiveJobSettles(rules, p', d, t);
  }

  /** A waiting or running job becomes eligible, can be claimed, and can fail. */
  lemma OpenJobSettles(rules: Rules, p: Platform, d: Document, job: JobId)
    requires Sound(rules, p) && JobOf(p, job, d) && !p.queue.jobs[job].status.Terminal()
    ensures CanBeSettled(rules, p, d)
  {
    assert JobInv(p.queue, job);
    var p' := WorkFirst(rules, p, Tick(900), d);
    EligibleJobSettles(rules, p', d, job);
  }

  lemma EnqueueOpens(w: World, job: JobId, d: Document)
    requires Inv(w) && Owns(w, job, d) && (job in w.jobs ==> !w.jobs[job].status.Completed?)
    ensures Enabled(w, Enqueue(job, d, w.clock))
    ensures var w' := Next(w, Enqueue(job, d, w.clock));
            job in w'.jobs && w'.jobs[job].document == d && !w'.jobs[job].status.Terminal()
  {
  }

  /** A row that is not acknowledged can be forwarded, which arms the job. */
  lemma ForwardSettles(rules: Rules, p: Platform, d: Document, row: nat, job: JobId)
    requires Sound(rules, p) && row < |p.course| && p.course[row] == d && row !in p.acknowledged
    requires Owns(p.queue, job, d) && (job in p.queue.jobs ==> !p.queue.jobs[job].status.Completed?)
    ensures CanBeSettled(rules, p, d)
  {
    EnqueueOpens(p.queue, job, d);
    SettledAfter(rules, p, Forward(row, job), d);
    OpenJobSettles(rules, Happen(rules, p, Forward(row, job)), d, job);
  }

  /** No job yet: its row cannot have been acknowledged. */
  lemma UnqueuedSettles(rules: Rules, p: Platform, d: Document)
    requires Sound(rules, p) && IsProcessing(p.content, d) && !HasJob(p.queue, d)
    ensures CanBeSettled(rules, p, d)
  {
    var row :| 0 <= row < |p.course| && p.course[row] == d;
    var job := Above(p.queue.jobs.Keys);
    assert job !in p.queue.jobs;
    forall other | other in p.queue.jobs ensures p.queue.jobs[other].document.id != d.id {
      assert p.queue.jobs[other].document in p.content.docs;
    }
    ForwardSettles(rules, p, d, row, job);
  }

  lemma {:induction false} LatestExists(outbox: seq<OutRow>, job: JobId) returns (k: nat)
    requires ResultsOf(outbox, job) != []
    ensures Latest(outbox, job, k)
    decreases |outbox|
  {
    var n := |outbox| - 1;
    if outbox[n].job == job {
      k := n;
    } else {
      k := LatestExists(outbox[..n], job);
    }
  }

  /** A failed job: either some row arms it again, or its latest result is still to come. */
  lemma FailedJobSettles(rules: Rules, p: Platform, d: Document, job: JobId)
    requires Sound(rules, p) && IsProcessing(p.content, d) && JobOf(p, job, d) && p.queue.jobs[job].status.Failed?
    ensures CanBeSettled(rules, p, d)
  {
    if row: nat :| row < |p.course| && p.course[row] == d && row !in p.enqueued {
      ForwardSettles(rules, p, d, row, job);
    } else {
      assert JobInv(p.queue, job);
      var k := LatestExists(p.queue.outbox, job);
      assert FailedFor(p, job);
      ResultNamesJob(p.queue, k);
      UnpublishedSettles(rules, p, d, k);
    }
  }

  lemma NotStuckSettles(rules: Rules, p: Platform, d: Document)
    requires Sound(rules, p) && IsProcessing(p.content, d) && !Stuck(p, d)
    ensures CanBeSettled(rules, p, d)
  {
    if !HasJob(p.queue, d) {
      UnqueuedSettles(rules, p, d);
    } else {
      var job :| job in p.queue.jobs && p.queue.jobs[job].document == d;
      if p.queue.jobs[job].status.Failed? {
        FailedJobSettles(rules, p, d, job);
      } else if !p.queue.jobs[job].status.Completed? {
        OpenJobSettles(rules, p, d, job);
      } else {
        assert CompletedFor(p.queue, job, d);
        if k :| ResultFor(p, k, d) && k !in p.published {
          UnpublishedSettles(rules, p, d, k);
        } else {
          var r :| r in p.couriers && ResultFor(p, p.couriers[r].index, d) && !p.couriers[r].progress.Projected?;
          HeldSettles(rules, p, d, r);
        }
      }
    }
  }

  lemma EmptyIsSound(rules: Rules)
    ensures Sound(rules, EMPTY)
  {
    InitialInv();
  }

  /**
   In every history, a PROCESSING document can still become READY or FAILED unless its job is completed, its results
   are published, and no relay has one of them left to project; then it stays PROCESSING for ever.
   */
  lemma ProcessingCanBeSettledIff(rules: Rules, events: seq<Event>, p: Platform, d: Document)
    requires History(rules, EMPTY, events, p) && IsProcessing(p.content, d)
    ensures CanBeSettled(rules, p, d) <==> !Stuck(p, d)
  {
    EmptyIsSound(rules);
    HistoryKeepsSound(rules, EMPTY, events, p);
    if Stuck(p, d) {
      if CanBeSettled(rules, p, d) {
        var more, p' :| History(rules, p, more, p') && !IsProcessing(p'.content, d);
        StuckForEver(rules, p, more, p', d);
      }
    } else {
      NotStuckSettles(rules, p, d);
    }
  }

  // ---- a stuck document ----

  const DOC := Document(0, 0)

  lemma Prepend(rules: Rules, p: Platform, e: Event, mid: Platform, events: seq<Event>, p': Platform)
    requires LedgerCovers(p.queue) && CanHappen(rules, p, e) && Happen(rules, p, e) == mid
    requires History(rules, mid, events, p')
    ensures History(rules, p, [e] + events, p')
  {
    assert ([e] + events)[1..] == events;
  }

  /** A platform with one document, one job and no relay at work. */
  ghost function Single(row: Row, status: DocumentStatus, course: seq<Document>, outbox: seq<OutRow>,
                        chunks: map<Document, seq<Chunk>>, published: set<nat>): Platform
  {
    Platform(World(0, map[0 := row], outbox, map[], chunks, map[0 := Ledger(0, 0, 0)]),
             Content(map[DOC := status], map[]), course, {0}, {}, published, map[])
  }

  /** Uploaded, confirmed and forwarded. */
  lemma Ingested(rules: Rules) returns (events: seq<Event>)
    ensures History(rules, EMPTY, events, Single(NewRow(DOC, 0), Processing, [DOC], [], map[], {}))
  {
    var p := EMPTY.(content := Content(map[DOC := Uploaded], map[]));
    var q := EMPTY.(content := Content(map[DOC := Processing], map[]), course := [DOC]);
    var r := Single(NewRow(DOC, 0), Processing, [DOC], [], map[], {});
    assert Happen(rules, q, Forward(0, 0)) == r;
    Prepend(rules, q, Forward(0, 0), r, [], r);
    assert Happen(rules, p, Confirm(DOC)) == q;
    Prepend(rules, p, Confirm(DOC), q, [Forward(0, 0)] + [], r);
    assert Happen(rules, EMPTY, Upload(DOC)) == p;
    Prepend(rules, EMPTY, Upload(DOC), p, [Confirm(DOC)] + ([Forward(0, 0)] + []), r);
    events := [Upload(DOC)] + ([Confirm(DOC)] + ([Forward(0, 0)] + []));
  }

  ghost function CompletedRow(): Row { Finished(Claimed(NewRow(DOC, 0), 0, 0), Completed, None) }

  /** Claimed, and completed with one question. */
  lemma Completing(rules: Rules, chunk: Chunk, question: Question) returns (events: seq<Event>)
    requires Cites(question, chunk, 0)
    ensures History(rules, Single(NewRow(DOC, 0), Processing, [DOC], [], map[], {}), events,
                    Single(CompletedRow(), Processing, [DOC], [OutRow(0, Ready(DOC, [question]))],
                           map[DOC := [chunk]], {}))
  {
    var p := Single(NewRow(DOC, 0), Processing, [DOC], [], map[], {});
    var q := Single(Claimed(NewRow(DOC, 0), 0, 0), Processing, [DOC], [], map[], {});
    var r := Single(CompletedRow(), Processing, [DOC], [OutRow(0, Ready(DOC, [question]))], map[DOC := [chunk]], {});
    var complete := Complete(Token(0, 1, 0), 0, [chunk], [question]);
    assert Happen(rules, q, Work(complete)) == r;
    Prepend(rules, q, Work(complete), r, [], r);
    assert Happen(rules, p, Work(Claim(0, 0, 0))) == q;
    Prepend(rules, p, Work(Claim(0, 0, 0)), q, [Work(complete)] + [], r);
    events := [Work(Claim(0, 0, 0))] + ([Work(complete)] + []);
  }

  /** Delivered: the aggregate refuses the question, and the document is FAILED. */
  lemma Refused(rules: Rules, chunk: Chunk, question: Question) returns (events: seq<Event>)
    requires !rules.valid(question)
    ensures var outbox := [OutRow(0, Ready(DOC, [question]))]; var chunks := map[DOC := [chunk]];
            History(rules, Single(CompletedRow(), Processing, [DOC], outbox, chunks, {}), events,
                    Single(CompletedRow(), DocFailed, [DOC], outbox, chunks, {0}))
  {
    var outbox, chunks := [OutRow(0, Ready(DOC, [question]))], map[DOC := [chunk]];
    var p := Single(CompletedRow(), Processing, [DOC], outbox, chunks, {});
    var q := p.(couriers := map[0 := Courier(0, Taken)]);
    var r := q.(couriers := map[0 := Courier(0, Projected)], content := Content(map[DOC := DocFailed], map[]));
    var t := Single(CompletedRow(), DocFailed, [DOC], outbox, chunks, {0});
    assert Happen(rules, r, Publish(0)) == t;
    Prepend(rules, r, Publish(0), t, [], t);
    AcceptsIffSomeValid(rules, [question]);
    assert PayloadAt(q, 0) == Parsed(DOC, true, Some([question]));
    assert Happen(rules, q, Conclude(0)) == r;
    Prepend(rules, q, Conclude(0), r, [Publish(0)] + [], t);
    assert Happen(rules, p, Take(0, 0)) == q;
    Prepend(rules, p, Take(0, 0), q, [Conclude(0)] + ([Publish(0)] + []), t);
    events := [Take(0, 0)] + ([Conclude(0)] + ([Publish(0)] + []));
  }

  /** Its owner confirms it again. */
  lemma ConfirmedAgain(rules: Rules, outbox: seq<OutRow>, chunks: map<Document, seq<Chunk>>)
    returns (events: seq<Event>)
    ensures History(rules, Single(CompletedRow(), DocFailed, [DOC], outbox, chunks, {0}), events,
                    Single(CompletedRow(), Processing, [DOC] + [DOC], outbox, chunks, {0}))
  {
    var p := Single(CompletedRow(), DocFailed, [DOC], outbox, chunks, {0});
    var q := Single(CompletedRow(), Processing, [DOC] + [DOC], outbox, chunks, {0});
    assert Happen(rules, p, Confirm(DOC)) == q;
    Prepend(rules, p, Confirm(DOC), q, [], q);
    events := [Confirm(DOC)] + [];
  }

  lemma CompletedAndAcknowledged(outbox: seq<OutRow>, chunks: map<Document, seq<Chunk>>)
    requires |outbox| == 1
    ensures Stuck(Single(CompletedRow(), Processing, [DOC] + [DOC], outbox, chunks, {0}), DOC)
  {
    assert CompletedFor(Single(CompletedRow(), Processing, [DOC] + [DOC], outbox, chunks, {0}).queue, 0, DOC);
  }

  /**
   Such a document is reachable: its only question is refused, it is FAILED, and its owner confirms it again.
   */
  lemma StuckDocumentIsReachable(rules: Rules, chunk: Chunk, draft: Draft) returns (events: seq<Event>, p: Platform)
    requires !rules.valid(QuestionOf(chunk, 0, draft))
    ensures History(rules, EMPTY, events, p) && Stuck(p, DOC) && !CanBeSettled(rules, p, DOC)
  {
    var question := QuestionOf(chunk, 0, draft);
    var outbox, chunks := [OutRow(0, Ready(DOC, [question]))], map[DOC := [chunk]];
    var asked := Single(NewRow(DOC, 0), Processing, [DOC], [], map[], {});
    var done := Single(CompletedRow(), Processing, [DOC], outbox, chunks, {});
    var failed := Single(CompletedRow(), DocFailed, [DOC], outbox, chunks, {0});
    p := Single(CompletedRow(), Processing, [DOC] + [DOC], outbox, chunks, {0});
    var first := Ingested(rules);
    var second := Completing(rules, chunk, question);
    var third := Refused(rules, chunk, question);
    var fourth := ConfirmedAgain(rules, outbox, chunks);
    HistoryAppend(rules, EMPTY, first, asked, second, done);
    HistoryAppend(rules, EMPTY, first + second, done, third, failed);
    HistoryAppend(rules, EMPTY, first + second + third, failed, fourth, p);
    events := first + second + third + fourth;
    CompletedAndAcknowledged(outbox, chunks);
    ProcessingCanBeSettledIff(rules, events, p, DOC);
  }
}
