/** The worker's cycle (worker/internal/consumer/consumer.go). */
module Consumer {
  import opened Domain
  import opened Queue
  import opened QueueSafety
  import opened QueueTokens
  import opened GoChunker
  import opened Sessions
  import opened Store

  /** What a cycle published: the chunks it stored and the questions in its READY result. */
  datatype Publication = Publication(chunks: seq<Chunk>, questions: seq<Question>)

  /** Reading the source descriptor, the object and its text, for a claimed job. */
  type Extractor = ClaimedJob -> Outcome<seq<Segment>>
  /** The generator's answer to its i-th call. */
  type Generator = (nat, Text) -> Outcome<Draft>

  ghost predicate Generated(generate: Generator, chunks: seq<Chunk>, questions: seq<Question>) {
    && |questions| <= |chunks|
    && forall i :: 0 <= i < |questions| ==>
         var answer := generate(i, chunks[i].text);
         answer.Ok? && questions[i] == QuestionOf(chunks[i], i, answer.value)
  }

  /** One question for each chunk, in order, or the first failure of the generator. */
  method GenerateAll(chunks: seq<Chunk>, generate: Generator) returns (r: Outcome<seq<Question>>)
    ensures r.Ok? ==> |r.value| == |chunks| && Generated(generate, chunks, r.value) && Assembled(chunks, r.value)
    ensures r.Err? ==> exists i :: 0 <= i < |chunks| && generate(i, chunks[i].text) == Err(r.failure)
                                   && forall j :: 0 <= j < i ==> generate(j, chunks[j].text).Ok?
  {
    var questions: seq<Question> := [];
    for i := 0 to |chunks|
      invariant |questions| == i && Generated(generate, chunks, questions)
    {
      var chunk := chunks[i];
      var answer := generate(i, chunk.text);
      if answer.Err? {
        assert forall j :: 0 <= j < i ==> questions[j] == QuestionOf(chunks[j], j, generate(j, chunks[j].text).value);
        return Err(answer.failure);
      }
      questions := questions + [QuestionOf(chunk, i, answer.value)];
    }
    r := Ok(questions);
  }

  /** The cycle's one step with its token, or none, among steps of the other sessions. */
  ghost predicate Ended(w: World, t: Token, end: Option<Action>, w': World) {
    match end
    case None => Others(w, w', Some(t), None)
    case Some(a) => TookStep(w, a, w', Some(t))
  }

  lemma PrependEnded(w: World, middle: World, t: Token, end: Option<Action>, w': World)
    requires Others(w, middle, Some(t), None) && Ended(middle, t, end, w')
    ensures Ended(w, t, end, w')
  {
    PrependOthers(w, middle, w', Some(t));
  }

  /** The steps a failure can lead to: a technical one to a reschedule or a burial, any other to a rejection. */
  predicate Answers(end: Option<Action>, t: Token, failure: Failure) {
    match end
    case None => true
    case Some(Reschedule(u, _, code)) => u == t && failure == Failure(code, true)
    case Some(Bury(u, _, code)) => u == t && failure == Failure(code, true)
    case Some(Fail(u, _, code)) => u == t && failure == Failure(code, false)
    case Some(_) => false
  }

  ghost predicate ClaimedAs(w: World, job: ClaimedJob, mid: World) {
    exists at :: TookStep(w, Claim(job.token.job, at, job.token.lease), mid, None)
  }

  /** What a cycle is about to publish for the claimed job, or why it cannot. */
  ghost predicate Prepared(extract: Extractor, generate: Generator, job: ClaimedJob, r: Outcome<Publication>) {
    var segments := extract(job);
    if segments.Err? then r == Err(segments.failure)
    else
      var pieces := AllPieces(segments.value);
      if !WithinLimits(pieces) then r == Err(Failure(ChunkLimit, false))
      else
        var chunks := Numbered(job.document, pieces);
        match r
        case Ok(p) => p.chunks == chunks && |p.questions| == |chunks| && Generated(generate, chunks, p.questions)
        case Err(failure) =>
          exists i :: 0 <= i < |chunks| && generate(i, chunks[i].text) == Err(failure)
                      && forall j :: 0 <= j < i ==> generate(j, chunks[j].text).Ok?
  }

  /** The step a cycle took, given what it had prepared: the publication, an answer to a failure, or nothing. */
  ghost predicate Fits(end: Option<Action>, t: Token, prepared: Outcome<Publication>) {
    match prepared
    case Err(failure) => Answers(end, t, failure)
    case Ok(p) =>
      || (end.Some? && end.value.Complete? && end.value.token == t
          && end.value.chunks == p.chunks && end.value.questions == p.questions)
      || Answers(end, t, Failure(ProcessingFailed, true))
  }

  /** The call that answers a failure, and its error: Retry for a technical one, Fail for any other. */
  predicate AnswersTo(call: Called, job: ClaimedJob, failure: Failure, err: bool) {
    match call
    case Retrying(j, code, _, e) => failure.technical && j == job && code == failure.code && e == err
    case Failing(j, code, _, e) => !failure.technical && j == job && code == failure.code && e == err
    case _ => false
  }

  /** The completion; behind an error that surely left nothing, the answer to a technical failure. */
  ghost predicate PublishCalls(made: seq<Called>, job: ClaimedJob, p: Publication, published: bool, err: bool) {
    && made != [] && made[0].Persisting?
    && made[0].job == job && made[0].chunks == p.chunks && made[0].questions == p.questions
    && published == (made[0].persisted && !made[0].err)
    && if made[0].err && !made[0].persisted then
         |made| == 2 && AnswersTo(made[1], job, Failure(ProcessingFailed, true), err)
       else |made| == 1 && err == made[0].err
  }

  /** What follows the preparation: exactly one answer to a failure, or the publication. */
  ghost predicate ConclusionCalls(made: seq<Called>, job: ClaimedJob, prepared: Outcome<Publication>, published: bool,
                                  err: bool)
  {
    match prepared
    case Err(failure) => |made| == 1 && AnswersTo(made[0], job, failure, err) && !published
    case Ok(p) => PublishCalls(made, job, p, published, err)
  }

  /** The calls of one cycle, in order. */
  ghost predicate CycleCalls(made: seq<Called>, claimed: Option<ClaimedJob>, prepared: Outcome<Publication>,
                             published: bool, err: bool)
  {
    && made != [] && made[0].Claiming? && made[0].claimed == claimed
    && match claimed
       case None => |made| == 1 && err == made[0].err && !published
       case Some(job) => ConclusionCalls(made[1..], job, prepared, published, err)
  }

  lemma ClaimComesFirst(before: seq<Called>, claim: Called, calls: seq<Called>)
    requires before + [claim] <= calls
    ensures before <= calls && calls[|before|..] == [claim] + calls[|before| + 1..]
  {
    assert calls[|before|] == (before + [claim])[|before|];
  }

  /** The lease seen at `w` has not run out at `w'`. */
  ghost predicate InTime(w: World, w': World, t: Token) {
    Holds(w, t) && w'.clock < w.jobs[t.job].lease.value.until
  }

  /** In time, without a step of its own, a token is still live. */
  lemma InTimeActs(w: World, t: Token, end: Option<Action>, w': World)
    requires Inv(w) && Ended(w, t, end, w') && InTime(w, w', t) && !Live(w', t)
    ensures end.Some?
  {
    if end.None? {
      LiveInTime(w, w', t);
    }
  }

  lemma Concluded(mid: World, after: World, t: Token, end: Option<Action>, w: World)
    requires Inv(mid) && Others(mid, after, Some(t), None) && Ended(after, t, end, w)
    ensures Ended(mid, t, end, w)
    ensures Blocked(after, w, t) ==> Blocked(mid, w, t)
    ensures InTime(mid, w, t) && !Live(w, t) ==> end.Some?
  {
    PrependEnded(mid, after, t, end, w);
    if Blocked(after, w, t) {
      PrependBlocked(mid, after, w, t);
    }
    if InTime(mid, w, t) && !Live(w, t) {
      InTimeActs(mid, t, end, w);
    }
  }

  class Bootstrap {
    const store: PostgresStore

    constructor (store: PostgresStore)
      ensures this.store == store
    {
      this.store := store;
    }

    /** Technical failures are retried or buried, all others fail the job. */
    method Finish(job: ClaimedJob, failure: Failure) returns (err: bool, ghost end: Option<Action>)
      requires Inv(store.world) && Describes(store.world, job)
      modifies store
      ensures Inv(store.world)
      ensures |store.calls| == |old(store.calls)| + 1 && old(store.calls) <= store.calls
      ensures AnswersTo(store.calls[|old(store.calls)|], job, failure, err)
      ensures store.statements >= old(store.statements)
      ensures err ==>
                || !Smooth(store.breaks, old(store.statements), store.statements)
                || (failure.technical && Blocked(old(store.world), store.world, job.token))
      ensures Ended(old(store.world), job.token, end, store.world) && Answers(end, job.token, failure)
      ensures !err ==> !Live(store.world, job.token)
    {
      if failure.technical {
        err, end := FinishTechnical(job, failure.code);
      } else {
        var finalized;
        ghost var before, t := store.world, job.token;
        end := None;
        finalized, err := store.Fail(job, failure.code);
        if at :| TookStep(before, Queue.Fail(t, at, failure.code), store.world, Some(t)) {
          end := Some(Queue.Fail(t, at, failure.code));
        }
      }
    }

    method FinishTechnical(job: ClaimedJob, code: FailureCode) returns (err: bool, ghost end: Option<Action>)
      requires Inv(store.world) && Describes(store.world, job)
      modifies store
      ensures Inv(store.world)
      ensures |store.calls| == |old(store.calls)| + 1 && old(store.calls) <= store.calls
      ensures AnswersTo(store.calls[|old(store.calls)|], job, Failure(code, true), err)
      ensures store.statements >= old(store.statements)
      ensures err ==>
                || !Smooth(store.breaks, old(store.statements), store.statements)
                || Blocked(old(store.world), store.world, job.token)
      ensures Ended(old(store.world), job.token, end, store.world) && Answers(end, job.token, Failure(code, true))
      ensures !err ==> !Live(store.world, job.token)
    {
      ghost var before, t := store.world, job.token;
      var result;
      result, err := store.Retry(job, code);
      end := None;
      if at :| TookStep(before, Reschedule(t, at, code), store.world, Some(t)) {
        end := Some(Reschedule(t, at, code));
      } else if at :| TookStep(before, Bury(t, at, code), store.world, Some(t)) {
        end := Some(Bury(t, at, code));
      }
    }

    /** Everything between the claim and the store's last transaction; it touches no table. */
    method Prepare(job: ClaimedJob, extract: Extractor, generate: Generator) returns (r: Outcome<Publication>)
      ensures Prepared(extract, generate, job, r)
      ensures r.Ok? ==> Assembled(r.value.chunks, r.value.questions)
    {
      var segments := extract(job);
      if segments.Err? {
        return Err(segments.failure);
      }
      var chunks := ChunkText(job.document, segments.value);
      if chunks.Err? {
        return Err(chunks.failure);
      }
      var questions := GenerateAll(chunks.value, generate);
      if questions.Err? {
        return Err(questions.failure);
      }
      r := Ok(Publication(chunks.value, questions.value));
    }

    /** Publish; a failed transaction that surely left nothing is finished as a technical failure. */
    method Publish(job: ClaimedJob, p: Publication) returns (err: bool, published: bool, ghost end: Option<Action>)
      requires Inv(store.world) && Describes(store.world, job) && Assembled(p.chunks, p.questions)
      modifies store
      ensures Inv(store.world)
      ensures old(store.calls) <= store.calls
      ensures PublishCalls(store.calls[|old(store.calls)|..], job, p, published, err)
      ensures store.statements >= old(store.statements)
      ensures Smooth(store.breaks, old(store.statements), store.statements) ==> !err && (published <==> end.Some?)
      ensures Ended(old(store.world), job.token, end, store.world) && Fits(end, job.token, Ok(p))
      ensures published ==> !err && end.Some? && end.value.Complete?
      ensures !err ==> !Live(store.world, job.token)
    {
      ghost var before, t := store.world, job.token;
      var persisted;
      persisted, err := store.PersistAndComplete(job, p.chunks, p.questions);
      published, end := persisted && !err, None;
      if at :| persisted && TookStep(before, Complete(t, at, p.chunks, p.questions), store.world, Some(t)) {
        end := Some(Complete(t, at, p.chunks, p.questions));
      }
      // When a commit's outcome is unknown, a retry could duplicate the result.
      if err && !persisted {
        ghost var middle := store.world;
        OthersKeepDocument(before, middle, Some(t), None, job);
        err, end := Finish(job, Failure(ProcessingFailed, true));
        PrependEnded(before, middle, t, end, store.world);
      }
    }

    /** No transaction is open; time passes, and other sessions may act. */
    method WhilePreparing(job: ClaimedJob)
      requires Inv(store.world) && Describes(store.world, job)
      modifies store`world
      ensures Inv(store.world) && Describes(store.world, job)
      ensures Others(old(store.world), store.world, Some(job.token), None)
    {
      ghost var before, t := store.world, job.token;
      OthersNone(before, Some(t), None);
      store.Yield(before, Some(t), Session(before.clock, ClaimCall, Begun));
      OthersKeepDocument(before, store.world, Some(t), None, job);
    }

    /** The end of a cycle. */
    method Conclude(job: ClaimedJob, prepared: Outcome<Publication>)
        returns (err: bool, published: bool, ghost end: Option<Action>)
      requires Inv(store.world) && Describes(store.world, job)
      requires prepared.Ok? ==> Assembled(prepared.value.chunks, prepared.value.questions)
      modifies store
      ensures Inv(store.world)
      ensures old(store.calls) <= store.calls
      ensures ConclusionCalls(store.calls[|old(store.calls)|..], job, prepared, published, err)
      ensures store.statements >= old(store.statements)
      ensures err ==>
                || !Smooth(store.breaks, old(store.statements), store.statements)
                || (prepared.Err? && prepared.failure.technical && Blocked(old(store.world), store.world, job.token))
      ensures prepared.Ok? && Smooth(store.breaks, old(store.statements), store.statements) ==>
                (published <==> end.Some?)
      ensures Ended(old(store.world), job.token, end, store.world) && Fits(end, job.token, prepared)
      ensures published ==> !err && prepared.Ok? && end.Some? && end.value.Complete?
      ensures !err ==> !Live(store.world, job.token)
    {
      published := false;
      if prepared.Err? {
        err, end := Finish(job, prepared.failure);
      } else {
        err, published, end := Publish(job, prepared.value);
      }
    }

    /** What follows the claim. */
    method Process(job: ClaimedJob, extract: Extractor, generate: Generator)
        returns (prepared: Outcome<Publication>, err: bool, published: bool, ghost end: Option<Action>)
      requires Inv(store.world) && Describes(store.world, job)
      modifies store
      ensures Inv(store.world)
      ensures old(store.calls) <= store.calls
      ensures ConclusionCalls(store.calls[|old(store.calls)|..], job, prepared, published, err)
      ensures store.statements >= old(store.statements)
      ensures err ==>
                || !Smooth(store.breaks, old(store.statements), store.statements)
                || (prepared.Err? && prepared.failure.technical && Blocked(old(store.world), store.world, job.token))
      ensures !err ==> !Live(store.world, job.token)
      ensures !err && InTime(old(store.world), store.world, job.token) ==> end.Some?
      ensures Smooth(store.breaks, old(store.statements), store.statements) && prepared.Ok? ==>
                (published <==> end.Some?)
      ensures Ended(old(store.world), job.token, end, store.world)
      ensures Prepared(extract, generate, job, prepared) && Fits(end, job.token, prepared)
      ensures published ==> !err && prepared.Ok? && end.Some? && end.value.Complete?
    {
      ghost var mid := store.world;
      prepared := Prepare(job, extract, generate);
      // Extraction and generation may outlast the lease, and other sessions act meanwhile.
      WhilePreparing(job);
      ghost var after := store.world;
      err, published, end := Conclude(job, prepared);
      Concluded(mid, after, job.token, end, store.world);
    }

    /**
     One cycle.  The tables move by one claim and then at most one step with its token, which fits what the cycle
     had prepared; when no error is reported the token is dead, whatever the other sessions did meanwhile (and
     DeadStaysDead keeps it dead).  The calls are the claim and then the one that fits, and a last one behind a failed
     publication; their error is the cycle's.  An error is reported only if a statement broke or an old dead letter
     stood in the way, so within the lease a cycle whose statements all work takes its step.
     */
    method ProcessOne(locked: set<JobId>, extract: Extractor, generate: Generator)
        returns (err: bool, claimed: Option<ClaimedJob>, prepared: Outcome<Publication>, published: bool,
                 ghost mid: World, ghost end: Option<Action>)
      requires Inv(store.world)
      modifies store
      ensures Inv(store.world)
      ensures old(store.calls) <= store.calls
      ensures CycleCalls(store.calls[|old(store.calls)|..], claimed, prepared, published, err)
      ensures store.statements >= old(store.statements)
      ensures err ==>
                || !Smooth(store.breaks, old(store.statements), store.statements)
                || (claimed.Some? && prepared.Err? && prepared.failure.technical
                    && Blocked(mid, store.world, claimed.value.token))
      ensures claimed.Some? && !err && InTime(mid, store.world, claimed.value.token) ==> end.Some?
      ensures Smooth(store.breaks, old(store.statements), store.statements) ==>
                claimed.Some? && prepared.Ok? && InTime(mid, store.world, claimed.value.token) ==> published
      ensures claimed.None? && !err ==> Others(old(store.world), store.world, None, None)
      ensures claimed.None? && err ==>
                || Others(old(store.world), store.world, None, None)
                || (exists id, at, lease :: TookStep(old(store.world), Claim(id, at, lease), store.world, None))
      ensures claimed.Some? ==>
                && ClaimedAs(old(store.world), claimed.value, mid)
                && Ended(mid, claimed.value.token, end, store.world)
                && Prepared(extract, generate, claimed.value, prepared)
                && Fits(end, claimed.value.token, prepared)
                && (!err ==> !Live(store.world, claimed.value.token))
      ensures published ==> !err && claimed.Some? && prepared.Ok? && end.Some? && end.value.Complete?
    {
      prepared, published, end := Err(Failure(ProcessingFailed, true)), false, None;
      ghost var seen, at;
      claimed, err, seen, at := store.Claim(locked);
      mid := store.world;
      if err || claimed.None? {
        return;
      }
      prepared, err, published, end := Process(claimed.value, extract, generate);
      ClaimComesFirst(old(store.calls), Claiming(claimed, false), store.calls);
    }
  }
}
