# LearningPlatform: a verified model of its processing core

This project models, in Dafny 4.11, the parts of LearningPlatform whose correctness spans several
functions or many concurrent actors, and proves what they promise. `dafny verify dfyconfig.toml`
checks the whole project.

## The durable queue and its relays

PostgreSQL is the only place where the Go workers and the Node relays meet. The model has three layers.

- **Atomic machine** (`Queue`, `QueueSafety`, `QueueTokens`, `DeadLetters`): the rows of
  `ai.processing_jobs`, the result outbox, the dead-letter table, the chunks and the clock, with one fenced
  step for each transaction. `now()` is the start of a transaction, so a step carries its own time, which may
  lie before the clock: a completion begun inside its lease may commit after the lease has run out, if nobody
  has claimed the job again.
- **Statements** (`Sessions`): any number of open transactions interleaved statement by statement, with row
  locks taken where the SQL takes them (the first `SELECT EXISTS` of a completion takes none). Every
  interleaving refines a run of the atomic machine.
- **Code** (`Store`, `Consumer`, `ReturnSeam`, `ForwardSeam`): the methods of the Go store, the worker's cycle and the
  two relays as classes whose methods update fields. Wherever the original waits for the database, steps of any other
  session may happen, and any statement or commit may fail; a commit that fails leaves open whether it took effect.
  Which statements break is an input, so that every error a method reports is traced to what broke (`Domain.Smooth`: none
  of a stretch did), and the store keeps a log of its calls, so that the cycle is held to make the right one.
  `Relays` has what both relays write.

The two relays are proved by rely and guarantee: one relation on the shared tables (`Guarded`) is what each relay assumes
of everybody else at every wait, and what it keeps itself over the whole call, so relays can run side by side.

`Delivery` joins workers, relays, crashes, redeliveries and re-confirmations into one transition system, for
the end-to-end statement that `findQuiz` relies on: a READY document has a quiz. `Settlement` asks of the same system
whether a confirmed document is still answered.

## Algorithms

`GoChunker` and `TsChunker` are the two chunkers, `ChunkEncoding` (over `Utf8`) the byte cuts of the first,
`CopyDetector` the copied-sequence check, `AuditIgnore` the memoised search over a cyclic advisory graph,
`BoundedMap` and `Generation` the concurrent question generator under every schedule, `JsonText`, `CanonicalJson` and
`CacheKey` the canonical JSON and the hashed texts,
`MigrationOrder` and `Migrations` the two runners over one tracking table, and `Retention` the image selector. Each loop
is a method proved against a specification, and the specification is proved to have the property the code is for.
`Domain`, `CodeUnits` and `Sorting` are shared.

## Where the code does less than its documents say

- ADR-0023 says that after the third technical retry a job goes to the dead-letter queue. The worker's insert
  has no `ON CONFLICT` clause, `job_id` is UNIQUE in the table, and re-arming a FAILED job resets its retry
  count but keeps the old dead letter. A job buried once and then re-armed can therefore not be buried again:
  its last transaction always fails, and the job is claimed again every fifteen minutes. Technical failures
  can end a waiting or running job if and only if the table has no row for it
  (`DeadLetters.TechnicalFailuresEndTheJobIff`), and the state is reachable (`DeadLetters.StuckJobIsReachable`). A success
  or a final failure still ends the job.
- A READY payload without questions would make a document READY without a quiz. The Go worker never writes
  one, but the result event of the Node repository has no questions (`Relays.ReadyWithoutQuestions`);
  `Relays.DeliveryKeepsReadyIff` gives the exact condition.
- A FAILED document can be confirmed again, and is PROCESSING then; but the upsert re-arms only a FAILED job. When the
  aggregate refused the questions, the job is COMPLETED, and no answer ever comes. In every history a PROCESSING document
  can still be settled unless its job is COMPLETED, its results are published and no relay has one left to project
  (`Settlement.ProcessingCanBeSettledIff`); the state is reachable (`Settlement.StuckDocumentIsReachable`).
- The worker's chunker cuts at byte offsets. A chunk of a valid UTF-8 segment is valid UTF-8 if and only if neither end
  of its window falls inside a character (`ChunkEncoding.PieceValidIff`); an a and 750 accented letters already break it
  (`ChunkEncoding.AccentedIsCut`). PostgreSQL refuses such text, so the document fails as a technical failure.
- The cache key is unambiguous for one template. Two templates can share a key if and only if, each behind its heading
  line, one ends like the other (`CacheKey.PromptsShareAKeyIff`): a caller can check the templates alone.
- The migration runners sort differently, one by number and one by name. They agree if and only if no pair of versions
  is crossed (`MigrationOrder.OrdersAgreeIff`): a narrower version whose number lies between that of as many leading
  digits of a wider one, inclusive, and the wider one's own, such as 1 or 9 before 10. Versions of one width, as the
  repository has them, are never crossed. (Versions of one number, such as 7 and 007, must in addition be listed in text
  order, since numeric collation cannot tell them apart.) Going down needs less (`Migrations.LatestIsLastIff`): 1 and 10
  are harmless.

## Assumptions

- PostgreSQL: a transaction's writes appear at commit, together; `now()` is its start time; a row written or
  selected `FOR UPDATE` is locked until the transaction ends; `SKIP LOCKED` skips exactly the locked rows.
- Lease ids may be arbitrary: `attempts` alone already keeps tokens apart.
- A generated job id is new, unless the insert breaks.
- Chunk ids and normalised stems collate in an order: total and transitive (`QuizAggregate.CreateMakes`).
- Hashes are taken to be injective: chunk and question identities are kept as the tuple that is hashed.
- `Intl.Segmenter` returns strictly increasing boundaries from 0 to the length of a non-empty text.
- Quiz persistence is idempotent for a document, and the status projection is a compare-and-set on PROCESSING.
- Other writers keep to the relays' rules: they only append outbox rows, take no mark back and mark a row only after its
  effect; they change and delete no quiz, change a status only by upload, confirmation or projection of a row, and make
  no document READY without a quiz. No session gives a document a second owner.
- A down script undoes its own up script if that ran last.

## Model

| member | source | states |
|---|---|---|
| `Queue.StepNeeds` | worker/internal/processing/postgres.go:27-221 | when each step is possible, condition by condition: PENDING and visible or RUNNING past its lease for a claim; status, attempts, lease id and unexpired lease for the rest; fewer than three retries for a reschedule, three and no dead letter for a burial |
| `Queue.StepWrites` | worker/internal/processing/postgres.go:27-221 | what each step writes to its row, column by column: a lease of 900 seconds, one attempt or retry more, 5, 30 or 300 seconds until the row is visible, the failure code |
| `Queue.StepAdds` | worker/internal/processing/postgres.go:122-221 | what each step writes beside its row: the new row, the READY result with its questions, the failed result with its code, the dead letter, the chunks; and that it writes nothing else |
| `QueueSafety.StepKeepsInv` | worker/internal/processing/postgres.go:27-221 | every claim, completion, failure, retry, burial, enqueue and tick keeps, for all jobs at once: lease bounds, retry budget, the account of attempts, FAILED* READY? results, and stored chunks that the published questions cite |
| `QueueSafety.RunKeepsInv` | worker/internal/processing/postgres.go:27-221 | the same over every run |
| `QueueSafety.OutboxAccount` | worker/internal/processing/postgres.go:122-159 | in every run a job's results number its re-arms, plus one if it is terminal; READY is the last one, exactly when the job is COMPLETED, and its questions were assembled from the chunks stored now |
| `QueueSafety.AttemptsCountClaimsAndRearms` | app/src/modules/ai/repositories/processing-job.repository.ts:39-44 | the attempts column counts exactly the claims and re-arms of the run |
| `QueueSafety.ClaimsWithinArming` | worker/internal/processing/postgres.go:167-198 | within one arming, attempts spent = technical retries + re-claims of expired leases + 1 unless PENDING; retries never exceed three; without an expiry at most four attempts |
| `QueueSafety.NoJobLost` | worker/internal/processing/postgres.go:34-42 | in every run a non-terminal job is eligible for a claim after five minutes (waiting) or fifteen (running) |
| `QueueTokens.OneHolder` | worker/internal/processing/postgres.go:42 | at most one (attempts, lease) token holds a job |
| `QueueTokens.ClaimTransfersTheJob` | worker/internal/processing/postgres.go:34-42 | a claim's token holds the job, is live unless the claim itself took as long as the lease, and differs from all tokens issued before, which it makes dead |
| `QueueTokens.DeadStaysDead` | worker/internal/processing/postgres.go:107-122 | a token that fails the fence at some time fails it at every later time of every run |
| `QueueTokens.CommitSpendsToken` | worker/internal/processing/postgres.go:122-206 | whatever a token commits takes the job away from it |
| `QueueTokens.DeadTokenCommitsNothing` | worker/internal/processing/postgres.go:122-206 | no step of any continuation is taken with a token that has lost its job |
| `QueueTokens.OneOutcomePerClaim` | worker/internal/processing/postgres.go:122-206 | two committed outcomes of a run never carry the same token |
| `DeadLetters.DeadLetterOnlyAtLimit` | worker/internal/processing/postgres.go:200-221 | a dead letter is written only at three retries, in the step that makes the row FAILED and publishes its result |
| `DeadLetters.TechnicalFailure` | worker/internal/processing/postgres.go:182-190 | a live claim can be rescheduled exactly below the limit, and buried exactly at the limit with no old dead letter |
| `DeadLetters.BuriedWithinFourClaims` | worker/internal/processing/postgres.go:167-221 | from a waiting job without an old dead letter, technical failures alone end it, after retries left + 1 claims |
| `DeadLetters.OldDeadLetterBlocks` | app/src/database/migrations/1780835014700_add_durable_processing_queue.up.sql:23-25 | with an old dead letter no run of technical failures ends the job (UNIQUE job_id against a plain INSERT) |
| `DeadLetters.TechnicalFailuresEndTheJobIff` | worker/internal/processing/postgres.go:206-212 | technical failures can end a job that has not ended if and only if the dead-letter table has no row for it |
| `DeadLetters.StuckJobIsReachable` | app/src/modules/ai/repositories/processing-job.repository.ts:39-44 | a concrete run (bury, re-arm, exhaust the budget again) reaches a live claim that can neither be rescheduled nor buried |
| `DeadLetters.ClaimedWithoutEnd` | worker/internal/processing/postgres.go:34-42 | such a job can then be claimed any number of times and is still running |
| `Sessions.CommitIsAtomic` | worker/internal/processing/postgres.go:100-160 | what a transaction's statements staged is, at commit, exactly one enabled fenced step |
| `Sessions.StepKeepsSession` | worker/internal/processing/postgres.go:106-122 | steps of others that do not touch the locked row keep everything an open transaction has read and staged |
| `Sessions.StepRefines` | worker/internal/processing/postgres.go:27-221 | each statement, commit, rollback or tick of the interleaved system is an atomic step or changes no committed table |
| `Sessions.InterleavingRefines` | worker/internal/processing/postgres.go:27-221 | every interleaving of any number of statement-level transactions has the committed tables of a run of atomic steps |
| `Sessions.InterleavingKeepsOutbox` | worker/internal/processing/postgres.go:122-159 | FAILED* READY? and the exact result count hold in every interleaving |
| `Sessions.DeadAcrossInterleaving` | worker/internal/processing/postgres.go:107-122 | a token without its job stays so across every interleaving |
| `Sessions.StaleSessionCannotCommit` | worker/internal/processing/postgres.go:106-125 | a transaction whose token has lost its job cannot commit in any continuation |
| `Sessions.ClaimFindsOldest` | worker/internal/processing/postgres.go:34-40 | the claim query returns nothing exactly when no unlocked row is eligible, and otherwise an oldest one |
| `Store.OthersKeep` | worker/internal/processing/postgres.go:106-122 | what any steps of other sessions keep for the holder of a token, with or without its row lock |
| `Store.LiveInTime` | worker/internal/processing/postgres.go:106-122 | until its lease runs out, nobody without its token can take a job from its holder |
| `Store.PostgresStore.Claim` | worker/internal/processing/postgres.go:27-50 | no job only if no unlocked eligible row was seen; a job means one Claim step of an oldest row, whose token holds it, among steps of others; an error means those others alone, or one Claim step more, and is reported only if a statement or the commit broke |
| `Store.PostgresStore.StageChunks` | worker/internal/processing/postgres.go:110-121 | the loop stages exactly the given chunks and leaves the committed tables to others |
| `Store.PostgresStore.PersistAndComplete` | worker/internal/processing/postgres.go:100-134 | (true, nil): one Complete step with these chunks and questions; (false, _): nothing of this session; (true, err): one or the other; nil error: the token is dead; an error only if a statement or the commit broke |
| `Store.PostgresStore.Fail` | worker/internal/processing/postgres.go:135-160 | the same four outcomes for the FAILED transition and its result, and an error only if a statement or the commit broke |
| `Store.PostgresStore.FinalizeWithDLQ` | worker/internal/processing/postgres.go:200-221 | the same for the burial; with an old dead letter it never finalizes and leaves nothing of this session; an error only if something broke, or the retries were used up and an old dead letter stood in the way |
| `Store.PostgresStore.FinalizeLater` | worker/internal/processing/postgres.go:182-189 | the burial still takes effect as one fenced step although the row lock was released in between |
| `Store.PostgresStore.Retry` | worker/internal/processing/postgres.go:167-198 | scheduled: one Reschedule step, which leaves the row PENDING with one retry more, hidden for 5, 30 or 300 seconds; finalized: one Bury step, never with an old dead letter; neither without error: nothing, and the token is dead; an error only if something broke, or the retries were used up and an old dead letter stood in the way |
| `Consumer.GenerateAll` | worker/internal/consumer/consumer.go:96-107 | on success question i has ordinal i and cites chunk i's id, index, locator and text; on failure it is the first failing call's |
| `Consumer.Bootstrap.Finish` | worker/internal/consumer/consumer.go:120-146 | exactly one call: Retry for a technical failure, Fail for any other, with that failure's code, and its error is returned; at most one step with the token, a reschedule or burial or a rejection; a nil error means the token is dead; an error only if something broke, or an old dead letter blocked a technical one |
| `Consumer.Bootstrap.Publish` | worker/internal/consumer/consumer.go:108-117 | first the persisting call with exactly this publication; behind an error that surely left nothing, the one answer to a technical failure; at most one step with the token; if nothing broke there is no error, and published exactly if a step was taken; a nil error means the token is dead |
| `Consumer.Bootstrap.Conclude` | worker/internal/consumer/consumer.go:80-118 | a failed preparation is answered by exactly one call, which fits it, and its error is the cycle's; a successful one is published |
| `Consumer.Bootstrap.ProcessOne` | worker/internal/consumer/consumer.go:75-118 | with other sessions acting at every wait, also during extraction and generation, the tables move by one claim and at most one step with its token, which fits what was prepared: ChunkText's chunks with their generated questions, or the first failure; the calls are the claim and then the one answer or the publication; an error only if something broke or an old dead letter blocked a technical failure; without an error, within the lease, the step is taken, and what was prepared is published if nothing broke; a nil error means the token is dead |
| `QuizAggregate.CreateQuiz` | app/src/modules/assessment/domain/quiz.ts:16-63 | sorts the candidates, keeps the valid ones that repeat nothing kept before, renumbered, or fails below the minimum |
| `QuizAggregate.KeepFresh` | app/src/modules/assessment/domain/quiz.ts:24-41 | the loop with its two sets keeps exactly the specified candidates |
| `QuizAggregate.CreateMakes` | app/src/modules/assessment/domain/quiz.ts:16-63 | when the collation is an order: the quiz is made of kept candidates, renumbered from zero, valid, by chunk and then ordinal, no two with one stem or one place, and every valid candidate shares its stem or place with a kept one not after it; there is a quiz exactly if the minimum is positive and that many are kept |
| `QuizAggregate.HandoffOrderIrrelevant` | app/src/modules/assessment/domain/quiz.ts:21 | the quiz does not depend on the order of the handoff when the sort keys tell candidates apart |
| `QuizAggregate.KeptAreFresh` | app/src/modules/assessment/domain/quiz.ts:24-41 | kept questions are valid candidates without repeated stems or keys |
| `QuizAggregate.DroppedRepeats` | app/src/modules/assessment/domain/quiz.ts:26-30 | a valid candidate is dropped only if it repeats a kept one |
| `QuizAggregate.AcceptsIffSomeValid` | app/src/modules/assessment/quiz-generation-handoff.service.ts:22-43 | with minimum one the handoff accepts exactly the results with a valid candidate |
| `QuizAggregate.PublishedInOrder` | app/src/modules/assessment/domain/quiz.ts:66-76 | sorting leaves what the worker publishes as it is |
| `Relays.PayloadMeaning` | app/src/worker/return-relay.service.ts:62-71 | a payload brings a quiz exactly if it is READY with questions of which one is valid; the status to project is READY exactly if it is READY and, when it has questions, one is valid; else FAILED |
| `Relays.UnpublishedAreOldest` | app/src/modules/ai/repositories/ai-outbox.repository.ts:15-24 | the rows a pump reads are unpublished, in order, at most as many as the limit, and a row is left out only behind a full batch |
| `Relays.RedeliveryConverges` | app/src/worker/return-relay.service.ts:54-151 | redelivering a result after a crash at any point ends where one delivery would have |
| `Relays.DeliveryKeepsReadyIff` | app/src/worker/return-relay.service.ts:62-87 | delivering one payload keeps "a READY document has a quiz" exactly unless it is READY without questions and meets a processing document without a quiz |
| `Relays.ReadyWithoutQuestions` | app/src/modules/ai/repositories/processing-job.repository.ts:279-300 | such a payload, as the Node repository's result event is built: the document becomes READY and has no quiz |
| `ReturnSeam.FairIsGuarded` | app/src/worker/return-relay.service.ts:54-91 | writes in their turn (quiz, then status, then mark), among anything others do in theirs: over any stretch rows and quizzes stay, a new quiz is what some row brings, a new status is what some row says or a confirmation, and a row is newly marked only if it was projected and its quiz is stored |
| `ReturnSeam.OwnWritesShow` | app/src/worker/return-relay.service.ts:72-91 | whatever others do afterwards, an own mark stays, and a document projected by the relay is not PROCESSING unless it was confirmed again since |
| `ReturnSeam.ResultShows` | app/src/worker/return-relay.service.ts:62-91 | in the tables after a delivery: when all rows of the document mean the same and it was not confirmed again, it is READY exactly if they are READY with a valid question or without questions, and FAILED otherwise; with a valid question it has a quiz, and it has a new one only if some row of it carried a valid question |
| `ReturnSeam.QuizIsMade` | app/src/worker/return-relay.service.ts:62-71 | a new quiz is made, as the aggregate makes it, of the questions of a READY row of its document |
| `ReturnSeam.RowDelivers` | app/src/worker/return-relay.service.ts:62-91 | undisturbed, the writes for a row are its delivery and its mark |
| `ReturnSeam.ScriptDelivers` | app/src/worker/return-relay.service.ts:54-91 | undisturbed, a script of rows delivers them in order and marks exactly them |
| `ReturnSeam.ReturnRelay.PersistQuiz` | app/src/worker/return-relay.service.ts:62-71 | stores a quiz exactly for a READY payload with a valid question, and the document has one then; the status is READY exactly for READY without questions or with a valid one, and FAILED otherwise; it throws only if a statement does |
| `ReturnSeam.ReturnRelay.DeliverRow` | app/src/worker/return-relay.service.ts:58-150 | among writes of others, the relay's own writes are those of the row in order, each in its turn, or a prefix when it throws, which it does only for a malformed payload or a statement that broke; a READY document keeps having a quiz |
| `ReturnSeam.ReturnRelay.Pump` | app/src/worker/return-relay.service.ts:40-152 | it reads the oldest unpublished rows; the first of them are marked, and the tables show their results: READY with one valid question, FAILED without; all of them unless it throws, which it does only at a malformed row or a statement that broke; the own writes are the whole script of these rows, and then a prefix of the next row's; over the whole call no row is marked before its effect, by anybody; READY documents keep having quizzes if the others keep that |
| `Relays.EnqueueLeavesActiveJob` | app/src/modules/ai/ai-ingestion.service.ts:14-19 | enqueue changes nothing while the job is PENDING, RUNNING or COMPLETED |
| `Relays.EnqueueIsIdempotent` | app/src/modules/ai/repositories/processing-job.repository.ts:32-47 | a repeated enqueue is enabled and changes nothing more |
| `ForwardSeam.RunIsGuarded` | app/src/modules/content/forward-relay.service.ts:38-52 | over any run of enqueues, marks and steps of others: jobs and results stay, a job fails only with a result, and a row is newly marked only if its document was enqueued; a newly enqueued row has a job that is waiting, running or completed, or failed since with its result in the outbox |
| `ForwardSeam.OwnEventsShow` | app/src/modules/content/forward-relay.service.ts:38-52 | whatever others do afterwards, an own mark stays, and the job of an own enqueue is there and was not left failed |
| `ForwardSeam.PutsHaveJobs` | app/src/modules/ai/repositories/processing-job.repository.ts:32-47 | whatever the other sessions do, every document the relay enqueued has its job ever after |
| `ForwardSeam.ForwardRelay.EnqueueDocument` | app/src/modules/ai/repositories/processing-job.repository.ts:32-47 | the upsert is one Enqueue step: insert, re-arm of a FAILED job, or nothing; it throws only if the statement broke |
| `ForwardSeam.ForwardRelay.ForwardRow` | app/src/modules/content/forward-relay.service.ts:28-53 | among steps of others, an enqueue of the row's document and then its mark, which waits for the enqueue, or a prefix of these when it throws |
| `ForwardSeam.ForwardRelay.Pump` | app/src/modules/content/forward-relay.service.ts:25-54 | it reads the oldest unpublished rows; the first of them are marked and their jobs were started, all of them unless a statement broke; the own events are enqueue and mark for these rows, in order, and at most the next row's when it throws; over the whole call no row is marked before its document is enqueued, by anybody |
| `Delivery.EventKeepsInv` | app/src/worker/return-relay.service.ts:40-152 | workers, both relays, crashes, redeliveries, uploads and confirmations keep the platform invariant |
| `Delivery.HistoryKeepsInv` | app/src/worker/return-relay.service.ts:40-152 | the same over every history |
| `Delivery.ConcludeSays` | app/src/worker/return-relay.service.ts:62-87 | projecting a result makes a PROCESSING document READY exactly if the published result is READY with a valid question, and FAILED otherwise; nothing else changes |
| `Delivery.ReadyResultIsCompleted` | worker/internal/processing/postgres.go:122-133 | every READY result in the outbox is that of a COMPLETED job whose stored chunks its questions cite |
| `Delivery.ReadyMeansQuiz` | app/src/modules/content/content.service.ts:177-181 | in every history a READY document has a non-empty quiz: what the aggregate, with a minimum of one, made of the READY result of its completed job |
| `Delivery.FailedMeansRefused` | app/src/worker/return-relay.service.ts:62-71 | in every history a FAILED document has a published result that is a failure or has no valid question |
| `Delivery.AcknowledgedHasJob` | app/src/modules/content/forward-relay.service.ts:38-52 | an acknowledged forward row has its job in every history |
| `Settlement.HistoryKeepsSound` | app/src/worker/return-relay.service.ts:40-152 | in every history: a PROCESSING document whose job failed and was not armed again is owed the job's latest result, which is unpublished and unprojected; results are for the documents of their jobs; a document id has one owner |
| `Settlement.StuckForEver` | app/src/modules/ai/repositories/processing-job.repository.ts:39-44 | once a PROCESSING document's job is completed, its results are published and no relay has one left to project, it stays PROCESSING in every continuation |
| `Settlement.ProcessingCanBeSettledIff` | app/src/modules/ai/repositories/processing-job.repository.ts:39-44 | in every history a PROCESSING document can still become READY or FAILED if and only if it is not in that state |
| `Settlement.StuckDocumentIsReachable` | app/src/modules/content/repositories/content.repository.ts:51-84 | a concrete history reaches it: the only question is refused, the document is FAILED, and its owner confirms it again |
| `GoChunker.TrimLeavesNoSpace` | worker/internal/processing/chunk.go:24-25 | trimming (UTF-8 white space) leaves none in front and none behind |
| `GoChunker.CutsBehindFirstBreak` | worker/internal/processing/chunk.go:27-41 | a window ends at the end of the text, at 1500 bytes, or just behind the first space, newline or tab from byte 1200 on |
| `GoChunker.WindowsTile` | worker/internal/processing/chunk.go:26-41 | the windows tile the trimmed text: overlap exactly 150, at most 1500 bytes, all but the last longer than 1200 |
| `GoChunker.TilingCounts` | worker/internal/processing/chunk.go:61-65 | window lengths sum to L + 150(n-1), and 1051(n-1) <= L-1 |
| `GoChunker.PiecesWithinWindows` | worker/internal/processing/chunk.go:42-57 | trimming and dropping blanks never makes more pieces or bytes than the windows |
| `GoChunker.SegmentBudget` | worker/internal/processing/chunk.go:26-66 | pieces and bytes of one segment are bounded by its length |
| `GoChunker.TextNeverHitsLimits` | worker/internal/processing/chunk.go:14-15 | one TEXT segment under the 20 MiB read cap never reaches 20000 chunks or 24000000 bytes |
| `GoChunker.ChunkSegment` | worker/internal/processing/chunk.go:26-66 | the inner loop appends the segment's pieces, or stops exactly when a limit is exceeded |
| `GoChunker.ChunkText` | worker/internal/processing/chunk.go:17-69 | all pieces of all segments numbered in order, or ChunkLimit exactly when they exceed a limit; chunk i has index i and its identifier, a text of at most 1500 bytes, trimmed, that is a slice of some segment, and that segment's page or a range of the text's length that starts at it or at white space just before it; every byte that is not white space is in some chunk; at most 20000 chunks |
| `GoChunker.PiecePosition` | worker/internal/processing/chunk.go:42 | where a trimmed window truly lies in its segment |
| `GoChunker.LocatorOffset` | worker/internal/processing/chunk.go:51-55 | a text-range locator has the piece's length and starts early by the white space trimmed from its window: exact just when there is none |
| `GoChunker.ChunksAreLocated` | worker/internal/processing/chunk.go:23-57 | every chunk of a document is the trimmed text of a window of one of its segments, at its true position, under that locator law |
| `GoChunker.PiecesCover` | worker/internal/processing/chunk.go:23-66 | every byte of a segment that is not part of white space lies in one of its pieces |
| `ChunkEncoding.PieceValidIff` | worker/internal/processing/chunk.go:42-61 | a piece of a valid UTF-8 segment is valid UTF-8 if and only if neither end of its window falls on a continuation byte |
| `ChunkEncoding.SegmentValidIff` | worker/internal/processing/chunk.go:26-66 | all pieces of a valid segment are valid if and only if no window cuts a character |
| `ChunkEncoding.AccentedIsCut` | worker/internal/processing/chunk.go:28-40 | an a and at least 750 accented letters: the first piece is not valid UTF-8 |
| `TsChunker.TrimBounds` | app/src/modules/ai/chunk.service.ts:120-126 | the two loops find the trimmed range |
| `TsChunker.PreviousBoundary` | app/src/modules/ai/chunk.service.ts:156-161 | the greatest boundary in the interval, or the minimum |
| `TsChunker.NextBoundary` | app/src/modules/ai/chunk.service.ts:163-167 | the least boundary behind start, or none where the source throws |
| `TsChunker.SelectChunkEnd` | app/src/modules/ai/chunk.service.ts:138-154 | all of the rest if it fits the maximum, else the last boundary within the target with white space behind it, else the last within the maximum, else one grapheme |
| `TsChunker.PrefersBreaks` | app/src/modules/ai/chunk.service.ts:147-152 | if any boundary within the target has white space behind it, the cut is such a boundary, and no earlier than it |
| `TsChunker.FillsTheWindow` | app/src/modules/ai/chunk.service.ts:145-153 | without such a boundary the window reaches as far as the maximum allows |
| `TsChunker.NextStartOverlaps` | app/src/modules/ai/chunk.service.ts:89-94 | the next window starts at the last boundary that gives at least the overlap, or one unit behind the start when the overlap is longer than the window; where this one ended if there is no such boundary |
| `TsChunker.WindowsChain` | app/src/modules/ai/chunk.service.ts:73-94 | windows start strictly later each time, never behind the previous end, and reach the end of the text |
| `TsChunker.WindowsWellCut` | app/src/modules/ai/chunk.service.ts:138-154 | for target <= max every cut is a grapheme boundary and every window is at most max long or a single grapheme |
| `TsChunker.KeptFits` | app/src/modules/ai/chunk.service.ts:75-87 | a trimmed piece is at most max long or lies within one grapheme |
| `TsChunker.PiecesLocated` | app/src/modules/ai/chunk.service.ts:169-173 | every piece, white at neither end, is the slice of the original segment that its locator names, offset by offset; a page locator is the segment's own |
| `TsChunker.PiecesCover` | app/src/modules/ai/chunk.service.ts:65-96 | every character of the segment that is not white space lies in a piece |
| `TsChunker.SplitSegment` | app/src/modules/ai/chunk.service.ts:65-96 | the loop returns exactly the specified pieces, for every text, segmentation and setting |
| `TsChunker.Chunk` | app/src/modules/ai/chunk.service.ts:37-63 | the pieces of all segments numbered in order, or the limit error exactly when they are too many or too long; every chunk has its index, its identifier and the slice of a segment that its locator names; every character that is not white space lies in a chunk |
| `CopyDetector.TokensAreClean` | app/src/modules/ai/quiz-generation-output.source-validation.ts:60-70 | tokens are non-empty and free of the key separator |
| `CopyDetector.TokensAreMatches` | app/src/modules/ai/quiz-generation-output.source-validation.ts:60-70 | the tokens are the successive matches of the pattern, each from a letter as far as letters, numbers, hyphens and underscores go, and no letter is left out |
| `CopyDetector.FindShortestQualifyingLength` | app/src/modules/ai/quiz-generation-output.source-validation.ts:83-108 | the shortest qualifying length from a start, and none exactly when no length qualifies, beyond 30 tokens too |
| `CopyDetector.KeyInjective` | app/src/modules/ai/quiz-generation-output.source-validation.ts:110-116 | the U+0001-joined key determines the window |
| `CopyDetector.CreateShortestQualifyingWindowSet` | app/src/modules/ai/quiz-generation-output.source-validation.ts:73-81 | the set holds exactly the keys of the shortest qualifying windows of all starts |
| `CopyDetector.SharedRunMeetsKey` | app/src/modules/ai/quiz-generation-output.source-validation.ts:33-57 | a shared qualifying run of any length exists exactly when a shortest window of the text has its key in the source's set |
| `CopyDetector.RejectIfCopied` | app/src/modules/ai/quiz-generation-output.source-validation.ts:33-58 | rejects exactly when some shortest window's key is in the set |
| `CopyDetector.ValidateAgainstSource` | app/src/modules/ai/quiz-generation-output.source-validation.ts:16-31 | rejects exactly when the stem, the explanation or an option of some question shares with the source a run of English-like tokens of at least 6 tokens and 30 characters |
| `AuditIgnore.CollectDependencyVersions` | deploy/dev/audit-high.js:22-30 | exactly the versions of that package at any depth of the tree |
| `AuditIgnore.IgnorableIsClosed` | deploy/dev/audit-high.js:45-60 | the ignorable names are closed under the rule |
| `AuditIgnore.IgnorableIsLeast` | deploy/dev/audit-high.js:45-60 | and contained in every set closed under it |
| `AuditIgnore.IgnorableIff` | deploy/dev/audit-high.js:32-60 | ignorable exactly if reported and either in brace-expansion with advisories, each one of the two, while something is installed and nothing but 1.1.18, 2.1.4 and 5.0.9, or without an advisory of its own and all its causes, at least one, are ignorable |
| `AuditIgnore.UnpatchedVersionExcusesNothing` | deploy/dev/audit-high.js:32-38 | with nothing installed, or any version beside the three, no name is excused |
| `AuditIgnore.SurvivesIffUnfounded` | deploy/dev/audit-high.js:40-63 | a finding survives exactly when it lies in a group whose members are unpatched and each have an advisory, no cause, or a cause in the group: cycles excuse nobody |
| `AuditIgnore.UselessCanBeRemoved` | deploy/dev/audit-high.js:42 | a name without a short excuse is of no use in another's short excuse, so refusing visited names loses nothing |
| `AuditIgnore.Audit.IsIgnored` | deploy/dev/audit-high.js:40-63 | true only for ignorable names; false only if no excuse avoids the visited names; the memo stays sound; terminates on cyclic graphs |
| `AuditIgnore.Audit.UnresolvedVulnerabilities` | deploy/dev/audit-high.js:35-66 | exactly the findings outside the least fixed point, in report order, whatever the memo holds; all of them when a version beside the three patched ones is installed |
| `AuditIgnore.Filter` | deploy/dev/audit-high.js:40-66 | the versions of brace-expansion installed anywhere in the tree decide what is excused; one beside the three patched ones, or none at all, leaves every finding in the report |
| `BoundedMap.RunsAreGood` | app/src/modules/ai/bounded-concurrency.ts:10-25 | every schedule of the workers' moves, finished or not, keeps the shared state and the discipline of its trace, and uses up a bounded number of moves |
| `BoundedMap.EverySchedule` | app/src/modules/ai/bounded-concurrency.ts:7-34 | for every schedule: starts in order, at most once, none after a failure; at no point more in flight than items, nor than the concurrency; nothing at all for a concurrency of zero or less; at most two moves for each item and one for each worker, and until all workers have returned some move is possible; then the first recorded failure is thrown, otherwise the mapped items in order exactly when all resolve to defined values; with a worker, and no rejection without a reason, it throws exactly if some item is rejected |
| `BoundedMap.BoundIsReached` | app/src/modules/ai/bounded-concurrency.ts:26-33 | for a positive concurrency some schedule has as many in flight as the smaller of concurrency and items |
| `BoundedMap.FirstFailureIsFirst` | app/src/modules/ai/bounded-concurrency.ts:19-22 | the failure recorded is the reason of the earliest settled rejection |
| `BoundedMap.SettleItem` | app/src/modules/ai/bounded-concurrency.ts:17-24 | the code of a settlement is the settling move: result and next item, or first failure and return |
| `BoundedMap.MapWithBoundedConcurrency` | app/src/modules/ai/bounded-concurrency.ts:7-34 | the call runs some schedule to its end and settles with its result; never more calls in flight than items, nor than the concurrency; so all that holds for every schedule holds for it |
| `Generation.AppendQuestions` | app/src/modules/ai/quiz-generation.service.ts:326-342 | appends one question per draft with consecutive ordinals and the chunk's citation |
| `Generation.Generate` | app/src/modules/ai/quiz-generation.service.ts:101-120 | the question list is laid out from the chunks in index order and what each resolves to, whatever the schedule; there is one exactly when all resolve and there is a worker or no chunk; with a worker, and no rejection without a reason, it throws exactly if some chunk is rejected, and the reason is a chunk's |
| `Generation.LaidInOrder` | app/src/modules/ai/quiz-generation.service.ts:116-120 | ordinals are positions, every question cites the chunk it came from, and chunk order is kept |
| `Generation.ArrivalOrderIrrelevant` | app/src/modules/ai/quiz-generation.service.ts:102-104 | with distinct indexes the order in which chunks arrive does not matter |
| `JsonText.QuoteRoundTrip` | app/src/modules/ai/quiz-generation.prompt.ts:66 | reading a string literal (escapes of section 7 of RFC 8259, lone surrogates escaped) gives back the string |
| `JsonText.ObjectReads` | app/src/modules/ai/quiz-generation.prompt.ts:69-74 | the text of an object from its first property and the text of the rest: braces, commas, and nothing else |
| `JsonText.RoundTrip` | app/src/modules/ai/quiz-generation.prompt.ts:63-74 | parsing the printed text of any value, before any delimiter, gives back the value and the rest |
| `JsonText.TextHasNoControls` | app/src/modules/ai/quiz-generation.prompt.ts:63-74 | no printed value contains a control character, so canonical JSON is one line |
| `CanonicalJson.OrderedMeansSame` | app/src/modules/ai/quiz-generation.prompt.ts:69-74 | ordering property names keeps the meaning, with objects as finite maps |
| `CanonicalJson.CanonicalUnique` | app/src/modules/ai/quiz-generation.prompt.ts:69-74 | two ordered values with the same meaning are equal |
| `CanonicalJson.CanonicalTextIffSameMeaning` | app/src/modules/ai/quiz-generation.prompt.ts:63-74 | two values have the same canonical text exactly when they mean the same |
| `CacheKey.UnifiedUnchanged` | app/src/modules/ai/quiz-generation.prompt.ts:59-61 | newline unification leaves exactly the texts without CR unchanged |
| `CacheKey.FirstReturnUnified` | app/src/modules/ai/quiz-generation.prompt.ts:59-61 | the first CR, with an LF behind it, becomes one LF, and the rest is unified in turn |
| `CacheKey.FingerprintReads` | app/src/modules/ai/quiz-generation.prompt.ts:35-44 | the fingerprint text, written out line by line |
| `CacheKey.CacheKeyReads` | app/src/modules/ai/quiz-generation.prompt.ts:46-57 | the cache-key text is the fingerprint text behind "source-text" and the source |
| `CacheKey.FingerprintDetermines` | app/src/modules/ai/quiz-generation.prompt.ts:35-44 | fingerprint texts agree exactly when template, identity and meaning of the parameters agree (identities are one line) |
| `CacheKey.CacheKeyDetermines` | app/src/modules/ai/quiz-generation.prompt.ts:46-57 | for one template, cache-key texts agree exactly when normalised source, identity and meaning of the parameters agree |
| `CacheKey.PromptsShareAKeyIff` | app/src/modules/ai/quiz-generation.prompt.ts:46-57 | two prompts of one identity and meaning can share a key text if and only if, each behind its heading line, one template ends like the other, with no CR in what remains in front |
| `CacheKey.CacheKeysAgreeIff` | app/src/modules/ai/quiz-generation.prompt.ts:46-57 | key texts of any two templates agree if and only if the longer one embeds the shorter one so, the source of the shorter has exactly that surplus more, and the rest agrees |
| `CacheKey.CollidingTemplates` | app/src/modules/ai/quiz-generation.prompt.ts:46-57 | a template that holds the heading line collides with what follows it; so does one that only starts with the heading's words, with the empty template |
| `MigrationOrder.EqualWidthOrders` | app/src/database/migrate.ts:157 | on digit strings of one width, numeric collation and text order agree |
| `MigrationOrder.PairAgreesIff` | worker/internal/migrations/runner.go:36 | by number and by name a pair is compared alike if and only if it is not crossed: the narrower version's number lies from that of as many digits of the wider one up to the wider one's own |
| `MigrationOrder.OrdersAgreeIff` | worker/internal/migrations/runner.go:36 | for digit versions of any widths, with leading zeros and with equal numbers: both runners order the migrations alike if and only if no pair is crossed and versions of the same number are listed in text order |
| `MigrationOrder.OneWidthIsUncrossed` | app/src/database/migrate.ts:157 | different versions of one width are never crossed |
| `MigrationOrder.WidthsMatter` | app/src/database/migrate.ts:157 | 9_a and 10_b are crossed, and the runners order them differently |
| `MigrationOrder.VersionTextIff` | app/src/database/migrate.ts:327 | versions alone, as the tracking table compares them, follow their numbers if and only if the pair is not strictly crossed |
| `Migrations.LatestIsLastIff` | app/src/database/migrate.ts:327 | the row picked for reverting is the migration applied last, at every prefix, if and only if no pair is strictly crossed |
| `Migrations.NothingPendingAfter` | app/src/database/migrate.ts:296-297 | after a complete run up nothing is pending, for any directory and table |
| `Migrations.NothingFreshAfter` | worker/internal/migrations/runner.go:36-47 | the same for the Go runner's selection |
| `Migrations.FreshIsPending` | worker/internal/migrations/runner.go:41-47 | looking versions up one by one or all at once selects the same when each is used once |
| `Migrations.UpKeepsPrefix` | app/src/database/migrate.ts:293-322 | in any release of one lineage, any part of a run up leads from a prefix of the lineage to a prefix; a complete one leaves nothing of the release behind |
| `Migrations.DownKeepsPrefix` | app/src/database/migrate.ts:324-354 | going down from a prefix leads to the prefix one shorter |
| `Migrations.GoSelectsPending` | worker/internal/migrations/runner.go:36-47 | in one lineage the Go runner selects what the Node runner does, in the same order |
| `Migrations.Database.Apply` | app/src/database/migrate.ts:307-321 | script and tracking row together or not at all; an error leaves both possible; it succeeds exactly if nothing broke and the version was not recorded |
| `Migrations.Database.RunUp` | app/src/database/migrate.ts:293-322 | for any directory and tables: applies the pending migrations in order up to some point, all of them on success; it fails only if something broke, a down script is missing or a version is recorded already |
| `Migrations.Database.RunDown` | app/src/database/migrate.ts:324-354 | for any directory and tables: nothing, or the revert of the first file with the greatest recorded version; the latter on success unless the table is empty; an empty table is a success that changes nothing; it fails only if something broke, a down script is missing or the version has no file |
| `Migrations.Database.Run` | worker/internal/migrations/runner.go:18-70 | for any directory and tables: applies its selection in order up to some point, all of it on success; it fails only if something broke or a name has no underscore |
| `Migrations.Database.Serve` | app/src/database/migrate.ts:182-224 | every lock-serialised history of the three commands, each with its own release of one lineage in any order and with failures anywhere, is always at a prefix of the lineage; a last run up succeeds unless something broke or a down script is missing, and leaves nothing of its release behind |
| `Retention.ParseVersion` | deploy/dev/select-ghcr-versions.py:47-72 | a version is eligible exactly with a positive id, a digest, a time, and one commit tag as its only tag; id, digest and time are carried over |
| `Retention.PlainBuildIff` | deploy/dev/select-ghcr-versions.py:47-72 | the same digit by digit: "sha256:" and 64, "sha-" and 40 lower-case hexadecimal digits |
| `Retention.SelectedIffExpendable` | deploy/dev/select-ghcr-versions.py:82-90 | an id is selected exactly when its version is eligible, 30 days old, unprotected, and at least ten eligible versions are newer |
| `Retention.ListingOrderIrrelevant` | deploy/dev/select-ghcr-versions.py:82-90 | the selection does not depend on the order of the listing |
| `Retention.ProtectionIsMonotone` | deploy/dev/select-ghcr-versions.py:86-90 | protecting more digests never selects more, for any listing |
| `Retention.NothingLeftToSelect` | deploy/dev/select-ghcr-versions.py:82-90 | among the survivors, at the same instant, nothing is selected |

## Left out

- The user interface, HTTP controllers, storage, PDF extraction, provider SDKs and TLS: input and output around the core.
- Failure classification of the provider adapters and `decodeQuiz`: fixed-size checks; an attempt's outcome is a parameter.
- The older Node poller and its SQL (`claimPending`, `requeueExpiredLeases`), and `Complete` and `ReplaceChunks` of the Go store: not called by the Go worker.
- Job types: there is one, so a document has one job.
- Model selection, credits, budgets and usage records: they do not influence the transitions modelled.
- Expiry of dead letters after 30 days: no code deletes them here; a deletion would re-open the way out that `TechnicalFailuresEndTheJobIff` names.
- The chunk identifier's SHA-1/SHA-256 and UUID layout: identities are symbolic.
- Stale redelivery against a re-confirmed document: payloads carry no attempt, so an old FAILED result can hit a newer attempt's document; nothing is claimed about that case beyond the READY invariant and whether the document can still be settled.
- QuizAggregate.CreateQuiz: the text checks of a question, its normalised stem and the collation of chunk ids and stems are parameters.
- ReturnSeam.ReturnRelay.DeliverRow: the quiz and projection repositories are given by their idempotent effect, since their SQL is behind ports.
- ForwardSeam.ForwardRelay.EnqueueDocument: correlation ids and model selection of the row are not modelled.
- Store.PostgresStore.Claim: the lock set is given as a parameter; which of several oldest rows is returned is open, as in SQL.
- QueueTokens.ClaimTransfersTheJob: a claim whose own transaction lasts fifteen minutes commits a token that is already dead, so liveness is stated only below that.
- ChunkEncoding.SegmentValidIff: that PostgreSQL refuses invalid UTF-8 is not part of the queue's model, where any statement may fail.
- CopyDetector.ValidateAgainstSource: Unicode normalisation and the classes for letters and numbers are parameters; characters stand for code units, which is exact for the English-like tokens that are counted.
- AuditIgnore.Audit.IsIgnored: names inherited from JavaScript's Object.prototype and `via` entries that are neither strings nor objects are not modelled.
- TsChunker.Chunk: the segmenter is a parameter; a runtime without `Intl.Segmenter` is not modelled.
- BoundedMap.EverySchedule: an item's promise settles the same way in every schedule; workers are counted, not named; `results` is a sequence updated in the shared state, not an array.
- Generation.Generate: caching, provider calls and persistence are the settlement of a chunk's promise.
- CanonicalJson.CanonicalTextIffSameMeaning: numbers are their JSON text, so NaN and infinities (printed as null) and -0 (printed as 0) are outside it.
- CacheKey.CacheKeyDetermines: speaks of the text that is hashed, not of its SHA-256.
- CacheKey.PromptsShareAKeyIff: sources range over texts without CR; Unicode normalisation could exclude some of them.
- MigrationOrder.OrdersAgreeIff: file names of one directory are given as a list in the order the directory is read.
- Migrations.Database.Serve: acquiring the advisory lock, its deadline and the clean-up timers are not modelled; a command that gets no lock does nothing.
- Migrations.Database.RunDown: the text order of the database's collation is taken as code-unit order, which is the same for digits.
- Retention.ParseVersion: time parsing is a parameter, and Python's bool as int is not modelled.
