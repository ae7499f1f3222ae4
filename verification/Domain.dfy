/** Entities shared by the queue, the worker and the relays. */
module Domain {

  datatype Option<+T> = None | Some(value: T)

  type JobId = nat
  type LeaseId = nat
  /** Seconds on the database clock. */
  type Time = nat

  /** A document together with the owner every query filters on. */
  datatype Document = Document(id: nat, owner: nat)

  /** Failure codes a worker can write for a claimed job (worker/internal/processing/types.go). */
  datatype FailureCode =
    | ObjectNotFound
    | ObjectTooLarge
    | PdfInvalid
    | PdfTextNotFound
    | ChunkLimit
    | OutputInvalid
    | OutputTruncated
    | ProviderUnavailable
    | ProcessingFailed

  datatype Failure = Failure(code: FailureCode, technical: bool)

  datatype Outcome<+T> = Ok(value: T) | Err(failure: Failure)

  type byte = b: nat | b < 256
  /** Go strings are byte sequences. */
  type Text = seq<byte>

  datatype Locator = Page(page: nat) | TextRange(start: nat, end: nat)

  /** The identifier is derived from its four parts by a hash; it is kept symbolic. */
  datatype ChunkId = ChunkId(document: Document, index: nat, text: Text)

  datatype Chunk = Chunk(id: ChunkId, index: nat, text: Text, locator: Locator)

  datatype QuizOption = QuizOption(content: Text, isCorrect: bool)

  /** What the generator returns for one chunk. */
  datatype Draft = Draft(stem: Text, explanation: Text, options: seq<QuizOption>)

  datatype Citation = Citation(chunk: ChunkId, locator: Locator, snippet: Text)

  datatype Question = Question(draft: Draft, chunk: ChunkId, chunkIndex: nat, ordinal: nat, citation: Citation)

  /** Which statements break is an input; none of these does. */
  ghost predicate Smooth(breaks: nat -> bool, first: nat, next: nat) {
    forall i :: first <= i < next ==> !breaks(i)
  }

  lemma BrokeEarlier(breaks: nat -> bool, first: nat, middle: nat, next: nat)
    requires first <= middle && !Smooth(breaks, middle, next)
    ensures !Smooth(breaks, first, next)
  {
  }

  function QuestionOf(chunk: Chunk, ordinal: nat, draft: Draft): Question {
    Question(draft, chunk.id, chunk.index, ordinal, Citation(chunk.id, chunk.locator, chunk.text))
  }

  /** `questions[i]` was generated from, and cites, `chunks[i]`. */
  ghost predicate Assembled(chunks: seq<Chunk>, questions: seq<Question>) {
    && |questions| == |chunks|
    && forall i :: 0 <= i < |chunks| ==> Cites(questions[i], chunks[i], i)
  }

  ghost predicate Cites(question: Question, chunk: Chunk, ordinal: nat) {
    && question.ordinal == ordinal
    && question.chunk == chunk.id
    && question.chunkIndex == chunk.index
    && question.citation == Citation(chunk.id, chunk.locator, chunk.text)
  }
}
