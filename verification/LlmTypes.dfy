/** Requests, usage and retry policy of the LLM client
    (crates/llm-client/src/types.rs, crates/llm-client/src/retry.rs). */
module LlmTypes {

  const U32_SIZE := 0x1_0000_0000
  const U64_SIZE := 0x1_0000_0000_0000_0000

  type u32 = n: nat | n < U32_SIZE
  type u64 = n: nat | n < U64_SIZE

  datatype Option<+T> = None | Some(value: T)

  /** The fields of a usage record. */
  datatype RawUsage = RawUsage(input: u32, output: u32, cached: Option<u32>)

  predicate WellFormed(u: RawUsage) {
    u.cached.Some? ==> u.cached.value <= u.input
  }

  /** Token usage as the client receives it: every provider builds it through
      `NewUsage`, and a reply it refuses ends as an error. */
  type Usage = u: RawUsage | WellFormed(u) witness RawUsage(0, 0, None)

  function NewUsage(input: u32, output: u32, cached: Option<u32>): (r: Option<Usage>)
    ensures r.Some? <==> (cached == None || cached.value <= input)
    ensures r.Some? ==> r.value == RawUsage(input, output, cached)
  {
    if cached.Some? && cached.value > input then None else Some(RawUsage(input, output, cached))
  }

  datatype LlmOperation =
    | SetupConnection
    | Translation
    | ChapterBoundaryDetection
    | CharacterExtraction
    | CanonExtraction
    | GameRuleGeneration
    | SeriesMatching
    | NarrativeNodeDetection
    | BranchGeneration
    | NarrativeTransition
    | PlayerChapter
    | CharacterChat
    | MemorySummary
    | OfflineEvaluation
  {
    function MaxOutputTokens(): u32 {
      match this
      case SetupConnection => 8
      case Translation => 8192
      case MemorySummary => 256
      case SeriesMatching => 512
      case OfflineEvaluation => 800
      case ChapterBoundaryDetection => 2048
      case CharacterChat => 5120
      case CanonExtraction => 8192
      case GameRuleGeneration => 8192
      case CharacterExtraction => 4096
      case NarrativeNodeDetection => 4096
      case BranchGeneration => 4096
      case NarrativeTransition => 4096
      case PlayerChapter => 8192
    }
  }

  datatype ChatRequest = ChatRequest(
    operation: LlmOperation,
    model: string,
    roles: seq<string>,
    maxTokens: Option<u32>,
    jsonMode: bool,
    hasSchema: bool,
    thinking: Option<bool>,
    maxAttempts: Option<u32>,
    hasObserver: bool)
  {
    /** Thinking adds 4096 tokens, saturating in 32 bits and capped at 8192;
        series matching counts thinking inside its own limit. */
    function EffectiveMaxOutputTokens(): (r: Option<u32>)
      ensures r.Some? <==> maxTokens.Some?
      // the saturation never shows: this is the exact minimum
      ensures r.Some? && thinking == Some(true) && !operation.SeriesMatching? ==>
                r.value <= 8192 && r.value <= maxTokens.value + 4096
                && (r.value == 8192 || r.value == maxTokens.value + 4096)
      ensures thinking != Some(true) || operation.SeriesMatching? ==> r == maxTokens
    {
      if maxTokens.None? then None
      else if thinking == Some(true) && operation != SeriesMatching then
        var raised := if maxTokens.value + 4096 < U32_SIZE then maxTokens.value + 4096 else U32_SIZE - 1;
        Some(if raised < 8192 then raised else 8192)
      else maxTokens
    }
  }

  /** True when the client would send this request at all. */
  predicate ValidateRequest(req: ChatRequest) {
    && (req.maxAttempts.Some? ==> 1 <= req.maxAttempts.value <= 5)
    && req.EffectiveMaxOutputTokens().Some?
    && 0 < req.EffectiveMaxOutputTokens().value <= req.operation.MaxOutputTokens()
  }

  const MAX_RETRIES := 3
  const RETRY_DELAYS: seq<nat> := [1, 2, 4]
  const MAX_RETRY_AFTER_SECS := 120

  /** The policy covers exactly the statuses that are labelled as retryable. */
  predicate ShouldRetry(status: nat, attempt: nat): (r: bool)
    ensures r <==> attempt < MAX_RETRIES && ErrorStatus(Some(status)) in {RateLimited, ProviderError}
  {
    attempt < MAX_RETRIES && (status == 429 || status >= 500)
  }

  /** Seconds to wait. The table has one entry per retry, so the index is the
      caller's obligation: a retry that `ShouldRetry` admitted. */
  function Delay(attempt: nat, retryAfter: Option<nat>): (seconds: nat)
    requires retryAfter.Some? || attempt < MAX_RETRIES
    ensures seconds <= MAX_RETRY_AFTER_SECS
    ensures retryAfter.Some? && retryAfter.value <= MAX_RETRY_AFTER_SECS ==> seconds == retryAfter.value
    ensures retryAfter.Some? && retryAfter.value > MAX_RETRY_AFTER_SECS ==> seconds == MAX_RETRY_AFTER_SECS
    ensures retryAfter.None? ==> seconds == (if attempt == 0 then 1 else if attempt == 1 then 2 else 4)
  {
    if retryAfter.Some? then
      if retryAfter.value < MAX_RETRY_AFTER_SECS then retryAfter.value else MAX_RETRY_AFTER_SECS
    else RETRY_DELAYS[attempt]
  }

  /** Every status and reason label the client emits. */
  datatype Status =
    | Success
    | EmptyJsonMode
    | Truncated
    | EvidenceError
    | BudgetError
    | RateLimited
    | ProviderError
    | Rejected
    | ClientOrTransportError
    | Timeout
    | SetupTimeout
    | SetupError
    | StreamError
    | ConsumerDropped
    | Error
    | JsonModeFallback

  function ErrorStatus(apiStatus: Option<nat>): Status {
    match apiStatus
    case Some(status) =>
      if status == 429 then RateLimited else if status >= 500 then ProviderError else Rejected
    case None => ClientOrTransportError
  }
}
