/** The client side of the budget ledger protocol
    (crates/llm-client/src/diagnostic_budget.rs). */
module BudgetControl {
  import opened LlmTypes
  import opened CallTrace
  import opened Telemetry

  datatype Amount = Amount(attempts: u64, tokens: u64, costMicroCny: u64)

  datatype Profile = Profile(
    provider: string, model: string, origin: string,
    inputTokenCeiling: u64, inputMicroCny: u64, outputMicroCny: u64,
    maxMessages: nat, maxRequestBytes: nat, maxAttempts: u64,
    operations: map<LlmOperation, u32>)

  /** The four-layer-journey-diagnostic-v4 profile, chat part. */
  const DIAGNOSTIC_V4 := Profile(
    "deepseek", "deepseek-flash", "https://api.deepseek.com",
    1048576, 4, 12, 64, 262144, 2000,
    map op: LlmOperation | op != SeriesMatching :: op.MaxOutputTokens())

  function CheckedAdd(a: nat, b: nat): Option<u64> {
    if a + b < U64_SIZE then Some(a + b) else None
  }

  function CheckedMul(a: nat, b: nat): Option<u64> {
    if a * b < U64_SIZE then Some(a * b) else None
  }

  function Cost(p: Profile, input: nat, output: nat): nat {
    input * p.inputMicroCny + output * p.outputMicroCny
  }

  /** Everything a dispatch must satisfy besides fitting 64-bit arithmetic.
      `origin` is the parsed root URL's origin, None when it does not parse. */
  predicate Dispatchable(p: Profile, provider: string, origin: Option<string>, req: ChatRequest, wireLength: nat) {
    && req.EffectiveMaxOutputTokens().Some?
    && origin == Some(p.origin)
    && provider == p.provider
    && req.model == p.model
    && req.thinking == Some(false)
    && |req.roles| <= p.maxMessages
    && (forall role <- req.roles :: role == "system" || role == "user" || role == "assistant")
    && wireLength <= p.maxRequestBytes
    && req.EffectiveMaxOutputTokens().value != 0
    && req.operation in p.operations
    && req.EffectiveMaxOutputTokens().value <= p.operations[req.operation]
  }

  /** The quote of an attempt: what it can cost at most. The checked 64-bit
      operations never wrap; they refuse exactly when the exact cost or token
      count does not fit. */
  function Quote(p: Profile, provider: string, origin: Option<string>, req: ChatRequest,
                 wireLength: nat): (r: Option<Amount>)
    ensures r.Some? <==>
            && Dispatchable(p, provider, origin, req, wireLength)
            && p.inputTokenCeiling + req.EffectiveMaxOutputTokens().value < U64_SIZE
            && Cost(p, p.inputTokenCeiling, req.EffectiveMaxOutputTokens().value) < U64_SIZE
    ensures r.Some? ==>
              && r.value.attempts == 1
              && r.value.tokens == p.inputTokenCeiling + req.EffectiveMaxOutputTokens().value
              && r.value.costMicroCny == Cost(p, p.inputTokenCeiling, req.EffectiveMaxOutputTokens().value)
  {
    if !Dispatchable(p, provider, origin, req, wireLength) then None
    else
      var output := req.EffectiveMaxOutputTokens().value;
      var tokens := CheckedAdd(p.inputTokenCeiling, output);
      var inputCost := CheckedMul(p.inputTokenCeiling, p.inputMicroCny);
      var outputCost := CheckedMul(output, p.outputMicroCny);
      if tokens.None? || inputCost.None? || outputCost.None? then None
      else
        var cost := CheckedAdd(inputCost.value, outputCost.value);
        if cost.None? then None else Some(Amount(1, tokens.value, cost.value))
  }

  lemma CostMonotone(p: Profile, input: nat, output: nat, input': nat, output': nat)
    requires input <= input' && output <= output'
    ensures Cost(p, input, output) <= Cost(p, input', output')
  {
    assert input * p.inputMicroCny <= input' * p.inputMicroCny;
    assert output * p.outputMicroCny <= output' * p.outputMicroCny;
  }

  /** Any usage that `Settle` lets through costs at most the quote. */
  lemma SettledUsageFitsQuote(
    p: Profile, provider: string, origin: Option<string>, req: ChatRequest, wireLength: nat, u: Usage)
    requires Quote(p, provider, origin, req, wireLength).Some?
    requires WithinGrant(ConfigOf(p, req), u)
    ensures var q := Quote(p, provider, origin, req, wireLength).value;
            Cost(p, u.input, u.output) <= q.costMicroCny && u.input + u.output <= q.tokens
  {
    CostMonotone(p, u.input, u.output, p.inputTokenCeiling, req.EffectiveMaxOutputTokens().value);
  }

  /** For the compiled profile the arithmetic never refuses a dispatch. */
  lemma CompiledProfileNeverOverflows(provider: string, origin: Option<string>, req: ChatRequest, wireLength: nat)
    ensures Quote(DIAGNOSTIC_V4, provider, origin, req, wireLength).Some?
            <==> Dispatchable(DIAGNOSTIC_V4, provider, origin, req, wireLength)
  {
    if Dispatchable(DIAGNOSTIC_V4, provider, origin, req, wireLength) {
      var output := req.EffectiveMaxOutputTokens().value;
      assert output <= req.operation.MaxOutputTokens() <= 8192;
    }
  }

  function ConfigOf(p: Profile, req: ChatRequest): Config {
    Config(true, p.inputTokenCeiling,
           if req.EffectiveMaxOutputTokens().Some? then req.EffectiveMaxOutputTokens().value else 0)
  }

  // ----------------------------------------------------------- the exchanges

  const MAX_CONTROL_BYTES := 4096

  /** Reads a response body chunk by chunk; a failed chunk is None. It accepts
      exactly the bodies that arrive whole within the bound. */
  method ReadBody(chunks: seq<Option<seq<char>>>) returns (body: Option<seq<char>>)
    ensures body.Some? <==>
            (forall c <- chunks :: c.Some?) && |Joined(chunks)| <= MAX_CONTROL_BYTES
    ensures body.Some? ==> body.value == Joined(chunks)
  {
    var bytes: seq<char> := [];
    var i := 0;
    while i < |chunks|
      invariant 0 <= i <= |chunks|
      invariant forall j :: 0 <= j < i ==> chunks[j].Some?
      invariant bytes == Joined(chunks[..i]) && |bytes| <= MAX_CONTROL_BYTES
    {
      JoinedGrows(chunks, i);
      if chunks[i].None? {
        return None;
      }
      if |bytes| + |chunks[i].value| > MAX_CONTROL_BYTES {
        return None;
      }
      bytes := bytes + chunks[i].value;
      i := i + 1;
    }
    assert chunks[..i] == chunks;
    return Some(bytes);
  }

  function Joined(chunks: seq<Option<seq<char>>>): seq<char> {
    if chunks == [] then []
    else
      var last := chunks[|chunks| - 1];
      Joined(chunks[..|chunks| - 1]) + (if last.Some? then last.value else [])
  }

  lemma {:induction false} JoinedGrows(chunks: seq<Option<seq<char>>>, i: nat)
    requires i < |chunks|
    ensures Joined(chunks[..i + 1]) == Joined(chunks[..i]) + (if chunks[i].Some? then chunks[i].value else [])
    ensures |Joined(chunks[..i + 1])| <= |Joined(chunks)|
    decreases |chunks| - i
  {
    assert chunks[..i + 1][..i] == chunks[..i];
    if i + 1 < |chunks| {
      JoinedGrows(chunks, i + 1);
    } else {
      assert chunks[..i + 1] == chunks;
    }
  }

  datatype ReservationResponse = ReservationResponse(
    binding: string, attemptId: nat, ordinal: u64, reservation: Amount)

  datatype SettlementUsage = SettlementUsage(
    model: string, input: u64, output: u64, cached: Option<u64>)

  datatype SettlementResponse = SettlementResponse(
    binding: string, attemptId: nat, usage: SettlementUsage)

  /** What the network does to one exchange. `committed` says whether the owner
      applied the request at once, which the client cannot see when no reply comes. */
  datatype ReserveWait =
    | ReserveLost(committed: bool)
    | ReserveReply(response: ReservationResponse, late: bool)
    | ReserveExpired(committed: bool)

  datatype SettleWait =
    | SettleLost(committed: bool)
    | SettleReply(response: SettlementResponse)
    | SettleExpired(committed: bool)

  /** The end of an await: its value, unless the request deadline fired first. */
  datatype Awaited<+T> = Done(value: T) | DeadlineFired

  datatype Grant = Grant(attemptId: nat, outputLimit: u32, model: string, inputTokenCeiling: u64)

  predicate AckMatches(p: Profile, binding: string, attemptId: nat, quote: Amount, response: ReservationResponse) {
    && response.binding == binding
    && response.attemptId == attemptId
    && 1 <= response.ordinal <= p.maxAttempts
    && response.reservation == quote
  }

  predicate GrantMatches(p: Profile, cfg: Config, g: Grant, round: nat) {
    g.attemptId == round && g.outputLimit == cfg.outputLimit && g.model == p.model
      && g.inputTokenCeiling == cfg.inputCeiling
  }

  /** The model and usage a grant allows to be settled. */
  predicate Settleable(g: Grant, model: Option<string>, usage: Option<Usage>) {
    && usage.Some?
    && model == Some(g.model)
    && usage.value.input <= g.inputTokenCeiling
    && usage.value.output <= g.outputLimit
    && WellFormed(usage.value)
  }

  function ToSettle(g: Grant, u: Usage): SettlementUsage {
    SettlementUsage(g.model, u.input, u.output, if u.cached.Some? then Some(u.cached.value) else None)
  }

  /** The connection to one budget; it never changes. */
  datatype BudgetClient = BudgetClient(profile: Profile, binding: string) {

    /** The grant of an attempt, as far as the client decides it. */
    function GrantFor(req: ChatRequest, attemptId: nat): Grant {
      Grant(attemptId, if req.EffectiveMaxOutputTokens().Some? then req.EffectiveMaxOutputTokens().value else 0,
            profile.model, profile.inputTokenCeiling)
    }

    /** The matching, timely acknowledgement that alone makes a grant. */
    predicate Grants(provider: string, origin: Option<string>, req: ChatRequest, wireLength: nat, attemptId: nat,
                     wait: ReserveWait) {
      var quote := Quote(profile, provider, origin, req, wireLength);
      quote.Some? && wait.ReserveReply? && !wait.late
        && AckMatches(profile, binding, attemptId, quote.value, wait.response)
    }

    /** How a reservation ends, given what the network does. */
    function ReserveResult(provider: string, origin: Option<string>, req: ChatRequest, wireLength: nat, attemptId: nat,
                           wait: ReserveWait): Awaited<Option<Grant>>
    {
      if Grants(provider, origin, req, wireLength, attemptId, wait) then Done(Some(GrantFor(req, attemptId)))
      else if Quote(profile, provider, origin, req, wireLength).Some? && wait.ReserveExpired? then DeadlineFired
      else Done(None)
    }

    /** The owner's own acknowledgement of a usage that may be settled. */
    predicate Settles(grant: Grant, model: Option<string>, usage: Option<Usage>, wait: SettleWait) {
      && Settleable(grant, model, usage) && wait.SettleReply?
      && wait.response == SettlementResponse(binding, grant.attemptId, ToSettle(grant, usage.value))
    }

    /** How a settlement ends, given what the network does. */
    function SettleResult(grant: Grant, model: Option<string>, usage: Option<Usage>, wait: SettleWait): Awaited<bool> {
      if Settleable(grant, model, usage) && wait.SettleExpired? then DeadlineFired
      else Done(Settles(grant, model, usage, wait))
    }

    /** Reserves one attempt. A grant comes back exactly when a matching and
        timely acknowledgement does; every other outcome leaves whatever the
        owner charged in place and nothing that could be dispatched. */
    method Reserve(labels: RequestLabels, provider: string, origin: Option<string>, req: ChatRequest,
                   wireLength: nat, attemptId: nat, wait: ReserveWait)
      returns (r: Awaited<Option<Grant>>, ghost quote: Option<Amount>)
      requires labels.Valid() && labels.cfg == ConfigOf(profile, req)
      requires labels.view.phase == Waiting && labels.view.rounds == attemptId
      modifies labels
      ensures labels.Valid()
      ensures quote == Quote(profile, provider, origin, req, wireLength)
      ensures r == ReserveResult(provider, origin, req, wireLength, attemptId, wait)
      ensures r.Done? && r.value.Some? ==>
                && GrantMatches(profile, labels.cfg, r.value.value, attemptId)
                && labels.view == old(labels.view).(phase := Holding(attemptId), rounds := attemptId + 1)
                && labels.trace == old(labels.trace) + [ReserveSent(attemptId, true)] + [Granted(attemptId)]
      ensures quote.None? ==> labels.view == old(labels.view) && labels.trace == old(labels.trace)
      ensures quote.Some? && !(r.Done? && r.value.Some?) ==>
                && labels.view == old(labels.view).(phase := Asked(attemptId, wait.ReserveReply? || wait.committed),
                   rounds := attemptId + 1)
                && labels.trace == old(labels.trace) + [ReserveSent(attemptId, wait.ReserveReply? || wait.committed)]
    {
      var amount := Quote(profile, provider, origin, req, wireLength);
      quote := amount;
      hide Advance, Observe, Accepts, RecordAll, Record, Quote, Cost, Dispatchable;
      if amount.None? {
        return Done(None), quote;
      }
      var acknowledged := Exchange(labels, attemptId, amount.value, wait);
      if acknowledged.DeadlineFired? {
        return DeadlineFired, quote;
      }
      r := Done(if acknowledged.value then Some(GrantFor(req, attemptId)) else None);
    }

    /** Sends the reservation and checks the owner's reply. A lost or late
        acknowledgement never extends the deadline. */
    method Exchange(labels: RequestLabels, attemptId: nat, quote: Amount, wait: ReserveWait)
      returns (r: Awaited<bool>)
      requires labels.Valid() && labels.cfg.budgeted
      requires labels.view.phase == Waiting && labels.view.rounds == attemptId
      modifies labels
      ensures labels.Valid()
      ensures r == DeadlineFired <==> wait.ReserveExpired?
      ensures r == Done(true) <==>
              wait.ReserveReply? && !wait.late && AckMatches(profile, binding, attemptId, quote, wait.response)
      ensures r == Done(true) ==>
                && labels.view == old(labels.view).(phase := Holding(attemptId), rounds := attemptId + 1)
                && labels.trace == old(labels.trace) + [ReserveSent(attemptId, true)] + [Granted(attemptId)]
      ensures r != Done(true) ==>
                && labels.view == old(labels.view).(phase := Asked(attemptId, wait.ReserveReply? || wait.committed),
                   rounds := attemptId + 1)
                && labels.trace == old(labels.trace) + [ReserveSent(attemptId, wait.ReserveReply? || wait.committed)]
    {
      hide Advance, Observe, Accepts, RecordAll, Record;
      labels.NoteReserveSent(attemptId, wait.ReserveReply? || wait.committed);
      match wait {
        case ReserveLost(_) =>
          return Done(false);
        case ReserveExpired(_) =>
          return DeadlineFired;
        case ReserveReply(response, late) =>
          if !AckMatches(profile, binding, attemptId, quote, response) || late {
            return Done(false);
          }
          labels.NoteGranted(attemptId);
          return Done(true);
      }
    }

    /** Settles one dispatched attempt with the usage its reply reported. The
        result is true exactly when the owner's matching acknowledgement came
        back; an unusable usage is never sent. */
    method Settle(labels: RequestLabels, grant: Grant, model: Option<string>, usage: Option<Usage>, wait: SettleWait)
      returns (r: Awaited<bool>)
      requires labels.Valid() && labels.cfg.budgeted
      requires GrantMatches(profile, labels.cfg, grant, grant.attemptId)
      requires labels.view.phase == Returned(grant.attemptId) && !labels.view.sent && !labels.view.acked
      requires LastEnded(labels.view, Success) || LastEnded(labels.view, EmptyJsonMode)
      requires usage.Some? ==>
                 |labels.view.receipts| > 0 && labels.view.receipts[|labels.view.receipts| - 1] == usage
      modifies labels
      ensures labels.Valid()
      ensures r == SettleResult(grant, model, usage, wait)
      ensures if !Settleable(grant, model, usage) then
                labels.view == old(labels.view) && labels.trace == old(labels.trace)
              else
                var committed := wait.SettleReply? || wait.committed;
                && labels.view == old(labels.view).(
                     sent := true, delivered := committed, acked := r == Done(true),
                     settles := old(labels.view).settles + [Settlement(grant.attemptId, usage.value)])
                && labels.trace == old(labels.trace) + [SettleSent(grant.attemptId, usage.value, committed)]
                                   + (if r == Done(true) then [SettleAcked(grant.attemptId)] else [])
    {
      hide Advance, Observe, Accepts, RecordAll, Record;
      if !Settleable(grant, model, usage) {
        return Done(false);
      }
      var request := ToSettle(grant, usage.value);
      match wait {
        case SettleLost(committed) =>
          labels.NoteSettleSent(grant.attemptId, usage.value, committed);
          return Done(false);
        case SettleExpired(committed) =>
          labels.NoteSettleSent(grant.attemptId, usage.value, committed);
          return DeadlineFired;
        case SettleReply(response) =>
          labels.NoteSettleSent(grant.attemptId, usage.value, true);
          if response.binding != binding || response.attemptId != grant.attemptId || response.usage != request {
            return Done(false);
          }
          labels.NoteSettleAcked(grant.attemptId);
          return Done(true);
      }
    }
  }

  // ------------------------------------------------- what makes a grant

  /** A grant comes back exactly for a dispatch within the profile that the
      owner acknowledged in time, under this binding and attempt id, with the
      exact worst-case amount; it carries the limits of that dispatch. */
  lemma GrantedExactly(b: BudgetClient, provider: string, origin: Option<string>, req: ChatRequest, wireLength: nat,
                       k: nat, wait: ReserveWait, g: Grant)
    ensures
      b.ReserveResult(provider, origin, req, wireLength, k, wait) == Done(Some(g)) <==>
        var p := b.profile;
        && origin == Some(p.origin) && provider == p.provider && req.model == p.model && req.thinking == Some(false)
        && |req.roles| <= p.maxMessages && wireLength <= p.maxRequestBytes
        && (forall role <- req.roles :: role in {"system", "user", "assistant"})
        && req.EffectiveMaxOutputTokens() == Some(g.outputLimit) && g.outputLimit > 0
        && req.operation in p.operations && g.outputLimit <= p.operations[req.operation]
        && g.attemptId == k && g.model == p.model && g.inputTokenCeiling == p.inputTokenCeiling
        && wait.ReserveReply? && !wait.late
        && wait.response.binding == b.binding && wait.response.attemptId == k
        && 1 <= wait.response.ordinal <= p.maxAttempts && wait.response.reservation.attempts == 1
        && wait.response.reservation.tokens == p.inputTokenCeiling + g.outputLimit
        && wait.response.reservation.costMicroCny
           == p.inputTokenCeiling * p.inputMicroCny + g.outputLimit * p.outputMicroCny
  {
    hide Quote;
  }

  /** The deadline ends a reservation exactly where one was sent: for a dispatch
      within the profile whose worst case fits 64 bits. */
  lemma ReservationExpiresExactly(b: BudgetClient, provider: string, origin: Option<string>, req: ChatRequest,
                                  wireLength: nat, k: nat, wait: ReserveWait)
    ensures
      b.ReserveResult(provider, origin, req, wireLength, k, wait) == DeadlineFired <==>
        var p := b.profile;
        && wait.ReserveExpired?
        && origin == Some(p.origin) && provider == p.provider && req.model == p.model && req.thinking == Some(false)
        && |req.roles| <= p.maxMessages && wireLength <= p.maxRequestBytes
        && (forall role <- req.roles :: role in {"system", "user", "assistant"})
        && req.EffectiveMaxOutputTokens().Some?
        && var limit := req.EffectiveMaxOutputTokens().value;
           && limit > 0 && req.operation in p.operations && limit <= p.operations[req.operation]
           && p.inputTokenCeiling + limit < U64_SIZE
           && p.inputTokenCeiling * p.inputMicroCny + limit * p.outputMicroCny < U64_SIZE
  {
    hide Quote;
  }

  /** A settlement is acknowledged exactly by the owner's reply under this
      binding and attempt id that repeats the reply's own model and counts,
      field by field, all within the grant. */
  lemma SettledExactly(b: BudgetClient, g: Grant, model: Option<string>, usage: Option<Usage>, wait: SettleWait)
    ensures
      b.SettleResult(g, model, usage, wait) == Done(true) <==>
        && usage.Some? && model == Some(g.model)
        && usage.value.input <= g.inputTokenCeiling && usage.value.output <= g.outputLimit
        && wait.SettleReply?
        && wait.response.binding == b.binding && wait.response.attemptId == g.attemptId
        && wait.response.usage.model == g.model
        && wait.response.usage.input == usage.value.input && wait.response.usage.output == usage.value.output
        && (wait.response.usage.cached.Some? <==> usage.value.cached.Some?)
        && (usage.value.cached.Some? ==> wait.response.usage.cached.value == usage.value.cached.value)
    ensures
      b.SettleResult(g, model, usage, wait) == DeadlineFired <==>
        && usage.Some? && model == Some(g.model)
        && usage.value.input <= g.inputTokenCeiling && usage.value.output <= g.outputLimit
        && wait.SettleExpired?
  {
  }
}
