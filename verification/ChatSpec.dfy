/** What a chat request comes to, as a function of the request, the budget and
    everything the world answers (crates/llm-client/src/client.rs). */
module ChatSpec {
  import opened LlmTypes
  import opened CallTrace
  import opened BudgetControl

  /** What the provider transport hands back, error types included. */
  datatype ProviderReply =
    | Answer(model: string, usage: Option<Usage>)
    | EmptyJson(model: string, usage: Option<Usage>, completeEmpty: bool)
    | IncompleteSeries(model: string, usage: Option<Usage>)
    | InvalidCompletion
    | EvidenceNotRetained
    | TruncatedCompletion
    | ApiError(status: nat, retryAfter: Option<nat>)
    | TransportError
  {
    function ApiStatus(): Option<nat> {
      if ApiError? then Some(status) else None
    }

    function RetryAfter(): Option<nat> {
      if ApiError? then retryAfter else None
    }
  }

  datatype Failure =
    | InvalidRequest | Unconfigured | UnsupportedSchema | UnsupportedSeries | CapacityBusy
    | AllowanceExhausted | ProviderFailed | SeriesOverBudget | ResponseEvidenceFailed | DeadlineExceeded

  datatype Outcome =
    | Answered(model: string, usage: Option<Usage>)
    | ControlError
    | EvidenceFailure
    | Failed(failure: Failure)

  /** Everything outside the client during one turn of the retry loop. */
  datatype Round = Round(
    wire: Option<nat>,                  // length of the encoded request, None if encoding fails
    reserve: ReserveWait,
    reply: Awaited<ProviderReply>,
    settle: SettleWait,
    sleepExpires: bool)

  type Script = nat -> Round

  datatype Budget = Broken | Unset | Set(client: BudgetClient)

  /** Whether a turn may dispatch, and with which grant. */
  datatype Start = Stop(result: Awaited<Outcome>) | Go(grant: Option<Grant>)

  /** Who sends: the budget and the resolved provider. */
  datatype Caller = Caller(budget: Budget, provider: string, origin: Option<string>) {

    predicate Budgeted() { budget.Set? }

    /** The reservation of attempt `k`: an optional grant, None for a refusal. */
    function ReserveFor(req: ChatRequest, wire: Option<nat>, wait: ReserveWait,
                        k: nat): Awaited<Option<Option<Grant>>> {
      if !budget.Set? then Done(Some(None))
      else if wire.None? then Done(None)
      else
        match budget.client.ReserveResult(provider, origin, req, wire.value, k, wait)
        case DeadlineFired => DeadlineFired
        case Done(grant) => Done(if grant.Some? then Some(grant) else None)
    }

    function SettleFor(grant: Option<Grant>, model: string, usage: Option<Usage>, wait: SettleWait): Awaited<bool> {
      if budget.Set? && grant.Some?
        then budget.client.SettleResult(grant.value, Some(model), usage, wait) else Done(true)
    }

    /** What a request cut off by its deadline returns. */
    function LateOutcome(req: ChatRequest, providerStarted: bool): Outcome {
      if budget.Set? then
        if providerStarted then EvidenceFailure else ControlError
      else if req.hasObserver then Failed(ResponseEvidenceFailed)
      else Failed(DeadlineExceeded)
    }
  }

  predicate AllowanceSpent(req: ChatRequest, k: nat) {
    req.maxAttempts.Some? && k >= req.maxAttempts.value
  }

  /** The allowance and the reservation of attempt `k`. */
  function StartOf(caller: Caller, req: ChatRequest, round: Round, k: nat): Start {
    if AllowanceSpent(req, k) then Stop(Done(Failed(AllowanceExhausted)))
    else
      match caller.ReserveFor(req, round.wire, round.reserve, k)
      case DeadlineFired => Stop(DeadlineFired)
      case Done(None) => Stop(Done(ControlError))
      case Done(Some(grant)) => Go(grant)
  }

  /** How the client classifies the reply of an attempt. */
  function AttemptStatus(budgeted: bool, req: ChatRequest, jsonMode: bool, reply: ProviderReply): Status {
    var series := req.operation == SeriesMatching;
    if reply.Answer? then Success
    else if (budgeted || req.hasSchema) && reply.InvalidCompletion? then EvidenceError
    else if reply.EvidenceNotRetained? then EvidenceError
    else if reply.EmptyJson? && (series || jsonMode) then EmptyJsonMode
    else if reply.IncompleteSeries? && series then Truncated
    else ErrorStatus(reply.ApiStatus())
  }

  /** Failures the client retries while the policy lasts. */
  predicate Retryable(req: ChatRequest, jsonMode: bool, reply: ProviderReply, budgeted: bool) {
    && req.operation != SeriesMatching && !reply.TruncatedCompletion?
    && AttemptStatus(budgeted, req, jsonMode, reply) in {RateLimited, ProviderError, ClientOrTransportError}
  }

  /** A series reply that is empty or cut short: real usage, and final. */
  predicate SeriesReceipt(req: ChatRequest, reply: ProviderReply) {
    req.operation == SeriesMatching && (reply.EmptyJson? || reply.IncompleteSeries?)
  }

  predicate OverSeriesLimit(req: ChatRequest, usage: Option<Usage>) {
    req.operation == SeriesMatching && usage.Some? && usage.value.output > req.operation.MaxOutputTokens()
  }

  /** How a turn of the loop ends: the request is over, the deadline fired
      (with an attempt scheduled or not), or another turn follows. */
  datatype TurnEnd =
    | Over(dispatched: bool, status: Status, outcome: Outcome)
    | Cut(dispatched: bool, scheduled: bool)
    | Again(jsonMode: bool, retries: nat)

  /** The turn reached the provider. */
  predicate Sends(t: TurnEnd) {
    t.Again? || t.dispatched
  }

  function AnswerEnd(caller: Caller, req: ChatRequest, grant: Option<Grant>, model: string, usage: Option<Usage>,
                     wait: SettleWait): (t: TurnEnd)
    ensures Sends(t)
  {
    match caller.SettleFor(grant, model, usage, wait)
    case DeadlineFired => Cut(true, false)
    case Done(settled) =>
      if !settled then Over(true, EvidenceError, EvidenceFailure)
      else if OverSeriesLimit(req, usage) then Over(true, Status.Error, Failed(SeriesOverBudget))
      else Over(true, Success, Answered(model, usage))
  }

  function EmptyEnd(caller: Caller, grant: Option<Grant>, retries: nat, reply: ProviderReply,
                    wait: SettleWait): (t: TurnEnd)
    requires reply.EmptyJson?
    ensures Sends(t)
  {
    if caller.Budgeted() && !reply.completeEmpty then Over(true, EvidenceError, EvidenceFailure)
    else
      match caller.SettleFor(grant, reply.model, reply.usage, wait)
      case DeadlineFired => Cut(true, false)
      case Done(settled) => if settled then Again(false, retries) else Over(true, EvidenceError, EvidenceFailure)
  }

  function ErrorEnd(req: ChatRequest, jsonMode: bool, retries: nat, reply: ProviderReply,
                    sleepExpires: bool): (t: TurnEnd)
    ensures Sends(t)
  {
    if req.operation != SeriesMatching && !reply.TruncatedCompletion?
       && ShouldRetry(if reply.ApiError? then reply.status else 500, retries)
    then if sleepExpires then Cut(true, true) else Again(jsonMode, retries + 1)
    else Over(true, Status.Error, Failed(ProviderFailed))
  }

  function ReplyEnd(caller: Caller, req: ChatRequest, grant: Option<Grant>, jsonMode: bool, retries: nat,
                    reply: ProviderReply, round: Round): (t: TurnEnd)
    ensures Sends(t)
  {
    if reply.Answer? then AnswerEnd(caller, req, grant, reply.model, reply.usage, round.settle)
    else FailureEnd(caller, req, grant, jsonMode, retries, reply, round.settle, round.sleepExpires)
  }

  function FailureEnd(caller: Caller, req: ChatRequest, grant: Option<Grant>, jsonMode: bool, retries: nat,
                      reply: ProviderReply, settle: SettleWait, sleepExpires: bool): (t: TurnEnd)
    ensures Sends(t)
  {
    if (caller.Budgeted() || req.hasSchema) && reply.InvalidCompletion? then
      Over(true, EvidenceError, if caller.Budgeted() then EvidenceFailure else Failed(ProviderFailed))
    else if reply.EvidenceNotRetained? then Over(true, EvidenceError, Failed(ResponseEvidenceFailed))
    else if SeriesReceipt(req, reply) then Over(true, Status.Error, Failed(ProviderFailed))
    else if jsonMode && reply.EmptyJson? then EmptyEnd(caller, grant, retries, reply, settle)
    else ErrorEnd(req, jsonMode, retries, reply, sleepExpires)
  }

  /** One turn of the loop. */
  function TurnOf(caller: Caller, req: ChatRequest, round: Round, k: nat, jsonMode: bool, retries: nat): (t: TurnEnd)
    ensures t.Again? ==> round.reply.Done? && t.jsonMode == (jsonMode && !round.reply.value.EmptyJson?)
    ensures t.Again? ==>
              (t.jsonMode == jsonMode && t.retries == retries + 1 <= MAX_RETRIES)
              || (jsonMode && !t.jsonMode && t.retries == retries)
    ensures t.Again? ==> req.operation != SeriesMatching && !AllowanceSpent(req, k)
    ensures t.Cut? && !t.dispatched ==> t.scheduled
  {
    match StartOf(caller, req, round, k)
    case Stop(Done(outcome)) => Over(false, BudgetError, outcome)
    case Stop(DeadlineFired) => Cut(false, true)
    case Go(grant) =>
      if round.reply.DeadlineFired? then Cut(true, false)
      else ReplyEnd(caller, req, grant, jsonMode, retries, round.reply.value, round)
  }

  // ------------------------------------------------------------ whole script

  /** JSON mode at turn `k`: until an empty JSON reply. */
  predicate JsonAt(req: ChatRequest, env: Script, k: nat) {
    if k == 0 then req.jsonMode
    else JsonAt(req, env, k - 1) && !(env(k - 1).reply.Done? && env(k - 1).reply.value.EmptyJson?)
  }

  /** Retries used before turn `k`: all earlier turns but the fallback. */
  function RetriesAt(req: ChatRequest, env: Script, k: nat): nat {
    if k > 0 && req.jsonMode && !JsonAt(req, env, k) then k - 1 else k
  }

  lemma {:induction false} JsonNeverComesBack(req: ChatRequest, env: Script, k: nat)
    ensures JsonAt(req, env, k) ==> req.jsonMode
  {
    if k > 0 { JsonNeverComesBack(req, env, k - 1); }
  }

  function TurnAt(caller: Caller, req: ChatRequest, env: Script, k: nat): TurnEnd {
    TurnOf(caller, req, env(k), k, JsonAt(req, env, k), RetriesAt(req, env, k))
  }

  function TurnsLeft(json: bool, retries: nat): nat {
    (if retries <= MAX_RETRIES then MAX_RETRIES - retries else 0) + Flag(json)
  }

  /** Another turn carries exactly what the script says it should. */
  lemma AgainCarries(caller: Caller, req: ChatRequest, env: Script, k: nat)
    requires TurnAt(caller, req, env, k).Again?
    ensures var t := TurnAt(caller, req, env, k);
      && t.jsonMode == JsonAt(req, env, k + 1) && t.retries == RetriesAt(req, env, k + 1)
      && TurnsLeft(t.jsonMode, t.retries) < TurnsLeft(JsonAt(req, env, k), RetriesAt(req, env, k))
      && (RetriesAt(req, env, k) <= MAX_RETRIES ==> t.retries <= MAX_RETRIES)
  {
    JsonNeverComesBack(req, env, k);
    hide TurnOf;
  }

  /** The end of a request: dispatches made, terminal status, result, and
      whether an attempt was left scheduled. */
  datatype ChatEnd = ChatEnd(dispatches: nat, status: Status, outcome: Outcome, undispatched: bool)

  function CloseAt(caller: Caller, req: ChatRequest, t: TurnEnd, k: nat): ChatEnd
    requires !t.Again?
  {
    if t.Over? then ChatEnd(k + Flag(t.dispatched), t.status, t.outcome, !t.dispatched)
    else ChatEnd(k + Flag(t.dispatched), Timeout, caller.LateOutcome(req, t.dispatched), t.scheduled)
  }

  function EndFrom(caller: Caller, req: ChatRequest, env: Script, k: nat): ChatEnd
    decreases TurnsLeft(JsonAt(req, env, k), RetriesAt(req, env, k))
  {
    var t := TurnAt(caller, req, env, k);
    if t.Again? then
      AgainCarries(caller, req, env, k);
      EndFrom(caller, req, env, k + 1)
    else CloseAt(caller, req, t, k)
  }

  /** The end of the request under this script. */
  function EndOf(caller: Caller, req: ChatRequest, env: Script): ChatEnd {
    EndFrom(caller, req, env, 0)
  }

  // ---------------------------------------------- what the world handed over

  /** The status of attempt `k`. */
  function StatusAt(budgeted: bool, req: ChatRequest, env: Script, k: nat): Status {
    match env(k).reply
    case DeadlineFired => Timeout
    case Done(reply) => AttemptStatus(budgeted, req, JsonAt(req, env, k), reply)
  }

  function Statuses(budgeted: bool, req: ChatRequest, env: Script, n: nat): seq<Status> {
    if n == 0 then [] else Statuses(budgeted, req, env, n - 1) + [StatusAt(budgeted, req, env, n - 1)]
  }

  /** The usage field of a reply that counts as answered: an answer, an empty
      JSON reply, or a series reply that is final. */
  function ReceiptOf(req: ChatRequest, jsonMode: bool, reply: ProviderReply): seq<Option<Usage>> {
    if reply.Answer? then [reply.usage]
    else if SeriesReceipt(req, reply) || (jsonMode && reply.EmptyJson?) then [reply.usage]
    else []
  }

  function ReceiptAt(req: ChatRequest, env: Script, k: nat): seq<Option<Usage>> {
    if env(k).reply.Done? then ReceiptOf(req, JsonAt(req, env, k), env(k).reply.value) else []
  }

  /** What the first `n` replies reported, in order. */
  function Receipts(req: ChatRequest, env: Script, n: nat): seq<Option<Usage>> {
    if n == 0 then [] else Receipts(req, env, n - 1) + ReceiptAt(req, env, n - 1)
  }

  /** The usage the provider reported for attempt `k`. */
  function ReportedAt(req: ChatRequest, env: Script, k: nat): Option<Usage> {
    var r := ReceiptAt(req, env, k);
    if r == [] then None else r[0]
  }

  predicate AllCarried(receipts: seq<Option<Usage>>) {
    forall r <- receipts :: r.Some?
  }

  /** A reply after which the request's usage report is made. */
  predicate Reports(req: ChatRequest, reply: ProviderReply) {
    reply.Answer? || SeriesReceipt(req, reply)
  }

  /** The usage report after `n` dispatches: `present` exactly when every
      counted reply carried usage. */
  function ReportAfter(req: ChatRequest, env: Script, n: nat): Option<bool> {
    if n > 0 && env(n - 1).reply.Done? && Reports(req, env(n - 1).reply.value)
      then Some(AllCarried(Receipts(req, env, n)))
    else None
  }

  /** Every settlement is of one of the first `n` attempts, with the usage the
      provider reported for it. */
  ghost predicate SettlesReported(req: ChatRequest, env: Script, settles: seq<Settlement>, n: nat) {
    forall s <- settles :: s.round < n && ReportedAt(req, env, s.round) == Some(s.usage)
  }

  /** The state in which a request is left is the one its script demands. */
  ghost predicate Accounts(caller: Caller, req: ChatRequest, env: Script, v: View) {
    var e := EndOf(caller, req, env);
    && v.phase == Closed(e.status) && v.dispatches == e.dispatches && v.undispatched == e.undispatched
    && v.statuses == Statuses(caller.Budgeted(), req, env, e.dispatches)
    && v.receipts == Receipts(req, env, e.dispatches)
    && v.report == ReportAfter(req, env, e.dispatches)
    && SettlesReported(req, env, v.settles, v.dispatches)
  }

  // ------------------------------------------- where and why a request ends

  predicate Grants(caller: Caller, req: ChatRequest, env: Script, k: nat) {
    StartOf(caller, req, env(k), k).Go?
  }

  /** The reservation was refused: no encoding, no quote, or no matching and
      timely acknowledgement. */
  predicate Refused(caller: Caller, req: ChatRequest, env: Script, k: nat) {
    !AllowanceSpent(req, k) && caller.ReserveFor(req, env(k).wire, env(k).reserve, k) == Done(None)
  }

  predicate ReserveLate(caller: Caller, req: ChatRequest, env: Script, k: nat) {
    !AllowanceSpent(req, k) && caller.ReserveFor(req, env(k).wire, env(k).reserve, k).DeadlineFired?
  }

  predicate Answers(caller: Caller, req: ChatRequest, env: Script, k: nat) {
    Grants(caller, req, env, k) && env(k).reply.Done? && env(k).reply.value.Answer?
  }

  function SettlementAt(caller: Caller, req: ChatRequest, env: Script, k: nat): Awaited<bool>
    requires Grants(caller, req, env, k) && env(k).reply.Done?
             && (env(k).reply.value.Answer? || env(k).reply.value.EmptyJson?)
  {
    caller.SettleFor(StartOf(caller, req, env(k), k).grant, env(k).reply.value.model, env(k).reply.value.usage,
      env(k).settle)
  }

  /** An answer that is paid for and within the series limit. */
  predicate Succeeds(caller: Caller, req: ChatRequest, env: Script, k: nat) {
    && Answers(caller, req, env, k) && SettlementAt(caller, req, env, k) == Done(true)
    && !OverSeriesLimit(req, env(k).reply.value.usage)
  }

  /** The plain-mode fallback: an empty JSON reply that was paid for. */
  predicate FallsBack(caller: Caller, req: ChatRequest, env: Script, k: nat) {
    && Grants(caller, req, env, k) && env(k).reply.Done? && env(k).reply.value.EmptyJson?
    && JsonAt(req, env, k) && req.operation != SeriesMatching
    && (caller.Budgeted() ==> env(k).reply.value.completeEmpty)
    && SettlementAt(caller, req, env, k) == Done(true)
  }

  /** A retry is scheduled: a retryable failure with retries left. */
  predicate Schedules(caller: Caller, req: ChatRequest, env: Script, k: nat) {
    && Grants(caller, req, env, k) && env(k).reply.Done? && RetriesAt(req, env, k) < MAX_RETRIES
    && Retryable(req, JsonAt(req, env, k), env(k).reply.value, caller.Budgeted())
  }

  predicate SleepLate(caller: Caller, req: ChatRequest, env: Script, k: nat) {
    Schedules(caller, req, env, k) && env(k).sleepExpires
  }

  /** Exactly the paid fallbacks and the retries that wake in time go on. */
  predicate GoesOn(caller: Caller, req: ChatRequest, env: Script, k: nat) {
    FallsBack(caller, req, env, k) || (Schedules(caller, req, env, k) && !env(k).sleepExpires)
  }

  lemma AgainIffGoesOn(caller: Caller, req: ChatRequest, env: Script, k: nat)
    ensures TurnAt(caller, req, env, k).Again? <==> GoesOn(caller, req, env, k)
  {
    hide JsonAt, RetriesAt, Caller.SettleFor, Caller.ReserveFor, OverSeriesLimit;
  }

  /** The last turn, and the end it makes. */
  lemma {:induction false} LastTurn(caller: Caller, req: ChatRequest, env: Script, from: nat) returns (n: nat)
    ensures n >= from && (forall k :: from <= k < n ==> GoesOn(caller, req, env, k)) && !GoesOn(caller, req, env, n)
    ensures !TurnAt(caller, req, env, n).Again?
    ensures EndFrom(caller, req, env, from) == CloseAt(caller, req, TurnAt(caller, req, env, n), n)
    decreases TurnsLeft(JsonAt(req, env, from), RetriesAt(req, env, from))
  {
    hide TurnAt, JsonAt, RetriesAt, GoesOn;
    AgainIffGoesOn(caller, req, env, from);
    if TurnAt(caller, req, env, from).Again? {
      AgainCarries(caller, req, env, from);
      n := LastTurn(caller, req, env, from + 1);
    } else {
      n := from;
    }
  }

  /** The first turn that does not go on. */
  ghost predicate LastTurnIs(caller: Caller, req: ChatRequest, env: Script, n: nat) {
    (forall k :: 0 <= k < n ==> GoesOn(caller, req, env, k)) && !GoesOn(caller, req, env, n)
  }

  lemma EndAtLastTurn(caller: Caller, req: ChatRequest, env: Script, n: nat)
    requires LastTurnIs(caller, req, env, n)
    ensures !TurnAt(caller, req, env, n).Again?
    ensures EndOf(caller, req, env) == CloseAt(caller, req, TurnAt(caller, req, env, n), n)
  {
    hide TurnAt, EndFrom, GoesOn;
    var m := LastTurn(caller, req, env, 0);
    assert m == n;
  }

  lemma LastTurnExists(caller: Caller, req: ChatRequest, env: Script) returns (n: nat)
    ensures LastTurnIs(caller, req, env, n)
  {
    hide TurnAt, EndFrom, GoesOn;
    n := LastTurn(caller, req, env, 0);
  }

  /** Why a request ends the way it does, by the guards of its last turn. */
  lemma EndingOfChat(caller: Caller, req: ChatRequest, env: Script, n: nat)
    requires LastTurnIs(caller, req, env, n)
    ensures var e := EndOf(caller, req, env);
      && e.dispatches == n + Flag(Grants(caller, req, env, n))
      && (e.outcome.Answered? <==> Succeeds(caller, req, env, n))
      && (e.status == Success <==> Succeeds(caller, req, env, n))
      && (e.outcome.Answered? ==> env(n).reply == Done(Answer(e.outcome.model, e.outcome.usage)))
      && (e.status == BudgetError <==> AllowanceSpent(req, n) || Refused(caller, req, env, n))
      && (e.undispatched <==> AllowanceSpent(req, n) || Refused(caller, req, env, n) || ReserveLate(caller, req, env, n)
                              || SleepLate(caller, req, env, n))
      && (e.status == Timeout ==> e.outcome == caller.LateOutcome(req, Grants(caller, req, env, n)))
      && (e.status == Timeout <==>
            || ReserveLate(caller, req, env, n) || SleepLate(caller, req, env, n)
            || (Grants(caller, req, env, n) && env(n).reply.DeadlineFired?)
            || SettleLate(caller, req, env, n))
  {
    EndAtLastTurn(caller, req, env, n);
    AgainIffGoesOn(caller, req, env, n);
    EndsWell(caller, req, env, n);
    EndsUndispatched(caller, req, env, n);
    EndsLate(caller, req, env, n);
    hide EndOf, LastTurnIs, TurnAt, Grants, Succeeds, Refused, ReserveLate, SleepLate, SettleLate;
  }

  lemma EndsWell(caller: Caller, req: ChatRequest, env: Script, k: nat)
    ensures var t := TurnAt(caller, req, env, k);
      && (Sends(t) <==> Grants(caller, req, env, k))
      && (t.Over? && t.outcome.Answered? <==> Succeeds(caller, req, env, k))
      && (t.Over? && t.status == Success <==> Succeeds(caller, req, env, k))
      && (t.Over? && t.outcome.Answered? ==> env(k).reply == Done(Answer(t.outcome.model, t.outcome.usage)))
      && (t.Over? ==> t.status != Timeout)
  {
    hide JsonAt, RetriesAt, Caller.SettleFor, Caller.ReserveFor, OverSeriesLimit;
  }

  lemma EndsUndispatched(caller: Caller, req: ChatRequest, env: Script, k: nat)
    ensures var t := TurnAt(caller, req, env, k);
      && (t.Over? && t.status == BudgetError <==> AllowanceSpent(req, k) || Refused(caller, req, env, k))
      && (t.Over? && !t.dispatched <==> AllowanceSpent(req, k) || Refused(caller, req, env, k))
      && (t.Cut? && t.scheduled <==> ReserveLate(caller, req, env, k) || SleepLate(caller, req, env, k))
  {
    hide JsonAt, RetriesAt, Caller.SettleFor, Caller.ReserveFor, OverSeriesLimit;
  }

  lemma EndsLate(caller: Caller, req: ChatRequest, env: Script, k: nat)
    ensures TurnAt(caller, req, env, k).Cut? <==>
            || ReserveLate(caller, req, env, k) || SleepLate(caller, req, env, k)
            || (Grants(caller, req, env, k) && env(k).reply.DeadlineFired?)
            || SettleLate(caller, req, env, k)
  {
    hide JsonAt, RetriesAt, Caller.SettleFor, Caller.ReserveFor, OverSeriesLimit;
  }

  /** The deadline fired while a settlement was on its way. */
  predicate SettleLate(caller: Caller, req: ChatRequest, env: Script, k: nat) {
    && Grants(caller, req, env, k) && env(k).reply.Done?
    && (env(k).reply.value.Answer?
        || (env(k).reply.value.EmptyJson? && JsonAt(req, env, k) && req.operation != SeriesMatching
            && (caller.Budgeted() ==> env(k).reply.value.completeEmpty)))
    && SettlementAt(caller, req, env, k).DeadlineFired?
  }

  /** A request that ends after its usage report without success: its answer
      was not paid for or was too long, or its series reply was no answer. */
  predicate FailsAfterReport(caller: Caller, req: ChatRequest, env: Script, n: nat) {
    && Grants(caller, req, env, n) && env(n).reply.Done?
    && ((Answers(caller, req, env, n) && !Succeeds(caller, req, env, n)) || SeriesReceipt(req, env(n).reply.value))
  }

  lemma FailedReportOfChat(caller: Caller, req: ChatRequest, env: Script, n: nat)
    requires LastTurnIs(caller, req, env, n)
    ensures var e := EndOf(caller, req, env);
            ReportAfter(req, env, e.dispatches).Some? && e.status != Success <==> FailsAfterReport(caller, req, env, n)
  {
    EndingOfChat(caller, req, env, n);
    if n > 0 { NoReportBefore(caller, req, env, n - 1); }
    hide EndOf, JsonAt, RetriesAt, AllCarried, Receipts, Succeeds, LastTurnIs, GoesOn, StartOf;
  }

  lemma NoReportBefore(caller: Caller, req: ChatRequest, env: Script, k: nat)
    requires GoesOn(caller, req, env, k)
    ensures env(k).reply.Done? && !Reports(req, env(k).reply.value)
  {
    hide JsonAt, RetriesAt, Caller.SettleFor, Caller.ReserveFor;
  }

  // -------------------------------------------------------------- the limit

  /** The most attempts a request may ever dispatch. */
  function DispatchLimit(req: ChatRequest): nat {
    var policy := if req.operation == SeriesMatching then 1 else if req.jsonMode then 5 else 4;
    if req.maxAttempts.Some? && req.maxAttempts.value < policy then req.maxAttempts.value else policy
  }

  lemma {:induction false} RetriesWithinPolicy(caller: Caller, req: ChatRequest, env: Script, n: nat)
    requires forall k :: 0 <= k < n ==> GoesOn(caller, req, env, k)
    ensures RetriesAt(req, env, n) <= MAX_RETRIES
  {
    if n > 0 {
      RetriesWithinPolicy(caller, req, env, n - 1);
      assert GoesOn(caller, req, env, n - 1);
      AgainIffGoesOn(caller, req, env, n - 1);
      hide GoesOn;
      AgainCarries(caller, req, env, n - 1);
    }
  }

  lemma EndWithinLimit(caller: Caller, req: ChatRequest, env: Script)
    requires req.maxAttempts.Some? ==> req.maxAttempts.value > 0
    ensures EndOf(caller, req, env).dispatches <= DispatchLimit(req)
  {
    var n := LastTurnExists(caller, req, env);
    EndingOfChat(caller, req, env, n);
    RetriesWithinPolicy(caller, req, env, n);
    if n > 0 { assert GoesOn(caller, req, env, n - 1); }
    hide EndOf, JsonAt;
  }

  /** Giving up on a retryable failure takes all retries. */
  lemma GivesUpLast(caller: Caller, req: ChatRequest, env: Script, n: nat)
    requires LastTurnIs(caller, req, env, n) && Grants(caller, req, env, n) && env(n).reply.Done?
    requires Retryable(req, JsonAt(req, env, n), env(n).reply.value, caller.Budgeted()) && !env(n).sleepExpires
    ensures RetriesAt(req, env, n) == MAX_RETRIES
  {
    RetriesWithinPolicy(caller, req, env, n);
  }

  /** Only a series reply that was cut short ends an attempt as `truncated`. */
  lemma {:induction false} TruncatedMeansCutSeries(budgeted: bool, req: ChatRequest, env: Script, n: nat)
    ensures Truncated in Statuses(budgeted, req, env, n) <==>
            && req.operation == SeriesMatching
            && exists k :: 0 <= k < n && env(k).reply.Done? && env(k).reply.value.IncompleteSeries?
  {
    hide JsonAt;
    if n > 0 {
      TruncatedMeansCutSeries(budgeted, req, env, n - 1);
      assert Statuses(budgeted, req, env, n)[|Statuses(budgeted, req, env, n)| - 1] ==
             StatusAt(budgeted, req, env, n - 1);
    }
  }
}
