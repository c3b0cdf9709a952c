/** What a chat request comes to, told by the replies, the allowance, the
    reservation and the settlement of its last turn alone
    (crates/llm-client/src/client.rs). */
module ChatOutcomes {
  import opened LlmTypes
  import opened CallTrace
  import opened BudgetControl
  import opened ChatSpec

  // ------------------------------------------------ allowance and reservation

  /** The reservation of turn `k`, sent only if the request can be encoded. */
  function Reservation(caller: Caller, req: ChatRequest, env: Script, k: nat): Awaited<Option<Grant>>
    requires caller.budget.Set?
  {
    if env(k).wire.None? then Done(None)
    else caller.budget.client.ReserveResult(caller.provider, caller.origin, req, env(k).wire.value, k, env(k).reserve)
  }

  /** The allowance comes first; then a budgeted turn needs a grant. */
  lemma StartExactly(caller: Caller, req: ChatRequest, env: Script, k: nat)
    ensures var start, spent := StartOf(caller, req, env(k), k), req.maxAttempts.Some? && req.maxAttempts.value <= k;
      && (start == Stop(Done(Failed(AllowanceExhausted))) <==> spent)
      && (start == Go(None) <==> !spent && !caller.budget.Set?)
      && (forall g :: start == Go(Some(g)) <==>
            !spent && caller.budget.Set? && Reservation(caller, req, env, k) == Done(Some(g)))
      && (start == Stop(DeadlineFired) <==>
            !spent && caller.budget.Set? && Reservation(caller, req, env, k).DeadlineFired?)
      && (start == Stop(Done(ControlError)) <==>
            !spent && caller.budget.Set? && Reservation(caller, req, env, k) == Done(None))
  {
    hide BudgetClient.ReserveResult;
  }

  /** Turn `k` reaches the provider. */
  predicate Sent(caller: Caller, req: ChatRequest, env: Script, k: nat) {
    && !(req.maxAttempts.Some? && req.maxAttempts.value <= k)
    && (caller.budget.Set? ==>
          var r := Reservation(caller, req, env, k); r.Done? && r.value.Some?)
  }

  /** The reply of turn `k`, if one came. */
  predicate Replies(caller: Caller, req: ChatRequest, env: Script, k: nat) {
    Sent(caller, req, env, k) && env(k).reply.Done?
  }

  // --------------------------------------------------------------- settlement

  /** The settlement of a budgeted turn. */
  function Payment(caller: Caller, req: ChatRequest, env: Script, k: nat, model: string, usage: Option<Usage>)
    : Awaited<bool>
    requires caller.budget.Set? && Sent(caller, req, env, k)
  {
    caller.budget.client.SettleResult(Reservation(caller, req, env, k).value.value, Some(model), usage, env(k).settle)
  }

  /** A budgeted reply is paid for exactly when the owner repeats its usage
      under this binding and turn, and it stays within what was reserved. */
  lemma PaidExactly(caller: Caller, req: ChatRequest, env: Script, k: nat, model: string, usage: Option<Usage>)
    requires caller.budget.Set? && Sent(caller, req, env, k)
    ensures req.EffectiveMaxOutputTokens().Some?
    ensures
      Payment(caller, req, env, k, model, usage) == Done(true) <==>
        var b := caller.budget.client;
        && model == b.profile.model && usage.Some?
        && usage.value.input <= b.profile.inputTokenCeiling
        && usage.value.output <= req.EffectiveMaxOutputTokens().value
        && env(k).settle.SettleReply?
        && var ack := env(k).settle.response;
           && ack.binding == b.binding && ack.attemptId == k && ack.usage.model == model
           && ack.usage.input == usage.value.input && ack.usage.output == usage.value.output
           && (ack.usage.cached.Some? <==> usage.value.cached.Some?)
           && (usage.value.cached.Some? ==> ack.usage.cached.value == usage.value.cached.value)
  {
    var b, g := caller.budget.client, Reservation(caller, req, env, k).value.value;
    GrantedExactly(b, caller.provider, caller.origin, req, env(k).wire.value, k, env(k).reserve, g);
    SettledExactly(b, g, Some(model), usage, env(k).settle);
    hide BudgetClient.ReserveResult, BudgetClient.SettleResult;
  }

  /** Without a budget nothing has to be paid. */
  predicate Paid(caller: Caller, req: ChatRequest, env: Script, k: nat, model: string, usage: Option<Usage>)
    requires Sent(caller, req, env, k)
  {
    caller.budget.Set? ==> Payment(caller, req, env, k, model, usage) == Done(true)
  }

  predicate Unpaid(caller: Caller, req: ChatRequest, env: Script, k: nat, model: string, usage: Option<Usage>)
    requires Sent(caller, req, env, k)
  {
    caller.budget.Set? && Payment(caller, req, env, k, model, usage) == Done(false)
  }

  predicate PaysLate(caller: Caller, req: ChatRequest, env: Script, k: nat, model: string, usage: Option<Usage>)
    requires Sent(caller, req, env, k)
  {
    caller.budget.Set? && Payment(caller, req, env, k, model, usage).DeadlineFired?
  }

  lemma SettlesAsSent(caller: Caller, req: ChatRequest, env: Script, k: nat, model: string, usage: Option<Usage>)
    requires Sent(caller, req, env, k)
    ensures StartOf(caller, req, env(k), k).Go?
    ensures caller.SettleFor(StartOf(caller, req, env(k), k).grant, model, usage, env(k).settle)
            == if caller.budget.Set? then Payment(caller, req, env, k, model, usage) else Done(true)
  {
    StartExactly(caller, req, env, k);
    hide BudgetClient.ReserveResult, BudgetClient.SettleResult;
  }

  // -------------------------------------------------------------- JSON, retries

  /** JSON mode lasts until the first empty JSON reply. */
  lemma {:induction false} JsonExactly(req: ChatRequest, env: Script, k: nat)
    ensures JsonAt(req, env, k) <==>
            req.jsonMode && forall j :: 0 <= j < k ==> !(env(j).reply.Done? && env(j).reply.value.EmptyJson?)
  {
    if k > 0 { JsonExactly(req, env, k - 1); }
  }

  /** An empty JSON reply while JSON mode lasts. */
  predicate EmptyAt(req: ChatRequest, env: Script, k: nat) {
    env(k).reply.Done? && env(k).reply.value.EmptyJson? && JsonAt(req, env, k)
  }

  function Others(req: ChatRequest, env: Script, k: nat): set<int> {
    set j | 0 <= j < k && !EmptyAt(req, env, j)
  }

  lemma OthersNext(req: ChatRequest, env: Script, k: nat)
    ensures Others(req, env, k + 1) == Others(req, env, k) + if EmptyAt(req, env, k) then {} else {k}
    ensures k !in Others(req, env, k)
  {
    hide EmptyAt;
  }

  /** The retries used are the earlier turns that were no fallback. */
  lemma {:induction false} RetriesCounted(req: ChatRequest, env: Script, k: nat)
    ensures RetriesAt(req, env, k) == |set j | 0 <= j < k && !EmptyAt(req, env, j)|
  {
    hide JsonAt, EmptyAt;
    StartsInMode(req, env);
    if k == 0 {
      assert Others(req, env, 0) == {};
    } else {
      RetriesCounted(req, env, k - 1);
      assert Others(req, env, k - 1) == set j | 0 <= j < k - 1 && !EmptyAt(req, env, j);
      assert Others(req, env, k) == set j | 0 <= j < k && !EmptyAt(req, env, j);
      OthersNext(req, env, k - 1);
      JsonLost(req, env, k - 1);
      hide Others;
    }
  }

  lemma StartsInMode(req: ChatRequest, env: Script)
    ensures JsonAt(req, env, 0) == req.jsonMode
  {
  }

  lemma JsonLost(req: ChatRequest, env: Script, k: nat)
    ensures JsonAt(req, env, k + 1) <==> JsonAt(req, env, k) && !EmptyAt(req, env, k)
    ensures EmptyAt(req, env, k) ==> JsonAt(req, env, k)
    ensures JsonAt(req, env, k) ==> req.jsonMode
  {
    JsonNeverComesBack(req, env, k);
  }

  // ---------------------------------------------------------------- replies

  /** How an attempt is recorded, by its reply. */
  lemma AttemptExactly(budgeted: bool, req: ChatRequest, env: Script, k: nat)
    ensures StatusAt(budgeted, req, env, k) == Timeout <==> env(k).reply.DeadlineFired?
    ensures env(k).reply.Done? ==>
      var s, r, series := StatusAt(budgeted, req, env, k), env(k).reply.value, req.operation.SeriesMatching?;
      && (s == Success <==> r.Answer?)
      && (s == EvidenceError <==> r.EvidenceNotRetained? || (r.InvalidCompletion? && (budgeted || req.hasSchema)))
      && (s == EmptyJsonMode <==> r.EmptyJson? && (series || JsonAt(req, env, k)))
      && (s == Truncated <==> r.IncompleteSeries? && series)
      && (s == RateLimited <==> r.ApiError? && r.status == 429)
      && (s == ProviderError <==> r.ApiError? && r.status >= 500)
      && (s == Rejected <==> r.ApiError? && r.status != 429 && r.status < 500)
      && (s == ClientOrTransportError <==>
            || r.TransportError? || r.TruncatedCompletion? || (r.IncompleteSeries? && !series)
            || (r.EmptyJson? && !series && !JsonAt(req, env, k))
            || (r.InvalidCompletion? && !budgeted && !req.hasSchema))
  {
    hide JsonAt;
  }

  /** A reply counts as answered, with its usage, exactly for an answer, an
      empty JSON reply of series matching or in JSON mode, and a cut series. */
  predicate Counted(req: ChatRequest, env: Script, k: nat) {
    && env(k).reply.Done?
    && var r, series := env(k).reply.value, req.operation.SeriesMatching?;
       || r.Answer? || (r.EmptyJson? && (series || JsonAt(req, env, k))) || (r.IncompleteSeries? && series)
  }

  lemma ReceiptExactly(req: ChatRequest, env: Script, k: nat)
    ensures ReceiptAt(req, env, k) == if Counted(req, env, k) then [env(k).reply.value.usage] else []
  {
    hide JsonAt;
  }

  /** A counted reply carried its usage. */
  predicate Carries(req: ChatRequest, env: Script, k: nat) {
    Counted(req, env, k) ==> env(k).reply.value.usage.Some?
  }

  function CountedTurns(req: ChatRequest, env: Script, n: nat): set<int> {
    set k | 0 <= k < n && Counted(req, env, k)
  }

  lemma CountedNext(req: ChatRequest, env: Script, n: nat)
    ensures CountedTurns(req, env, n + 1) == CountedTurns(req, env, n) + if Counted(req, env, n) then {n} else {}
    ensures n !in CountedTurns(req, env, n)
  {
    hide Counted;
  }

  /** The usages on the books are those of the counted replies. */
  lemma {:induction false} CarriedExactly(req: ChatRequest, env: Script, n: nat)
    ensures AllCarried(Receipts(req, env, n)) <==>
            forall k :: 0 <= k < n ==> Carries(req, env, k)
    ensures |Receipts(req, env, n)| == |CountedTurns(req, env, n)|
  {
    hide Counted, ReceiptAt, AllCarried, Carries;
    if n == 0 {
      assert CountedTurns(req, env, 0) == {};
      NoneCarried();
    } else {
      hide CountedTurns;
      CarriedExactly(req, env, n - 1);
      LastCarried(req, env, n - 1);
      CountedNext(req, env, n - 1);
      CarriedSplit(Receipts(req, env, n - 1), ReceiptAt(req, env, n - 1));
    }
  }

  lemma NoneCarried()
    ensures AllCarried([])
  {
  }

  lemma LastCarried(req: ChatRequest, env: Script, k: nat)
    ensures AllCarried(ReceiptAt(req, env, k)) <==> Carries(req, env, k)
    ensures |ReceiptAt(req, env, k)| == if Counted(req, env, k) then 1 else 0
  {
    ReceiptExactly(req, env, k);
    hide ReceiptAt;
    if Counted(req, env, k) {
      assert env(k).reply.value.usage in [env(k).reply.value.usage];
    }
  }

  lemma CarriedSplit(a: seq<Option<Usage>>, b: seq<Option<Usage>>)
    ensures AllCarried(a + b) <==> AllCarried(a) && AllCarried(b)
  {
    assert forall r <- a :: r in a + b;
    assert forall r <- b :: r in a + b;
  }

  /** A reply the client can make nothing of: an error, or an answer of a kind
      it did not ask for. */
  predicate Fruitless(caller: Caller, req: ChatRequest, json: bool, r: ProviderReply) {
    || r.ApiError? || r.TransportError? || r.TruncatedCompletion?
    || (r.IncompleteSeries? && !req.operation.SeriesMatching?)
    || (r.EmptyJson? && !req.operation.SeriesMatching? && !json)
    || (r.InvalidCompletion? && !caller.budget.Set? && !req.hasSchema)
  }

  /** What another attempt may mend; series matching never tries again. */
  predicate Mendable(caller: Caller, req: ChatRequest, json: bool, r: ProviderReply) {
    && Fruitless(caller, req, json, r) && !r.TruncatedCompletion? && !req.operation.SeriesMatching?
    && (r.ApiError? ==> r.status == 429 || r.status >= 500)
  }

  /** The turn schedules a retry. */
  predicate RetriesNext(caller: Caller, req: ChatRequest, env: Script, k: nat) {
    && Replies(caller, req, env, k) && RetriesAt(req, env, k) < 3
    && Mendable(caller, req, JsonAt(req, env, k), env(k).reply.value)
  }

  /** An empty JSON reply that falls back to plain mode if it is paid for. */
  predicate EmptyReply(caller: Caller, req: ChatRequest, env: Script, k: nat) {
    && Replies(caller, req, env, k) && env(k).reply.value.EmptyJson?
    && JsonAt(req, env, k) && !req.operation.SeriesMatching?
  }

  /** An empty JSON reply whose settlement is asked for. */
  predicate EmptyCharged(caller: Caller, req: ChatRequest, env: Script, k: nat) {
    EmptyReply(caller, req, env, k) && (caller.budget.Set? ==> env(k).reply.value.completeEmpty)
  }

  predicate Answering(caller: Caller, req: ChatRequest, env: Script, k: nat) {
    Replies(caller, req, env, k) && env(k).reply.value.Answer?
  }

  predicate TooLong(req: ChatRequest, usage: Option<Usage>) {
    req.operation.SeriesMatching? && usage.Some? && usage.value.output > 512
  }

  /** The settlement the last reply asked for went this way. */
  predicate LeftUnpaid(caller: Caller, req: ChatRequest, env: Script, k: nat) {
    && (Answering(caller, req, env, k) || EmptyCharged(caller, req, env, k))
    && Unpaid(caller, req, env, k, env(k).reply.value.model, env(k).reply.value.usage)
  }

  predicate PaidLate(caller: Caller, req: ChatRequest, env: Script, k: nat) {
    && (Answering(caller, req, env, k) || EmptyCharged(caller, req, env, k))
    && PaysLate(caller, req, env, k, env(k).reply.value.model, env(k).reply.value.usage)
  }

  predicate PaidFor(caller: Caller, req: ChatRequest, env: Script, k: nat) {
    && (Answering(caller, req, env, k) || EmptyCharged(caller, req, env, k))
    && Paid(caller, req, env, k, env(k).reply.value.model, env(k).reply.value.usage)
  }

  /** The deadline fires in turn `k`: before its dispatch, or after it. */
  predicate LateBefore(caller: Caller, req: ChatRequest, env: Script, k: nat) {
    && !(req.maxAttempts.Some? && req.maxAttempts.value <= k)
    && caller.budget.Set? && Reservation(caller, req, env, k).DeadlineFired?
  }

  predicate LateAfter(caller: Caller, req: ChatRequest, env: Script, k: nat) {
    || (Sent(caller, req, env, k) && env(k).reply.DeadlineFired?)
    || PaidLate(caller, req, env, k)
    || (RetriesNext(caller, req, env, k) && env(k).sleepExpires)
  }

  /** An answer that is paid for, and of series matching within its limit. */
  predicate Succeeding(caller: Caller, req: ChatRequest, env: Script, k: nat) {
    Answering(caller, req, env, k) && PaidFor(caller, req, env, k) && !TooLong(req, env(k).reply.value.usage)
  }

  predicate OverlongAnswer(caller: Caller, req: ChatRequest, env: Script, k: nat) {
    Answering(caller, req, env, k) && PaidFor(caller, req, env, k) && TooLong(req, env(k).reply.value.usage)
  }

  /** A budgeted attempt whose usage cannot be settled: the completion was
      invalid or empty without a complete reply, or the owner did not
      acknowledge what it cost. */
  predicate EvidenceLost(caller: Caller, req: ChatRequest, env: Script, k: nat) {
    && caller.budget.Set?
    && (|| (Replies(caller, req, env, k) && env(k).reply.value.InvalidCompletion?)
        || (EmptyReply(caller, req, env, k) && !env(k).reply.value.completeEmpty)
        || LeftUnpaid(caller, req, env, k))
  }

  /** The budget refuses the turn: no encoding, no quote or no acknowledgement. */
  predicate NoGrant(caller: Caller, req: ChatRequest, env: Script, k: nat) {
    && !(req.maxAttempts.Some? && req.maxAttempts.value <= k)
    && caller.budget.Set? && Reservation(caller, req, env, k) == Done(None)
  }

  predicate Unretained(caller: Caller, req: ChatRequest, env: Script, k: nat) {
    Replies(caller, req, env, k) && env(k).reply.value.EvidenceNotRetained?
  }

  /** Without a budget, a completion that breaks the schema it was asked for. */
  predicate BrokenSchema(caller: Caller, req: ChatRequest, env: Script, k: nat) {
    && Replies(caller, req, env, k) && env(k).reply.value.InvalidCompletion?
    && !caller.budget.Set? && req.hasSchema
  }

  predicate SeriesCut(caller: Caller, req: ChatRequest, env: Script, k: nat) {
    && Replies(caller, req, env, k) && req.operation.SeriesMatching?
    && (env(k).reply.value.EmptyJson? || env(k).reply.value.IncompleteSeries?)
  }

  /** A fruitless attempt that is not retried. */
  predicate Fails(caller: Caller, req: ChatRequest, env: Script, k: nat) {
    && Replies(caller, req, env, k) && Fruitless(caller, req, JsonAt(req, env, k), env(k).reply.value)
    && !RetriesNext(caller, req, env, k)
  }

  // ---------------------------------------------------------------- one turn

  /** What turn `k` comes to, case by case. */
  lemma TurnExactly(caller: Caller, req: ChatRequest, env: Script, k: nat)
    ensures var t := TurnAt(caller, req, env, k);
      && (t.Again? <==>
            || (EmptyCharged(caller, req, env, k) && PaidFor(caller, req, env, k))
            || (RetriesNext(caller, req, env, k) && !env(k).sleepExpires))
      && (t.Cut? <==> LateBefore(caller, req, env, k) || LateAfter(caller, req, env, k))
      && (t.Cut? ==> (t.dispatched <==> LateAfter(caller, req, env, k)))
  {
    StartExactly(caller, req, env, k);
    hide JsonAt, RetriesAt, Reservation, Payment, Caller.SettleFor, Caller.ReserveFor, OverSeriesLimit, StartOf;
    if Sent(caller, req, env, k) && Replies(caller, req, env, k)
       && (env(k).reply.value.Answer? || env(k).reply.value.EmptyJson?) {
      SettlesAsSent(caller, req, env, k, env(k).reply.value.model, env(k).reply.value.usage);
    }
  }

  lemma TurnEnds(caller: Caller, req: ChatRequest, env: Script, k: nat)
    ensures var t := TurnAt(caller, req, env, k);
      t.Over? ==>
        && (t.dispatched <==> Sent(caller, req, env, k))
        && (t.outcome.Answered? <==> Succeeding(caller, req, env, k))
        && (t.outcome == EvidenceFailure <==> EvidenceLost(caller, req, env, k))
        && (t.outcome == ControlError <==> NoGrant(caller, req, env, k))
        && (t.outcome == Failed(AllowanceExhausted) <==> req.maxAttempts.Some? && req.maxAttempts.value <= k)
        && (t.outcome == Failed(SeriesOverBudget) <==> OverlongAnswer(caller, req, env, k))
        && (t.outcome == Failed(ResponseEvidenceFailed) <==> Unretained(caller, req, env, k))
        && (t.outcome == Failed(ProviderFailed) <==>
              BrokenSchema(caller, req, env, k) || SeriesCut(caller, req, env, k) || Fails(caller, req, env, k))
  {
    StartExactly(caller, req, env, k);
    hide JsonAt, RetriesAt, Reservation, Payment, Caller.SettleFor, Caller.ReserveFor, StartOf;
    if Sent(caller, req, env, k) && Replies(caller, req, env, k)
       && (env(k).reply.value.Answer? || env(k).reply.value.EmptyJson?) {
      SettlesAsSent(caller, req, env, k, env(k).reply.value.model, env(k).reply.value.usage);
    }
  }


  lemma TurnStatus(caller: Caller, req: ChatRequest, env: Script, k: nat)
    ensures var t := TurnAt(caller, req, env, k);
      t.Over? ==>
        && (t.status == Success <==> Succeeding(caller, req, env, k))
        && (t.status == BudgetError <==>
              (req.maxAttempts.Some? && req.maxAttempts.value <= k) || NoGrant(caller, req, env, k))
        && (t.status == EvidenceError <==>
              || EvidenceLost(caller, req, env, k) || Unretained(caller, req, env, k)
              || BrokenSchema(caller, req, env, k))
        && (t.status == Status.Error <==>
              OverlongAnswer(caller, req, env, k) || SeriesCut(caller, req, env, k) || Fails(caller, req, env, k))
        && t.status in {Success, BudgetError, EvidenceError, Status.Error}
  {
    StartExactly(caller, req, env, k);
    hide JsonAt, RetriesAt, Reservation, Payment, Caller.SettleFor, Caller.ReserveFor, StartOf;
    if Sent(caller, req, env, k) && Replies(caller, req, env, k)
       && (env(k).reply.value.Answer? || env(k).reply.value.EmptyJson?) {
      SettlesAsSent(caller, req, env, k, env(k).reply.value.model, env(k).reply.value.usage);
    }
  }

  // ----------------------------------------------------------- whole requests

  /** A request goes on to another turn exactly after a paid fallback and after
      a retry whose sleep ends in time. */
  predicate Continues(caller: Caller, req: ChatRequest, env: Script, k: nat) {
    || (EmptyCharged(caller, req, env, k) && PaidFor(caller, req, env, k))
    || (RetriesNext(caller, req, env, k) && !env(k).sleepExpires)
  }

  lemma LastTurnExactly(caller: Caller, req: ChatRequest, env: Script, n: nat)
    ensures LastTurnIs(caller, req, env, n) <==>
            (forall k :: 0 <= k < n ==> Continues(caller, req, env, k)) && !Continues(caller, req, env, n)
  {
    forall k: nat
      ensures GoesOn(caller, req, env, k) <==> Continues(caller, req, env, k)
    {
      TurnExactly(caller, req, env, k);
      AgainIffGoesOn(caller, req, env, k);
      hide GoesOn, Continues, TurnAt;
    }
    hide GoesOn, Continues;
  }

  /** The terminal status of a request, by what its last turn `n` met. */
  lemma StatusOfChat(caller: Caller, req: ChatRequest, env: Script, n: nat)
    requires LastTurnIs(caller, req, env, n)
    ensures var e, spent := EndOf(caller, req, env), req.maxAttempts.Some? && req.maxAttempts.value <= n;
      && e.dispatches == n + Flag(Sent(caller, req, env, n))
      && (e.status == Success <==> Succeeding(caller, req, env, n))
      && (e.status == BudgetError <==> spent || NoGrant(caller, req, env, n))
      && (e.status == EvidenceError <==>
            || EvidenceLost(caller, req, env, n) || Unretained(caller, req, env, n)
               || BrokenSchema(caller, req, env, n))
      && (e.status == Status.Error <==>
            OverlongAnswer(caller, req, env, n) || SeriesCut(caller, req, env, n) || Fails(caller, req, env, n))
      && (e.status == Timeout <==> LateBefore(caller, req, env, n) || LateAfter(caller, req, env, n))
      && e.status in {Success, BudgetError, EvidenceError, Status.Error, Timeout}
  {
    EndAtLastTurn(caller, req, env, n);
    TurnExactly(caller, req, env, n);
    TurnStatus(caller, req, env, n);
    LateIsOnlyLate(caller, req, env, n);
    TurnEnds(caller, req, env, n);
    hide EndOf, LastTurnIs, TurnAt, Succeeding, NoGrant, EvidenceLost, Unretained, BrokenSchema, OverlongAnswer,
         SeriesCut, Fails, LateBefore, LateAfter, EmptyCharged, PaidFor, RetriesNext, Reservation;
  }

  /** The result of a request, by what its last turn `n` met. */
  lemma OutcomeOfChat(caller: Caller, req: ChatRequest, env: Script, n: nat)
    requires LastTurnIs(caller, req, env, n)
    ensures var r, budgeted := EndOf(caller, req, env).outcome, caller.budget.Set?;
      && (r.Answered? <==> Succeeding(caller, req, env, n))
      && (r.Answered? ==> env(n).reply == Done(Answer(r.model, r.usage)))
      && (r == EvidenceFailure <==> EvidenceLost(caller, req, env, n) || (budgeted && LateAfter(caller, req, env, n)))
      && (r == ControlError <==> NoGrant(caller, req, env, n) || LateBefore(caller, req, env, n))
      && (r == Failed(AllowanceExhausted) <==> req.maxAttempts.Some? && req.maxAttempts.value <= n)
      && (r == Failed(SeriesOverBudget) <==> OverlongAnswer(caller, req, env, n))
      && (r == Failed(ResponseEvidenceFailed) <==>
            Unretained(caller, req, env, n) || (!budgeted && req.hasObserver && LateAfter(caller, req, env, n)))
      && (r == Failed(DeadlineExceeded) <==> !budgeted && !req.hasObserver && LateAfter(caller, req, env, n))
      && (r == Failed(ProviderFailed) <==>
            BrokenSchema(caller, req, env, n) || SeriesCut(caller, req, env, n) || Fails(caller, req, env, n))
  {
    EndAtLastTurn(caller, req, env, n);
    EndingOfChat(caller, req, env, n);
    TurnExactly(caller, req, env, n);
    TurnEnds(caller, req, env, n);
    LateIsOnlyLate(caller, req, env, n);
    hide EndOf, LastTurnIs, TurnAt, Succeeding, NoGrant, EvidenceLost, Unretained, BrokenSchema, OverlongAnswer,
         SeriesCut, Fails, LateBefore, LateAfter, EmptyCharged, PaidFor, RetriesNext, Reservation, Sent;
  }

  /** Nothing else ends a turn in which the deadline fires. */
  lemma LateIsOnlyLate(caller: Caller, req: ChatRequest, env: Script, k: nat)
    ensures LateBefore(caller, req, env, k) ==> caller.budget.Set? && !Sent(caller, req, env, k)
    ensures LateAfter(caller, req, env, k) ==> Sent(caller, req, env, k)
    ensures LateBefore(caller, req, env, k) || LateAfter(caller, req, env, k) ==>
              && !Succeeding(caller, req, env, k) && !NoGrant(caller, req, env, k) && !EvidenceLost(caller, req, env, k)
              && !Unretained(caller, req, env, k) && !BrokenSchema(caller, req, env, k)
              && !OverlongAnswer(caller, req, env, k) && !SeriesCut(caller, req, env, k) && !Fails(caller, req, env, k)
              && !(req.maxAttempts.Some? && req.maxAttempts.value <= k)
  {
    hide JsonAt, RetriesAt, Reservation, Payment;
  }

  /** The usage report of a request: it is made exactly by a last reply that is
      an answer or a final series reply, and it says `present` exactly when
      every reply that counts as answered carried its usage. */
  lemma ReportOfChat(caller: Caller, req: ChatRequest, env: Script, n: nat)
    requires LastTurnIs(caller, req, env, n)
    ensures var report := ReportAfter(req, env, EndOf(caller, req, env).dispatches);
      && (report.Some? <==> Answering(caller, req, env, n) || SeriesCut(caller, req, env, n))
      && (report == Some(true) ==> forall k :: 0 <= k <= n ==> Carries(req, env, k))
      && (report == Some(false) ==> exists k :: 0 <= k <= n && !Carries(req, env, k))
  {
    var m := EndOf(caller, req, env).dispatches;
    StatusOfChat(caller, req, env, n);
    ReportExactly(req, env, m);
    CarriedExactly(req, env, m);
    NoneBefore(caller, req, env, n);
    hide EndOf, AllCarried, Receipts, LastTurnIs, Reservation, Counted, Carries, ReportAfter, Sent;
  }

  lemma ReportExactly(req: ChatRequest, env: Script, n: nat)
    ensures ReportAfter(req, env, n) == if n > 0 && Final(req, env, n - 1) then Some(AllCarried(Receipts(req, env, n)))
                                        else None
  {
    hide AllCarried, Receipts;
  }

  /** An answer, or a series reply that is empty or cut short. */
  predicate Final(req: ChatRequest, env: Script, k: nat) {
    && env(k).reply.Done?
    && (env(k).reply.value.Answer?
        || (req.operation.SeriesMatching? && (env(k).reply.value.EmptyJson? || env(k).reply.value.IncompleteSeries?)))
  }

  lemma NoneBefore(caller: Caller, req: ChatRequest, env: Script, n: nat)
    requires LastTurnIs(caller, req, env, n)
    ensures n > 0 ==> !Final(req, env, n - 1)
  {
    if n > 0 {
      assert GoesOn(caller, req, env, n - 1);
      NoReportBefore(caller, req, env, n - 1);
    }
  }
}
