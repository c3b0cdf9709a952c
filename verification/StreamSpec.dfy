/** What a chat stream comes to, as a function of the request, the budget and
    everything the world answers (crates/llm-client/src/client.rs). */
module StreamSpec {
  import opened LlmTypes
  import opened CallTrace
  import opened BudgetControl
  import opened ChatSpec

  // ------------------------------------------------------------------ setup

  datatype SetupReply = Opened | SetupApiError(status: nat, retryAfter: Option<nat>) | SetupTransportError

  datatype SetupRound = SetupRound(
    wire: Option<nat>, reserve: ReserveWait, reply: Awaited<SetupReply>, sleepExpires: bool)

  type SetupScript = nat -> SetupRound

  function ApiStatusOf(reply: SetupReply): Option<nat> {
    if reply.SetupApiError? then Some(reply.status) else None
  }

  /** How a setup attempt ends. */
  function SetupStatus(reply: Awaited<SetupReply>): Status {
    match reply
    case DeadlineFired => Timeout
    case Done(Opened) => Success
    case Done(failure) => ErrorStatus(ApiStatusOf(failure))
  }

  function SetupStatuses(env: SetupScript, n: nat): seq<Status> {
    if n == 0 then [] else SetupStatuses(env, n - 1) + [SetupStatus(env(n - 1).reply)]
  }

  /** The end of setup: an open stream with its grant, or an error. */
  datatype Setup = Ready(grant: Option<Grant>) | Stopped(outcome: Outcome)

  /** How one setup attempt ends. */
  datatype SetupTurn =
    | Opens(grant: Option<Grant>)
    | Closes(dispatched: bool, status: Status, outcome: Outcome)
    | LateAt(dispatched: bool, scheduled: bool)
    | Retries

  /** The attempt reached the provider. */
  predicate SetupSends(t: SetupTurn) {
    t.Opens? || t.Retries? || t.dispatched
  }

  function SetupFailureOf(reply: SetupReply, k: nat, sleepExpires: bool): (t: SetupTurn)
    ensures SetupSends(t)
  {
    if ShouldRetry(if reply.SetupApiError? then reply.status else 500, k)
    then if sleepExpires then LateAt(true, true) else Retries
    else Closes(true, SetupError, Failed(ProviderFailed))
  }

  function SetupTurnOf(caller: Caller, req: ChatRequest, round: SetupRound, k: nat): (t: SetupTurn)
    ensures t.Retries? ==> k < MAX_RETRIES
  {
    match caller.ReserveFor(req, round.wire, round.reserve, k)
    case DeadlineFired => LateAt(false, true)
    case Done(None) => Closes(false, BudgetError, ControlError)
    case Done(Some(grant)) => SetupReplyTurn(round, grant, k)
  }

  /** How an attempt ends whose provider call began. */
  function SetupReplyTurn(round: SetupRound, grant: Option<Grant>, k: nat): (t: SetupTurn)
    ensures SetupSends(t)
  {
    if round.reply.DeadlineFired? then LateAt(true, false)
    else if round.reply.value.Opened? then Opens(grant)
    else SetupFailureOf(round.reply.value, k, round.sleepExpires)
  }

  datatype SetupEnd = SetupEnd(dispatches: nat, setup: Setup, status: Option<Status>, undispatched: bool)

  function SetupCloseAt(caller: Caller, req: ChatRequest, t: SetupTurn, k: nat): SetupEnd
    requires !t.Retries?
  {
    match t
    case Opens(grant) => SetupEnd(k + 1, Ready(grant), None, false)
    case Closes(dispatched, status, outcome) =>
      SetupEnd(k + Flag(dispatched), Stopped(outcome), Some(status), !dispatched)
    case LateAt(dispatched, scheduled) =>
      SetupEnd(k + Flag(dispatched), Stopped(SetupLateOutcome(caller, dispatched)), Some(SetupTimeout), scheduled)
  }

  function SetupLateOutcome(caller: Caller, providerStarted: bool): Outcome {
    if caller.budget.Set? then
      if providerStarted then EvidenceFailure else ControlError
    else Failed(DeadlineExceeded)
  }

  function SetupEndFrom(caller: Caller, req: ChatRequest, env: SetupScript, k: nat): SetupEnd
    requires k <= MAX_RETRIES
    decreases MAX_RETRIES - k
  {
    var t := SetupTurnOf(caller, req, env(k), k);
    if t.Retries? then SetupEndFrom(caller, req, env, k + 1) else SetupCloseAt(caller, req, t, k)
  }

  /** The end of setup under this script. */
  function SetupEndOf(caller: Caller, req: ChatRequest, env: SetupScript): SetupEnd {
    SetupEndFrom(caller, req, env, 0)
  }

  /** The state in which setup leaves a request. */
  ghost predicate SetupAccounts(caller: Caller, req: ChatRequest, env: SetupScript, v: View) {
    var e := SetupEndOf(caller, req, env);
    && v.dispatches == e.dispatches && v.statuses == SetupStatuses(env, e.dispatches)
    && v.undispatched == e.undispatched && v.settles == [] && v.receipts == [] && v.report == None
    && (e.setup.Stopped? <==> v.phase.Closed?)
    && (e.setup.Stopped? ==> e.status.Some? && v.phase == Closed(e.status.value))
  }

  // Where and why setup ends.

  predicate SetupGrants(caller: Caller, req: ChatRequest, env: SetupScript, k: nat) {
    var r := caller.ReserveFor(req, env(k).wire, env(k).reserve, k);
    r.Done? && r.value.Some?
  }

  predicate SetupRefused(caller: Caller, req: ChatRequest, env: SetupScript, k: nat) {
    caller.ReserveFor(req, env(k).wire, env(k).reserve, k) == Done(None)
  }

  predicate SetupReserveLate(caller: Caller, req: ChatRequest, env: SetupScript, k: nat) {
    caller.ReserveFor(req, env(k).wire, env(k).reserve, k).DeadlineFired?
  }

  /** A retryable setup failure with retries left. */
  predicate SetupSchedules(caller: Caller, req: ChatRequest, env: SetupScript, k: nat) {
    && SetupGrants(caller, req, env, k) && env(k).reply.Done? && !env(k).reply.value.Opened? && k < MAX_RETRIES
    && SetupStatus(env(k).reply) in {RateLimited, ProviderError, ClientOrTransportError}
  }

  predicate SetupGoesOn(caller: Caller, req: ChatRequest, env: SetupScript, k: nat) {
    SetupSchedules(caller, req, env, k) && !env(k).sleepExpires
  }

  ghost predicate LastSetupIs(caller: Caller, req: ChatRequest, env: SetupScript, n: nat) {
    (forall k :: 0 <= k < n ==> SetupGoesOn(caller, req, env, k)) && !SetupGoesOn(caller, req, env, n)
  }

  lemma {:induction false} LastSetup(caller: Caller, req: ChatRequest, env: SetupScript, from: nat) returns (n: nat)
    requires from <= MAX_RETRIES
    ensures from <= n <= MAX_RETRIES && (forall k :: from <= k < n ==> SetupGoesOn(caller, req, env, k))
            && !SetupGoesOn(caller, req, env, n)
    ensures !SetupTurnOf(caller, req, env(n), n).Retries?
    ensures SetupEndFrom(caller, req, env, from) == SetupCloseAt(caller, req, SetupTurnOf(caller, req, env(n), n), n)
    decreases MAX_RETRIES - from
  {
    if SetupTurnOf(caller, req, env(from), from).Retries? {
      assert SetupGoesOn(caller, req, env, from);
      n := LastSetup(caller, req, env, from + 1);
    } else {
      n := from;
    }
  }

  /** Why setup ends the way it does, by the guards of its last attempt. */
  lemma EndingOfSetup(caller: Caller, req: ChatRequest, env: SetupScript, n: nat)
    requires LastSetupIs(caller, req, env, n)
    ensures n <= MAX_RETRIES
    ensures var e := SetupEndOf(caller, req, env);
      && e.dispatches == n + Flag(SetupGrants(caller, req, env, n)) <= MAX_RETRIES + 1
      && (e.setup.Ready? <==> SetupGrants(caller, req, env, n) && env(n).reply == Done(Opened))
      && (e.setup.Ready? ==> caller.ReserveFor(req, env(n).wire, env(n).reserve, n) == Done(Some(e.setup.grant)))
      && (e.setup.Ready? ==> !e.undispatched)
      && (e.status == Some(BudgetError) <==> SetupRefused(caller, req, env, n))
      && (e.status == Some(SetupTimeout) ==>
         e.setup == Stopped(SetupLateOutcome(caller, SetupGrants(caller, req, env, n))))
      && (e.undispatched <==> SetupRefused(caller, req, env, n) || SetupReserveLate(caller, req, env, n)
                              || (SetupSchedules(caller, req, env, n) && env(n).sleepExpires))
  {
    var m := LastSetup(caller, req, env, 0);
    hide SetupEndFrom, Caller.ReserveFor;
    assert m == n;
  }

  lemma LastSetupExists(caller: Caller, req: ChatRequest, env: SetupScript) returns (n: nat)
    ensures LastSetupIs(caller, req, env, n)
  {
    n := LastSetup(caller, req, env, 0);
  }

  // ------------------------------------------------------------ observation

  /** One poll of the upstream stream, or the consumer giving up meanwhile.
      The end of a script of polls is the consumer dropping the stream. */
  datatype Poll =
    | Delta(text: string)
    | ResponseModel(model: string)
    | UsageSeen(usage: RawUsage)
    | UpstreamFinished(settle: SettleWait, abandoned: bool)  // abandoned: dropped while settling
    | UpstreamError
    | UpstreamEnd
    | PollExpired

  datatype StreamFault = TotalDeadline | EndedEarly | ModelChanged | BadUsage | Upstream

  datatype Item =
    | Text(text: string)
    | FinishedItem
    | EvidenceItem                  // BudgetEvidenceError
    | FaultItem(fault: StreamFault)

  function Model(script: seq<Poll>): Option<string> {
    if script == [] then None
    else
      var seen, last := Model(script[..|script| - 1]), script[|script| - 1];
      if seen.None? && last.ResponseModel? then Some(last.model) else seen
  }

  function UsageOf(script: seq<Poll>): Option<Usage> {
    if script == [] then None
    else
      var seen, last := UsageOf(script[..|script| - 1]), script[|script| - 1];
      if seen.None? && last.UsageSeen? && WellFormed(last.usage) then Some(last.usage) else seen
  }

  /** The text the upstream sent, in order. */
  function Texts(script: seq<Poll>): seq<Item> {
    if script == [] then []
    else
      var last := script[|script| - 1];
      Texts(script[..|script| - 1]) + if last.Delta? then [Text(last.text)] else []
  }

  /** Some text was not empty: the first token was seen. */
  predicate HasText(script: seq<Poll>) {
    script != [] &&
    (HasText(script[..|script| - 1]) || (script[|script| - 1].Delta? && script[|script| - 1].text != ""))
  }

  /** What is wrong with poll `i`, given the polls before it. */
  function Fault(script: seq<Poll>, i: nat): Option<StreamFault>
    requires i < |script|
  {
    match script[i]
    case PollExpired => Some(TotalDeadline)
    case UpstreamEnd => Some(EndedEarly)
    case UpstreamError => Some(Upstream)
    case ResponseModel(m) =>
      if Model(script[..i]).Some? && Model(script[..i]) != Some(m) then Some(ModelChanged) else None
    case UsageSeen(u) => if UsageOf(script[..i]).Some? || !WellFormed(u) then Some(BadUsage) else None
    case _ => None
  }

  predicate Stops(script: seq<Poll>, i: nat)
    requires i < |script|
  {
    script[i].UpstreamFinished? || Fault(script, i).Some?
  }

  /** Where observation ends: at the first fault or Finished, or when the
      consumer is gone. */
  function StopIndex(script: seq<Poll>): (n: nat)
    ensures n <= |script|
    ensures forall i :: 0 <= i < n ==> !Stops(script, i)
    ensures n < |script| ==> Stops(script, n)
  {
    FirstStop(script, 0)
  }

  function FirstStop(script: seq<Poll>, from: nat): (n: nat)
    requires from <= |script|
    requires forall i :: 0 <= i < from ==> !Stops(script, i)
    ensures from <= n <= |script|
    ensures forall i :: 0 <= i < n ==> !Stops(script, i)
    ensures n < |script| ==> Stops(script, n)
    decreases |script| - from
  {
    if from == |script| || Stops(script, from) then from else FirstStop(script, from + 1)
  }

  /** How a stream ends; `settlement` is the grant of a budgeted stream. */
  datatype Ending = Ending(items: seq<Item>, status: Status)

  predicate Acknowledged(settlement: Option<(BudgetClient, Grant)>, model: Option<string>, usage: Option<Usage>,
                         wait: SettleWait)
  {
    settlement.Some? ==> settlement.value.0.Settles(settlement.value.1, model, usage, wait)
  }

  function EndingOf(settlement: Option<(BudgetClient, Grant)>, script: seq<Poll>): Ending {
    var n := StopIndex(script);
    if n == |script| then Ending([], ConsumerDropped)
    else if script[n].UpstreamFinished? then
      if settlement.Some? && script[n].abandoned then Ending([], ConsumerDropped)
      else if Acknowledged(settlement, Model(script[..n]), UsageOf(script[..n]), script[n].settle) then
        Ending([FinishedItem], Success)
      else Ending([EvidenceItem], EvidenceError)
    else
      var item := if settlement.Some? then EvidenceItem else FaultItem(Fault(script, n).value);
      Ending([item],
             if script[n].PollExpired? then Timeout else if settlement.Some? then EvidenceError else StreamError)
  }

  lemma {:induction false} TextsAreText(script: seq<Poll>)
    ensures forall item <- Texts(script) :: item.Text?
  {
    if script != [] {
      TextsAreText(script[..|script| - 1]);
    }
  }

  /** At most one terminal item follows the text. Finished means that the
      upstream finished and, under a budget, that its settlement was
      acknowledged; every other end of a budgeted stream that the consumer
      sees is an evidence error. */
  lemma EndingIsHonest(settlement: Option<(BudgetClient, Grant)>, script: seq<Poll>)
    ensures var n, items := StopIndex(script), EndingOf(settlement, script).items;
      && |items| <= 1 && (forall item <- Texts(script[..n]) :: item.Text?)
      && (FinishedItem in items <==>
            && n < |script| && script[n].UpstreamFinished? && !(settlement.Some? && script[n].abandoned)
            && Acknowledged(settlement, Model(script[..n]), UsageOf(script[..n]), script[n].settle))
      && (settlement.Some? ==> forall item <- items :: item.FinishedItem? || item.EvidenceItem?)
      && (items == [] <==> n == |script| || (settlement.Some? && script[n].UpstreamFinished? && script[n].abandoned))
  {
    TextsAreText(script[..StopIndex(script)]);
    hide StopIndex, Acknowledged, Model, UsageOf, Texts;
  }

  // ------------------------------------------------------------ whole stream

  function SettlementOf(caller: Caller, grant: Option<Grant>): Option<(BudgetClient, Grant)> {
    if caller.budget.Set? && grant.Some? then Some((caller.budget.client, grant.value)) else None
  }

  function StreamEnding(caller: Caller, req: ChatRequest, env: SetupScript, script: seq<Poll>): Ending
    requires SetupEndOf(caller, req, env).setup.Ready?
  {
    EndingOf(SettlementOf(caller, SetupEndOf(caller, req, env).setup.grant), script)
  }

  /** How the observer may leave the request behind. */
  ghost predicate ClosedAs(v: View, e: Ending, usage: Option<Usage>) {
    && v.phase == Closed(e.status) && !v.undispatched && v.owed == None && v.dispatches > 0
    && v.report == (if usage.Some? || e.status == Success then Some(usage.Some?) else None)
    && v.receipts == (if usage.Some? then [usage] else [])
    && (forall s <- v.settles :: usage == Some(s.usage) && s.round + 1 == v.dispatches)
    && (FinishedItem in e.items ==> e.status == Success)
    && (e.status != Success ==> !v.acked)
  }

  /** The state in which a stream leaves its request. */
  ghost predicate StreamAccounts(caller: Caller, req: ChatRequest, env: SetupScript, script: seq<Poll>, v: View) {
    var e := SetupEndOf(caller, req, env);
    if e.setup.Stopped? then SetupAccounts(caller, req, env, v)
    else
      && v.dispatches == e.dispatches && v.statuses == SetupStatuses(env, e.dispatches)
      && ClosedAs(v, StreamEnding(caller, req, env, script), UsageOf(script[..StopIndex(script)]))
  }
}
