/** Opening and observing one chat stream (crates/llm-client/src/client.rs). */
module StreamClient {
  import opened LlmTypes
  import opened CallTrace
  import opened Telemetry
  import opened BudgetControl
  import opened ChatSpec
  import opened ChatClient
  import opened StreamSpec

  // ------------------------------------------------------------ observation

  class StreamGuard {
    const labels: RequestLabels
    var firstToken: bool
    var responseModel: Option<string>
    var usage: Option<Usage>
    var terminal: bool

    constructor (labels: RequestLabels)
      ensures this.labels == labels && !firstToken && responseModel == None && usage == None && !terminal
    {
      this.labels := labels;
      firstToken, responseModel, usage, terminal := false, None, None, false;
    }

    /** An opened stream whose terminal is not recorded yet. */
    ghost predicate Open()
      reads this, labels, labels.recorder
    {
      var v := labels.view;
      && labels.Valid() && !terminal
      && v.phase.Returned? && LastEnded(v, Status.Success) && v.phase.round + 1 == v.dispatches && !v.undispatched
      && v.report == None && v.owed == usage && v.receipts == (if usage.Some? then [usage] else [])
    }

    /** Records the terminal status once; later calls do nothing. */
    method Finish(status: Status)
      requires Open() || (terminal && labels.Valid())
      requires status in {Success, Timeout, EvidenceError, StreamError, ConsumerDropped}
      requires !terminal && status == Success ==> (labels.cfg.budgeted ==> labels.view.acked)
      modifies this`terminal, labels, labels.recorder
      ensures terminal && labels.Valid()
      ensures old(terminal) ==> labels.view == old(labels.view) && labels.trace == old(labels.trace)
      ensures !old(terminal) ==>
                && labels.view == old(labels.view).(
                     phase := Closed(status), owed := None,
                     report := if usage.Some? || status == Success then Some(usage.Some?) else None)
    {
      hide Advance, Observe, Accepts, RecordAll, Record;
      if terminal {
        return;
      }
      if usage.Some? || status == Success {
        labels.ReportUsage(usage);
      }
      labels.Finish(status);
      terminal := true;
    }

    method Drop()
      requires Open() || (terminal && labels.Valid())
      modifies this`terminal, labels, labels.recorder
      ensures terminal && labels.Valid()
      ensures old(terminal) ==> labels.view == old(labels.view) && labels.trace == old(labels.trace)
      ensures !old(terminal) ==>
                && labels.view == old(labels.view).(
                     phase := Closed(ConsumerDropped), owed := None,
                     report := if usage.Some? then Some(true) else None)
    {
      Finish(ConsumerDropped);
    }
  }

  lemma ScriptStart(script: seq<Poll>)
    ensures Texts(script[..0]) == [] && !HasText(script[..0]) && Model(script[..0]) == None
            && UsageOf(script[..0]) == None
  {
    assert script[..0] == [];
  }

  lemma ScriptStep(script: seq<Poll>, i: nat)
    requires i < |script|
    ensures Texts(script[..i + 1]) == Texts(script[..i]) + if script[i].Delta? then [Text(script[i].text)] else []
    ensures HasText(script[..i + 1]) == (HasText(script[..i]) || (script[i].Delta? && script[i].text != ""))
    ensures Model(script[..i + 1]) ==
            if Model(script[..i]).None? && script[i].ResponseModel? then Some(script[i].model) else Model(script[..i])
    ensures UsageOf(script[..i + 1]) ==
            if UsageOf(script[..i]).None? && script[i].UsageSeen? && WellFormed(script[i].usage)
              then Some(script[i].usage)
            else UsageOf(script[..i])
  {
    assert script[..i + 1][..i] == script[..i];
  }

  lemma StopsHere(script: seq<Poll>, i: nat)
    requires i < |script| && (forall j :: 0 <= j < i ==> !Stops(script, j)) && Stops(script, i)
    ensures StopIndex(script) == i
  {
    var n := StopIndex(script);
    assert n < |script| ==> Stops(script, n);
  }

  /** Relays the upstream stream to its consumer. The consumer receives the
      upstream text in order up to the first fault or Finished, then what
      `EndingOf` says, and nothing after that; the request is closed once, with
      the status of that ending. */
  method ObserveStream(guard: StreamGuard, settlement: Option<(BudgetClient, Grant)>, script: seq<Poll>)
    returns (items: seq<Item>)
    requires guard.Open() && guard.usage == None && guard.responseModel == None && !guard.firstToken
    requires !guard.labels.view.sent && !guard.labels.view.delivered && !guard.labels.view.acked
             && guard.labels.view.settles == []
    requires settlement.Some? <==> guard.labels.cfg.budgeted
    requires settlement.Some? ==>
               GrantMatches(settlement.value.0.profile, guard.labels.cfg, settlement.value.1,
                 guard.labels.view.phase.round)
    modifies guard, guard.labels, guard.labels.recorder
    ensures items == Texts(script[..StopIndex(script)]) + EndingOf(settlement, script).items
    ensures guard.labels.Valid() && guard.terminal
    ensures ClosedAs(guard.labels.view, EndingOf(settlement, script), UsageOf(script[..StopIndex(script)]))
    ensures guard.firstToken <==> HasText(script[..StopIndex(script)])
    ensures guard.labels.view.statuses == old(guard.labels.view).statuses
    ensures guard.labels.view.dispatches == old(guard.labels.view).dispatches
  {
    hide Advance, Observe, Accepts, RecordAll, Record, EndingOf, Model, UsageOf, Texts, HasText, FirstStop, StopIndex;
    ScriptStart(script);
    items := [];
    var i := 0;
    while i < |script|
      invariant 0 <= i <= |script|
      invariant guard.Open()
      invariant guard.labels.view ==
                old(guard.labels.view).(owed := guard.usage, receipts := guard.labels.view.receipts)
      invariant forall j :: 0 <= j < i ==> !Stops(script, j)
      invariant items == Texts(script[..i])
      invariant guard.responseModel == Model(script[..i]) && guard.usage == UsageOf(script[..i])
      invariant guard.firstToken <==> HasText(script[..i])
    {
      ScriptStep(script, i);
      var poll := script[i];
      if poll.UpstreamFinished? {
        var last := OnFinished(guard, settlement, script, i);
        return items + last;
      }
      var fault: Option<StreamFault> := None;
      match poll {
        case PollExpired => fault := Some(TotalDeadline);
        case UpstreamEnd => fault := Some(EndedEarly);
        case UpstreamError => fault := Some(Upstream);
        case ResponseModel(model) =>
          if guard.responseModel.Some? && guard.responseModel.value != model {
            fault := Some(ModelChanged);
          }
        case UsageSeen(usage) =>
          if guard.usage.Some? || !WellFormed(usage) {
            fault := Some(BadUsage);
          }
        case _ =>
      }
      if fault.Some? {
        var last := OnFault(guard, settlement, script, i, fault.value);
        return items + last;
      }
      match poll {
        case Delta(text) =>
          if text != "" && !guard.firstToken {
            guard.firstToken := true;
          }
          items := items + [Text(text)];
        case ResponseModel(model) =>
          guard.responseModel := Some(model);
        case UsageSeen(raw) =>
          var usage: Usage := raw;
          guard.labels.NoteReplied(Some(usage));
          guard.usage := Some(usage);
      }
      i := i + 1;
    }
    assert script[..i] == script;
    guard.Drop();
    DroppedEnding(settlement, script);
  }

  lemma DroppedEnding(settlement: Option<(BudgetClient, Grant)>, script: seq<Poll>)
    requires StopIndex(script) == |script|
    ensures EndingOf(settlement, script) == Ending([], ConsumerDropped)
  {
  }

  /** Ends the request on a fault; under a budget every fault is an evidence
      error. */
  method OnFault(guard: StreamGuard, settlement: Option<(BudgetClient, Grant)>, ghost script: seq<Poll>, ghost i: nat,
                 fault: StreamFault)
    returns (last: seq<Item>)
    requires i < |script| && (forall j :: 0 <= j < i ==> !Stops(script, j)) && Fault(script, i) == Some(fault)
    requires guard.Open() && guard.usage == UsageOf(script[..i]) && !guard.labels.view.acked
             && guard.labels.view.settles == []
    requires settlement.Some? <==> guard.labels.cfg.budgeted
    modifies guard`terminal, guard.labels, guard.labels.recorder
    ensures last == EndingOf(settlement, script).items && StopIndex(script) == i
    ensures guard.labels.Valid() && guard.terminal
    ensures ClosedAs(guard.labels.view, EndingOf(settlement, script), UsageOf(script[..i]))
    ensures guard.labels.view.statuses == old(guard.labels.view).statuses
    ensures guard.labels.view.dispatches == old(guard.labels.view).dispatches
  {
    hide Advance, Observe, Accepts, RecordAll, Record;
    StopsHere(script, i);
    var failureStatus := if settlement.Some? then EvidenceError else StreamError;
    guard.Finish(if fault == TotalDeadline then Timeout else failureStatus);
    return [if settlement.Some? then EvidenceItem else FaultItem(fault)];
  }

  /** The upstream's Finished: a budgeted stream passes it on only after its
      settlement was acknowledged. */
  method OnFinished(guard: StreamGuard, settlement: Option<(BudgetClient, Grant)>, script: seq<Poll>, i: nat)
    returns (last: seq<Item>)
    requires i < |script| && (forall j :: 0 <= j < i ==> !Stops(script, j)) && script[i].UpstreamFinished?
    requires guard.Open() && guard.usage == UsageOf(script[..i]) && guard.responseModel == Model(script[..i])
    requires !guard.labels.view.sent && !guard.labels.view.delivered && !guard.labels.view.acked
             && guard.labels.view.settles == []
    requires settlement.Some? <==> guard.labels.cfg.budgeted
    requires settlement.Some? ==>
               GrantMatches(settlement.value.0.profile, guard.labels.cfg, settlement.value.1,
                 guard.labels.view.phase.round)
    modifies guard`terminal, guard.labels, guard.labels.recorder
    ensures last == EndingOf(settlement, script).items && StopIndex(script) == i
    ensures guard.labels.Valid() && guard.terminal
    ensures ClosedAs(guard.labels.view, EndingOf(settlement, script), UsageOf(script[..i]))
    ensures guard.labels.view.statuses == old(guard.labels.view).statuses
    ensures guard.labels.view.dispatches == old(guard.labels.view).dispatches
  {
    hide Advance, Observe, Accepts, RecordAll, Record;
    StopsHere(script, i);
    if settlement.Some? {
      var (client, grant) := settlement.value;
      var wait := script[i].settle;
      if script[i].abandoned {
        wait := SettleLost(wait.SettleReply? || wait.committed);
      }
      var settled := client.Settle(guard.labels, grant, guard.responseModel, guard.usage, wait);
      if script[i].abandoned {
        guard.Drop();
        return [];
      }
      if settled != Done(true) {
        guard.Finish(EvidenceError);
        return [EvidenceItem];
      }
    }
    guard.Finish(Status.Success);
    return [FinishedItem];
  }

  // ------------------------------------------------------------------ setup

  /** What a setup error says about the request's history. */
  ghost predicate SetupTruthful(cfg: Config, v: View, outcome: Outcome) {
    && v.phase.Closed? && v.phase.status in {BudgetError, SetupError, SetupTimeout}
    && !outcome.Answered?
    && (outcome == ControlError ==> cfg.budgeted && v.undispatched)
    && (outcome == EvidenceFailure ==> cfg.budgeted && v.dispatches > 0 && !v.acked)
    && (v.phase.status == BudgetError ==> v.undispatched)
    && (v.undispatched ==> v.phase.status != SetupError)
  }

  /** Nothing was answered yet. */
  ghost predicate Unanswered(v: View) {
    && v.owed == None && v.report == None && v.receipts == [] && v.settles == []
    && !v.sent && !v.delivered && !v.acked && !v.undispatched
  }

  /** The state at the head of a setup attempt. */
  ghost predicate AtAttempt(client: LlmClient, labels: RequestLabels, req: ChatRequest, attempt: nat)
    reads labels, labels.recorder
  {
    var v := labels.view;
    && labels.Valid() && labels.recorder == client.recorder && client.Configured(labels.cfg, req)
    && v.phase == Waiting && v.rounds == v.dispatches == attempt && Unanswered(v)
  }

  ghost predicate Streaming(client: LlmClient, labels: RequestLabels, req: ChatRequest, grant: Option<Grant>)
    reads labels, labels.recorder
  {
    var v := labels.view;
    && labels.Valid() && labels.recorder == client.recorder && client.Configured(labels.cfg, req)
    && v.phase.Returned? && LastEnded(v, Status.Success) && v.phase.round + 1 == v.dispatches && Unanswered(v)
    && (grant.Some? <==> client.caller.budget.Set?)
    && (grant.Some? ==> GrantMatches(client.caller.budget.client.profile, labels.cfg, grant.value, v.phase.round))
  }

  /** A request that setup closed. */
  ghost predicate SetupClosed(client: LlmClient, labels: RequestLabels, outcome: Outcome, status: Status,
                              undispatched: bool)
    reads labels, labels.recorder
  {
    var v := labels.view;
    && labels.Valid() && labels.recorder == client.recorder && SetupTruthful(labels.cfg, v, outcome)
    && v.phase == Closed(status) && v.undispatched == undispatched
    && v.report == None && v.receipts == [] && v.settles == []
  }

  datatype SetupNext = Settled(setup: Setup) | Retry

  /** The attempt goes the way its turn demands. */
  ghost predicate SetupFollows(client: LlmClient, labels: RequestLabels, req: ChatRequest, t: SetupTurn,
                               next: SetupNext, k: nat)
    reads labels, labels.recorder
  {
    match t
    case Opens(grant) => next == Settled(Ready(grant)) && Streaming(client, labels, req, grant)
    case Closes(dispatched, status, outcome) =>
      next == Settled(Stopped(outcome)) && SetupClosed(client, labels, outcome, status, !dispatched)
    case LateAt(dispatched, scheduled) =>
      var outcome := SetupLateOutcome(client.caller, dispatched);
      next == Settled(Stopped(outcome)) && SetupClosed(client, labels, outcome, SetupTimeout, scheduled)
    case Retries => next == Retry && AtAttempt(client, labels, req, k + 1)
  }

  /** Opens the upstream stream, retrying as the policy allows. The loop never
      runs past the last attempt the policy permits. */
  method OpenStream(client: LlmClient, labels: RequestLabels, req: ChatRequest, env: SetupScript)
    returns (setup: Setup)
    requires AtAttempt(client, labels, req, 0) && labels.view.statuses == []
    modifies labels, client.recorder
    ensures labels.Valid() && labels.recorder == client.recorder
    ensures setup == SetupEndOf(client.caller, req, env).setup
    ensures SetupAccounts(client.caller, req, env, labels.view)
    ensures setup.Ready? ==> Streaming(client, labels, req, setup.grant)
    ensures setup.Stopped? ==> SetupTruthful(labels.cfg, labels.view, setup.outcome)
  {
    hide Advance, Observe, Accepts, RecordAll, Record, SetupTurnOf, SetupTruthful, AtAttempt, SetupFollows,
         SetupAccounts, Streaming, SetupEndFrom, SetupStatuses, SetupEndOf;
    NoSetupYet(client.caller, req, env);
    var attempt := 0;
    while attempt <= MAX_RETRIES
      invariant attempt <= MAX_RETRIES
      invariant AtAttempt(client, labels, req, attempt)
      invariant labels.view.statuses == SetupStatuses(env, attempt)
      invariant SetupEndOf(client.caller, req, env) == SetupEndFrom(client.caller, req, env, attempt)
      decreases MAX_RETRIES - attempt
    {
      var next := SetupAttempt(client, labels, req, attempt, env(attempt));
      AfterSetupTurn(client, labels, req, env, attempt, next);
      if next.Settled? {
        return next.setup;
      }
      attempt := attempt + 1;
    }
    assert false;
  }

  lemma NoSetupYet(caller: Caller, req: ChatRequest, env: SetupScript)
    ensures SetupEndOf(caller, req, env) == SetupEndFrom(caller, req, env, 0) && SetupStatuses(env, 0) == []
  {
  }

  /** What one turn makes of the whole setup: its end, or the next attempt. */
  lemma AfterSetupTurn(client: LlmClient, labels: RequestLabels, req: ChatRequest, env: SetupScript, k: nat,
                       next: SetupNext)
    requires k <= MAX_RETRIES && labels.Valid() && labels.recorder == client.recorder
    requires SetupEndOf(client.caller, req, env) == SetupEndFrom(client.caller, req, env, k)
    requires var t := SetupTurnOf(client.caller, req, env(k), k);
      && SetupFollows(client, labels, req, t, next, k) && labels.view.dispatches == k + Flag(SetupSends(t))
      && labels.view.statuses == SetupStatuses(env, k) + if SetupSends(t) then [SetupStatus(env(k).reply)] else []
    ensures next.Settled? ==>
              && next.setup == SetupEndOf(client.caller, req, env).setup
              && SetupAccounts(client.caller, req, env, labels.view)
              && (next.setup.Ready? ==> Streaming(client, labels, req, next.setup.grant))
              && (next.setup.Stopped? ==> SetupTruthful(labels.cfg, labels.view, next.setup.outcome))
    ensures !next.Settled? ==>
              && k < MAX_RETRIES && AtAttempt(client, labels, req, k + 1)
              && labels.view.statuses == SetupStatuses(env, k + 1)
              && SetupEndOf(client.caller, req, env) == SetupEndFrom(client.caller, req, env, k + 1)
  {
    hide Advance, Observe, Accepts, RecordAll, Record, SetupTruthful, Caller.ReserveFor;
  }

  method SetupAttempt(client: LlmClient, labels: RequestLabels, req: ChatRequest, attempt: nat, env: SetupRound)
    returns (next: SetupNext)
    requires AtAttempt(client, labels, req, attempt) && attempt <= MAX_RETRIES
    modifies labels, client.recorder
    ensures var t := SetupTurnOf(client.caller, req, env, attempt);
      && SetupFollows(client, labels, req, t, next, attempt)
      && labels.view.dispatches == attempt + Flag(SetupSends(t))
      && labels.view.statuses == old(labels.view).statuses + if SetupSends(t) then [SetupStatus(env.reply)] else []
    ensures labels.Valid() && labels.recorder == client.recorder
  {
    hide Advance, Observe, Accepts, RecordAll, Record, SetupTruthful, Caller.ReserveFor, SetupReplyTurn,
         SetupLateOutcome;
    var reservation := client.ReserveAttempt(labels, req, attempt, env.wire, env.reserve);
    if reservation.DeadlineFired? {
      var outcome := SetupExpired(client, labels, req, false, false);
      return Settled(Stopped(outcome));
    }
    if reservation.value.None? {
      SetupFinish(client, labels, BudgetError, ControlError);
      return Settled(Stopped(ControlError));
    }
    labels.NoteDispatched(attempt);
    next := SetupReplied(client, labels, req, attempt, reservation.value.value, env);
  }

  method SetupReplied(client: LlmClient, labels: RequestLabels, req: ChatRequest, attempt: nat, grant: Option<Grant>,
                      env: SetupRound)
    returns (next: SetupNext)
    requires labels.Valid() && labels.recorder == client.recorder && client.Configured(labels.cfg, req)
    requires attempt <= MAX_RETRIES && (grant.Some? <==> client.caller.budget.Set?)
    requires grant.Some? ==> GrantMatches(client.caller.budget.client.profile, labels.cfg, grant.value, attempt)
    requires var v := labels.view;
             v.phase == InFlight(attempt) && v.rounds == v.dispatches == attempt + 1 && Unanswered(v)
    modifies labels, client.recorder
    ensures SetupFollows(client, labels, req, SetupReplyTurn(env, grant, attempt), next, attempt)
    ensures labels.Valid() && labels.recorder == client.recorder
    ensures labels.view.dispatches == attempt + 1
    ensures labels.view.statuses == old(labels.view).statuses + [SetupStatus(env.reply)]
  {
    hide Advance, Observe, Accepts, RecordAll, Record, SetupTruthful, SetupFailureOf, SetupLateOutcome;
    if env.reply.DeadlineFired? {
      var outcome := SetupExpired(client, labels, req, true, true);
      return Settled(Stopped(outcome));
    }
    var reply := env.reply.value;
    if reply.Opened? {
      labels.Attempt(Status.Success);
      return Settled(Ready(grant));
    }
    next := SetupFailed(client, labels, req, attempt, reply, env.sleepExpires);
  }

  method SetupFailed(client: LlmClient, labels: RequestLabels, req: ChatRequest, attempt: nat, reply: SetupReply,
                     sleepExpires: bool)
    returns (next: SetupNext)
    requires labels.Valid() && labels.recorder == client.recorder && client.Configured(labels.cfg, req)
    requires attempt <= MAX_RETRIES && !reply.Opened?
    requires var v := labels.view;
             v.phase == InFlight(attempt) && v.rounds == v.dispatches == attempt + 1 && Unanswered(v)
    modifies labels, client.recorder
    ensures SetupFollows(client, labels, req, SetupFailureOf(reply, attempt, sleepExpires), next, attempt)
    ensures labels.Valid() && labels.recorder == client.recorder
    ensures labels.view.dispatches == attempt + 1
    ensures labels.view.statuses == old(labels.view).statuses + [SetupStatus(Done(reply))]
  {
    hide Advance, Observe, Accepts, RecordAll, Record, SetupTruthful, SetupLateOutcome;
    var status := if reply.SetupApiError? then reply.status else 500;
    var metricStatus := ErrorStatus(ApiStatusOf(reply));
    labels.Attempt(metricStatus);
    if ShouldRetry(status, attempt) {
      labels.Retry(metricStatus);
      var delay := Delay(attempt, if reply.SetupApiError? then reply.retryAfter else None);
      if sleepExpires {
        var outcome := SetupExpired(client, labels, req, true, false);
        return Settled(Stopped(outcome));
      }
      return Retry;
    }
    SetupFinish(client, labels, SetupError, Failed(ProviderFailed));
    return Settled(Stopped(Failed(ProviderFailed)));
  }

  method SetupFinish(client: LlmClient, labels: RequestLabels, status: Status, outcome: Outcome)
    requires labels.Valid() && labels.recorder == client.recorder
    requires var v := labels.view;
             && (v.phase.Waiting? || v.phase.Asked? || v.phase.Returned?) && Unanswered(v)
             && status in {BudgetError, SetupError, SetupTimeout} && !outcome.Answered?
             && (status == BudgetError ==> Scheduled(v.phase)) && (status == SetupError ==> !Scheduled(v.phase))
             && (outcome == ControlError ==> labels.cfg.budgeted && Scheduled(v.phase))
             && (outcome == EvidenceFailure ==> labels.cfg.budgeted && v.dispatches > 0)
    modifies labels, client.recorder
    ensures SetupClosed(client, labels, outcome, status, Scheduled(old(labels.view).phase))
    ensures labels.view.dispatches == old(labels.view).dispatches && labels.view.statuses == old(labels.view).statuses
  {
    hide Advance, Observe, Accepts, RecordAll, Record;
    labels.Finish(status);
  }

  /** Setup cut off by the deadline, with the provider call pending or not: an
      evidence error exactly when the provider call of this attempt began. */
  method SetupExpired(client: LlmClient, labels: RequestLabels, req: ChatRequest, providerStarted: bool, pending: bool)
    returns (outcome: Outcome)
    requires labels.Valid() && labels.recorder == client.recorder && client.Configured(labels.cfg, req)
    requires var v := labels.view;
             && (if pending then v.phase.InFlight? else v.phase.Waiting? || v.phase.Asked?)
             && Unanswered(v)
             && (providerStarted ==> v.dispatches > 0) && (pending ==> providerStarted)
    modifies labels, client.recorder
    ensures outcome == SetupLateOutcome(client.caller, providerStarted)
    ensures SetupClosed(client, labels, outcome, SetupTimeout, !pending)
    ensures labels.view.dispatches == old(labels.view).dispatches
    ensures labels.view.statuses == old(labels.view).statuses + if pending then [Timeout] else []
  {
    hide Advance, Observe, Accepts, RecordAll, Record, SetupTruthful;
    outcome :=
      if client.caller.budget.Set? then
        if providerStarted then EvidenceFailure else ControlError
      else Failed(DeadlineExceeded);
    if pending {
      labels.Attempt(Timeout);
    }
    SetupFinish(client, labels, SetupTimeout, outcome);
  }

  // ------------------------------------------------------------ whole stream

  datatype StreamEntry = StreamEntry(providerConfigured: bool, admitted: bool)

  predicate StreamBegins(client: LlmClient, req: ChatRequest, entry: StreamEntry) {
    && !client.caller.budget.Broken? && !req.hasSchema && req.operation != SeriesMatching
    && !req.hasObserver && req.maxAttempts.None?
    && ValidateRequest(req) && entry.providerConfigured && entry.admitted
  }

  /** A stream begins exactly for a request without a schema, an observer or an
      attempt limit, whose output limit its operation allows. */
  lemma StreamBeginsExactly(client: LlmClient, req: ChatRequest, entry: StreamEntry)
    ensures StreamBegins(client, req, entry) <==>
      && !client.caller.budget.Broken? && entry == StreamEntry(true, true)
      && !req.operation.SeriesMatching? && !req.hasSchema && !req.hasObserver && req.maxAttempts == None
      && req.EffectiveMaxOutputTokens().Some?
      && 0 < req.EffectiveMaxOutputTokens().value <= req.operation.MaxOutputTokens()
  {
  }

  /** One admitted stream, from its first counter to its last. */
  method RunStream(client: LlmClient, req: ChatRequest, env: SetupScript, script: seq<Poll>)
    returns (refusal: Option<Outcome>, items: seq<Item>, ghost trace: seq<Event>)
    requires !client.caller.budget.Broken?
    modifies client.recorder
    ensures Completed(client.RequestConfig(req), trace)
    ensures client.recorder.samples == RecordAll(old(client.recorder.samples), client.LabelsOf(req, Stream), trace)
    ensures var cfg, v, setup := client.RequestConfig(req), Observe(client.RequestConfig(req), trace),
            SetupEndOf(client.caller, req, env).setup;
      && StreamAccounts(client.caller, req, env, script, v)
      && (refusal == if setup.Stopped? then Some(setup.outcome) else None)
      && (refusal.Some? ==> items == [] && SetupTruthful(cfg, v, refusal.value))
      && (refusal.None? ==>
            && SetupEndOf(client.caller, req, env).setup.Ready?
            && items == Texts(script[..StopIndex(script)]) + StreamEnding(client.caller, req, env, script).items)
  {
    hide Advance, Observe, Accepts, RecordAll, Record, StopIndex, EndingOf, SetupEndOf, SetupStatuses, Texts, Allowed,
         SetupTruthful;
    items := [];
    var labels := new RequestLabels(client.RequestConfig(req), client.LabelsOf(req, Stream), client.recorder);
    StartAllowed(labels.cfg);
    labels.Started();
    var setup := OpenStream(client, labels, req, env);
    if setup.Stopped? {
      return Some(setup.outcome), items, labels.trace;
    }
    var granted := SettlementOf(client.caller, setup.grant);
    var guard := new StreamGuard(labels);
    items := ObserveStream(guard, granted, script);
    return None, items, labels.trace;
  }

  lemma StartAllowed(cfg: Config)
    ensures Allowed(cfg, INITIAL, Started)
  {
  }

  /** Opens one stream and relays it until it ends or its consumer drops it. */
  method ChatStream(client: LlmClient, req: ChatRequest, entry: StreamEntry, env: SetupScript, script: seq<Poll>)
    returns (refusal: Option<Outcome>, items: seq<Item>, ghost trace: seq<Event>)
    modifies client.recorder
    ensures refusal.Some? ==> items == []
    ensures !StreamBegins(client, req, entry) ==>
              && trace == [] && client.recorder.samples == old(client.recorder.samples)
              && refusal.Some? && !refusal.value.Answered? && refusal.value != EvidenceFailure
    // the first of the reasons that applies, in the order of the source
    ensures !StreamBegins(client, req, entry) ==>
              var broken, budgeted := client.caller.budget.Broken?, client.caller.budget.Set?;
              var kind := !req.hasSchema && !req.operation.SeriesMatching?;
              var valid := kind && !broken && !req.hasObserver && req.maxAttempts.None? && ValidateRequest(req);
              && (refusal == Some(Failed(UnsupportedSchema)) <==> req.hasSchema)
              && (refusal == Some(Failed(UnsupportedSeries)) <==> !req.hasSchema && req.operation.SeriesMatching?)
              && (refusal == Some(ControlError) <==>
                    (kind && broken) || (valid && entry.providerConfigured && budgeted && !entry.admitted))
              && (refusal == Some(Failed(InvalidRequest)) <==> kind && !broken && !valid)
              && (refusal == Some(Failed(Unconfigured)) <==> valid && !entry.providerConfigured)
              && (refusal == Some(Failed(CapacityBusy)) <==>
                    valid && entry.providerConfigured && !budgeted && !entry.admitted)
    ensures StreamBegins(client, req, entry) ==>
              var cfg, v, setup := client.RequestConfig(req), Observe(client.RequestConfig(req), trace),
                SetupEndOf(client.caller, req, env).setup;
              && Completed(cfg, trace)
              && client.recorder.samples == RecordAll(old(client.recorder.samples), client.LabelsOf(req, Stream), trace)
              && StreamAccounts(client.caller, req, env, script, v)
              && (refusal == if setup.Stopped? then Some(setup.outcome) else None)
              && (refusal.Some? ==> SetupTruthful(cfg, v, refusal.value))
              && (refusal.None? ==>
                    && SetupEndOf(client.caller, req, env).setup.Ready?
                    && items == Texts(script[..StopIndex(script)])
                       + StreamEnding(client.caller, req, env, script).items)
  {
    hide Advance, Observe, Accepts, Completed, RecordAll, Record, StopIndex, EndingOf, SetupEndOf, StreamAccounts,
         SetupTruthful, StreamEnding, Texts, ValidateRequest;
    trace, items := [], [];
    if req.hasSchema {
      return Some(Failed(UnsupportedSchema)), items, trace;
    }
    if req.operation == SeriesMatching {
      return Some(Failed(UnsupportedSeries)), items, trace;
    }
    if client.caller.budget.Broken? {
      return Some(ControlError), items, trace;
    }
    if req.hasObserver || req.maxAttempts.Some? || !ValidateRequest(req) {
      return Some(Failed(InvalidRequest)), items, trace;
    }
    if !entry.providerConfigured {
      return Some(Failed(Unconfigured)), items, trace;
    }
    if !entry.admitted {
      return Some(if client.caller.budget.Set? then ControlError else Failed(CapacityBusy)), items, trace;
    }
    refusal, items, trace := RunStream(client, req, env, script);
  }
}
