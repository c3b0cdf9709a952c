/** Sending one chat request: retries, the JSON-mode fallback, the attempt
    allowance, the budget and the deadline (crates/llm-client/src/client.rs). */
module ChatClient {
  import opened LlmTypes
  import opened CallTrace
  import opened Telemetry
  import opened BudgetControl
  import opened ChatSpec

  /** What decides whether a request is started at all. */
  datatype Entry = Entry(providerConfigured: bool, schemaSupported: bool, admitted: bool)

  /** The end of one attempt: leave the loop, or take another turn. */
  datatype Next =
    | Leave(result: Awaited<Outcome>)
    | Proceed(retryAttempt: nat, jsonMode: bool, missingUsage: bool)

  /** The loop goes the way the turn demands. */
  ghost predicate Follows(t: TurnEnd, next: Next, v: View) {
    match t
    case Over(dispatched, status, outcome) =>
      next == Leave(Done(outcome)) && v.phase == Closed(status) && v.undispatched == !dispatched
    case Cut(dispatched, scheduled) =>
      next == Leave(DeadlineFired) && if dispatched then v.phase.Waiting? <==> scheduled else v.phase.Asked?
    case Again(jsonMode, retries) => next.Proceed? && next.jsonMode == jsonMode && next.retryAttempt == retries
  }

  /** At most the usage of this round's reply was sent to be settled. */
  ghost predicate SettlesGrow(before: View, after: View, round: nat, usage: Option<Usage>) {
    || after.settles == before.settles
    || (usage.Some? && after.settles == before.settles + [Settlement(round, usage.value)])
  }

  /** One attempt ended: its status, what its reply reported, and what was sent
      to settle it. */
  ghost predicate Attempted(before: View, after: View, round: nat, status: Status, receipts: seq<Option<Usage>>) {
    && after.dispatches == before.dispatches
    && after.statuses == before.statuses + [status] && after.receipts == before.receipts + receipts
    && SettlesGrow(before, after, round, if receipts == [] then None else receipts[0])
  }

  /** What the result of a finished request says about its history. */
  ghost predicate Truthful(cfg: Config, v: View, outcome: Outcome) {
    && v.phase.Closed?
    && (v.phase.status == Success <==> outcome.Answered?)
    && (outcome.Answered? ==> !v.undispatched && v.dispatches > 0 && (cfg.budgeted ==> v.acked))
    && (outcome == ControlError ==> cfg.budgeted && v.undispatched)
    && (outcome == EvidenceFailure ==> cfg.budgeted && v.dispatches > 0 && !v.acked)
    && (v.phase.status == BudgetError ==> v.undispatched)
    && (v.undispatched ==> v.phase.status == BudgetError || v.phase.status == Timeout)
    && (cfg.budgeted && v.phase.status == Timeout ==> outcome == ControlError || outcome == EvidenceFailure)
  }

  lemma CarriedAppend(receipts: seq<Option<Usage>>, usage: Option<Usage>)
    ensures AllCarried(receipts + [usage]) <==> AllCarried(receipts) && usage.Some?
  {
    var all := receipts + [usage];
    assert all[|receipts|] == usage && usage in all;
    assert forall r <- receipts :: r in all;
  }

  lemma CarriedOne(usage: Option<Usage>)
    ensures AllCarried([usage]) <==> usage.Some?
  {
    assert usage in [usage];
  }

  class LlmClient {
    const caller: Caller
    const recorder: Recorder
    const apiKey: string

    constructor (caller: Caller, recorder: Recorder, apiKey: string)
      ensures this.caller == caller && this.recorder == recorder && this.apiKey == apiKey
    {
      this.caller := caller;
      this.recorder := recorder;
      this.apiKey := apiKey;
    }

    ghost predicate Configured(cfg: Config, req: ChatRequest) {
      && !caller.budget.Broken?
      && (caller.budget.Set? ==> cfg == ConfigOf(caller.budget.client.profile, req))
      && (caller.budget.Unset? ==> !cfg.budgeted)
    }

    /** The state at the head of the retry loop. */
    ghost predicate Ready(labels: RequestLabels, req: ChatRequest, retryAttempt: nat, missingUsage: bool, round: nat)
      reads labels, labels.recorder
    {
      var v := labels.view;
      && labels.Valid() && labels.recorder == recorder && Configured(labels.cfg, req)
      && v.phase == Waiting && v.rounds == round == v.dispatches && v.owed == None && v.report == None
      && !v.undispatched
      && (missingUsage <==> !AllCarried(v.receipts))
      && retryAttempt <= MAX_RETRIES
    }

    /** An attempt that the provider has just answered. */
    ghost predicate InHand(labels: RequestLabels, req: ChatRequest, grant: Option<Grant>, missingUsage: bool,
                           round: nat)
      reads labels, labels.recorder
    {
      var v := labels.view;
      && labels.Valid() && labels.recorder == recorder && Configured(labels.cfg, req)
      && v.phase == InFlight(round) && v.rounds == v.dispatches == round + 1 && v.owed == None && v.report == None
      && !v.sent && !v.delivered && !v.acked && !v.undispatched
      && (grant.Some? <==> caller.budget.Set?)
      && (grant.Some? ==> GrantMatches(caller.budget.client.profile, labels.cfg, grant.value, round))
      && (missingUsage <==> !AllCarried(v.receipts))
    }

    /** Closed with a truthful result, or cut off by the deadline where
        `Expire` can still close it. */
    ghost predicate Ended(labels: RequestLabels, r: Awaited<Outcome>, providerStarted: bool, pending: bool)
      reads labels, labels.recorder
    {
      var v := labels.view;
      && labels.Valid() && labels.recorder == recorder
      && (r.Done? ==> Truthful(labels.cfg, v, r.value))
      && (r.DeadlineFired? ==>
            && !v.undispatched && v.owed == None
            && (pending <==> v.phase.InFlight?)
            && (pending ==> providerStarted)
            && (providerStarted ==> v.dispatches > 0 && !v.acked)
            && (!pending && providerStarted ==> v.phase.Returned? || v.phase.Waiting?)
            && (!providerStarted ==> v.phase.Asked?))
    }

    /** Settles if there is a budget; without one there is nothing to do. */
    method SettleIfBudgeted(labels: RequestLabels, req: ChatRequest, grant: Option<Grant>, model: string,
                            usage: Option<Usage>, wait: SettleWait)
      returns (r: Awaited<bool>)
      requires labels.Valid() && labels.recorder == recorder && Configured(labels.cfg, req)
      requires grant.Some? <==> caller.budget.Set?
      requires labels.view.phase.Returned? && !labels.view.sent && !labels.view.acked
      requires LastEnded(labels.view, Status.Success) || LastEnded(labels.view, EmptyJsonMode)
      requires grant.Some? ==>
                 GrantMatches(caller.budget.client.profile, labels.cfg, grant.value, labels.view.phase.round)
      requires |labels.view.receipts| > 0 && labels.view.receipts[|labels.view.receipts| - 1] == usage
      modifies labels
      ensures labels.Valid()
      ensures labels.view == old(labels.view).(sent := labels.view.sent, delivered := labels.view.delivered,
                                               acked := labels.view.acked, settles := labels.view.settles)
      ensures SettlesGrow(old(labels.view), labels.view, old(labels.view).phase.round, usage)
      ensures r == caller.SettleFor(grant, model, usage, wait)
      ensures r == Done(true) ==> (labels.cfg.budgeted ==> labels.view.acked)
      ensures r != Done(true) ==> labels.cfg.budgeted && !labels.view.acked
    {
      hide Advance, Observe, Accepts, RecordAll, Record;
      if grant.None? {
        return Done(true);
      }
      r := caller.budget.client.Settle(labels, grant.value, Some(model), usage, wait);
    }

    /** Books a complete answer: the request's usage report is `present` only
        if every reply so far carried usage. */
    method BookAnswer(labels: RequestLabels, missingUsage: bool, ghost round: nat, usage: Option<Usage>)
      requires labels.Valid() && labels.view.phase == InFlight(round)
      requires labels.view.owed == None && labels.view.report == None
      requires missingUsage <==> !AllCarried(labels.view.receipts)
      modifies labels, labels.recorder
      ensures labels.Valid()
      ensures labels.view == old(labels.view).(
                phase := Returned(round), receipts := old(labels.view).receipts + [usage],
                report := Some(AllCarried(old(labels.view).receipts + [usage])),
                statuses := old(labels.view).statuses + [Status.Success])
    {
      hide Advance, Observe, Accepts, RecordAll, Record, AllCarried;
      CarriedAppend(labels.view.receipts, usage);
      labels.NoteReplied(usage);
      labels.Attempt(Status.Success);
      if missingUsage {
        if usage.Some? {
          labels.ReportAdditionalUsage(usage.value);
        }
        labels.ReportUsage(None);
      } else {
        labels.ReportUsage(usage);
      }
    }

    /** Closes a request whose latest attempt has ended. */
    method Conclude(labels: RequestLabels, status: Status, outcome: Outcome)
      requires labels.Valid() && labels.recorder == recorder
      requires labels.view.phase.Returned? && labels.view.owed == None && !labels.view.undispatched
      requires labels.view.dispatches > 0
      requires status in {Status.Success, Status.Error, Status.EvidenceError} && outcome != ControlError
      requires status == Success <==> outcome.Answered?
      requires outcome == EvidenceFailure ==> labels.cfg.budgeted && !labels.view.acked
      requires status == Success ==>
                 && LastEnded(labels.view, Status.Success) && labels.view.report.Some?
                 && (labels.cfg.budgeted ==> labels.view.acked)
      modifies labels, recorder
      ensures Ended(labels, Done(outcome), true, false)
      ensures labels.view == old(labels.view).(phase := Closed(status), undispatched := false)
    {
      hide Advance, Observe, Accepts, RecordAll, Record;
      labels.Finish(status);
    }

    method OnAnswer(labels: RequestLabels, req: ChatRequest, grant: Option<Grant>, missingUsage: bool,
                    ghost round: nat, model: string, usage: Option<Usage>, settle: SettleWait)
      returns (r: Awaited<Outcome>)
      requires InHand(labels, req, grant, missingUsage, round)
      modifies labels, recorder
      ensures Ended(labels, r, true, false)
      ensures Attempted(old(labels.view), labels.view, round, Status.Success, [usage])
      ensures labels.view.report == Some(AllCarried(labels.view.receipts))
      ensures Follows(AnswerEnd(caller, req, grant, model, usage, settle), Leave(r), labels.view)
    {
      hide Advance, Observe, Accepts, RecordAll, Record, AllCarried, Truthful, Caller.SettleFor;
      BookAnswer(labels, missingUsage, round, usage);
      var settled := SettleIfBudgeted(labels, req, grant, model, usage, settle);
      if settled.DeadlineFired? {
        return DeadlineFired;
      }
      if !settled.value {
        Conclude(labels, Status.EvidenceError, EvidenceFailure);
        return Done(EvidenceFailure);
      }
      if req.operation == SeriesMatching && usage.Some? && usage.value.output > req.operation.MaxOutputTokens() {
        Conclude(labels, Status.Error, Failed(SeriesOverBudget));
        return Done(Failed(SeriesOverBudget));
      }
      Conclude(labels, Status.Success, Answered(model, usage));
      return Done(Answered(model, usage));
    }

    /** The state after a failed attempt that another turn will follow. */
    ghost predicate Rescheduled(labels: RequestLabels, missingUsage: bool, round: nat)
      reads labels, labels.recorder
    {
      var v := labels.view;
      && labels.Valid() && v.phase == Waiting && v.rounds == v.dispatches == round + 1
      && v.owed == None && v.report == None && !v.undispatched
      && (missingUsage <==> !AllCarried(v.receipts))
    }

    /** A failed attempt: some failures end the request, an empty JSON-mode
        reply falls back once to plain mode, and the rest may be retried. */
    method OnFailure(labels: RequestLabels, req: ChatRequest, grant: Option<Grant>, jsonMode: bool, retryAttempt: nat,
                     missingUsage: bool, ghost round: nat, reply: ProviderReply, settle: SettleWait, sleepExpires: bool)
      returns (next: Next)
      requires InHand(labels, req, grant, missingUsage, round) && !reply.Answer?
      requires retryAttempt <= MAX_RETRIES && (req.operation == SeriesMatching ==> labels.view.receipts == [])
      modifies labels, recorder
      ensures Attempted(old(labels.view), labels.view, round, AttemptStatus(caller.Budgeted(), req, jsonMode, reply),
                        ReceiptOf(req, jsonMode, reply))
      ensures labels.view.report == if SeriesReceipt(req, reply) then Some(AllCarried(labels.view.receipts)) else None
      ensures next.Leave? ==> Ended(labels, next.result, true, false)
      ensures next.Proceed? ==> Rescheduled(labels, next.missingUsage, round) && next.retryAttempt <= MAX_RETRIES
      ensures Follows(FailureEnd(caller, req, grant, jsonMode, retryAttempt, reply, settle, sleepExpires), next,
              labels.view)
    {
      hide Advance, Observe, Accepts, RecordAll, Record, AllCarried, Truthful, Caller.SettleFor, EmptyEnd, ErrorEnd;
      var series := req.operation == SeriesMatching;
      if (caller.budget.Set? || req.hasSchema) && reply.InvalidCompletion? {
        var outcome := if caller.budget.Set? then EvidenceFailure else Failed(ProviderFailed);
        labels.Attempt(Status.EvidenceError);
        Conclude(labels, Status.EvidenceError, outcome);
        return Leave(Done(outcome));
      }
      if reply.EvidenceNotRetained? {
        labels.Attempt(Status.EvidenceError);
        Conclude(labels, Status.EvidenceError, Failed(ResponseEvidenceFailed));
        return Leave(Done(Failed(ResponseEvidenceFailed)));
      }
      if series && (reply.EmptyJson? || reply.IncompleteSeries?) {
        OnSeriesReceipt(labels, round, reply);
        return Leave(Done(Failed(ProviderFailed)));
      }
      if !series && jsonMode && reply.EmptyJson? {
        next := OnEmptyJson(labels, req, grant, retryAttempt, missingUsage, round, reply, settle);
        return;
      }
      next := OnProviderError(labels, req, jsonMode, retryAttempt, missingUsage, round, reply, sleepExpires);
    }

    /** A series reply that is empty or cut short is real usage, and final. */
    method OnSeriesReceipt(labels: RequestLabels, ghost round: nat, reply: ProviderReply)
      requires labels.Valid() && labels.recorder == recorder
      requires labels.view.phase == InFlight(round) && labels.view.dispatches == round + 1
      requires labels.view.owed == None && labels.view.report == None && !labels.view.undispatched
      requires labels.view.receipts == [] && (reply.EmptyJson? || reply.IncompleteSeries?)
      modifies labels, recorder
      ensures Ended(labels, Done(Failed(ProviderFailed)), true, false)
      ensures Attempted(old(labels.view), labels.view, round, if reply.EmptyJson? then EmptyJsonMode else Truncated,
              [reply.usage])
      ensures labels.view.report == Some(AllCarried(labels.view.receipts)) && labels.view.phase == Closed(Status.Error)
      ensures !labels.view.undispatched
    {
      hide Advance, Observe, Accepts, RecordAll, Record, Truthful, AllCarried;
      CarriedOne(reply.usage);
      labels.NoteReplied(reply.usage);
      labels.Attempt(if reply.EmptyJson? then EmptyJsonMode else Truncated);
      assert labels.view.receipts == [reply.usage];
      labels.ReportUsage(reply.usage);
      Conclude(labels, Status.Error, Failed(ProviderFailed));
    }

    /** Any other failure: retried within the policy, unless the completion was
        truncated or the request is series matching. */
    method OnProviderError(labels: RequestLabels, req: ChatRequest, jsonMode: bool, retryAttempt: nat,
                           missingUsage: bool, ghost round: nat, reply: ProviderReply, sleepExpires: bool)
      returns (next: Next)
      requires labels.Valid() && labels.recorder == recorder
      requires labels.view.phase == InFlight(round) && labels.view.rounds == labels.view.dispatches == round + 1
      requires labels.view.owed == None && labels.view.report == None && !labels.view.undispatched
      requires !labels.view.acked && (missingUsage <==> !AllCarried(labels.view.receipts))
      requires retryAttempt <= MAX_RETRIES
      modifies labels, recorder
      ensures Attempted(old(labels.view), labels.view, round, ErrorStatus(reply.ApiStatus()), [])
              && labels.view.report == None
      ensures next.Leave? ==> Ended(labels, next.result, true, false)
      ensures next.Proceed? ==> Rescheduled(labels, next.missingUsage, round) && next.retryAttempt <= MAX_RETRIES
      ensures Follows(ErrorEnd(req, jsonMode, retryAttempt, reply, sleepExpires), next, labels.view)
    {
      hide Advance, Observe, Accepts, RecordAll, Record, AllCarried, Truthful;
      var status := if reply.ApiError? then reply.status else 500;
      var metricStatus := ErrorStatus(reply.ApiStatus());
      labels.Attempt(metricStatus);
      if reply.TruncatedCompletion? {
        Conclude(labels, Status.Error, Failed(ProviderFailed));
        return Leave(Done(Failed(ProviderFailed)));
      }
      if req.operation != SeriesMatching && ShouldRetry(status, retryAttempt) {
        labels.Retry(metricStatus);
        var delay := Delay(retryAttempt, reply.RetryAfter());
        if sleepExpires {
          return Leave(DeadlineFired);
        }
        return Proceed(retryAttempt + 1, jsonMode, missingUsage);
      }
      Conclude(labels, Status.Error, Failed(ProviderFailed));
      return Leave(Done(Failed(ProviderFailed)));
    }

    /** The JSON-mode fallback: the empty reply's usage is booked and settled
        before the next attempt is scheduled. */
    method OnEmptyJson(labels: RequestLabels, req: ChatRequest, grant: Option<Grant>, retryAttempt: nat,
                       missingUsage: bool, ghost round: nat, reply: ProviderReply, settle: SettleWait)
      returns (next: Next)
      requires InHand(labels, req, grant, missingUsage, round) && reply.EmptyJson? && retryAttempt <= MAX_RETRIES
      modifies labels, recorder
      ensures Attempted(old(labels.view), labels.view, round, EmptyJsonMode, [reply.usage])
              && labels.view.report == None
      ensures next.Leave? ==> Ended(labels, next.result, true, false)
      ensures next.Proceed? ==> Rescheduled(labels, next.missingUsage, round) && next.retryAttempt == retryAttempt
      ensures Follows(EmptyEnd(caller, grant, retryAttempt, reply, settle), next, labels.view)
    {
      hide Advance, Observe, Accepts, RecordAll, Record, AllCarried, Ended, Rescheduled, Follows, EmptyEnd;
      var missing := BookEmpty(labels, missingUsage, round, reply.usage);
      next := FallBack(labels, req, grant, retryAttempt, missing, round, reply, settle);
    }

    /** Settles a booked empty reply, if it is complete, and reschedules. */
    method FallBack(labels: RequestLabels, req: ChatRequest, grant: Option<Grant>, retryAttempt: nat,
                    missing: bool, ghost round: nat, reply: ProviderReply, settle: SettleWait)
      returns (next: Next)
      requires labels.Valid() && labels.recorder == recorder && Configured(labels.cfg, req) && reply.EmptyJson?
      requires var v := labels.view;
        && v.phase == Returned(round) && v.rounds == v.dispatches == round + 1 && v.owed == None && v.report == None
        && !v.sent && !v.delivered && !v.acked && !v.undispatched && LastEnded(v, EmptyJsonMode)
        && |v.receipts| > 0 && v.receipts[|v.receipts| - 1] == reply.usage && (missing <==> !AllCarried(v.receipts))
      requires grant.Some? <==> caller.budget.Set?
      requires grant.Some? ==> GrantMatches(caller.budget.client.profile, labels.cfg, grant.value, round)
      modifies labels, recorder
      ensures labels.view.dispatches == old(labels.view).dispatches && labels.view.report == None
      ensures labels.view.statuses == old(labels.view).statuses && labels.view.receipts == old(labels.view).receipts
      ensures SettlesGrow(old(labels.view), labels.view, round, reply.usage)
      ensures next.Leave? ==> Ended(labels, next.result, true, false)
      ensures next.Proceed? ==> Rescheduled(labels, next.missingUsage, round) && next.retryAttempt == retryAttempt
      ensures Follows(EmptyEnd(caller, grant, retryAttempt, reply, settle), next, labels.view)
    {
      hide Advance, Observe, Accepts, RecordAll, Record, AllCarried, Truthful, Caller.SettleFor;
      if caller.budget.Set? && !reply.completeEmpty {
        Conclude(labels, Status.EvidenceError, EvidenceFailure);
        return Leave(Done(EvidenceFailure));
      }
      var settled := SettleIfBudgeted(labels, req, grant, reply.model, reply.usage, settle);
      if settled.DeadlineFired? {
        return Leave(DeadlineFired);
      }
      if !settled.value {
        Conclude(labels, Status.EvidenceError, EvidenceFailure);
        return Leave(Done(EvidenceFailure));
      }
      labels.Retry(JsonModeFallback);
      return Proceed(retryAttempt, false, missing);
    }

    method BookEmpty(labels: RequestLabels, missingUsage: bool, ghost round: nat, usage: Option<Usage>)
      returns (missing: bool)
      requires labels.Valid() && labels.view.phase == InFlight(round)
      requires labels.view.owed == None && labels.view.report == None
      requires missingUsage <==> !AllCarried(labels.view.receipts)
      modifies labels, labels.recorder
      ensures labels.Valid()
      ensures labels.view == old(labels.view).(
                phase := Returned(round), receipts := old(labels.view).receipts + [usage],
                statuses := old(labels.view).statuses + [EmptyJsonMode])
      ensures missing <==> !AllCarried(labels.view.receipts)
    {
      hide Advance, Observe, Accepts, RecordAll, Record, AllCarried;
      CarriedAppend(labels.view.receipts, usage);
      labels.NoteReplied(usage);
      labels.Attempt(EmptyJsonMode);
      missing := missingUsage;
      if usage.Some? {
        labels.ReportAdditionalUsage(usage.value);
      } else {
        missing := true;
      }
    }

    /** Reserves the next attempt if there is a budget. */
    method ReserveAttempt(labels: RequestLabels, req: ChatRequest, attemptId: nat, wire: Option<nat>, wait: ReserveWait)
      returns (r: Awaited<Option<Option<Grant>>>)
      requires labels.Valid() && Configured(labels.cfg, req)
      requires labels.view.phase == Waiting && labels.view.rounds == attemptId
      modifies labels
      ensures labels.Valid()
      ensures r == caller.ReserveFor(req, wire, wait, attemptId)
      ensures r.Done? && r.value.Some? ==>
                && (r.value.value.Some? <==> caller.budget.Set?)
                && (caller.budget.Unset? ==> labels.view == old(labels.view))
                && (caller.budget.Set? ==>
                      && GrantMatches(caller.budget.client.profile, labels.cfg, r.value.value.value, attemptId)
                      && labels.view == old(labels.view).(phase := Holding(attemptId), rounds := attemptId + 1))
      ensures !(r.Done? && r.value.Some?) ==>
                && caller.budget.Set?
                && (labels.view.phase.Waiting? || labels.view.phase.Asked?)
                && labels.view == old(labels.view).(phase := labels.view.phase, rounds := labels.view.rounds)
      ensures r.DeadlineFired? ==> labels.view.phase.Asked?
    {
      hide Advance, Observe, Accepts, RecordAll, Record, Quote;
      if caller.budget.Unset? {
        return Done(Some(None));
      }
      if wire.None? {
        return Done(None);
      }
      var grant, _ := caller.budget.client.Reserve(labels, caller.provider, caller.origin, req, wire.value, attemptId,
        wait);
      if grant.DeadlineFired? {
        return DeadlineFired;
      }
      return Done(if grant.value.Some? then Some(grant.value) else None);
    }

    /** One turn of the retry loop: it does what `TurnOf` says. */
    method Turn(labels: RequestLabels, req: ChatRequest, jsonMode: bool, retryAttempt: nat, missingUsage: bool,
                physicalAttempts: nat, round: Round)
      returns (next: Next, providerStarted: bool, pending: bool)
      requires Ready(labels, req, retryAttempt, missingUsage, physicalAttempts)
      requires req.operation == SeriesMatching ==> labels.view.receipts == []
      modifies labels, recorder
      ensures var t := TurnOf(caller, req, round, physicalAttempts, jsonMode, retryAttempt);
        && Follows(t, next, labels.view)
        && (next.Leave? ==> Ended(labels, next.result, providerStarted, pending) && providerStarted == Sends(t))
        && (next.Proceed? ==>
              Ready(labels, req, next.retryAttempt, next.missingUsage, physicalAttempts + 1) && !pending
              && labels.view.report == None)
        && TurnBooked(t, req, jsonMode, round, pending, old(labels.view), labels.view, physicalAttempts)
    {
      hide Advance, Observe, Accepts, RecordAll, Record, AllCarried, Truthful, AttemptStatus, AnswerEnd, FailureEnd,
           StartOf;
      var start := Begin(labels, req, retryAttempt, missingUsage, physicalAttempts, round);
      if start.Stop? {
        return Leave(start.result), false, false;
      }
      if round.reply.DeadlineFired? {
        return Leave(DeadlineFired), true, true;
      }
      next := OnReply(labels, req, start.grant, jsonMode, retryAttempt, missingUsage, physicalAttempts,
                      round.reply.value, round);
      providerStarted, pending := true, false;
    }

    /** What one turn adds to the request's history. */
    ghost predicate TurnBooked(t: TurnEnd, req: ChatRequest, jsonMode: bool, round: Round, pending: bool,
                               before: View, after: View, k: nat)
    {
      var answered := Sends(t) && round.reply.Done?;
      && (pending <==> Sends(t) && round.reply.DeadlineFired?)
      && after.dispatches == k + Flag(Sends(t))
      && if answered then
           && after.statuses == before.statuses + [AttemptStatus(caller.Budgeted(), req, jsonMode, round.reply.value)]
           && after.receipts == before.receipts + ReceiptOf(req, jsonMode, round.reply.value)
           && SettlesGrow(before, after, k, if ReceiptOf(req, jsonMode, round.reply.value) == [] then None
                                            else ReceiptOf(req, jsonMode, round.reply.value)[0])
           && after.report == (if Reports(req, round.reply.value) then Some(AllCarried(after.receipts)) else None)
         else
           && after.statuses == before.statuses && after.receipts == before.receipts && after.settles == before.settles
           && after.report == None
    }

    /** The allowance, the reservation and the dispatch of one attempt. */
    method Begin(labels: RequestLabels, req: ChatRequest, ghost retryAttempt: nat, ghost missingUsage: bool,
                 physicalAttempts: nat, round: Round)
      returns (start: Start)
      requires Ready(labels, req, retryAttempt, missingUsage, physicalAttempts)
      modifies labels, recorder
      ensures start == StartOf(caller, req, round, physicalAttempts)
      ensures labels.view.statuses == old(labels.view).statuses && labels.view.receipts == old(labels.view).receipts
      ensures labels.view.settles == old(labels.view).settles && labels.view.report == None
      ensures start.Stop? ==>
                && Ended(labels, start.result, false, false)
                && labels.view.dispatches == physicalAttempts
                && (start.result.Done? ==> labels.view.phase == Closed(BudgetError) && labels.view.undispatched)
      ensures start.Go? ==> InHand(labels, req, start.grant, missingUsage, physicalAttempts)
    {
      hide Advance, Observe, Accepts, RecordAll, Record, AllCarried, Truthful, Caller.ReserveFor;
      if req.maxAttempts.Some? && physicalAttempts >= req.maxAttempts.value {
        Refuse(labels, Failed(AllowanceExhausted));
        return Stop(Done(Failed(AllowanceExhausted)));
      }
      var reservation := ReserveAttempt(labels, req, physicalAttempts, round.wire, round.reserve);
      if reservation.DeadlineFired? {
        return Stop(DeadlineFired);
      }
      if reservation.value.None? {
        Refuse(labels, ControlError);
        return Stop(Done(ControlError));
      }
      labels.NoteDispatched(physicalAttempts);
      return Go(reservation.value.value);
    }

    /** Ends a request whose scheduled attempt may not be dispatched. */
    method Refuse(labels: RequestLabels, outcome: Outcome)
      requires labels.Valid() && labels.recorder == recorder
      requires (labels.view.phase.Waiting? || labels.view.phase.Asked?) && labels.view.owed == None
      requires outcome == Failed(AllowanceExhausted) || (outcome == ControlError && labels.cfg.budgeted)
      modifies labels, recorder
      ensures Ended(labels, Done(outcome), false, false)
      ensures labels.view == old(labels.view).(phase := Closed(BudgetError), undispatched := true)
    {
      hide Advance, Observe, Accepts, RecordAll, Record, AllCarried;
      labels.Finish(BudgetError);
    }

    method OnReply(labels: RequestLabels, req: ChatRequest, grant: Option<Grant>, jsonMode: bool, retryAttempt: nat,
                   missingUsage: bool, ghost round: nat, reply: ProviderReply, env: Round)
      returns (next: Next)
      requires InHand(labels, req, grant, missingUsage, round) && retryAttempt <= MAX_RETRIES
      requires req.operation == SeriesMatching ==> labels.view.receipts == []
      modifies labels, recorder
      ensures Attempted(old(labels.view), labels.view, round, AttemptStatus(caller.Budgeted(), req, jsonMode, reply),
                        ReceiptOf(req, jsonMode, reply))
      ensures labels.view.report == if Reports(req, reply) then Some(AllCarried(labels.view.receipts)) else None
      ensures next.Leave? ==> Ended(labels, next.result, true, false)
      ensures next.Proceed? ==> Rescheduled(labels, next.missingUsage, round) && next.retryAttempt <= MAX_RETRIES
      ensures Follows(ReplyEnd(caller, req, grant, jsonMode, retryAttempt, reply, env), next, labels.view)
    {
      hide Advance, Observe, Accepts, RecordAll, Record, AllCarried, Truthful, AnswerEnd, FailureEnd;
      if reply.Answer? {
        var r := OnAnswer(labels, req, grant, missingUsage, round, reply.model, reply.usage, env.settle);
        return Leave(r);
      }
      next := OnFailure(labels, req, grant, jsonMode, retryAttempt, missingUsage, round, reply, env.settle,
        env.sleepExpires);
    }

    /** The retry loop, up to its result or to the deadline. */
    method Attempts(labels: RequestLabels, req: ChatRequest, env: Script)
      returns (r: Awaited<Outcome>, providerStarted: bool, pending: bool)
      requires Ready(labels, req, 0, false, 0) && labels.view.statuses == [] && labels.view.settles == []
               && labels.view.receipts == []
      modifies labels, recorder
      ensures Ended(labels, r, providerStarted, pending)
      ensures LoopEnds(labels.view, req, env, r, providerStarted, pending)
    {
      FirstHead(labels.view, req, env);
      hide Advance, Observe, Accepts, RecordAll, Record, AllCarried, Truthful, TurnOf, Ended, Ready, TurnAt, Follows,
           TurnBooked, LoopHead, LoopEnds, TurnsLeft, JsonAt, RetriesAt, Standing;
      var retryAttempt, physicalAttempts, missingUsage, jsonMode := 0, 0, false, req.jsonMode;
      while true
        invariant Ready(labels, req, retryAttempt, missingUsage, physicalAttempts)
        invariant LoopHead(labels.view, req, env, physicalAttempts, jsonMode, retryAttempt)
        decreases TurnsLeft(jsonMode, retryAttempt)
      {
        ghost var before := labels.view;
        var next;
        HeadIsAtScript(before, req, env, physicalAttempts, jsonMode, retryAttempt);
        next, providerStarted, pending :=
          Turn(labels, req, jsonMode, retryAttempt, missingUsage, physicalAttempts, env(physicalAttempts));
        if next.Leave? {
          Settled(labels, next.result, providerStarted, pending);
          LoopExit(req, env, physicalAttempts, jsonMode, retryAttempt, before, labels.view, next, providerStarted,
            pending);
          return next.result, providerStarted, pending;
        }
        LoopGoesOn(req, env, physicalAttempts, jsonMode, retryAttempt, before, labels.view, next);
        retryAttempt, jsonMode, missingUsage := next.retryAttempt, next.jsonMode, next.missingUsage;
        physicalAttempts := physicalAttempts + 1;
      }
    }

    /** Before turn `k` the request is where its script puts it. */
    ghost predicate LoopHead(v: View, req: ChatRequest, env: Script, k: nat, jsonMode: bool, retries: nat) {
      && jsonMode == JsonAt(req, env, k) && retries == RetriesAt(req, env, k)
      && EndOf(caller, req, env) == EndFrom(caller, req, env, k)
      && Booked(v, req, env, k) && ReportAfter(req, env, k) == None
      && (req.operation == SeriesMatching ==> k == 0)
    }

    lemma FirstHead(v: View, req: ChatRequest, env: Script)
      requires v.statuses == [] && v.settles == [] && v.receipts == []
      ensures LoopHead(v, req, env, 0, req.jsonMode, 0)
    {
    }

    lemma HeadIsAtScript(v: View, req: ChatRequest, env: Script, k: nat, jsonMode: bool, retries: nat)
      requires LoopHead(v, req, env, k, jsonMode, retries)
      ensures req.operation == SeriesMatching ==> v.receipts == []
      ensures TurnAt(caller, req, env, k) == TurnOf(caller, req, env(k), k, jsonMode, retries)
    {
      hide TurnOf, EndFrom, AttemptStatus, JsonAt, RetriesAt;
    }

    lemma LoopGoesOn(req: ChatRequest, env: Script, k: nat, jsonMode: bool, retries: nat, before: View, after: View,
                     next: Next)
      requires LoopHead(before, req, env, k, jsonMode, retries) && next.Proceed? && after.report == None
      requires Follows(TurnAt(caller, req, env, k), next, after)
      requires TurnBooked(TurnAt(caller, req, env, k), req, jsonMode, env(k), false, before, after, k)
      ensures LoopHead(after, req, env, k + 1, next.jsonMode, next.retryAttempt)
      ensures TurnsLeft(next.jsonMode, next.retryAttempt) < TurnsLeft(jsonMode, retries)
    {
      TurnCounts(req, env, k, false, before, after);
      AgainCarries(caller, req, env, k);
      NoSeriesAgain(req, env, k);
      hide Booked, TurnAt, JsonAt, RetriesAt, ReportAfter, TurnsLeft;
    }

    lemma NoSeriesAgain(req: ChatRequest, env: Script, k: nat)
      requires TurnAt(caller, req, env, k).Again?
      ensures req.operation != SeriesMatching
    {
      hide TurnOf;
    }

    /** The request's history is that of the first `n` rounds of the script. */
    ghost predicate Booked(v: View, req: ChatRequest, env: Script, n: nat) {
      && v.statuses == Statuses(caller.Budgeted(), req, env, n) && v.receipts == Receipts(req, env, n)
      && SettlesReported(req, env, v.settles, n)
    }

    /** How the loop leaves the request: as the script demands, with the last
        attempt still pending if the deadline caught it there. */
    ghost predicate LoopEnds(v: View, req: ChatRequest, env: Script, r: Awaited<Outcome>, providerStarted: bool,
                             pending: bool) {
      var e := EndOf(caller, req, env);
      && v.dispatches == e.dispatches && Flag(pending) <= e.dispatches
      && Booked(v, req, env, e.dispatches - Flag(pending))
      && v.report == ReportAfter(req, env, e.dispatches)
      && (pending ==> env(e.dispatches - 1).reply.DeadlineFired?)
      && (r.Done? ==>
            r.value == e.outcome && v.phase == Closed(e.status) && v.undispatched == e.undispatched && !pending)
      && (r.DeadlineFired? ==> e.status == Timeout && e.outcome == caller.LateOutcome(req, providerStarted)
                               && (Scheduled(v.phase) <==> e.undispatched))
    }

    /** A turn books the next round of the script. */
    lemma TurnCounts(req: ChatRequest, env: Script, k: nat, pending: bool, before: View, after: View)
      requires Booked(before, req, env, k) && ReportAfter(req, env, k) == None
      requires TurnBooked(TurnAt(caller, req, env, k), req, JsonAt(req, env, k), env(k), pending, before, after, k)
      ensures Flag(pending) <= after.dispatches && Booked(after, req, env, after.dispatches - Flag(pending))
      ensures after.report == ReportAfter(req, env, after.dispatches)
      ensures after.dispatches == k + Flag(Sends(TurnAt(caller, req, env, k)))
      ensures pending <==> Sends(TurnAt(caller, req, env, k)) && env(k).reply.DeadlineFired?
    {
      hide JsonAt, RetriesAt, TurnOf, AttemptStatus, ReceiptOf, AllCarried;
    }

    /** Where a request that left the loop stands. */
    ghost predicate Standing(v: View, r: Awaited<Outcome>, providerStarted: bool, pending: bool) {
      r.DeadlineFired? ==>
        && (pending <==> v.phase.InFlight?) && (pending ==> providerStarted)
        && (!pending && providerStarted ==> v.phase.Returned? || v.phase.Waiting?)
        && (!providerStarted ==> v.phase.Asked?)
    }

    lemma Settled(labels: RequestLabels, r: Awaited<Outcome>, providerStarted: bool, pending: bool)
      requires Ended(labels, r, providerStarted, pending)
      ensures Standing(labels.view, r, providerStarted, pending)
    {
    }

    lemma LoopExit(req: ChatRequest, env: Script, k: nat, jsonMode: bool, retries: nat, before: View, after: View,
                   next: Next, providerStarted: bool, pending: bool)
      requires LoopHead(before, req, env, k, jsonMode, retries) && next.Leave?
      requires var t := TurnAt(caller, req, env, k);
        && Follows(t, next, after) && providerStarted == Sends(t)
        && TurnBooked(t, req, jsonMode, env(k), pending, before, after, k)
      requires Standing(after, next.result, providerStarted, pending)
      ensures LoopEnds(after, req, env, next.result, providerStarted, pending)
    {
      hide JsonAt, RetriesAt, Booked, ReportAfter, Caller.LateOutcome, EndOf, TurnOf, EndFrom, TurnAt, TurnBooked,
           SettlesReported;
      TurnCounts(req, env, k, pending, before, after);
      PendingIsCut(req, env, k, pending);
      LastClose(req, env, k, next, after);
    }

    lemma LastClose(req: ChatRequest, env: Script, k: nat, next: Next, v: View)
      requires Follows(TurnAt(caller, req, env, k), next, v) && next.Leave?
      ensures var t := TurnAt(caller, req, env, k);
              !t.Again? && EndFrom(caller, req, env, k) == CloseAt(caller, req, t, k)
    {
      hide TurnOf, CloseAt, JsonAt, RetriesAt;
    }

    lemma PendingIsCut(req: ChatRequest, env: Script, k: nat, pending: bool)
      requires pending <==> Sends(TurnAt(caller, req, env, k)) && env(k).reply.DeadlineFired?
      ensures pending ==> TurnAt(caller, req, env, k) == Cut(true, false)
      ensures TurnAt(caller, req, env, k).Cut? && !TurnAt(caller, req, env, k).dispatched ==>
              TurnAt(caller, req, env, k).scheduled
    {
      hide JsonAt, RetriesAt, Caller.ReserveFor, ReplyEnd;
    }

    /** Closes a request that the deadline cut off. */
    method Expire(labels: RequestLabels, req: ChatRequest, ghost env: Script, providerStarted: bool, pending: bool)
      returns (outcome: Outcome)
      requires Ended(labels, DeadlineFired, providerStarted, pending) && Configured(labels.cfg, req)
      requires LoopEnds(labels.view, req, env, DeadlineFired, providerStarted, pending)
      modifies labels, recorder
      ensures labels.Valid() && labels.recorder == recorder
      ensures outcome == EndOf(caller, req, env).outcome
      ensures Truthful(labels.cfg, labels.view, outcome) && Accounts(caller, req, env, labels.view)
    {
      hide Advance, Observe, Accepts, RecordAll, Record, AllCarried, EndOf, ReportAfter, Receipts, JsonAt;
      outcome :=
        if caller.budget.Set? then
          if providerStarted then EvidenceFailure else ControlError
        else if req.hasObserver then Failed(ResponseEvidenceFailed)
        else Failed(DeadlineExceeded);
      if pending {
        PendingCounts(req, env, EndOf(caller, req, env).dispatches);
        labels.Attempt(Timeout);
      }
      labels.Finish(Timeout);
    }

    lemma PendingCounts(req: ChatRequest, env: Script, n: nat)
      requires n > 0 && env(n - 1).reply.DeadlineFired?
      ensures Statuses(caller.Budgeted(), req, env, n) == Statuses(caller.Budgeted(), req, env, n - 1) + [Timeout]
      ensures Receipts(req, env, n) == Receipts(req, env, n - 1)
    {
    }

    /** Whether the request is started: configured, valid, supported and let in. */
    predicate Begins(req: ChatRequest, entry: Entry) {
      && !caller.budget.Broken? && !(req.operation == SeriesMatching && caller.budget.Set?)
      && ValidateRequest(req)
      && entry.providerConfigured && entry.schemaSupported
      && (req.operation == SeriesMatching ==> caller.provider == "deepseek")
      && entry.admitted
    }

    /** A request begins exactly when nothing refuses it: it is valid, with one
        to five attempts if it limits them and an output limit its operation
        allows, its provider supports it, and the process has room for it. */
    lemma BeginsExactly(req: ChatRequest, entry: Entry)
      ensures Begins(req, entry) <==>
        && !caller.budget.Broken? && entry == Entry(true, true, true)
        && (req.operation.SeriesMatching? ==> caller.budget.Unset? && caller.provider == "deepseek")
        && (req.maxAttempts.Some? ==> req.maxAttempts.value in {1, 2, 3, 4, 5})
        && req.EffectiveMaxOutputTokens().Some?
        && 0 < req.EffectiveMaxOutputTokens().value <= req.operation.MaxOutputTokens()
    {
    }

    function LabelsOf(req: ChatRequest, mode: Mode): Labels {
      Labels(caller.provider, req.model, apiKey, req.operation, mode)
    }

    function RequestConfig(req: ChatRequest): Config {
      if caller.budget.Set? then ConfigOf(caller.budget.client.profile, req) else Config(false, 0, 0)
    }

    /** One admitted request, from its first counter to its last. */
    method Run(req: ChatRequest, env: Script) returns (outcome: Outcome, ghost trace: seq<Event>)
      requires !caller.budget.Broken?
      modifies recorder
      ensures Completed(RequestConfig(req), trace)
      ensures recorder.samples == RecordAll(old(recorder.samples), LabelsOf(req, Sync), trace)
      ensures outcome == EndOf(caller, req, env).outcome
      ensures Accounts(caller, req, env, Observe(RequestConfig(req), trace))
      ensures Truthful(RequestConfig(req), Observe(RequestConfig(req), trace), outcome)
    {
      hide Advance, Observe, Accepts, RecordAll, Record, LabelsOf, Allowed, EndFrom;
      var labels := new RequestLabels(RequestConfig(req), LabelsOf(req, Sync), recorder);
      StartAllowed(labels.cfg);
      labels.Started();
      var r, providerStarted, pending := Attempts(labels, req, env);
      if r.Done? {
        outcome := r.value;
      } else {
        outcome := Expire(labels, req, env, providerStarted, pending);
      }
      trace := labels.trace;
    }

    lemma StartAllowed(cfg: Config)
      ensures Allowed(cfg, INITIAL, Started)
    {
    }

    /** Sends one request. A request that does not begin leaves no trace and no
        counter; one that begins runs to the end its script demands. */
    method Chat(req: ChatRequest, entry: Entry, env: Script)
      returns (outcome: Outcome, ghost trace: seq<Event>)
      modifies recorder
      ensures !Begins(req, entry) ==>
                && trace == [] && recorder.samples == old(recorder.samples)
                && !outcome.Answered? && outcome != EvidenceFailure
      // the first of the reasons that applies, in the order of the source
      ensures !Begins(req, entry) ==>
                var series, budgeted := req.operation.SeriesMatching?, caller.budget.Set?;
                var ruled := caller.budget.Broken? || (series && budgeted);
                var valid := !ruled && ValidateRequest(req);
                var supported := valid && entry.providerConfigured && entry.schemaSupported;
                && (outcome == ControlError <==> ruled || (budgeted && supported && !entry.admitted))
                && (outcome == Failed(InvalidRequest) <==> !ruled && !valid)
                && (outcome == Failed(Unconfigured) <==> valid && !entry.providerConfigured)
                && (outcome == Failed(UnsupportedSchema) <==>
                      valid && entry.providerConfigured && !entry.schemaSupported)
                && (outcome == Failed(UnsupportedSeries) <==> supported && series && caller.provider != "deepseek")
                && (outcome == Failed(CapacityBusy) <==>
                      !budgeted && supported && (series ==> caller.provider == "deepseek") && !entry.admitted)
      ensures Begins(req, entry) ==>
                && Completed(RequestConfig(req), trace)
                && recorder.samples == RecordAll(old(recorder.samples), LabelsOf(req, Sync), trace)
                && outcome == EndOf(caller, req, env).outcome
                && Accounts(caller, req, env, Observe(RequestConfig(req), trace))
                && Truthful(RequestConfig(req), Observe(RequestConfig(req), trace), outcome)
    {
      hide Advance, Observe, Accepts, Completed, Truthful, RecordAll, Record, Accounts, EndOf, LabelsOf,
           ValidateRequest;
      trace := [];
      if caller.budget.Broken? || (req.operation == SeriesMatching && caller.budget.Set?) {
        return ControlError, trace;
      }
      if !ValidateRequest(req) {
        return Failed(InvalidRequest), trace;
      }
      if !entry.providerConfigured {
        return Failed(Unconfigured), trace;
      }
      if !entry.schemaSupported {
        return Failed(UnsupportedSchema), trace;
      }
      if req.operation == SeriesMatching && caller.provider != "deepseek" {
        return Failed(UnsupportedSeries), trace;
      }
      if !entry.admitted {
        return if caller.budget.Set? then ControlError else Failed(CapacityBusy), trace;
      }
      outcome, trace := Run(req, env);
    }
  }
}
