/** What a stream comes to, told by its setup replies, its polls and the
    owner's acknowledgement alone (crates/llm-client/src/client.rs). */
module StreamOutcomes {
  import opened LlmTypes
  import opened CallTrace
  import opened BudgetControl
  import opened ChatSpec
  import opened StreamSpec

  // ------------------------------------------------------------------ setup

  /** The reservation of setup attempt `k`. */
  function SetupReservation(caller: Caller, req: ChatRequest, env: SetupScript, k: nat): Awaited<Option<Grant>>
    requires caller.budget.Set?
  {
    if env(k).wire.None? then Done(None)
    else caller.budget.client.ReserveResult(caller.provider, caller.origin, req, env(k).wire.value, k, env(k).reserve)
  }

  predicate SetupSent(caller: Caller, req: ChatRequest, env: SetupScript, k: nat) {
    caller.budget.Set? ==> var r := SetupReservation(caller, req, env, k); r.Done? && r.value.Some?
  }

  lemma SetupStatusExactly(reply: Awaited<SetupReply>)
    ensures var s := SetupStatus(reply);
      && (s == Timeout <==> reply.DeadlineFired?)
      && (s == Success <==> reply == Done(Opened))
      && (s == RateLimited <==> reply.Done? && reply.value.SetupApiError? && reply.value.status == 429)
      && (s == ProviderError <==> reply.Done? && reply.value.SetupApiError? && reply.value.status >= 500)
      && (s == ClientOrTransportError <==> reply == Done(SetupTransportError))
      && s in {Timeout, Success, RateLimited, ProviderError, ClientOrTransportError, Rejected}
  {
  }

  /** A failed setup attempt that is tried again, up to three times. */
  predicate SetupRetries(caller: Caller, req: ChatRequest, env: SetupScript, k: nat) {
    && SetupSent(caller, req, env, k) && env(k).reply.Done? && k < 3
    && (env(k).reply.value.SetupTransportError?
        || (env(k).reply.value.SetupApiError?
           && (env(k).reply.value.status == 429 || env(k).reply.value.status >= 500)))
  }

  /** A setup attempt that failed for good. */
  predicate SetupFails(caller: Caller, req: ChatRequest, env: SetupScript, k: nat) {
    && SetupSent(caller, req, env, k) && env(k).reply.Done? && !env(k).reply.value.Opened?
    && !SetupRetries(caller, req, env, k)
  }

  predicate SetupNoGrant(caller: Caller, req: ChatRequest, env: SetupScript, k: nat) {
    caller.budget.Set? && SetupReservation(caller, req, env, k) == Done(None)
  }

  predicate SetupLateBefore(caller: Caller, req: ChatRequest, env: SetupScript, k: nat) {
    caller.budget.Set? && SetupReservation(caller, req, env, k).DeadlineFired?
  }

  predicate SetupLateAfter(caller: Caller, req: ChatRequest, env: SetupScript, k: nat) {
    || (SetupSent(caller, req, env, k) && env(k).reply.DeadlineFired?)
    || (SetupRetries(caller, req, env, k) && env(k).sleepExpires)
  }

  lemma LastSetupExactly(caller: Caller, req: ChatRequest, env: SetupScript, n: nat)
    ensures LastSetupIs(caller, req, env, n) <==>
            && (forall k :: 0 <= k < n ==> SetupRetries(caller, req, env, k) && !env(k).sleepExpires)
            && !(SetupRetries(caller, req, env, n) && !env(n).sleepExpires)
  {
    forall k: nat
      ensures SetupGoesOn(caller, req, env, k) <==> SetupRetries(caller, req, env, k) && !env(k).sleepExpires
    {
      hide BudgetClient.ReserveResult;
    }
    hide SetupGoesOn, SetupRetries;
  }

  /** How setup ends, by what its last attempt `n` met: it opens with the grant
      of that very attempt, or it ends with this status and this error. */
  lemma OutcomeOfSetup(caller: Caller, req: ChatRequest, env: SetupScript, n: nat)
    requires LastSetupIs(caller, req, env, n)
    ensures var e, ready := SetupEndOf(caller, req, env), SetupSent(caller, req, env, n)
            && env(n).reply == Done(Opened);
      && e.dispatches == n + Flag(SetupSent(caller, req, env, n))
      && (e.setup.Ready? <==> ready)
      && (ready && !caller.budget.Set? ==> e.setup == Ready(None))
      && (ready && caller.budget.Set? ==> e.setup == Ready(SetupReservation(caller, req, env, n).value))
      && (e.status == None <==> ready)
      && (e.status == Some(BudgetError) <==> SetupNoGrant(caller, req, env, n))
      && (e.status == Some(SetupError) <==> SetupFails(caller, req, env, n))
      && (e.status == Some(SetupTimeout) <==>
            SetupLateBefore(caller, req, env, n) || SetupLateAfter(caller, req, env, n))
      && (e.setup == Stopped(ControlError) <==>
            SetupNoGrant(caller, req, env, n) || SetupLateBefore(caller, req, env, n))
      && (e.setup == Stopped(EvidenceFailure) <==> caller.budget.Set? && SetupLateAfter(caller, req, env, n))
      && (e.setup == Stopped(Failed(DeadlineExceeded)) <==>
            !caller.budget.Set? && SetupLateAfter(caller, req, env, n))
      && (e.setup == Stopped(Failed(ProviderFailed)) <==> SetupFails(caller, req, env, n))
  {
    var m := LastSetup(caller, req, env, 0);
    hide SetupEndFrom, BudgetClient.ReserveResult;
    assert m == n;
  }

  // ------------------------------------------------------------------ polls

  /** No poll before `i` ended the stream. */
  predicate Running(script: seq<Poll>, i: nat)
    requires i <= |script|
  {
    forall j :: 0 <= j < i ==> !Stops(script, j)
  }

  lemma PrefixRuns(script: seq<Poll>, i: nat)
    requires i < |script| && Running(script, i + 1)
    ensures Running(script, i)
  {
  }

  /** While a stream runs it has shown one model, the one of every model poll,
      and one usage, of the only usage poll. */
  lemma {:induction false} SeenExactly(script: seq<Poll>, i: nat)
    requires i <= |script| && Running(script, i)
    ensures forall m :: Model(script[..i]) == Some(m) <==> exists j :: 0 <= j < i && script[j] == ResponseModel(m)
    ensures forall u: Usage :: UsageOf(script[..i]) == Some(u) <==> exists j :: 0 <= j < i && script[j] == UsageSeen(u)
    ensures UsageOf(script[..i]).Some? <==> exists j :: 0 <= j < i && script[j].UsageSeen?
    ensures Model(script[..i]).Some? <==> exists j :: 0 <= j < i && script[j].ResponseModel?
  {
    if i > 0 {
      PrefixRuns(script, i - 1);
      SeenExactly(script, i - 1);
      assert script[..i][..i - 1] == script[..i - 1] && script[..i][i - 1] == script[i - 1];
      assert !Stops(script, i - 1);
    }
  }

  /** Another model was named earlier, or another usage seen. */
  predicate OtherModel(script: seq<Poll>, i: nat)
    requires i < |script|
  {
    script[i].ResponseModel? && exists j :: 0 <= j < i && script[j].ResponseModel? && script[j].model != script[i].model
  }

  predicate BadUsageAt(script: seq<Poll>, i: nat)
    requires i < |script|
  {
    && script[i].UsageSeen?
    && ((script[i].usage.cached.Some? && script[i].usage.cached.value > script[i].usage.input)
        || exists j :: 0 <= j < i && script[j].UsageSeen?)
  }

  /** Which poll ends a running stream, and which fault it is. */
  lemma FaultExactly(script: seq<Poll>, i: nat)
    requires i < |script| && Running(script, i)
    ensures var f := Fault(script, i);
      && (f == Some(TotalDeadline) <==> script[i].PollExpired?)
      && (f == Some(EndedEarly) <==> script[i].UpstreamEnd?)
      && (f == Some(Upstream) <==> script[i].UpstreamError?)
      && (f == Some(ModelChanged) <==> OtherModel(script, i))
      && (f == Some(BadUsage) <==> BadUsageAt(script, i))
    ensures Stops(script, i) <==>
            || script[i].UpstreamFinished? || script[i].PollExpired? || script[i].UpstreamEnd?
            || script[i].UpstreamError? || OtherModel(script, i) || BadUsageAt(script, i)
  {
    SeenExactly(script, i);
    hide Model, UsageOf, Running;
    if script[i].ResponseModel? && Model(script[..i]).Some? {
      OneModel(script, i, Model(script[..i]).value);
    }
  }

  lemma OneModel(script: seq<Poll>, i: nat, m: string)
    requires i <= |script| && Running(script, i) && Model(script[..i]) == Some(m)
    ensures forall j :: 0 <= j < i && script[j].ResponseModel? ==> script[j].model == m
    ensures exists j :: 0 <= j < i && script[j].ResponseModel?
  {
    SeenExactly(script, i);
    forall j | 0 <= j < i && script[j].ResponseModel?
      ensures script[j].model == m
    {
      assert script[j] == ResponseModel(script[j].model);
    }
  }

  /** What ends a stream: the upstream's Finished, its end, an error or the
      deadline, a second model, or a usage that is malformed or not the first. */
  predicate EndsAt(script: seq<Poll>, i: nat)
    requires i < |script|
  {
    || script[i].UpstreamFinished? || script[i].PollExpired? || script[i].UpstreamEnd? || script[i].UpstreamError?
    || OtherModel(script, i) || BadUsageAt(script, i)
  }

  /** A stream stops at its first ending poll, wherever that is. */
  lemma {:induction false} RunsExactly(script: seq<Poll>, i: nat)
    requires i <= |script|
    ensures Running(script, i) <==> forall j :: 0 <= j < i ==> !EndsAt(script, j)
  {
    hide EndsAt, Stops;
    if i > 0 {
      RunsExactly(script, i - 1);
      if Running(script, i - 1) {
        StopsAsSaid(script, i - 1);
      }
    }
  }

  lemma StopsAsSaid(script: seq<Poll>, i: nat)
    requires i < |script| && Running(script, i)
    ensures Stops(script, i) <==> EndsAt(script, i)
  {
    FaultExactly(script, i);
    hide Stops, OtherModel, BadUsageAt, Running;
  }

  /** The owner repeats the usage the stream showed, under this binding and
      attempt; the stream showed the reserved model and stayed within the
      grant. */
  ghost predicate StreamPaid(b: BudgetClient, g: Grant, script: seq<Poll>, n: nat)
    requires n < |script| && script[n].UpstreamFinished?
  {
    && script[n].settle.SettleReply?
    && script[n].settle.response.binding == b.binding && script[n].settle.response.attemptId == g.attemptId
    && (exists j :: 0 <= j < n && script[j] == ResponseModel(g.model))
    && script[n].settle.response.usage.model == g.model
    && exists j :: 0 <= j < n && script[j].UsageSeen? && Repeats(g, script[j].usage, script[n].settle.response.usage)
  }

  predicate Repeats(g: Grant, u: RawUsage, paid: SettlementUsage) {
    && u.input <= g.inputTokenCeiling && u.output <= g.outputLimit
    && paid.input == u.input && paid.output == u.output
    && (paid.cached.Some? <==> u.cached.Some?) && (u.cached.Some? ==> paid.cached.value == u.cached.value)
  }

  lemma AcknowledgedExactly(b: BudgetClient, g: Grant, script: seq<Poll>, n: nat)
    requires n < |script| && script[n].UpstreamFinished? && Running(script, n)
    ensures Acknowledged(Some((b, g)), Model(script[..n]), UsageOf(script[..n]), script[n].settle) <==>
            StreamPaid(b, g, script, n)
  {
    var model, usage, wait := Model(script[..n]), UsageOf(script[..n]), script[n].settle;
    SettledExactly(b, g, model, usage, wait);
    SeenExactly(script, n);
    hide Model, UsageOf, Running, BudgetClient.Settles;
    if exists j :: 0 <= j < n && script[j].UsageSeen? {
      OneUsage(script, n);
    }
  }

  lemma {:induction false} OneUsage(script: seq<Poll>, n: nat)
    requires n <= |script| && Running(script, n) && exists j :: 0 <= j < n && script[j].UsageSeen?
    ensures UsageOf(script[..n]).Some?
    ensures forall j :: 0 <= j < n && script[j].UsageSeen? ==> script[j].usage == UsageOf(script[..n]).value
  {
    SeenExactly(script, n);
    forall j | 0 <= j < n && script[j].UsageSeen?
      ensures script[j].usage == UsageOf(script[..n]).value
    {
      assert !Stops(script, j);
      var u: Usage := script[j].usage;
      assert script[j] == UsageSeen(u);
    }
  }

  /** How the stream ends, by the poll that ends it: its status and the one
      item the consumer still gets. */
  lemma OutcomeOfStream(settlement: Option<(BudgetClient, Grant)>, script: seq<Poll>, n: nat)
    requires n <= |script| && (forall j :: 0 <= j < n ==> !EndsAt(script, j)) && (n < |script| ==> EndsAt(script, n))
    ensures var e, budgeted := EndingOf(settlement, script), settlement.Some?;
      && StopIndex(script) == n
      && (n == |script| ==> e == Ending([], ConsumerDropped))
      && (n < |script| && script[n].UpstreamFinished? ==>
            e == if !budgeted then Ending([FinishedItem], Success)
                 else if script[n].abandoned then Ending([], ConsumerDropped)
                 else if StreamPaid(settlement.value.0, settlement.value.1, script, n)
                   then Ending([FinishedItem], Success)
                 else Ending([EvidenceItem], EvidenceError))
      && (n < |script| && script[n].PollExpired? ==>
            e == Ending([if budgeted then EvidenceItem else FaultItem(TotalDeadline)], Timeout))
      && (n < |script| && budgeted && !script[n].UpstreamFinished? && !script[n].PollExpired? ==>
            e == Ending([EvidenceItem], EvidenceError))
      && (n < |script| && !budgeted ==>
            && (script[n].UpstreamEnd? ==> e == Ending([FaultItem(EndedEarly)], StreamError))
            && (script[n].UpstreamError? ==> e == Ending([FaultItem(Upstream)], StreamError))
            && (script[n].ResponseModel? ==> e == Ending([FaultItem(ModelChanged)], StreamError))
            && (script[n].UsageSeen? ==> e == Ending([FaultItem(BadUsage)], StreamError)))
  {
    RunsExactly(script, n);
    var m := StopIndex(script);
    assert m < |script| ==> Stops(script, m);
    if n < |script| {
      StopsAsSaid(script, n);
      FaultExactly(script, n);
      if settlement.Some? && script[n].UpstreamFinished? {
        AcknowledgedExactly(settlement.value.0, settlement.value.1, script, n);
      }
    }
    hide StopIndex, Fault, Model, UsageOf, Acknowledged, StreamPaid, OtherModel, BadUsageAt, Running;
  }

  // ------------------------------------------------------------------- text

  function Deltas(script: seq<Poll>): set<int> {
    set i | 0 <= i < |script| && script[i].Delta?
  }

  lemma DeltasNext(script: seq<Poll>, poll: Poll)
    ensures Deltas(script + [poll]) == Deltas(script) + if poll.Delta? then {|script|} else {}
    ensures |script| !in Deltas(script)
  {
  }

  /** Every delta is relayed, in its place, and nothing else. */
  lemma {:induction false} TextsExactly(script: seq<Poll>)
    ensures |Texts(script)| == |set i | 0 <= i < |script| && script[i].Delta?|
    ensures forall i :: 0 <= i < |script| && script[i].Delta? ==>
              |Texts(script[..i])| < |Texts(script)| && Texts(script)[|Texts(script[..i])|] == Text(script[i].text)
  {
    TextsCounted(script);
    forall i | 0 <= i < |script| && script[i].Delta?
      ensures |Texts(script[..i])| < |Texts(script)| && Texts(script)[|Texts(script[..i])|] == Text(script[i].text)
    {
      TextAt(script, i);
    }
  }

  lemma {:induction false} TextsCounted(script: seq<Poll>)
    ensures |Texts(script)| == |Deltas(script)|
  {
    if script == [] {
      assert Deltas(script) == {};
    } else {
      var init, last := script[..|script| - 1], script[|script| - 1];
      assert script == init + [last];
      TextsCounted(init);
      DeltasNext(init, last);
      hide Deltas;
    }
  }

  lemma {:induction false} TextAt(script: seq<Poll>, i: nat)
    requires i < |script| && script[i].Delta?
    ensures |Texts(script[..i])| < |Texts(script)| && Texts(script)[|Texts(script[..i])|] == Text(script[i].text)
  {
    var init := script[..|script| - 1];
    if i < |init| {
      assert script[..i] == init[..i] && init[i] == script[i];
      TextAt(init, i);
    }
  }

  /** The first token was seen exactly when some delta was not empty. */
  lemma {:induction false} FirstTokenExactly(script: seq<Poll>)
    ensures HasText(script) <==> exists i :: 0 <= i < |script| && script[i].Delta? && script[i].text != ""
  {
    if script != [] {
      var init := script[..|script| - 1];
      FirstTokenExactly(init);
      assert forall i :: 0 <= i < |init| ==> init[i] == script[i];
    }
  }
}
