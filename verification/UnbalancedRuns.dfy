/** Single requests that make a check of the budget report fail: the client is
    run on a script, and the report refuses the counters it leaves. */
module UnbalancedRuns {
  import opened LlmTypes
  import opened CallTrace
  import opened Telemetry
  import opened BudgetControl
  import opened ChatSpec
  import opened ChatClient
  import opened StreamSpec
  import opened StreamClient
  import opened Requests
  import opened SharedOwner
  import opened BudgetReport

  ghost function Steps(trace: seq<Event>): seq<Step> {
    if trace == [] then [] else Steps(trace[..|trace| - 1]) + [Step(0, trace[|trace| - 1])]
  }

  ghost function Alone(cfg: Config, labels: Labels, source: Source, trace: seq<Event>): Generation {
    Generation([cfg], [labels], [source], Steps(trace))
  }

  lemma {:induction false} StepsAreTrace(labels: Labels, trace: seq<Event>)
    ensures InRange(1, Steps(trace)) && Project(Steps(trace), 0) == trace
    ensures Export([labels], Steps(trace)) == RecordAll([], labels, trace)
  {
    hide Record;
    if trace != [] {
      var init, all := Steps(trace[..|trace| - 1]), Steps(trace);
      StepsAreTrace(labels, trace[..|trace| - 1]);
      assert all[..|all| - 1] == init && all[|all| - 1] == Step(0, trace[|trace| - 1]);
    }
  }

  /** The report on a process that served one request. */
  lemma OneRequest(cfg: Config, labels: Labels, source: Source, trace: seq<Event>)
    requires Completed(cfg, trace) && RanAs(source, Observe(cfg, trace))
    ensures var samples := RecordAll([], labels, trace);
      && (Fails(AttemptMismatch, labels.operation, samples) <==> LeftUndispatched(source))
      && (Fails(UsageMismatch, labels.operation, samples) <==> FailsAfterUsage(source))
      && (KnownLabels(samples) <==> !CutSeries(source))
  {
    StepsAreTrace(labels, trace);
    var g, op := Alone(cfg, labels, source, trace), labels.operation;
    hide Observe, Accepts, RanAs, RecordAll, Steps, Project, Export, LeftUndispatched, FailsAfterUsage, CutSeries,
         Fails, KnownLabels;
    assert AllCompleted(g);
    Verdict(op, [g]);
    VocabularyVerdict(g);
    OneGeneration(g);
    OnlySource(op, g, source);
  }

  lemma OneGeneration(g: Generation)
    ensures Exports([g]) == Export(g.labels, g.log)
  {
    hide Export;
    assert [g][..0] == [];
  }

  lemma OnlySource(op: LlmOperation, g: Generation, source: Source)
    requires g.sources == [source] && |g.labels| == 1 && g.labels[0].operation == op
    ensures Occurs(Undispatched, op, [g]) <==> LeftUndispatched(source)
    ensures Occurs(FailedReport, op, [g]) <==> FailsAfterUsage(source)
    ensures (forall s <- g.sources :: !CutSeries(s)) <==> !CutSeries(source)
  {
    hide LeftUndispatched, FailsAfterUsage, CutSeries;
    assert g in [g] && source in g.sources && g.sources[0] == source;
  }

  /** The owner refuses the first reservation: started, but no attempt. */
  method RefusedReservation() returns (samples: seq<Sample>)
    ensures Fails(AttemptMismatch, CanonExtraction, samples)
  {
    var recorder := new Recorder();
    var budget := BudgetClient(DIAGNOSTIC_V4, "budget");
    var client := new LlmClient(Caller(Set(budget), "deepseek", Some("https://api.deepseek.com")), recorder, "key");
    var req := ChatRequest(CanonExtraction, "deepseek-flash", ["user"], Some(100), false, false, Some(false), None,
      false);
    var env: Script := (k: nat) => Round(Some(10), ReserveLost(false), Done(TransportError), SettleLost(false), false);
    ghost var source := ChatSource(client.caller, req, env);
    RefusedIsUndispatched(client.caller, req, env);
    hide EndOf, Accounts, Truthful, Completed, Observe, RecordAll, LeftUndispatched, Fails, Quote;
    var outcome, trace := client.Chat(req, Entry(true, true, true), env);
    OneRequest(client.RequestConfig(req), client.LabelsOf(req, Sync), source, trace);
    samples := recorder.samples;
  }

  lemma RefusedIsUndispatched(caller: Caller, req: ChatRequest, env: Script)
    requires caller.budget.Set? && req.maxAttempts.None? && env(0).reserve == ReserveLost(false)
    ensures LeftUndispatched(ChatSource(caller, req, env))
  {
    hide Quote, JsonAt, RetriesAt;
    assert LastTurnIs(caller, req, env, 0) && StopsBeforeDispatch(caller, req, env, 0);
  }

  /** A series answer longer than its limit: a usage report without success. */
  method OverlongSeriesAnswer() returns (samples: seq<Sample>)
    ensures Fails(UsageMismatch, SeriesMatching, samples)
  {
    var recorder := new Recorder();
    var client := new LlmClient(Caller(Unset, "deepseek", None), recorder, "key");
    var req := ChatRequest(SeriesMatching, "deepseek-flash", ["user"], Some(512), true, false, None, None, false);
    var reply := Answer("deepseek-flash", Some(RawUsage(10, 513, None)));
    var env: Script := (k: nat) => Round(None, ReserveLost(false), Done(reply), SettleLost(false), false);
    ghost var source := ChatSource(client.caller, req, env);
    OverlongFails(client.caller, req, env);
    hide EndOf, Accounts, Truthful, Completed, Observe, RecordAll, FailsAfterUsage, Fails;
    var outcome, trace := client.Chat(req, Entry(true, true, true), env);
    OneRequest(client.RequestConfig(req), client.LabelsOf(req, Sync), source, trace);
    samples := recorder.samples;
  }

  lemma OverlongFails(caller: Caller, req: ChatRequest, env: Script)
    requires caller.budget.Unset? && req.operation == SeriesMatching && req.maxAttempts.None?
    requires env(0).reply.Done? && env(0).reply.value.Answer? && OverSeriesLimit(req, env(0).reply.value.usage)
    ensures FailsAfterUsage(ChatSource(caller, req, env))
  {
    hide JsonAt, RetriesAt;
    assert LastTurnIs(caller, req, env, 0) && FailsAfterReport(caller, req, env, 0);
  }

  /** A series reply cut short: the usage check fails, and the export carries a
      status that the report does not know. */
  method CutSeriesReply() returns (samples: seq<Sample>)
    ensures Fails(UsageMismatch, SeriesMatching, samples) && !KnownLabels(samples)
  {
    var recorder := new Recorder();
    var client := new LlmClient(Caller(Unset, "deepseek", None), recorder, "key");
    var req := ChatRequest(SeriesMatching, "deepseek-flash", ["user"], Some(512), true, false, None, None, false);
    var reply := IncompleteSeries("deepseek-flash", Some(RawUsage(10, 512, None)));
    var env: Script := (k: nat) => Round(None, ReserveLost(false), Done(reply), SettleLost(false), false);
    ghost var source := ChatSource(client.caller, req, env);
    CutFails(client.caller, req, env);
    hide EndOf, Accounts, Truthful, Completed, Observe, RecordAll, FailsAfterUsage, CutSeries, Fails, KnownLabels;
    var outcome, trace := client.Chat(req, Entry(true, true, true), env);
    OneRequest(client.RequestConfig(req), client.LabelsOf(req, Sync), source, trace);
    samples := recorder.samples;
  }

  lemma CutFails(caller: Caller, req: ChatRequest, env: Script)
    requires caller.budget.Unset? && req.operation == SeriesMatching && req.maxAttempts.None?
    requires env(0).reply.Done? && env(0).reply.value.IncompleteSeries?
    ensures FailsAfterUsage(ChatSource(caller, req, env)) && CutSeries(ChatSource(caller, req, env))
  {
    hide JsonAt, RetriesAt, EndOf;
    assert LastTurnIs(caller, req, env, 0) && FailsAfterReport(caller, req, env, 0);
    EndingOfChat(caller, req, env, 0);
    assert 0 < EndOf(caller, req, env).dispatches;
  }

  /** A consumer drops a stream after its usage was seen. */
  method DroppedAfterUsage() returns (samples: seq<Sample>)
    ensures Fails(UsageMismatch, CharacterChat, samples)
  {
    var recorder := new Recorder();
    var client := new LlmClient(Caller(Unset, "deepseek", None), recorder, "key");
    var req := ChatRequest(CharacterChat, "deepseek-flash", ["user"], Some(100), false, false, None, None, false);
    var env: SetupScript := (k: nat) => SetupRound(None, ReserveLost(false), Done(Opened), false);
    var polls := [UsageSeen(RawUsage(10, 2, None))];
    ghost var source := StreamSource(client.caller, req, env, polls);
    DroppedFails(client.caller, req, env, RawUsage(10, 2, None));
    hide SetupEndOf, StreamAccounts, SetupTruthful, StreamEnding, Texts, Completed, Observe, RecordAll,
         FailsAfterUsage, Fails;
    var refusal, items, trace := StreamClient.ChatStream(client, req, StreamEntry(true, true), env, polls);
    OneRequest(client.RequestConfig(req), client.LabelsOf(req, Stream), source, trace);
    samples := recorder.samples;
  }

  lemma DroppedFails(caller: Caller, req: ChatRequest, env: SetupScript, usage: Usage)
    requires caller.budget.Unset? && env(0).reply == Done(Opened)
    ensures FailsAfterUsage(StreamSource(caller, req, env, [UsageSeen(usage)]))
  {
    var polls := [UsageSeen(usage)];
    assert LastSetupIs(caller, req, env, 0);
    EndingOfSetup(caller, req, env, 0);
    hide SetupEndOf;
    assert polls[..0] == [] && polls[..1] == polls && UsageOf([]) == None;
    assert !Stops(polls, 0);
    assert StopIndex(polls) == 1;
  }
}
