/** The request counters (crates/llm-client/src/telemetry.rs) as the exporter
    registry holds them, and the totals that a report sums over it. */
module Telemetry {
  import opened LlmTypes
  import opened CallTrace

  datatype Mode = Sync | Stream

  datatype Metric =
    | RequestsStarted | Attempts | Retries | Requests | UsageReports | TokensTotal | BillableTokens

  datatype Detail =
    | Plain
    | WithStatus(status: Status)
    | WithReason(reason: Status)
    | Present | Missing                                         // status of a usage report
    | Input | Output | CachedInput | UncachedInput              // token type or billing class

  /** One time series: a metric name with its labels. Token series carry no
      mode, and only billable tokens carry the usage key. */
  datatype Series = Series(
    metric: Metric, provider: string, model: string, operation: LlmOperation,
    mode: Option<Mode>, detail: Detail, usageKey: Option<string>)

  datatype Sample = Sample(series: Series, value: nat)

  datatype Labels = Labels(
    provider: string, model: string, usageKey: string, operation: LlmOperation, mode: Mode)
  {
    function Of(metric: Metric, detail: Detail): Series {
      Series(metric, provider, model, operation,
             if metric == TokensTotal || metric == BillableTokens then None else Some(mode),
             detail, if metric == BillableTokens then Some(usageKey) else None)
    }
  }

  // --------------------------------------------------------------- registry

  function Increment(samples: seq<Sample>, s: Series, n: nat): seq<Sample> {
    if samples == [] then [Sample(s, n)]
    else if samples[0].series == s then [Sample(s, samples[0].value + n)] + samples[1..]
    else [samples[0]] + Increment(samples[1..], s, n)
  }

  /** No series occurs twice; a report refuses an export where one does. */
  ghost predicate Distinct(samples: seq<Sample>) {
    forall i, j :: 0 <= i < j < |samples| ==> samples[i].series != samples[j].series
  }

  /** Whether a total over operation `op` includes series `s`. */
  predicate Selects(m: Measure, op: LlmOperation, s: Series) {
    s.operation == op &&
    match m
    case StartedTotal => s.metric == RequestsStarted
    case AttemptTotal => s.metric == Attempts
    case RetryTotal => s.metric == Retries
    case SuccessTotal => s.metric == Requests && s.detail == WithStatus(Success)
    case FailureTotal => s.metric == Requests && s.detail != WithStatus(Success)
    case PresentTotal => s.metric == UsageReports && s.detail == Present
    case MissingTotal => s.metric == UsageReports && s.detail == Missing
    case InputTokens => s.metric == TokensTotal && s.detail == Input
    case OutputTokens => s.metric == TokensTotal && s.detail == Output
    case CachedTokens => s.metric == TokensTotal && s.detail == CachedInput
    case CachedBillable => s.metric == BillableTokens && s.detail == CachedInput
    case UncachedBillable => s.metric == BillableTokens && s.detail == UncachedInput
    case OutputBillable => s.metric == BillableTokens && s.detail == Output
  }

  /** The sum a report takes over all samples a measure selects. */
  function Total(m: Measure, op: LlmOperation, samples: seq<Sample>): nat {
    if samples == [] then 0
    else (if Selects(m, op, samples[0].series) then samples[0].value else 0) + Total(m, op, samples[1..])
  }

  lemma {:induction false} TotalConcat(m: Measure, op: LlmOperation, a: seq<Sample>, b: seq<Sample>)
    ensures Total(m, op, a + b) == Total(m, op, a) + Total(m, op, b)
  {
    hide Selects;
    if a == [] {
      assert a + b == b;
    } else {
      assert (a + b)[1..] == a[1..] + b;
      TotalConcat(m, op, a[1..], b);
    }
  }

  lemma {:induction false} IncrementTotal(m: Measure, op: LlmOperation, samples: seq<Sample>, s: Series, n: nat)
    ensures Total(m, op, Increment(samples, s, n))
            == Total(m, op, samples) + if Selects(m, op, s) then n else 0
  {
    hide Selects;
    if samples != [] && samples[0].series != s {
      IncrementTotal(m, op, samples[1..], s, n);
    }
  }

  lemma {:induction false} IncrementDistinct(samples: seq<Sample>, s: Series, n: nat)
    requires Distinct(samples)
    ensures Distinct(Increment(samples, s, n))
    ensures forall r <- Increment(samples, s, n) :: r.series == s || exists q <- samples :: q.series == r.series
  {
    if samples != [] && samples[0].series != s {
      IncrementDistinct(samples[1..], s, n);
      var rest := Increment(samples[1..], s, n);
      forall j | 0 <= j < |rest|
        ensures rest[j].series != samples[0].series
      {
        assert rest[j] in rest;
      }
    }
  }

  // ------------------------------------------------------- request counters

  function RecordUsage(samples: seq<Sample>, l: Labels, u: Usage): seq<Sample> {
    var a := Increment(samples, l.Of(TokensTotal, Input), u.input);
    var b := Increment(a, l.Of(TokensTotal, Output), u.output);
    var c := if u.cached.Some? then Increment(b, l.Of(TokensTotal, CachedInput), u.cached.value) else b;
    var d := if u.cached.Some? then Increment(c, l.Of(BillableTokens, CachedInput), u.cached.value) else c;
    var uncached := if u.cached.Some? then u.input - u.cached.value else u.input;
    var e := Increment(d, l.Of(BillableTokens, UncachedInput), uncached);
    Increment(e, l.Of(BillableTokens, Output), u.output)
  }

  function Record(samples: seq<Sample>, l: Labels, e: Event): seq<Sample> {
    match e
    case Started => Increment(samples, l.Of(RequestsStarted, Plain), 1)
    case AttemptEnded(status) => Increment(samples, l.Of(Attempts, WithStatus(status)), 1)
    case RetryScheduled(reason) => Increment(samples, l.Of(Retries, WithReason(reason)), 1)
    case Finished(status) => Increment(samples, l.Of(Requests, WithStatus(status)), 1)
    case UsageReport(None) => Increment(samples, l.Of(UsageReports, Missing), 1)
    case UsageReport(Some(u)) => RecordUsage(Increment(samples, l.Of(UsageReports, Present), 1), l, u)
    case AdditionalUsage(u) => RecordUsage(samples, l, u)
    case _ => samples
  }

  function RecordAll(samples: seq<Sample>, l: Labels, trace: seq<Event>): seq<Sample> {
    if trace == [] then samples
    else Record(RecordAll(samples, l, trace[..|trace| - 1]), l, trace[|trace| - 1])
  }

  lemma {:induction false} RecordUsageTotal(m: Measure, op: LlmOperation, samples: seq<Sample>, l: Labels, u: Usage)
    ensures Total(m, op, RecordUsage(samples, l, u))
            == Total(m, op, samples) + if op == l.operation then UsageWeight(m, Some(u)) else 0
  {
    hide Increment, Total;
    var a := Increment(samples, l.Of(TokensTotal, Input), u.input);
    var b := Increment(a, l.Of(TokensTotal, Output), u.output);
    var c := if u.cached.Some? then Increment(b, l.Of(TokensTotal, CachedInput), u.cached.value) else b;
    var d := if u.cached.Some? then Increment(c, l.Of(BillableTokens, CachedInput), u.cached.value) else c;
    var uncached := if u.cached.Some? then u.input - u.cached.value else u.input;
    var e := Increment(d, l.Of(BillableTokens, UncachedInput), uncached);
    IncrementTotal(m, op, samples, l.Of(TokensTotal, Input), u.input);
    IncrementTotal(m, op, a, l.Of(TokensTotal, Output), u.output);
    if u.cached.Some? {
      IncrementTotal(m, op, b, l.Of(TokensTotal, CachedInput), u.cached.value);
      IncrementTotal(m, op, c, l.Of(BillableTokens, CachedInput), u.cached.value);
    }
    IncrementTotal(m, op, d, l.Of(BillableTokens, UncachedInput), uncached);
    IncrementTotal(m, op, e, l.Of(BillableTokens, Output), u.output);
  }

  /** Which totals one more request, attempt, retry or report is part of. */
  lemma CountWeighs(m: Measure, op: LlmOperation, l: Labels, e: Event)
    requires e.Started? || e.AttemptEnded? || e.RetryScheduled? || e.Finished?
    ensures var s := match e
                     case Started => l.Of(RequestsStarted, Plain)
                     case AttemptEnded(status) => l.Of(Attempts, WithStatus(status))
                     case RetryScheduled(reason) => l.Of(Retries, WithReason(reason))
                     case Finished(status) => l.Of(Requests, WithStatus(status));
            Flag(Selects(m, op, s)) == if op == l.operation then Weigh(m, e) else 0
  {
    assert Booked(e) == None;
  }

  lemma ReportWeighs(m: Measure, op: LlmOperation, l: Labels, u: Option<Usage>)
    ensures Flag(Selects(m, op, l.Of(UsageReports, if u.Some? then Present else Missing)))
            + (if op == l.operation then UsageWeight(m, u) else 0)
            == if op == l.operation then Weigh(m, UsageReport(u)) else 0
  {
  }

  lemma AdditionalWeighs(m: Measure, u: Usage)
    ensures Weigh(m, AdditionalUsage(u)) == UsageWeight(m, Some(u))
  {
  }

  /** What the report will sum moves by exactly the weight of the event, and
      only for the operation the request is labelled with. */
  lemma {:induction false} RecordTotal(m: Measure, op: LlmOperation, samples: seq<Sample>, l: Labels, e: Event)
    ensures Total(m, op, Record(samples, l, e))
            == Total(m, op, samples) + if op == l.operation then Weigh(m, e) else 0
  {
    hide Increment, Total, RecordUsage, Selects, UsageWeight, Weigh;
    match e
    case Started =>
      CountWeighs(m, op, l, e);
      IncrementTotal(m, op, samples, l.Of(RequestsStarted, Plain), 1);
    case AttemptEnded(status) =>
      CountWeighs(m, op, l, e);
      IncrementTotal(m, op, samples, l.Of(Attempts, WithStatus(status)), 1);
    case RetryScheduled(reason) =>
      CountWeighs(m, op, l, e);
      IncrementTotal(m, op, samples, l.Of(Retries, WithReason(reason)), 1);
    case Finished(status) =>
      CountWeighs(m, op, l, e);
      IncrementTotal(m, op, samples, l.Of(Requests, WithStatus(status)), 1);
    case UsageReport(None) =>
      ReportWeighs(m, op, l, None);
      NoUsageWeighs(m);
      IncrementTotal(m, op, samples, l.Of(UsageReports, Missing), 1);
    case UsageReport(Some(u)) =>
      ReportWeighs(m, op, l, Some(u));
      IncrementTotal(m, op, samples, l.Of(UsageReports, Present), 1);
      RecordUsageTotal(m, op, Increment(samples, l.Of(UsageReports, Present), 1), l, u);
    case AdditionalUsage(u) =>
      AdditionalWeighs(m, u);
      RecordUsageTotal(m, op, samples, l, u);
    case _ =>
      SilentWeighs(m, e);
  }

  lemma NoUsageWeighs(m: Measure)
    ensures UsageWeight(m, None) == 0
  {
  }

  lemma SilentWeighs(m: Measure, e: Event)
    requires e.ReserveSent? || e.Granted? || e.Dispatched? || e.Replied? || e.SettleSent? || e.SettleAcked?
    ensures Weigh(m, e) == 0
  {
  }

  lemma {:induction false} RecordAllTotal(m: Measure, op: LlmOperation, samples: seq<Sample>, l: Labels,
                                          trace: seq<Event>)
    ensures Total(m, op, RecordAll(samples, l, trace))
            == Total(m, op, samples) + if op == l.operation then Tally(m, trace) else 0
  {
    hide Total, Record;
    if trace != [] {
      RecordAllTotal(m, op, samples, l, trace[..|trace| - 1]);
      RecordTotal(m, op, RecordAll(samples, l, trace[..|trace| - 1]), l, trace[|trace| - 1]);
    }
  }

  lemma {:induction false} RecordDistinct(samples: seq<Sample>, l: Labels, e: Event)
    requires Distinct(samples)
    ensures Distinct(Record(samples, l, e))
  {
    hide Distinct, Increment;
    forall s, n, t | Distinct(t)
      ensures Distinct(Increment(t, s, n))
    {
      IncrementDistinct(t, s, n);
    }
  }

  // ------------------------------------------------------ series by series

  /** What an export says about one series. */
  function ValueOf(samples: seq<Sample>, s: Series): nat {
    if samples == [] then 0
    else (if samples[0].series == s then samples[0].value else 0) + ValueOf(samples[1..], s)
  }

  /** A series of the request counters: it carries the mode and no usage key. */
  predicate Counts(l: Labels, s: Series, d: Detail) {
    s.mode == Some(l.mode) && s.usageKey == None && s.detail == d
  }

  /** What booking a usage adds to a token or billing series. */
  function BookedIn(l: Labels, s: Series, u: Usage): nat {
    if s.mode != None then 0
    else
      var cached := if u.cached.Some? then u.cached.value else 0;
      match s.metric
      case TokensTotal =>
        if s.usageKey != None then 0
        else if s.detail == Input then u.input
        else if s.detail == Output then u.output
        else if s.detail == CachedInput then cached else 0
      case BillableTokens =>
        if s.usageKey != Some(l.usageKey) then 0
        else if s.detail == CachedInput then cached
        else if s.detail == UncachedInput then u.input - cached
        else if s.detail == Output then u.output else 0
      case _ => 0
  }

  /** What one event of a request adds to a series. */
  function AddedTo(l: Labels, e: Event, s: Series): nat {
    if s.provider != l.provider || s.model != l.model || s.operation != l.operation then 0
    else
      match s.metric
      case RequestsStarted => Flag(e.Started? && Counts(l, s, Plain))
      case Attempts => Flag(e.AttemptEnded? && Counts(l, s, WithStatus(e.status)))
      case Retries => Flag(e.RetryScheduled? && Counts(l, s, WithReason(e.reason)))
      case Requests => Flag(e.Finished? && Counts(l, s, WithStatus(e.status)))
      case UsageReports => Flag(e.UsageReport? && Counts(l, s, if e.reported.Some? then Present else Missing))
      case _ => if Booked(e).Some? then BookedIn(l, s, Booked(e).value) else 0
  }

  lemma {:induction false} IncrementValue(samples: seq<Sample>, r: Series, n: nat, s: Series)
    ensures ValueOf(Increment(samples, r, n), s) == ValueOf(samples, s) + if s == r then n else 0
  {
    if samples != [] && samples[0].series != r {
      IncrementValue(samples[1..], r, n, s);
    }
  }

  lemma {:induction false} RecordUsageValue(samples: seq<Sample>, l: Labels, u: Usage, s: Series)
    ensures ValueOf(RecordUsage(samples, l, u), s) == ValueOf(samples, s)
            + if s.provider == l.provider && s.model == l.model && s.operation == l.operation
              then BookedIn(l, s, u) else 0
  {
    hide Increment, ValueOf;
    forall t, r, n: nat
      ensures ValueOf(Increment(t, r, n), s) == ValueOf(t, s) + if s == r then n else 0
    {
      IncrementValue(t, r, n, s);
    }
  }

  /** Every event moves exactly the series with its own labels, by exactly what
      it counts; every other series stays as it is. */
  lemma {:induction false} RecordExactly(samples: seq<Sample>, l: Labels, e: Event, s: Series)
    ensures ValueOf(Record(samples, l, e), s) == ValueOf(samples, s) + AddedTo(l, e, s)
  {
    hide Increment, ValueOf, RecordUsage, BookedIn;
    forall t, r, n: nat
      ensures ValueOf(Increment(t, r, n), s) == ValueOf(t, s) + if s == r then n else 0
    {
      IncrementValue(t, r, n, s);
    }
    forall t, u: Usage
      ensures ValueOf(RecordUsage(t, l, u), s) == ValueOf(t, s)
              + if s.provider == l.provider && s.model == l.model && s.operation == l.operation
                then BookedIn(l, s, u) else 0
    {
      RecordUsageValue(t, l, u, s);
    }
    CountersBookNothing(l, s);
  }

  lemma CountersBookNothing(l: Labels, s: Series)
    ensures !s.metric.TokensTotal? && !s.metric.BillableTokens? ==> forall u: Usage :: BookedIn(l, s, u) == 0
  {
  }

  lemma {:induction false} RecordAllAppend(samples: seq<Sample>, l: Labels, trace: seq<Event>, e: Event)
    ensures RecordAll(samples, l, trace + [e]) == Record(RecordAll(samples, l, trace), l, e)
  {
    hide Record;
    assert (trace + [e])[..|trace|] == trace;
  }

  /** The process-wide registry. */
  class Recorder {
    var samples: seq<Sample>

    constructor ()
      ensures samples == []
    {
      samples := [];
    }

    method Add(s: Series, n: nat)
      modifies this
      ensures samples == Increment(old(samples), s, n)
    {
      samples := Increment(samples, s, n);
    }
  }

  /** The counters of one request. The ghost fields follow what the request
      does: each method below is one event, and may be called only where the
      protocol allows that event. */
  class RequestLabels {
    const cfg: Config
    const labels: Labels
    const recorder: Recorder
    ghost const base: seq<Sample>
    ghost var trace: seq<Event>
    ghost var view: View

    ghost predicate Valid()
      reads this, recorder
    {
      && view == Observe(cfg, trace) && Accepts(cfg, trace)
      && recorder.samples == RecordAll(base, labels, trace)
    }

    /** Exactly event `e` happened. */
    twostate predicate Did(e: Event)
      reads this, recorder
    {
      && Valid()
      && trace == old(trace) + [e]
      && view == Advance(cfg, old(view), e)
    }

    constructor (cfg: Config, labels: Labels, recorder: Recorder)
      ensures Valid() && trace == [] && view == INITIAL
      ensures this.cfg == cfg && this.labels == labels && this.recorder == recorder
      ensures base == recorder.samples
    {
      this.cfg := cfg;
      this.labels := labels;
      this.recorder := recorder;
      base := recorder.samples;
      trace := [];
      view := INITIAL;
    }

    /** A step that no counter shows. */
    ghost method Note(e: Event)
      requires Valid() && Allowed(cfg, view, e)
      requires e.ReserveSent? || e.Granted? || e.Dispatched? || e.Replied? || e.SettleSent? || e.SettleAcked?
      modifies this
      ensures Did(e)
    {
      hide Advance, Allowed, Observe, Accepts, RecordAll;
      Extend(e);
      trace := trace + [e];
      view := Advance(cfg, view, e);
    }

    ghost method NoteReserveSent(round: nat, committed: bool)
      requires Valid() && Allowed(cfg, view, ReserveSent(round, committed))
      modifies this
      ensures Did(ReserveSent(round, committed))
      ensures view == old(view).(phase := Asked(round, committed), rounds := round + 1)
    {
      Note(ReserveSent(round, committed));
    }

    ghost method NoteGranted(round: nat)
      requires Valid() && Allowed(cfg, view, Granted(round))
      modifies this
      ensures Did(Granted(round))
      ensures view == old(view).(phase := Holding(round))
    {
      Note(Granted(round));
    }

    ghost method NoteDispatched(round: nat)
      requires Valid() && Allowed(cfg, view, Dispatched(round))
      modifies this
      ensures Did(Dispatched(round))
      ensures view == old(view).(phase := InFlight(round), dispatches := old(view).dispatches + 1,
                                 rounds := if cfg.budgeted then old(view).rounds else round + 1,
                                 sent := false, delivered := false, acked := false)
    {
      Note(Dispatched(round));
    }

    ghost method NoteReplied(usage: Option<Usage>)
      requires Valid() && Allowed(cfg, view, Replied(usage))
      modifies this
      ensures Did(Replied(usage))
      ensures view == old(view).(owed := usage, receipts := old(view).receipts + [usage])
    {
      Note(Replied(usage));
    }

    ghost method NoteSettleSent(round: nat, usage: Usage, committed: bool)
      requires Valid() && Allowed(cfg, view, SettleSent(round, usage, committed))
      modifies this
      ensures Did(SettleSent(round, usage, committed))
      ensures view == old(view).(sent := true, delivered := committed,
                                 settles := old(view).settles + [Settlement(round, usage)])
    {
      Note(SettleSent(round, usage, committed));
    }

    ghost method NoteSettleAcked(round: nat)
      requires Valid() && Allowed(cfg, view, SettleAcked(round))
      modifies this
      ensures Did(SettleAcked(round))
      ensures view == old(view).(acked := true)
    {
      Note(SettleAcked(round));
    }

    lemma Extend(e: Event)
      ensures Observe(cfg, trace + [e]) == Advance(cfg, Observe(cfg, trace), e)
      ensures Accepts(cfg, trace + [e]) <==> Accepts(cfg, trace) && Allowed(cfg, Observe(cfg, trace), e)
      ensures RecordAll(base, labels, trace + [e]) == Record(RecordAll(base, labels, trace), labels, e)
    {
      ObserveAppend(cfg, trace, e);
      RecordAllAppend(base, labels, trace, e);
    }

    method Started()
      requires Valid() && Allowed(cfg, view, Event.Started)
      modifies this, recorder
      ensures Did(Event.Started)
      ensures view == old(view).(phase := Waiting)
    {
      hide Observe, Accepts, RecordAll, Increment;
      Extend(Event.Started);
      recorder.Add(labels.Of(RequestsStarted, Plain), 1);
      trace := trace + [Event.Started];
      view := Advance(cfg, view, Event.Started);
    }

    method Attempt(status: Status)
      requires Valid() && Allowed(cfg, view, AttemptEnded(status))
      modifies this, recorder
      ensures Did(AttemptEnded(status))
      ensures view == old(view).(phase := Returned(old(view).phase.round), statuses := old(view).statuses + [status])
    {
      hide Observe, Accepts, RecordAll, Increment;
      Extend(AttemptEnded(status));
      recorder.Add(labels.Of(Attempts, WithStatus(status)), 1);
      trace := trace + [AttemptEnded(status)];
      view := Advance(cfg, view, AttemptEnded(status));
    }

    method Retry(reason: Status)
      requires Valid() && Allowed(cfg, view, RetryScheduled(reason))
      modifies this, recorder
      ensures Did(RetryScheduled(reason))
      ensures view == old(view).(phase := Waiting)
    {
      hide Observe, Accepts, RecordAll, Increment;
      Extend(RetryScheduled(reason));
      recorder.Add(labels.Of(Retries, WithReason(reason)), 1);
      trace := trace + [RetryScheduled(reason)];
      view := Advance(cfg, view, RetryScheduled(reason));
    }

    method Finish(status: Status)
      requires Valid() && Allowed(cfg, view, Finished(status))
      modifies this, recorder
      ensures Did(Finished(status))
      ensures view == old(view).(phase := Closed(status), undispatched := Scheduled(old(view).phase))
    {
      hide Observe, Accepts, RecordAll, Increment;
      Extend(Finished(status));
      recorder.Add(labels.Of(Requests, WithStatus(status)), 1);
      trace := trace + [Finished(status)];
      view := Advance(cfg, view, Finished(status));
    }

    method ReportUsage(usage: Option<Usage>)
      requires Valid() && Allowed(cfg, view, UsageReport(usage))
      modifies this, recorder
      ensures Did(UsageReport(usage))
      ensures view == old(view).(report := Some(usage.Some?), owed := None)
    {
      hide Observe, Accepts, RecordAll, Increment;
      Extend(UsageReport(usage));
      if usage.None? {
        recorder.Add(labels.Of(UsageReports, Missing), 1);
      } else {
        recorder.Add(labels.Of(UsageReports, Present), 1);
        AddUsage(usage.value);
      }
      trace := trace + [UsageReport(usage)];
      view := Advance(cfg, view, UsageReport(usage));
    }

    method ReportAdditionalUsage(usage: Usage)
      requires Valid() && Allowed(cfg, view, AdditionalUsage(usage))
      modifies this, recorder
      ensures Did(AdditionalUsage(usage))
      ensures view == old(view).(owed := None)
    {
      hide Observe, Accepts, RecordAll, Increment;
      Extend(AdditionalUsage(usage));
      AddUsage(usage);
      trace := trace + [AdditionalUsage(usage)];
      view := Advance(cfg, view, AdditionalUsage(usage));
    }

    method AddUsage(usage: Usage)
      modifies recorder
      ensures recorder.samples == RecordUsage(old(recorder.samples), labels, usage)
    {
      hide Increment;
      recorder.Add(labels.Of(TokensTotal, Input), usage.input);
      recorder.Add(labels.Of(TokensTotal, Output), usage.output);
      if usage.cached.Some? {
        recorder.Add(labels.Of(TokensTotal, CachedInput), usage.cached.value);
        recorder.Add(labels.Of(BillableTokens, CachedInput), usage.cached.value);
        recorder.Add(labels.Of(BillableTokens, UncachedInput), usage.input - usage.cached.value);
      } else {
        recorder.Add(labels.Of(BillableTokens, UncachedInput), usage.input);
      }
      recorder.Add(labels.Of(BillableTokens, Output), usage.output);
    }
  }
}
