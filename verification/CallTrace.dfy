/** What one chat or stream request does, as the sequence of its visible
    events, and the protocol every such sequence has to follow. */
module CallTrace {
  import opened LlmTypes

  /** One visible event of a request. `round` is the request's own reservation
      number; together with the request it stands for the attempt id. */
  datatype Event =
    | Started
    | ReserveSent(round: nat, committed: bool)   // committed: the owner charged it at once
    | Granted(round: nat)                        // the acknowledgement was accepted
    | Dispatched(round: nat)                     // the provider call began
    | Replied(reported: Option<Usage>)           // a reply whose usage has to be booked
    | AttemptEnded(status: Status)
    | SettleSent(round: nat, usage: Usage, committed: bool)
    | SettleAcked(round: nat)
    | RetryScheduled(reason: Status)
    | UsageReport(reported: Option<Usage>)
    | AdditionalUsage(usage: Usage)
    | Finished(status: Status)

  /** The budgeted part of a request: what its grants allow to be settled. */
  datatype Config = Config(budgeted: bool, inputCeiling: nat, outputLimit: nat)

  // ------------------------------------------------------------- protocol

  datatype Phase =
    | Fresh
    | Waiting                               // an attempt is scheduled
    | Asked(round: nat, committed: bool)    // its reservation was requested
    | Holding(round: nat)                   // its reservation was acknowledged
    | InFlight(round: nat)
    | Returned(round: nat)
    | Closed(status: Status)

  /** The usage sent to settle one attempt. */
  datatype Settlement = Settlement(round: nat, usage: Usage)

  datatype View = View(
    phase: Phase,
    rounds: nat,            // attempt ids used so far
    dispatches: nat,
    sent: bool,             // the latest dispatch has a settlement on the wire
    delivered: bool,        // and the owner applied it
    acked: bool,            // and the client accepted its acknowledgement
    report: Option<bool>,   // the request's one usage report: usage present or missing
    undispatched: bool,     // closed while an attempt was scheduled but not dispatched
    owed: Option<Usage>,    // reported by a reply, not booked yet
    receipts: seq<Option<Usage>>,
    statuses: seq<Status>,  // how the attempts ended so far
    settles: seq<Settlement>)

  const INITIAL := View(Fresh, 0, 0, false, false, false, None, false, None, [], [], [])

  predicate Scheduled(p: Phase) {
    p.Waiting? || p.Asked? || p.Holding?
  }

  predicate WithinGrant(cfg: Config, u: Usage) {
    u.input <= cfg.inputCeiling && u.output <= cfg.outputLimit
  }

  predicate LastEnded(v: View, status: Status) {
    |v.statuses| > 0 && v.statuses[|v.statuses| - 1] == status
  }

  /** A retry is scheduled for the reason the latest attempt ended with, and
      only for the outcomes the retry policy covers. */
  predicate RetryReason(v: View, reason: Status) {
    if reason == JsonModeFallback then LastEnded(v, EmptyJsonMode)
    else LastEnded(v, reason) && reason in {RateLimited, ProviderError, ClientOrTransportError}
  }

  predicate AttemptStatusLabel(s: Status) {
    s in {Success, EmptyJsonMode, Truncated, EvidenceError, RateLimited, ProviderError, Rejected,
          ClientOrTransportError, Timeout}
  }

  predicate TerminalStatusLabel(s: Status) {
    s in {Success, Error, BudgetError, EvidenceError, Timeout, SetupTimeout, SetupError, StreamError, ConsumerDropped}
  }

  /** Whether the protocol allows `e` now. */
  predicate Allowed(cfg: Config, v: View, e: Event) {
    && (e.Started? ==> v.phase == Fresh)
    && (e.ReserveSent? ==> cfg.budgeted && v.phase == Waiting && e.round == v.rounds)
    && (e.Granted? ==> v.phase == Asked(e.round, true))
    && (e.Dispatched? ==>
          if cfg.budgeted then v.phase == Holding(e.round) else v.phase == Waiting && e.round == v.rounds)
    && (e.Replied? ==> (v.phase.InFlight? || v.phase.Returned?) && v.owed == None && v.report == None)
    && (e.AttemptEnded? ==> v.phase.InFlight? && AttemptStatusLabel(e.status))
    && (e.SettleSent? ==>
          && cfg.budgeted && v.phase == Returned(e.round) && !v.sent && WithinGrant(cfg, e.usage)
          && (LastEnded(v, Success) || LastEnded(v, EmptyJsonMode))
          && |v.receipts| > 0 && v.receipts[|v.receipts| - 1] == Some(e.usage))
    && (e.SettleAcked? ==> v.phase == Returned(e.round) && v.delivered && !v.acked)
    && (e.RetryScheduled? ==>
          && v.phase.Returned? && v.owed == None && v.report == None && RetryReason(v, e.reason)
          && (cfg.budgeted && e.reason == JsonModeFallback ==> v.acked))
    && (e.UsageReport? ==> v.phase.Returned? && v.report == None && v.owed == e.reported)
    && (e.AdditionalUsage? ==> v.phase.Returned? && v.owed == Some(e.usage))
    && (e.Finished? ==>
          && TerminalStatusLabel(e.status)
          && (v.phase.Waiting? || v.phase.Asked? || v.phase.Returned?) && v.owed == None
          && (e.status == Success ==>
             v.phase.Returned? && LastEnded(v, Success) && v.report.Some? && (cfg.budgeted ==> v.acked)))
  }

  function NextPhase(p: Phase, e: Event): Phase {
    if e.Started? || e.RetryScheduled? then Waiting
    else if e.ReserveSent? then Asked(e.round, e.committed)
    else if e.Granted? then Holding(e.round)
    else if e.Dispatched? then InFlight(e.round)
    else if e.AttemptEnded? && p.InFlight? then Returned(p.round)
    else if e.Finished? then Closed(e.status)
    else p
  }

  function Advance(cfg: Config, v: View, e: Event): View {
    View(
      NextPhase(v.phase, e),
      v.rounds + Flag(e.ReserveSent? || (e.Dispatched? && !cfg.budgeted)),
      v.dispatches + Flag(e.Dispatched?),
      !e.Dispatched? && (v.sent || e.SettleSent?),
      !e.Dispatched? && (if e.SettleSent? then e.committed else v.delivered),
      !e.Dispatched? && (v.acked || e.SettleAcked?),
      if e.UsageReport? then Some(e.reported.Some?) else v.report,
      if e.Finished? then Scheduled(v.phase) else v.undispatched,
      if e.Replied? then e.reported else if e.UsageReport? || e.AdditionalUsage? then None else v.owed,
      if e.Replied? then v.receipts + [e.reported] else v.receipts,
      if e.AttemptEnded? then v.statuses + [e.status] else v.statuses,
      if e.SettleSent? then v.settles + [Settlement(e.round, e.usage)] else v.settles)
  }

  function Observe(cfg: Config, trace: seq<Event>): View {
    if trace == [] then INITIAL
    else Advance(cfg, Observe(cfg, trace[..|trace| - 1]), trace[|trace| - 1])
  }

  /** Every event was allowed when it happened. */
  predicate Accepts(cfg: Config, trace: seq<Event>) {
    trace == [] ||
    (Accepts(cfg, trace[..|trace| - 1]) && Allowed(cfg, Observe(cfg, trace[..|trace| - 1]), trace[|trace| - 1]))
  }

  /** A request that came to its end. */
  predicate Completed(cfg: Config, trace: seq<Event>) {
    Accepts(cfg, trace) && Observe(cfg, trace).phase.Closed?
  }

  lemma {:induction false} ObserveAppend(cfg: Config, trace: seq<Event>, e: Event)
    ensures Observe(cfg, trace + [e]) == Advance(cfg, Observe(cfg, trace), e)
    ensures Accepts(cfg, trace + [e]) <==> Accepts(cfg, trace) && Allowed(cfg, Observe(cfg, trace), e)
  {
    hide Advance, Allowed;
    assert (trace + [e])[..|trace|] == trace;
  }

  // -------------------------------------------------------------- measures

  /** The totals the budget report sums for an operation. */
  datatype Measure =
    | StartedTotal | AttemptTotal | RetryTotal | SuccessTotal | FailureTotal
    | PresentTotal | MissingTotal
    | InputTokens | OutputTokens | CachedTokens
    | CachedBillable | UncachedBillable | OutputBillable

  function Flag(b: bool): nat { if b then 1 else 0 }

  /** What booking one usage adds to a total. */
  function UsageWeight(m: Measure, u: Option<Usage>): nat {
    if u.None? then 0
    else
      var cached := if u.value.cached.Some? then u.value.cached.value else 0;
      match m
      case InputTokens => u.value.input
      case OutputTokens => u.value.output
      case CachedTokens => cached
      case CachedBillable => cached
      case UncachedBillable => u.value.input - cached
      case OutputBillable => u.value.output
      case _ => 0
  }

  /** The usage one event books. */
  function Booked(e: Event): Option<Usage> {
    match e
    case UsageReport(u) => u
    case AdditionalUsage(u) => Some(u)
    case _ => None
  }

  /** What one event adds to a total. */
  function Weigh(m: Measure, e: Event): nat {
    match m
    case StartedTotal => Flag(e.Started?)
    case AttemptTotal => Flag(e.AttemptEnded?)
    case RetryTotal => Flag(e.RetryScheduled?)
    case SuccessTotal => Flag(e == Finished(Success))
    case FailureTotal => Flag(e.Finished? && e.status != Success)
    case PresentTotal => Flag(e.UsageReport? && e.reported.Some?)
    case MissingTotal => Flag(e.UsageReport? && e.reported.None?)
    case _ => UsageWeight(m, Booked(e))
  }

  function Tally(m: Measure, trace: seq<Event>): nat {
    if trace == [] then 0 else Tally(m, trace[..|trace| - 1]) + Weigh(m, trace[|trace| - 1])
  }

  /** The usage of every reply that carried one. */
  function ReceiptTotal(m: Measure, receipts: seq<Option<Usage>>): nat {
    if receipts == [] then 0
    else ReceiptTotal(m, receipts[..|receipts| - 1]) + UsageWeight(m, receipts[|receipts| - 1])
  }

  predicate TokenMeasure(m: Measure) {
    m in {InputTokens, OutputTokens, CachedTokens, CachedBillable, UncachedBillable, OutputBillable}
  }

  lemma {:induction false} TallyAppend(m: Measure, trace: seq<Event>, e: Event)
    ensures Tally(m, trace + [e]) == Tally(m, trace) + Weigh(m, e)
  {
    assert (trace + [e])[..|trace|] == trace;
  }

  /** Each usage is billed once: cached and uncached input add up to the input
      tokens, and the output and cached totals agree. */
  lemma {:induction false} ReceiptBalance(receipts: seq<Option<Usage>>)
    ensures ReceiptTotal(CachedBillable, receipts) + ReceiptTotal(UncachedBillable, receipts)
            == ReceiptTotal(InputTokens, receipts)
    ensures ReceiptTotal(OutputBillable, receipts) == ReceiptTotal(OutputTokens, receipts)
    ensures ReceiptTotal(CachedBillable, receipts) == ReceiptTotal(CachedTokens, receipts)
  {
    if receipts != [] {
      ReceiptBalance(receipts[..|receipts| - 1]);
    }
  }

  // -------------------------------------------------- accepted traces

  /** Totals and protocol state agree at every point. */
  ghost predicate Balanced(v: View, trace: seq<Event>) {
    && Tally(StartedTotal, trace) == Flag(v.phase != Fresh)
    && Tally(SuccessTotal, trace) == Flag(v.phase == Closed(Success))
    && Tally(FailureTotal, trace) == Flag(v.phase.Closed? && v.phase.status != Success)
    && Tally(AttemptTotal, trace) + Flag(v.phase.InFlight?) == v.dispatches
    && Tally(StartedTotal, trace) + Tally(RetryTotal, trace)
       == v.dispatches + Flag(Scheduled(v.phase) || v.undispatched)
    && Tally(PresentTotal, trace) == Flag(v.report == Some(true))
    && Tally(MissingTotal, trace) == Flag(v.report == Some(false))
    && (v.phase == Closed(Success) ==> v.report.Some?)
  }

  /** Everything replies reported is booked, but for what is still owed. */
  ghost predicate Booking(v: View, trace: seq<Event>) {
    forall m | TokenMeasure(m) :: Tally(m, trace) + UsageWeight(m, v.owed) == ReceiptTotal(m, v.receipts)
  }

  /** Attempt ids are used in increasing order; the one in use is the latest. */
  ghost predicate Ordered(v: View) {
    && (v.phase.Asked? || v.phase.Holding? || v.phase.InFlight? || v.phase.Returned? ==> v.phase.round + 1 == v.rounds)
    && (v.phase == Fresh ==> v.rounds == 0 && v.dispatches == 0)
    && (v.phase.InFlight? || v.phase.Returned? ==> v.dispatches > 0)
    && |v.statuses| + Flag(v.phase.InFlight?) == v.dispatches
    && v.dispatches + Flag(v.phase.Asked? || v.phase.Holding?) <= v.rounds
    && (v.acked ==> v.delivered) && (v.delivered ==> v.sent) && (v.sent ==> v.dispatches > 0)
    && (v.undispatched ==> v.phase.Closed?)
    && (v.owed.Some? ==> v.phase.InFlight? || v.phase.Returned?)
  }

  lemma {:induction false} AdvanceOrdered(cfg: Config, v: View, e: Event)
    requires Ordered(v) && Allowed(cfg, v, e)
    ensures Ordered(Advance(cfg, v, e))
  {
  }

  lemma {:induction false} AdvanceBalanced(cfg: Config, v: View, trace: seq<Event>, e: Event)
    requires Ordered(v) && Balanced(v, trace) && Allowed(cfg, v, e)
    ensures Balanced(Advance(cfg, v, e), trace + [e])
  {
    hide Tally;
    TallyAppend(StartedTotal, trace, e);
    TallyAppend(AttemptTotal, trace, e);
    TallyAppend(RetryTotal, trace, e);
    TallyAppend(SuccessTotal, trace, e);
    TallyAppend(FailureTotal, trace, e);
    TallyAppend(PresentTotal, trace, e);
    TallyAppend(MissingTotal, trace, e);
  }

  /** What an allowed event does to the books. */
  lemma AdvanceBooks(cfg: Config, v: View, e: Event)
    requires Allowed(cfg, v, e)
    ensures var w := Advance(cfg, v, e);
      && w.owed == (if e.Replied? then e.reported else if Booked(e).Some? || e.UsageReport? then None else v.owed)
      && w.receipts == (if e.Replied? then v.receipts + [e.reported] else v.receipts)
      && (e.Replied? ==> v.owed == None) && (e.UsageReport? || e.AdditionalUsage? ==> v.owed == Booked(e))
  {
  }

  lemma {:induction false} AdvanceBooking(cfg: Config, v: View, trace: seq<Event>, e: Event)
    requires Booking(v, trace) && Allowed(cfg, v, e)
    ensures Booking(Advance(cfg, v, e), trace + [e])
  {
    AdvanceBooks(cfg, v, e);
    hide Allowed, Advance, Tally;
    var w := Advance(cfg, v, e);
    forall m | TokenMeasure(m)
      ensures Tally(m, trace + [e]) + UsageWeight(m, w.owed) == ReceiptTotal(m, w.receipts)
    {
      TallyAppend(m, trace, e);
      if e.Replied? {
        assert w.receipts[..|w.receipts| - 1] == v.receipts;
      }
    }
  }

  lemma {:induction false} InitiallySound()
    ensures Ordered(INITIAL) && Balanced(INITIAL, []) && Booking(INITIAL, [])
  {
  }

  /** The accounting every accepted trace keeps at every point. */
  lemma {:induction false} TraceSound(cfg: Config, trace: seq<Event>)
    requires Accepts(cfg, trace)
    ensures Ordered(Observe(cfg, trace))
    ensures Balanced(Observe(cfg, trace), trace)
    ensures Booking(Observe(cfg, trace), trace)
  {
    hide Ordered, Balanced, Booking, Advance, Allowed;
    InitiallySound();
    if trace != [] {
      var init, e := trace[..|trace| - 1], trace[|trace| - 1];
      assert trace == init + [e];
      TraceSound(cfg, init);
      AdvanceOrdered(cfg, Observe(cfg, init), e);
      AdvanceBalanced(cfg, Observe(cfg, init), init, e);
      AdvanceBooking(cfg, Observe(cfg, init), init, e);
    }
  }

  /** A completed request closes exactly once, reports usage at most once and
      exactly once on success; its attempts and its schedules differ by the one
      attempt it may have left undispatched; and what it booked is the usage of
      all replies that carried one. */
  lemma {:induction false} CompletedRequestBalance(cfg: Config, trace: seq<Event>)
    requires Completed(cfg, trace)
    ensures Tally(StartedTotal, trace) == 1
    ensures Tally(SuccessTotal, trace) == Flag(Observe(cfg, trace).phase.status == Success)
    ensures Tally(SuccessTotal, trace) + Tally(FailureTotal, trace) == 1
    ensures Tally(AttemptTotal, trace) + Flag(Observe(cfg, trace).undispatched)
            == Tally(StartedTotal, trace) + Tally(RetryTotal, trace)
    ensures Tally(SuccessTotal, trace) <= Tally(PresentTotal, trace) + Tally(MissingTotal, trace) <= 1
    ensures forall m | TokenMeasure(m) :: Tally(m, trace) == ReceiptTotal(m, Observe(cfg, trace).receipts)
  {
    hide Tally, Observe, ReceiptTotal;
    TraceSound(cfg, trace);
    var report := Observe(cfg, trace).report;
    if report.Some? {
      assert report == if report.value then Some(true) else Some(false);
    }
  }

  lemma {:induction false} AcceptsPrefix(cfg: Config, trace: seq<Event>, n: nat)
    requires Accepts(cfg, trace) && n <= |trace|
    ensures Accepts(cfg, trace[..n])
  {
    hide Allowed, Observe;
    if n < |trace| {
      AcceptsPrefix(cfg, trace[..|trace| - 1], n);
      assert trace[..|trace| - 1][..n] == trace[..n];
    } else {
      assert trace[..n] == trace;
    }
  }

  /** The view just before event `j`. */
  function Before(cfg: Config, trace: seq<Event>, j: nat): View
    requires j <= |trace|
  {
    Observe(cfg, trace[..j])
  }

  lemma {:induction false} BeforeFirst(cfg: Config, trace: seq<Event>)
    ensures Before(cfg, trace, 0) == INITIAL
  {
    assert trace[..0] == [];
  }

  lemma {:induction false} StepAt(cfg: Config, trace: seq<Event>, j: nat)
    requires Accepts(cfg, trace) && j < |trace|
    ensures Allowed(cfg, Before(cfg, trace, j), trace[j])
    ensures Before(cfg, trace, j + 1) == Advance(cfg, Before(cfg, trace, j), trace[j])
    ensures Ordered(Before(cfg, trace, j)) && Ordered(Before(cfg, trace, j + 1))
  {
    hide Ordered, Allowed, Advance;
    AcceptsPrefix(cfg, trace, j + 1);
    assert trace[..j + 1][..j] == trace[..j];
    TraceSound(cfg, trace[..j]);
    TraceSound(cfg, trace[..j + 1]);
  }

  lemma {:induction false} RoundsGrow(cfg: Config, trace: seq<Event>, i: nat, j: nat)
    requires Accepts(cfg, trace) && i <= j <= |trace|
    ensures Before(cfg, trace, i).rounds <= Before(cfg, trace, j).rounds
    decreases j - i
  {
    hide Observe, Accepts;
    if i < j {
      StepAt(cfg, trace, j - 1);
      RoundsGrow(cfg, trace, i, j - 1);
    }
  }

  /** Once dispatched, an id is never again the one waiting to be dispatched. */
  lemma {:induction false} DispatchedIdLeaves(cfg: Config, trace: seq<Event>, i: nat, j: nat)
    requires Accepts(cfg, trace) && i < j <= |trace| && trace[i].Dispatched?
    ensures var p := Before(cfg, trace, j).phase;
            (p.Asked? || p.Holding?) ==> p.round > trace[i].round
    decreases j - i
  {
    hide Observe, Accepts;
    StepAt(cfg, trace, i);
    StepAt(cfg, trace, j - 1);
    if i + 1 < j {
      RoundsGrow(cfg, trace, i + 1, j - 1);
      DispatchedIdLeaves(cfg, trace, i, j - 1);
    }
  }

  /** No attempt id is reserved twice or dispatched twice. */
  lemma {:induction false} FreshAttempts(cfg: Config, trace: seq<Event>, i: nat, j: nat)
    requires Accepts(cfg, trace) && i < j < |trace|
    ensures trace[i].Dispatched? && trace[j].Dispatched? ==> trace[i].round < trace[j].round
    ensures trace[i].ReserveSent? && trace[j].ReserveSent? ==> trace[i].round < trace[j].round
  {
    hide Observe, Accepts;
    StepAt(cfg, trace, i);
    StepAt(cfg, trace, j);
    RoundsGrow(cfg, trace, i + 1, j);
    if trace[i].Dispatched? {
      DispatchedIdLeaves(cfg, trace, i, j);
    }
  }

  /** In a budgeted request every dispatch follows the acknowledgement of its
      own reservation, which the owner had charged before that. */
  lemma {:induction false} DispatchOwnsReservation(cfg: Config, trace: seq<Event>, j: nat)
    requires Accepts(cfg, trace) && cfg.budgeted && j < |trace| && trace[j].Dispatched?
    ensures j >= 2 && trace[j - 1] == Granted(trace[j].round) && trace[j - 2] == ReserveSent(trace[j].round, true)
  {
    hide Observe, Accepts;
    StepAt(cfg, trace, j);
    BeforeFirst(cfg, trace);
    StepAt(cfg, trace, j - 1);
    StepAt(cfg, trace, j - 2);
  }

  /** The dispatch an in-flight or returned attempt stems from, with no other
      dispatch since. */
  lemma {:induction false} DispatchOf(cfg: Config, trace: seq<Event>, j: nat) returns (i: nat)
    requires Accepts(cfg, trace) && j <= |trace|
    requires Before(cfg, trace, j).phase.InFlight? || Before(cfg, trace, j).phase.Returned?
    ensures i < j && trace[i] == Dispatched(Before(cfg, trace, j).phase.round)
    ensures forall k :: i < k < j ==> !trace[k].Dispatched?
  {
    hide Observe, Accepts;
    BeforeFirst(cfg, trace);
    StepAt(cfg, trace, j - 1);
    if trace[j - 1].Dispatched? {
      i := j - 1;
    } else {
      i := DispatchOf(cfg, trace, j - 1);
    }
  }

  lemma {:induction false} SentStays(cfg: Config, trace: seq<Event>, i: nat, k: nat, j: nat)
    requires Accepts(cfg, trace) && i < k <= j <= |trace|
    requires forall n :: i < n < j ==> !trace[n].Dispatched?
    requires Before(cfg, trace, k).sent
    ensures Before(cfg, trace, j).sent
    decreases j - k
  {
    hide Observe, Accepts;
    if k < j {
      StepAt(cfg, trace, j - 1);
      SentStays(cfg, trace, i, k, j - 1);
    }
  }

  /** A settlement follows the dispatch of its own attempt, and no attempt is
      settled twice. */
  lemma {:induction false} SettlementFollowsDispatch(cfg: Config, trace: seq<Event>, j: nat)
    requires Accepts(cfg, trace) && j < |trace| && trace[j].SettleSent?
    ensures exists i :: 0 <= i < j && trace[i] == Dispatched(trace[j].round)
    ensures forall i :: 0 <= i < j && trace[i].SettleSent? ==> trace[i].round != trace[j].round
  {
    hide Observe, Accepts;
    StepAt(cfg, trace, j);
    var i := DispatchOf(cfg, trace, j);
    forall k | 0 <= k < j && trace[k].SettleSent?
      ensures trace[k].round != trace[j].round
    {
      StepAt(cfg, trace, k);
      if k < i {
        var h := DispatchOf(cfg, trace, k);
        FreshAttempts(cfg, trace, h, i);
      } else {
        SentStays(cfg, trace, i, k + 1, j);
      }
    }
  }

  /** What was sent to be settled is on record. */
  lemma {:induction false} SettlesOnRecord(cfg: Config, trace: seq<Event>, e: Event)
    requires e.SettleSent? && e in trace
    ensures Settlement(e.round, e.usage) in Observe(cfg, trace).settles
  {
    var init, last := trace[..|trace| - 1], trace[|trace| - 1];
    assert trace == init + [last];
    if e in init {
      SettlesOnRecord(cfg, init, e);
    }
  }
}
