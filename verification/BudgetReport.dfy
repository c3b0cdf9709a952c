/** The balance checks of the budget report (tools/llm-budget/verify.py) over
    the counters that any mix of completed requests leaves behind. */
module BudgetReport {
  import opened LlmTypes
  import opened CallTrace
  import opened Telemetry
  import opened SharedOwner
  import opened ChatSpec
  import opened Requests

  datatype Finding = TerminalMismatch | AttemptMismatch | UsageMismatch | TokenMismatch

  /** Whether a balance check fails for one operation, over all samples of all
      metric generations. An operation without started requests is skipped. */
  predicate Fails(f: Finding, op: LlmOperation, samples: seq<Sample>) {
    Total(StartedTotal, op, samples) != 0 &&
    match f
    case TerminalMismatch =>
      Total(SuccessTotal, op, samples) + Total(FailureTotal, op, samples) != Total(StartedTotal, op, samples)
    case AttemptMismatch =>
      Total(AttemptTotal, op, samples) != Total(StartedTotal, op, samples) + Total(RetryTotal, op, samples)
    case UsageMismatch =>
      Total(PresentTotal, op, samples) + Total(MissingTotal, op, samples) != Total(SuccessTotal, op, samples)
    case TokenMismatch =>
      || Total(InputTokens, op, samples) != Total(CachedBillable, op, samples) + Total(UncachedBillable, op, samples)
      || Total(OutputTokens, op, samples) != Total(OutputBillable, op, samples)
      || Total(CachedTokens, op, samples) != Total(CachedBillable, op, samples)
  }

  // ----------------------------------------------------------- generations

  /** One process lifetime: its requests, the scripts they ran under, and their
      steps in the order in which they happened, interleaved in any way. */
  datatype Generation = Generation(cfgs: seq<Config>, labels: seq<Labels>, sources: seq<Source>, log: seq<Step>)

  /** Every request of the generation came to its end. */
  ghost predicate AllCompleted(g: Generation) {
    && |g.labels| == |g.sources| == |g.cfgs| && InRange(|g.cfgs|, g.log)
    && forall c: nat | c < |g.cfgs| :: Completed(g.cfgs[c], Project(g.log, c)) && RanAs(g.sources[c], ViewOf(g, c))
  }

  /** What the registry exports after the steps of `log`. */
  ghost function Export(labels: seq<Labels>, log: seq<Step>): seq<Sample> {
    if log == [] then []
    else
      var last := log[|log| - 1];
      var earlier := Export(labels, log[..|log| - 1]);
      if last.call < |labels| then Record(earlier, labels[last.call], last.event) else earlier
  }

  /** A registry never exports a series twice: the report's check for a
      duplicate cannot fail on what one process exports. */
  lemma {:induction false} ExportDistinct(labels: seq<Labels>, log: seq<Step>)
    ensures Distinct(Export(labels, log))
  {
    hide Record;
    if log != [] {
      ExportDistinct(labels, log[..|log| - 1]);
      var last := log[|log| - 1];
      if last.call < |labels| {
        RecordDistinct(Export(labels, log[..|log| - 1]), labels[last.call], last.event);
      }
    }
  }

  /** All samples the report reads, generation after generation. */
  ghost function Exports(gens: seq<Generation>): seq<Sample> {
    if gens == [] then []
    else Exports(gens[..|gens| - 1]) + Export(gens[|gens| - 1].labels, gens[|gens| - 1].log)
  }

  /** The sum of `f` over the requests of operation `op` below `n`. */
  ghost function CallSum(labels: seq<Labels>, op: LlmOperation, f: nat -> nat, n: nat): nat
    requires n <= |labels|
  {
    if n == 0 then 0
    else CallSum(labels, op, f, n - 1) + if labels[n - 1].operation == op then f(n - 1) else 0
  }

  lemma {:induction false} CallSumEqual(labels: seq<Labels>, op: LlmOperation, f: nat -> nat, g: nat -> nat, n: nat)
    requires n <= |labels|
    requires forall c: nat | c < n :: f(c) == g(c)
    ensures CallSum(labels, op, f, n) == CallSum(labels, op, g, n)
  {
    if n > 0 {
      CallSumEqual(labels, op, f, g, n - 1);
    }
  }

  /** A balance that holds of every request holds of the sums. */
  lemma {:induction false} CallSumBalance(labels: seq<Labels>, op: LlmOperation,
                                          a: nat -> nat, b: nat -> nat, d: nat -> nat, e: nat -> nat, n: nat)
    requires n <= |labels|
    requires forall c: nat | c < n :: a(c) + b(c) == d(c) + e(c)
    ensures CallSum(labels, op, a, n) + CallSum(labels, op, b, n) ==
            CallSum(labels, op, d, n) + CallSum(labels, op, e, n)
  {
    if n > 0 {
      CallSumBalance(labels, op, a, b, d, e, n - 1);
    }
  }

  lemma {:induction false} CallSumRaise(labels: seq<Labels>, op: LlmOperation, f: nat -> nat, g: nat -> nat,
                                        n: nat, c: nat, d: nat)
    requires n <= |labels| && c < n
    requires forall k: nat | k < n :: g(k) == f(k) + if k == c then d else 0
    ensures CallSum(labels, op, g, n) == CallSum(labels, op, f, n) + if labels[c].operation == op then d else 0
  {
    if n - 1 == c {
      CallSumEqual(labels, op, f, g, n - 1);
    } else {
      CallSumRaise(labels, op, f, g, n - 1, c, d);
    }
  }

  lemma {:induction false} CallSumZero(labels: seq<Labels>, op: LlmOperation, f: nat -> nat, n: nat)
    requires n <= |labels|
    ensures CallSum(labels, op, f, n) == 0 <==> forall c: nat | c < n && labels[c].operation == op :: f(c) == 0
  {
    if n > 0 {
      CallSumZero(labels, op, f, n - 1);
    }
  }

  ghost function TallyOf(m: Measure, log: seq<Step>): nat -> nat {
    (c: nat) => Tally(m, Project(log, c))
  }

  /** Increments of different requests commute: however their steps interleave,
      an exported total is the sum over the requests. */
  lemma {:induction false} ExportTotal(m: Measure, op: LlmOperation, labels: seq<Labels>, log: seq<Step>)
    requires InRange(|labels|, log)
    ensures Total(m, op, Export(labels, log)) == CallSum(labels, op, TallyOf(m, log), |labels|)
  {
    hide Record, Total, Tally, Weigh;
    var f := TallyOf(m, log);
    if log == [] {
      NothingTallied(m, op);
      CallSumZero(labels, op, f, |labels|);
    } else {
      var init, last := log[..|log| - 1], log[|log| - 1];
      ExportTotal(m, op, labels, init);
      RecordTotal(m, op, Export(labels, init), labels[last.call], last.event);
      forall c: nat
        ensures f(c) == TallyOf(m, init)(c) + if c == last.call then Weigh(m, last.event) else 0
      {
        ProjectStep(log, c);
        TallyAppend(m, Project(init, c), last.event);
      }
      CallSumRaise(labels, op, TallyOf(m, init), f, |labels|, last.call, Weigh(m, last.event));
    }
  }

  lemma NothingTallied(m: Measure, op: LlmOperation)
    ensures Tally(m, []) == 0 && Total(m, op, []) == 0
  {
  }

  // --------------------------------------------------------- slack by request

  ghost function ViewOf(g: Generation, c: nat): View
    requires c < |g.cfgs|
  {
    Observe(g.cfgs[c], Project(g.log, c))
  }

  /** What makes a balance fail: a request that ended with an attempt scheduled
      but never dispatched, and one that failed after reporting its usage. Both
      are told by the request's script alone. */
  datatype SlackTerm = Undispatched | FailedReport

  ghost predicate Slack(t: SlackTerm, s: Source) {
    match t
    case Undispatched => LeftUndispatched(s)
    case FailedReport => FailsAfterUsage(s)
  }

  ghost function SlackOf(t: SlackTerm, g: Generation, c: nat): nat
    requires c < |g.sources|
  {
    Flag(Slack(t, g.sources[c]))
  }

  ghost function SlackFunction(t: SlackTerm, g: Generation): nat -> nat {
    (c: nat) => if c < |g.sources| then SlackOf(t, g, c) else 0
  }

  ghost function ReceiptsOf(m: Measure, g: Generation): nat -> nat {
    (c: nat) => if c < |g.sources| then ReceiptTotal(m, ReceiptsBy(g.sources[c])) else 0
  }

  /** The accounts of one completed request. */
  lemma RequestAccounts(g: Generation, c: nat)
    requires AllCompleted(g) && c < |g.cfgs|
    ensures var t := Project(g.log, c);
            && Tally(StartedTotal, t) == 1
            && Tally(SuccessTotal, t) + Tally(FailureTotal, t) == Tally(StartedTotal, t)
            && Tally(AttemptTotal, t) + SlackOf(Undispatched, g, c) == Tally(StartedTotal, t) + Tally(RetryTotal, t)
            && Tally(PresentTotal, t) + Tally(MissingTotal, t) == Tally(SuccessTotal, t) + SlackOf(FailedReport, g, c)
            && Tally(CachedBillable, t) + Tally(UncachedBillable, t) == Tally(InputTokens, t)
            && Tally(OutputBillable, t) == Tally(OutputTokens, t)
            && Tally(CachedTokens, t) == Tally(CachedBillable, t)
    ensures forall m | TokenMeasure(m) :: Tally(m, Project(g.log, c)) == ReceiptsOf(m, g)(c)
  {
    hide Tally, Observe, Project, ReceiptTotal, RanAs, LeftUndispatched, FailsAfterUsage, ReceiptsBy;
    UndispatchedHasCause(g.sources[c], ViewOf(g, c));
    FailedReportHasCause(g.sources[c], ViewOf(g, c));
    ReceiptsAreTheScripts(g.sources[c], ViewOf(g, c));
    CompletedRequestBalance(g.cfgs[c], Project(g.log, c));
    TraceSound(g.cfgs[c], Project(g.log, c));
    ReceiptBalance(ViewOf(g, c).receipts);
    var report := ViewOf(g, c).report;
    if report.Some? {
      assert report == if report.value then Some(true) else Some(false);
    }
  }

  /** Totals of one operation balance up to the given slack. */
  ghost predicate BalancesUpTo(op: LlmOperation, samples: seq<Sample>, undispatched: nat, failedReports: nat) {
    && Total(SuccessTotal, op, samples) + Total(FailureTotal, op, samples) == Total(StartedTotal, op, samples)
    && Total(AttemptTotal, op, samples) + undispatched ==
       Total(StartedTotal, op, samples) + Total(RetryTotal, op, samples)
    && Total(PresentTotal, op, samples) + Total(MissingTotal, op, samples) ==
       Total(SuccessTotal, op, samples) + failedReports
    && Total(CachedBillable, op, samples) + Total(UncachedBillable, op, samples) == Total(InputTokens, op, samples)
    && Total(OutputBillable, op, samples) == Total(OutputTokens, op, samples)
    && Total(CachedTokens, op, samples) == Total(CachedBillable, op, samples)
    && (Total(StartedTotal, op, samples) == 0 ==> undispatched == failedReports == 0)
  }

  ghost function GenerationSlack(t: SlackTerm, op: LlmOperation, g: Generation): nat {
    CallSum(g.labels, op, SlackFunction(t, g), |g.labels|)
  }

  ghost function SlackSum(t: SlackTerm, op: LlmOperation, gens: seq<Generation>): nat {
    if gens == [] then 0
    else SlackSum(t, op, gens[..|gens| - 1]) + GenerationSlack(t, op, gens[|gens| - 1])
  }

  lemma CountsMatch(g: Generation)
    requires AllCompleted(g)
    ensures |g.labels| == |g.sources| == |g.cfgs|
  {
  }

  lemma SumTerminals(op: LlmOperation, g: Generation)
    requires AllCompleted(g)
    ensures CallSum(g.labels, op, TallyOf(SuccessTotal, g.log), |g.labels|)
            + CallSum(g.labels, op, TallyOf(FailureTotal, g.log), |g.labels|)
            == CallSum(g.labels, op, TallyOf(StartedTotal, g.log), |g.labels|)
  {
    hide Tally, Project, SlackOf, CallSum, AllCompleted;
    CountsMatch(g);
    forall c: nat | c < |g.labels|
      ensures TallyOf(SuccessTotal, g.log)(c) + TallyOf(FailureTotal, g.log)(c) ==
              TallyOf(StartedTotal, g.log)(c) + Nothing()(c)
    {
      RequestAccounts(g, c);
    }
    CallSumBalance(g.labels, op, TallyOf(SuccessTotal, g.log), TallyOf(FailureTotal, g.log),
                   TallyOf(StartedTotal, g.log), Nothing(), |g.labels|);
    CallSumZero(g.labels, op, Nothing(), |g.labels|);
  }

  lemma SumAttempts(op: LlmOperation, g: Generation)
    requires AllCompleted(g)
    ensures CallSum(g.labels, op, TallyOf(AttemptTotal, g.log), |g.labels|) + GenerationSlack(Undispatched, op, g)
            == CallSum(g.labels, op, TallyOf(StartedTotal, g.log), |g.labels|)
              + CallSum(g.labels, op, TallyOf(RetryTotal, g.log), |g.labels|)
  {
    hide Tally, Project, SlackOf, CallSum, AllCompleted;
    CountsMatch(g);
    forall c: nat | c < |g.labels|
      ensures TallyOf(AttemptTotal, g.log)(c) + SlackFunction(Undispatched, g)(c)
              == TallyOf(StartedTotal, g.log)(c) + TallyOf(RetryTotal, g.log)(c)
    {
      RequestAccounts(g, c);
    }
    CallSumBalance(g.labels, op, TallyOf(AttemptTotal, g.log), SlackFunction(Undispatched, g),
                   TallyOf(StartedTotal, g.log), TallyOf(RetryTotal, g.log), |g.labels|);
  }

  lemma SumReports(op: LlmOperation, g: Generation)
    requires AllCompleted(g)
    ensures CallSum(g.labels, op, TallyOf(PresentTotal, g.log), |g.labels|)
            + CallSum(g.labels, op, TallyOf(MissingTotal, g.log), |g.labels|)
            == CallSum(g.labels, op, TallyOf(SuccessTotal, g.log), |g.labels|) + GenerationSlack(FailedReport, op, g)
  {
    hide Tally, Project, SlackOf, CallSum, AllCompleted;
    CountsMatch(g);
    forall c: nat | c < |g.labels|
      ensures TallyOf(PresentTotal, g.log)(c) + TallyOf(MissingTotal, g.log)(c)
              == TallyOf(SuccessTotal, g.log)(c) + SlackFunction(FailedReport, g)(c)
    {
      RequestAccounts(g, c);
    }
    CallSumBalance(g.labels, op, TallyOf(PresentTotal, g.log), TallyOf(MissingTotal, g.log),
                   TallyOf(SuccessTotal, g.log), SlackFunction(FailedReport, g), |g.labels|);
  }

  lemma SumTokens(op: LlmOperation, g: Generation)
    requires AllCompleted(g)
    ensures CallSum(g.labels, op, TallyOf(CachedBillable, g.log), |g.labels|)
            + CallSum(g.labels, op, TallyOf(UncachedBillable, g.log), |g.labels|)
            == CallSum(g.labels, op, TallyOf(InputTokens, g.log), |g.labels|)
    ensures CallSum(g.labels, op, TallyOf(OutputBillable, g.log), |g.labels|) ==
            CallSum(g.labels, op, TallyOf(OutputTokens, g.log), |g.labels|)
    ensures CallSum(g.labels, op, TallyOf(CachedTokens, g.log), |g.labels|) ==
            CallSum(g.labels, op, TallyOf(CachedBillable, g.log), |g.labels|)
  {
    hide Tally, Project, SlackOf, CallSum, AllCompleted;
    CountsMatch(g);
    forall c: nat | c < |g.labels|
      ensures TallyOf(CachedBillable, g.log)(c) + TallyOf(UncachedBillable, g.log)(c) ==
              TallyOf(InputTokens, g.log)(c) + Nothing()(c)
      ensures TallyOf(OutputBillable, g.log)(c) == TallyOf(OutputTokens, g.log)(c)
      ensures TallyOf(CachedTokens, g.log)(c) == TallyOf(CachedBillable, g.log)(c)
    {
      RequestAccounts(g, c);
    }
    CallSumBalance(g.labels, op, TallyOf(CachedBillable, g.log), TallyOf(UncachedBillable, g.log),
                   TallyOf(InputTokens, g.log), Nothing(), |g.labels|);
    CallSumZero(g.labels, op, Nothing(), |g.labels|);
    CallSumEqual(g.labels, op, TallyOf(OutputBillable, g.log), TallyOf(OutputTokens, g.log), |g.labels|);
    CallSumEqual(g.labels, op, TallyOf(CachedTokens, g.log), TallyOf(CachedBillable, g.log), |g.labels|);
  }

  /** No request of the operation, no slack. */
  lemma NoneStarted(op: LlmOperation, g: Generation, t: SlackTerm)
    requires AllCompleted(g)
    requires CallSum(g.labels, op, TallyOf(StartedTotal, g.log), |g.labels|) == 0
    ensures GenerationSlack(t, op, g) == 0
  {
    hide Tally, Project, SlackOf, CallSum, AllCompleted;
    CountsMatch(g);
    CallSumZero(g.labels, op, TallyOf(StartedTotal, g.log), |g.labels|);
    CallSumZero(g.labels, op, SlackFunction(t, g), |g.labels|);
    forall c: nat | c < |g.labels|
      ensures TallyOf(StartedTotal, g.log)(c) == 1
    {
      RequestAccounts(g, c);
    }
  }

  ghost function Nothing(): nat -> nat {
    (c: nat) => 0
  }

  lemma GenerationBalances(op: LlmOperation, g: Generation)
    requires AllCompleted(g)
    ensures BalancesUpTo(op, Export(g.labels, g.log), GenerationSlack(Undispatched, op, g),
                         GenerationSlack(FailedReport, op, g))
  {
    hide Total, Export, CallSum, Tally, Project, SlackOf, GenerationSlack, TallyOf;
    forall m
      ensures Total(m, op, Export(g.labels, g.log)) == CallSum(g.labels, op, TallyOf(m, g.log), |g.labels|)
    {
      ExportTotal(m, op, g.labels, g.log);
    }
    SumTerminals(op, g);
    SumAttempts(op, g);
    SumReports(op, g);
    SumTokens(op, g);
    if Total(StartedTotal, op, Export(g.labels, g.log)) == 0 {
      NoneStarted(op, g, Undispatched);
      NoneStarted(op, g, FailedReport);
    }
  }

  lemma BalancesJoin(op: LlmOperation, a: seq<Sample>, b: seq<Sample>,
                     u: nat, r: nat, u': nat, r': nat)
    requires BalancesUpTo(op, a, u, r) && BalancesUpTo(op, b, u', r')
    ensures BalancesUpTo(op, a + b, u + u', r + r')
  {
    hide Total;
    forall measure
      ensures Total(measure, op, a + b) == Total(measure, op, a) + Total(measure, op, b)
    {
      TotalConcat(measure, op, a, b);
    }
  }

  /** Over any list of generations the totals balance up to the summed slack. */
  lemma {:induction false} ExportsBalance(op: LlmOperation, gens: seq<Generation>)
    requires forall g <- gens :: AllCompleted(g)
    ensures BalancesUpTo(op, Exports(gens), SlackSum(Undispatched, op, gens), SlackSum(FailedReport, op, gens))
  {
    hide BalancesUpTo, AllCompleted, Export, GenerationSlack;
    if gens == [] {
      NothingBalances(op);
    } else {
      var init, last := gens[..|gens| - 1], gens[|gens| - 1];
      ExportsBalance(op, init);
      GenerationBalances(op, last);
      BalancesJoin(op, Exports(init), Export(last.labels, last.log),
                   SlackSum(Undispatched, op, init), SlackSum(FailedReport, op, init),
                   GenerationSlack(Undispatched, op, last), GenerationSlack(FailedReport, op, last));
    }
  }

  lemma NothingBalances(op: LlmOperation)
    ensures BalancesUpTo(op, [], 0, 0)
  {
  }

  /** Some request of the operation has this cause. */
  ghost predicate OccursIn(t: SlackTerm, op: LlmOperation, g: Generation) {
    exists c: nat :: c < |g.sources| && c < |g.labels| && g.labels[c].operation == op && Slack(t, g.sources[c])
  }

  ghost predicate Occurs(t: SlackTerm, op: LlmOperation, gens: seq<Generation>) {
    exists g <- gens :: OccursIn(t, op, g)
  }

  lemma GenerationQuiet(t: SlackTerm, op: LlmOperation, g: Generation)
    requires AllCompleted(g)
    ensures GenerationSlack(t, op, g) == 0 <==> !OccursIn(t, op, g)
  {
    CountsMatch(g);
    hide Slack, AllCompleted, CallSum;
    var f := SlackFunction(t, g);
    CallSumZero(g.labels, op, f, |g.labels|);
    assert forall c: nat | c < |g.sources| :: f(c) == SlackOf(t, g, c);
  }

  /** Slack is zero exactly when no single request has its cause. */
  lemma {:induction false} SlackZero(t: SlackTerm, op: LlmOperation, gens: seq<Generation>)
    requires forall g <- gens :: AllCompleted(g)
    ensures SlackSum(t, op, gens) == 0 <==> !Occurs(t, op, gens)
  {
    hide AllCompleted, GenerationSlack, OccursIn;
    if gens != [] {
      var init, last := gens[..|gens| - 1], gens[|gens| - 1];
      assert gens == init + [last];
      SlackZero(t, op, init);
      GenerationQuiet(t, op, last);
    }
  }

  // The checks are sharp: on completed requests, raising a single counter of an
  // operation makes its check fail.

  /** A start or a terminal status too many shows. */
  lemma ExtraTerminalShows(op: LlmOperation, gens: seq<Generation>, l: Labels, s: Status, n: nat)
    requires forall g <- gens :: AllCompleted(g)
    requires l.operation == op && n > 0 && Total(StartedTotal, op, Exports(gens)) > 0
    ensures Fails(TerminalMismatch, op, Exports(gens) + [Sample(l.Of(RequestsStarted, Plain), n)])
    ensures Fails(TerminalMismatch, op, Exports(gens) + [Sample(l.Of(Requests, WithStatus(s)), n)])
  {
    hide Total, Exports, SlackSum, AllCompleted;
    ExportsBalance(op, gens);
    var started, ended := l.Of(RequestsStarted, Plain), l.Of(Requests, WithStatus(s));
    forall m | m in {StartedTotal, SuccessTotal, FailureTotal}
      ensures Total(m, op, Exports(gens) + [Sample(started, n)]) ==
              Total(m, op, Exports(gens)) + if m == StartedTotal then n else 0
      ensures Total(m, op, Exports(gens) + [Sample(ended, n)]) ==
              Total(m, op, Exports(gens)) + if m == (if s == Success then SuccessTotal else FailureTotal) then n else 0
    {
      OneMore(m, op, Exports(gens), started, n);
      OneMore(m, op, Exports(gens), ended, n);
    }
  }

  /** A retry too many shows; an attempt too many goes unnoticed only in place
      of as many that were never dispatched. */
  lemma ExtraAttemptShows(op: LlmOperation, gens: seq<Generation>, l: Labels, s: Status, n: nat)
    requires forall g <- gens :: AllCompleted(g)
    requires l.operation == op && n > 0 && Total(StartedTotal, op, Exports(gens)) > 0
    ensures Fails(AttemptMismatch, op, Exports(gens) + [Sample(l.Of(Retries, WithReason(s)), n)])
    ensures Fails(AttemptMismatch, op, Exports(gens) + [Sample(l.Of(Attempts, WithStatus(s)), n)]) <==>
            n != SlackSum(Undispatched, op, gens)
  {
    hide Total, Exports, SlackSum, AllCompleted;
    ExportsBalance(op, gens);
    var retry, attempt := l.Of(Retries, WithReason(s)), l.Of(Attempts, WithStatus(s));
    forall m | m in {StartedTotal, AttemptTotal, RetryTotal}
      ensures Total(m, op, Exports(gens) + [Sample(retry, n)]) ==
              Total(m, op, Exports(gens)) + if m == RetryTotal then n else 0
      ensures Total(m, op, Exports(gens) + [Sample(attempt, n)]) ==
              Total(m, op, Exports(gens)) + if m == AttemptTotal then n else 0
    {
      OneMore(m, op, Exports(gens), retry, n);
      OneMore(m, op, Exports(gens), attempt, n);
    }
  }

  /** A usage report too many shows. */
  lemma ExtraReportShows(op: LlmOperation, gens: seq<Generation>, l: Labels, d: Detail, n: nat)
    requires forall g <- gens :: AllCompleted(g)
    requires l.operation == op && n > 0 && Total(StartedTotal, op, Exports(gens)) > 0
    requires d in {Present, Missing}
    ensures Fails(UsageMismatch, op, Exports(gens) + [Sample(l.Of(UsageReports, d), n)])
  {
    hide Total, Exports, SlackSum, AllCompleted;
    ExportsBalance(op, gens);
    var report := l.Of(UsageReports, d);
    forall m | m in {StartedTotal, PresentTotal, MissingTotal, SuccessTotal}
      ensures Total(m, op, Exports(gens) + [Sample(report, n)]) ==
              Total(m, op, Exports(gens)) + if m == (if d == Present then PresentTotal else MissingTotal) then n else 0
    {
      OneMore(m, op, Exports(gens), report, n);
    }
  }

  /** Tokens too many of any kind show, on either side of the account. */
  lemma ExtraTokensShow(op: LlmOperation, gens: seq<Generation>, l: Labels, k: Metric, d: Detail, n: nat)
    requires forall g <- gens :: AllCompleted(g)
    requires l.operation == op && n > 0 && Total(StartedTotal, op, Exports(gens)) > 0
    requires (k == TokensTotal && d in {Input, Output, CachedInput})
          || (k == BillableTokens && d in {CachedInput, UncachedInput, Output})
    ensures Fails(TokenMismatch, op, Exports(gens) + [Sample(l.Of(k, d), n)])
  {
    hide Total, Exports, SlackSum, AllCompleted;
    ExportsBalance(op, gens);
    var s := l.Of(k, d);
    forall m: Measure
      ensures Total(m, op, Exports(gens) + [Sample(s, n)]) ==
              Total(m, op, Exports(gens)) + if Selects(m, op, s) then n else 0
    {
      OneMore(m, op, Exports(gens), s, n);
    }
  }

  lemma OneMore(m: Measure, op: LlmOperation, samples: seq<Sample>, s: Series, n: nat)
    ensures Total(m, op, samples + [Sample(s, n)]) == Total(m, op, samples) + if Selects(m, op, s) then n else 0
  {
    TotalConcat(m, op, samples, [Sample(s, n)]);
    assert [Sample(s, n)][1..] == [];
  }

  /** The verdict of the balance checks on completed requests. Started and
      terminal counts always agree, and so do the token totals. The attempt
      check fails exactly when some request was left undispatched, and the usage
      check exactly when some request failed after its usage report. */
  lemma Verdict(op: LlmOperation, gens: seq<Generation>)
    requires forall g <- gens :: AllCompleted(g)
    ensures !Fails(TerminalMismatch, op, Exports(gens))
    ensures !Fails(TokenMismatch, op, Exports(gens))
    ensures Fails(AttemptMismatch, op, Exports(gens)) <==> Occurs(Undispatched, op, gens)
    ensures Fails(UsageMismatch, op, Exports(gens)) <==> Occurs(FailedReport, op, gens)
  {
    hide Total, Exports, SlackSum, AllCompleted, Occurs;
    ExportsBalance(op, gens);
    SlackZero(Undispatched, op, gens);
    SlackZero(FailedReport, op, gens);
  }

  /** Token totals are the usage of all replies of the scripts that carried one:
      nothing is lost or booked twice, over any interleaving. */
  lemma TokensConserved(m: Measure, op: LlmOperation, g: Generation)
    requires AllCompleted(g) && TokenMeasure(m)
    ensures Total(m, op, Export(g.labels, g.log)) == CallSum(g.labels, op, ReceiptsOf(m, g), |g.labels|)
  {
    hide Tally, Project, Total, Export, CallSum, ReceiptTotal, ReceiptsBy;
    CountsMatch(g);
    ExportTotal(m, op, g.labels, g.log);
    forall c: nat | c < |g.labels|
      ensures TallyOf(m, g.log)(c) == ReceiptsOf(m, g)(c)
    {
      RequestAccounts(g, c);
    }
    CallSumEqual(g.labels, op, TallyOf(m, g.log), ReceiptsOf(m, g), |g.labels|);
  }

  // -------------------------------------------------------------- vocabulary

  /** The label values the report accepts. */
  predicate KnownDetail(d: Detail) {
    && (d.WithStatus? ==> d.status != Truncated && d.status != JsonModeFallback)
    && (d.WithReason? ==> d.reason in {ClientOrTransportError, JsonModeFallback, ProviderError, RateLimited, Rejected})
  }

  ghost predicate KnownLabels(samples: seq<Sample>) {
    forall s <- samples :: KnownDetail(s.series.detail)
  }

  predicate KnownEvent(e: Event) {
    && (e.AttemptEnded? || e.Finished? ==> KnownDetail(WithStatus(e.status)))
    && (e.RetryScheduled? ==> KnownDetail(WithReason(e.reason)))
  }

  lemma {:induction false} KnownIncrement(samples: seq<Sample>, s: Series, n: nat)
    ensures KnownLabels(Increment(samples, s, n)) <==> KnownLabels(samples) && KnownDetail(s.detail)
  {
    hide KnownDetail;
    if samples == [] {
      assert Increment(samples, s, n) == [Sample(s, n)];
      assert Sample(s, n) in [Sample(s, n)];
    } else {
      assert samples == [samples[0]] + samples[1..];
      if samples[0].series == s {
        KnownCons(Sample(s, samples[0].value + n), samples[1..]);
        KnownCons(samples[0], samples[1..]);
      } else {
        KnownIncrement(samples[1..], s, n);
        KnownCons(samples[0], Increment(samples[1..], s, n));
        KnownCons(samples[0], samples[1..]);
      }
    }
  }

  lemma KnownCons(first: Sample, rest: seq<Sample>)
    ensures KnownLabels([first] + rest) <==> KnownDetail(first.series.detail) && KnownLabels(rest)
  {
    hide KnownDetail;
    assert first in [first] + rest;
    assert forall s <- rest :: s in [first] + rest;
  }

  lemma KnownRecord(samples: seq<Sample>, l: Labels, e: Event)
    ensures KnownLabels(Record(samples, l, e)) <==> KnownLabels(samples) && KnownEvent(e)
  {
    hide KnownLabels, Increment;
    forall t, s, n
      ensures KnownLabels(Increment(t, s, n)) <==> KnownLabels(t) && KnownDetail(s.detail)
    {
      KnownIncrement(t, s, n);
    }
  }

  lemma {:induction false} KnownExport(labels: seq<Labels>, log: seq<Step>)
    requires InRange(|labels|, log)
    ensures KnownLabels(Export(labels, log)) <==> forall step <- log :: KnownEvent(step.event)
  {
    hide Record, KnownEvent;
    if log != [] {
      var init, last := log[..|log| - 1], log[|log| - 1];
      assert log == init + [last];
      KnownExport(labels, init);
      KnownRecord(Export(labels, init), labels[last.call], last.event);
    }
  }

  lemma {:induction false} StatusesAreEnded(cfg: Config, trace: seq<Event>, s: Status)
    ensures s in Observe(cfg, trace).statuses <==> AttemptEnded(s) in trace
  {
    if trace != [] {
      var init, last := trace[..|trace| - 1], trace[|trace| - 1];
      assert trace == init + [last];
      StatusesAreEnded(cfg, init, s);
    }
  }

  lemma {:induction false} AcceptedEvents(cfg: Config, trace: seq<Event>)
    requires Accepts(cfg, trace)
    ensures forall e <- trace :: KnownEvent(e) || e == AttemptEnded(Truncated)
  {
    hide Observe;
    if trace != [] {
      var init, last := trace[..|trace| - 1], trace[|trace| - 1];
      assert trace == init + [last];
      AcceptedEvents(cfg, init);
    }
  }

  lemma {:induction false} ProjectMembers(log: seq<Step>, c: nat, e: Event)
    ensures e in Project(log, c) <==> Step(c, e) in log
  {
    if log != [] {
      var init, last := log[..|log| - 1], log[|log| - 1];
      assert log == init + [last];
      ProjectMembers(log[..|log| - 1], c, e);
    }
  }

  /** The two label vocabularies disagree in one value: the report refuses a
      generation's export exactly when some series-matching reply was cut short. */
  lemma VocabularyVerdict(g: Generation)
    requires AllCompleted(g)
    ensures KnownLabels(Export(g.labels, g.log)) <==> forall s <- g.sources :: !CutSeries(s)
  {
    hide Observe, Accepts, Export, KnownLabels, Project, RanAs, CutSeries;
    CountsMatch(g);
    KnownExport(g.labels, g.log);
    forall c: nat | c < |g.cfgs|
      ensures CutSeries(g.sources[c]) <==> Step(c, AttemptEnded(Truncated)) in g.log
    {
      StatusesAreEnded(g.cfgs[c], Project(g.log, c), Truncated);
      TruncatedHasCause(g.sources[c], ViewOf(g, c));
      ProjectMembers(g.log, c, AttemptEnded(Truncated));
    }
    forall step <- g.log
      ensures step.call < |g.cfgs| && (KnownEvent(step.event) || step.event == AttemptEnded(Truncated))
    {
      AcceptedEvents(g.cfgs[step.call], Project(g.log, step.call));
      ProjectMembers(g.log, step.call, step.event);
    }
  }
}
