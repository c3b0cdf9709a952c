/** Where a finished request comes from: the script of a chat or of a stream
    that the client ran, and what that script says about its history. */
module Requests {
  import opened LlmTypes
  import opened CallTrace
  import opened BudgetControl
  import opened ChatSpec
  import opened StreamSpec
  import ChatOutcomes
  import StreamOutcomes

  datatype Source =
    | ChatSource(caller: Caller, req: ChatRequest, rounds: Script)
    | StreamSource(caller: Caller, req: ChatRequest, setup: SetupScript, polls: seq<Poll>)

  /** The client's own guarantee about the state it leaves. */
  ghost predicate RanAs(s: Source, v: View) {
    match s
    case ChatSource(caller, req, rounds) => Accounts(caller, req, rounds, v)
    case StreamSource(caller, req, setup, polls) => StreamAccounts(caller, req, setup, polls, v)
  }

  /** The usage the provider reported for attempt `k`, if it was dispatched: of
      a stream, only the attempt that opened it reports any. */
  function ReportedBy(s: Source, k: nat): Option<Usage> {
    match s
    case ChatSource(caller, req, rounds) =>
      if k < EndOf(caller, req, rounds).dispatches then ReportedAt(req, rounds, k) else None
    case StreamSource(caller, req, setup, polls) =>
      var e := SetupEndOf(caller, req, setup);
      if e.setup.Ready? && k + 1 == e.dispatches then UsageOf(polls[..StopIndex(polls)]) else None
  }

  /** A chat reports for each dispatched attempt the usage of its counted reply,
      a stream only for the attempt that opened it, the one usage it showed. */
  lemma ReportedExactly(s: Source, k: nat, u: Usage)
    ensures s.ChatSource? ==>
      (ReportedBy(s, k) == Some(u) <==>
         && k < EndOf(s.caller, s.req, s.rounds).dispatches
         && ChatOutcomes.Counted(s.req, s.rounds, k) && s.rounds(k).reply.value.usage == Some(u))
    ensures s.StreamSource? ==>
      (ReportedBy(s, k) == Some(u) <==>
         && SetupEndOf(s.caller, s.req, s.setup).setup.Ready?
         && k + 1 == SetupEndOf(s.caller, s.req, s.setup).dispatches
         && exists j :: 0 <= j < StopIndex(s.polls) && s.polls[j] == UsageSeen(u))
  {
    hide EndOf, SetupEndOf, ReceiptAt, UsageOf, JsonAt;
    match s {
      case ChatSource(_, req, rounds) => ChatOutcomes.ReceiptExactly(req, rounds, k);
      case StreamSource(_, _, _, polls) => StreamOutcomes.SeenExactly(polls, StopIndex(polls));
    }
  }

  /** Whatever is sent to be settled is the usage the provider reported. */
  lemma SettlesWhatWasReported(s: Source, cfg: Config, trace: seq<Event>, e: Event)
    requires RanAs(s, Observe(cfg, trace)) && e in trace && e.SettleSent?
    ensures ReportedBy(s, e.round) == Some(e.usage)
  {
    SettlesOnRecord(cfg, trace, e);
    hide Observe, EndOf, SetupEndOf, Statuses, Receipts, ReceiptAt, StopIndex, StreamEnding, UsageOf;
    assert Settlement(e.round, e.usage) in Observe(cfg, trace).settles;
  }

  // ------------------------------------------------------------------ causes

  /** The request ended with an attempt scheduled that was never dispatched: its
      allowance was spent, its reservation refused, or the deadline fired while
      it reserved or slept before a retry. */
  ghost predicate LeftUndispatched(s: Source) {
    match s
    case ChatSource(caller, req, rounds) =>
      exists n: nat :: LastTurnIs(caller, req, rounds, n) && StopsBeforeDispatch(caller, req, rounds, n)
    case StreamSource(caller, req, setup, _) =>
      exists n: nat :: LastSetupIs(caller, req, setup, n) && SetupStopsBeforeDispatch(caller, req, setup, n)
  }

  predicate StopsBeforeDispatch(caller: Caller, req: ChatRequest, env: Script, n: nat) {
    AllowanceSpent(req, n) || Refused(caller, req, env, n) || ReserveLate(caller, req, env, n)
      || SleepLate(caller, req, env, n)
  }

  predicate SetupStopsBeforeDispatch(caller: Caller, req: ChatRequest, env: SetupScript, n: nat) {
    || SetupRefused(caller, req, env, n) || SetupReserveLate(caller, req, env, n)
    || (SetupSchedules(caller, req, env, n) && env(n).sleepExpires)
  }

  /** The request reported its usage and still failed: a chat answer that was
      not paid for or was too long, a series reply that was no answer, or a
      stream whose usage was seen and that did not end well. */
  ghost predicate FailsAfterUsage(s: Source) {
    match s
    case ChatSource(caller, req, rounds) =>
      exists n: nat :: LastTurnIs(caller, req, rounds, n) && FailsAfterReport(caller, req, rounds, n)
    case StreamSource(caller, req, setup, polls) =>
      && SetupEndOf(caller, req, setup).setup.Ready?
      && UsageOf(polls[..StopIndex(polls)]).Some? && StreamEnding(caller, req, setup, polls).status != Success
  }

  /** A series-matching reply that was cut short. */
  ghost predicate CutSeries(s: Source) {
    && s.ChatSource? && s.req.operation == SeriesMatching
    && exists k: nat ::
         k < EndOf(s.caller, s.req, s.rounds).dispatches && s.rounds(k).reply.Done?
         && s.rounds(k).reply.value.IncompleteSeries?
  }

  lemma LastTurnUnique(caller: Caller, req: ChatRequest, env: Script, n: nat, m: nat)
    requires LastTurnIs(caller, req, env, n) && LastTurnIs(caller, req, env, m)
    ensures n == m
  {
    hide GoesOn;
  }

  lemma LastSetupUnique(caller: Caller, req: ChatRequest, env: SetupScript, n: nat, m: nat)
    requires LastSetupIs(caller, req, env, n) && LastSetupIs(caller, req, env, m)
    ensures n == m
  {
    hide SetupGoesOn;
  }

  /** The undispatched flag has exactly these causes. */
  lemma UndispatchedHasCause(s: Source, v: View)
    requires RanAs(s, v)
    ensures v.undispatched <==> LeftUndispatched(s)
  {
    hide EndOf, SetupEndOf, LastTurnIs, LastSetupIs, StreamEnding, Statuses, Receipts, SetupStatuses, Refused,
         ReserveLate, SleepLate, SetupRefused, SetupReserveLate, SetupSchedules, SettlesReported, ReportAfter,
           StopIndex, UsageOf, Grants, SetupGrants;
    match s {
      case ChatSource(caller, req, rounds) =>
        var n := LastTurnExists(caller, req, rounds);
        EndingOfChat(caller, req, rounds, n);
        forall m: nat | LastTurnIs(caller, req, rounds, m)
          ensures m == n
        {
          LastTurnUnique(caller, req, rounds, n, m);
        }
      case StreamSource(caller, req, setup, polls) =>
        var n := LastSetupExists(caller, req, setup);
        EndingOfSetup(caller, req, setup, n);
        forall m: nat | LastSetupIs(caller, req, setup, m)
          ensures m == n
        {
          LastSetupUnique(caller, req, setup, n, m);
        }
    }
  }

  /** A usage report without success has exactly these causes. */
  lemma FailedReportHasCause(s: Source, v: View)
    requires RanAs(s, v)
    ensures v.report.Some? && v.phase != Closed(Success) <==> FailsAfterUsage(s)
  {
    hide EndOf, SetupEndOf, LastTurnIs, LastSetupIs, StreamEnding, Statuses, Receipts, SetupStatuses, FailsAfterReport,
         SettlesReported, ReportAfter, StopIndex, UsageOf;
    match s {
      case ChatSource(caller, req, rounds) =>
        var n := LastTurnExists(caller, req, rounds);
        FailedReportOfChat(caller, req, rounds, n);
        forall m: nat | LastTurnIs(caller, req, rounds, m)
          ensures m == n
        {
          LastTurnUnique(caller, req, rounds, n, m);
        }
      case StreamSource(caller, req, setup, polls) =>
        SetupNeverSucceeds(caller, req, setup);
    }
  }

  lemma SetupNeverSucceeds(caller: Caller, req: ChatRequest, env: SetupScript)
    ensures SetupEndOf(caller, req, env).status != Some(Success)
  {
    var n := LastSetup(caller, req, env, 0);
    hide Caller.ReserveFor, SetupEndFrom;
  }

  lemma {:induction false} SetupNeverTruncates(env: SetupScript, n: nat)
    ensures Truncated !in SetupStatuses(env, n)
  {
    if n > 0 { SetupNeverTruncates(env, n - 1); }
  }

  /** A `truncated` attempt has exactly this cause. */
  lemma TruncatedHasCause(s: Source, v: View)
    requires RanAs(s, v)
    ensures Truncated in v.statuses <==> CutSeries(s)
  {
    hide EndOf, SetupEndOf, StreamEnding, Receipts, SettlesReported, ReportAfter, StopIndex, UsageOf;
    match s {
      case ChatSource(caller, req, rounds) =>
        TruncatedMeansCutSeries(caller.Budgeted(), req, rounds, EndOf(caller, req, rounds).dispatches);
      case StreamSource(caller, req, setup, polls) =>
        SetupNeverTruncates(setup, SetupEndOf(caller, req, setup).dispatches);
    }
  }

  /** The usage of every reply the provider gave that counts as answered. */
  function ReceiptsBy(s: Source): seq<Option<Usage>> {
    match s
    case ChatSource(caller, req, rounds) => Receipts(req, rounds, EndOf(caller, req, rounds).dispatches)
    case StreamSource(caller, req, setup, polls) =>
      var usage := UsageOf(polls[..StopIndex(polls)]);
      if SetupEndOf(caller, req, setup).setup.Ready? && usage.Some? then [usage] else []
  }

  lemma ReceiptsAreTheScripts(s: Source, v: View)
    requires RanAs(s, v)
    ensures v.receipts == ReceiptsBy(s)
  {
    hide EndOf, SetupEndOf, StreamEnding, Receipts, Statuses, SettlesReported, ReportAfter, StopIndex, UsageOf;
  }
}
