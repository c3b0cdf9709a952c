/** Admission and the shared budget together: a request does nothing without
    its permits, and keeps them until it is closed
    (crates/llm-client/src/client.rs). */
module Exclusion {
  import opened LlmTypes
  import opened CallTrace
  import B = BudgetControl
  import opened SharedOwner
  import A = Admission

  /** A step of the process: admission, a move of the ledger's run, or the
      return of the permits when the call returns or its stream is dropped. */
  datatype Act = Acquire(call: nat) | Go(move: Move) | Release(call: nat)

  /** The request whose act it is; a late arrival is nobody's act. */
  function CallOf(act: Act): nat {
    if act.Go? then act.move.step.call else act.call
  }

  /** A visible event of this request. */
  predicate Emits(act: Act, c: nat) {
    act.Go? && act.move.Does? && act.move.step.call == c
  }

  /** A budgeted request takes all permits, any other request takes one. */
  function PermitsFor(cfg: Config): nat {
    if cfg.budgeted then A.MAX_CONCURRENT_LLM_REQUESTS else 1
  }

  /** What admission and release do to the semaphore. */
  function PermitStep(cfgs: seq<Config>, act: Act): A.Step
    requires CallOf(act) < |cfgs| && !act.Go?
  {
    if act.Acquire? then A.Acquire(act.call, PermitsFor(cfgs[act.call])) else A.Release(act.call)
  }

  ghost predicate Known(cfgs: seq<Config>, acts: seq<Act>) {
    forall act <- acts :: CallOf(act) < |cfgs|
  }

  function PermitSteps(cfgs: seq<Config>, acts: seq<Act>): seq<A.Step>
    requires Known(cfgs, acts)
  {
    if acts == [] then []
    else
      assert acts[|acts| - 1] in acts;
      var last := acts[|acts| - 1];
      PermitSteps(cfgs, acts[..|acts| - 1]) + if last.Go? then [] else [PermitStep(cfgs, last)]
  }

  /** The moves of requests and owner, in order. */
  function Moves(acts: seq<Act>): seq<Move> {
    if acts == [] then []
    else
      var last := acts[|acts| - 1];
      Moves(acts[..|acts| - 1]) + if last.Go? then [last.move] else []
  }

  ghost function ViewAt(cfgs: seq<Config>, acts: seq<Act>, c: nat): View
    requires c < |cfgs|
  {
    Observe(cfgs[c], Own(Moves(acts), c))
  }

  ghost function PermitsAt(cfgs: seq<Config>, acts: seq<Act>): A.Permits
    requires Known(cfgs, acts)
  {
    A.After(PermitSteps(cfgs, acts))
  }

  /** What the client's structure allows: `admit` comes before the first event,
      every event happens under the permit, and the permit is dropped only after
      the terminal status was recorded. The owner may apply late at any time. */
  ghost predicate Ok(cfgs: seq<Config>, acts: seq<Act>, act: Act)
    requires Known(cfgs, acts) && CallOf(act) < |cfgs|
  {
    var c, permits := CallOf(act), PermitsAt(cfgs, acts);
    var v := ViewAt(cfgs, acts, c);
    && (act.Acquire? ==> v.phase == Fresh && c !in permits.held && PermitsFor(cfgs[c]) <= permits.available)
    && (Emits(act, c) ==> c in permits.held && Allowed(cfgs[c], v, act.move.step.event))
    && (act.Release? ==> c in permits.held && v.phase.Closed?)
  }

  ghost predicate Runs(cfgs: seq<Config>, acts: seq<Act>) {
    acts == [] ||
    var init, last := acts[..|acts| - 1], acts[|acts| - 1];
    Runs(cfgs, init) && Known(cfgs, init) && CallOf(last) < |cfgs| && Ok(cfgs, init, last)
  }

  lemma {:induction false} RunsKnown(cfgs: seq<Config>, acts: seq<Act>)
    requires Runs(cfgs, acts)
    ensures Known(cfgs, acts)
  {
    if acts != [] {
      RunsKnown(cfgs, acts[..|acts| - 1]);
      assert acts == acts[..|acts| - 1] + [acts[|acts| - 1]];
    }
  }

  predicate Open(v: View) {
    v.phase != Fresh && !v.phase.Closed?
  }

  /** Only holders of permits are open, and each holds what it took. */
  ghost predicate Held(cfgs: seq<Config>, acts: seq<Act>)
    requires Known(cfgs, acts)
  {
    var permits := PermitsAt(cfgs, acts);
    && A.Conserved(permits)
    && (forall c: nat | c < |cfgs| && Open(ViewAt(cfgs, acts, c)) :: c in permits.held)
    && (forall c <- permits.held :: c < |cfgs| && permits.held[c] == PermitsFor(cfgs[c]))
  }

  lemma ViewMoves(cfgs: seq<Config>, acts: seq<Act>, c: nat)
    requires acts != [] && c < |cfgs|
    ensures var init, last := acts[..|acts| - 1], acts[|acts| - 1];
            ViewAt(cfgs, acts, c)
            == if Emits(last, c) then Advance(cfgs[c], ViewAt(cfgs, init, c), last.move.step.event)
               else ViewAt(cfgs, init, c)
  {
    hide Advance, Observe, Own;
    var run, before, last := Moves(acts), Moves(acts[..|acts| - 1]), acts[|acts| - 1];
    if last.Go? {
      assert run[..|run| - 1] == before;
      OwnStep(run, c);
      if Emits(last, c) {
        ObserveAppend(cfgs[c], Own(before, c), last.move.step.event);
      }
    } else {
      assert run == before;
    }
  }

  function PermitsAfter(cfgs: seq<Config>, permits: A.Permits, act: Act): A.Permits
    requires CallOf(act) < |cfgs|
  {
    if act.Go? then permits else A.Apply(permits, PermitStep(cfgs, act))
  }

  lemma PermitsMove(cfgs: seq<Config>, acts: seq<Act>)
    requires acts != [] && Known(cfgs, acts)
    ensures var init, last := acts[..|acts| - 1], acts[|acts| - 1];
            && Known(cfgs, init) && CallOf(last) < |cfgs|
            && PermitsAt(cfgs, acts) == PermitsAfter(cfgs, PermitsAt(cfgs, init), last)
  {
    hide A.Apply;
    var steps, before := PermitSteps(cfgs, acts), PermitSteps(cfgs, acts[..|acts| - 1]);
    assert acts[|acts| - 1] in acts;
    if acts[|acts| - 1].Go? {
      assert steps == before;
    } else {
      assert steps[..|steps| - 1] == before;
    }
  }

  lemma StartsClosedOrGoesOn(cfg: Config, v: View, e: Event)
    requires Allowed(cfg, v, e)
    ensures !v.phase.Closed?
    ensures Open(Advance(cfg, v, e)) || e.Finished?
  {
  }

  lemma {:induction false} RunHeld(cfgs: seq<Config>, acts: seq<Act>)
    requires Runs(cfgs, acts)
    ensures Known(cfgs, acts) && Held(cfgs, acts)
  {
    hide Held, Ok, PermitsAt, ViewAt, Known;
    RunsKnown(cfgs, acts);
    if acts == [] {
      InitiallyHeld(cfgs);
    } else {
      var init, last := acts[..|acts| - 1], acts[|acts| - 1];
      assert acts == init + [last];
      RunHeld(cfgs, init);
      PermitsMove(cfgs, acts);
      StepHeld(cfgs, init, last, acts);
    }
  }

  lemma InitiallyHeld(cfgs: seq<Config>)
    ensures Held(cfgs, [])
  {
    A.RunConserves([]);
    forall c: nat | c < |cfgs|
      ensures ViewAt(cfgs, [], c) == INITIAL
    {
    }
  }

  lemma StepHeld(cfgs: seq<Config>, init: seq<Act>, last: Act, acts: seq<Act>)
    requires acts == init + [last] && Known(cfgs, init) && Known(cfgs, acts) && CallOf(last) < |cfgs|
    requires Held(cfgs, init) && Ok(cfgs, init, last)
    requires PermitsAt(cfgs, acts) == PermitsAfter(cfgs, PermitsAt(cfgs, init), last)
    ensures Held(cfgs, acts)
  {
    hide A.Conserved, A.Apply, Advance, Allowed, PermitsAt, ViewAt, Open;
    assert acts[..|acts| - 1] == init;
    PermitsChange(cfgs, init, last);
    forall c: nat | c < |cfgs| && Open(ViewAt(cfgs, acts, c))
      ensures c in PermitsAt(cfgs, acts).held
    {
      ViewMoves(cfgs, acts, c);
      if last == Release(c) {
        ClosedIsNotOpen(ViewAt(cfgs, init, c));
      }
    }
  }

  lemma ClosedIsNotOpen(v: View)
    requires v.phase.Closed?
    ensures !Open(v)
  {
  }

  /** What an allowed act does to the holders of permits. */
  lemma PermitsChange(cfgs: seq<Config>, acts: seq<Act>, act: Act)
    requires Known(cfgs, acts) && CallOf(act) < |cfgs| && Ok(cfgs, acts, act) && A.Conserved(PermitsAt(cfgs, acts))
    ensures var permits, after := PermitsAt(cfgs, acts), PermitsAfter(cfgs, PermitsAt(cfgs, acts), act);
      && A.Conserved(after)
      && after.held == (match act
                        case Acquire(c) => permits.held[c := PermitsFor(cfgs[c])]
                        case Go(_) => permits.held
                        case Release(c) => permits.held - {c})
  {
    hide A.Conserved, PermitsAt, ViewAt;
    if !act.Go? {
      A.StepConserves(PermitsAt(cfgs, acts), PermitStep(cfgs, act));
    }
  }

  /** While a budgeted request is open, no other request is. */
  lemma BudgetedIsAlone(cfgs: seq<Config>, acts: seq<Act>, c: nat, d: nat)
    requires Runs(cfgs, acts) && c < |cfgs| && d < |cfgs| && c != d
    requires cfgs[c].budgeted && Open(ViewAt(cfgs, acts, c))
    ensures !Open(ViewAt(cfgs, acts, d)) && d !in PermitsAt(cfgs, acts).held
  {
    RunHeld(cfgs, acts);
    hide Observe, Runs;
    A.FullHolderIsAlone(PermitsAt(cfgs, acts), c);
  }

  lemma {:induction false} RunsPrefix(cfgs: seq<Config>, acts: seq<Act>, n: nat)
    requires Runs(cfgs, acts) && n <= |acts|
    ensures Runs(cfgs, acts[..n])
  {
    hide Ok;
    if n < |acts| {
      RunsPrefix(cfgs, acts[..|acts| - 1], n);
      assert acts[..|acts| - 1][..n] == acts[..n];
    } else {
      assert acts[..n] == acts;
    }
  }

  lemma ActAt(cfgs: seq<Config>, acts: seq<Act>, k: nat)
    requires Runs(cfgs, acts) && k < |acts|
    ensures Runs(cfgs, acts[..k]) && Known(cfgs, acts[..k]) && CallOf(acts[k]) < |cfgs|
    ensures Ok(cfgs, acts[..k], acts[k])
  {
    hide Ok;
    RunsPrefix(cfgs, acts, k + 1);
    assert acts[..k + 1][..k] == acts[..k];
  }

  /** The request records its terminal status. */
  predicate Ends(act: Act, c: nat) {
    Emits(act, c) && act.move.step.event.Finished?
  }

  /** A request stays open from any of its events until its terminal one. */
  lemma {:induction false} OpenUntilFinished(cfgs: seq<Config>, acts: seq<Act>, c: nat, i: nat, j: nat)
    requires Runs(cfgs, acts) && i < j <= |acts| && Emits(acts[i], c)
    requires forall k :: i <= k < j ==> !Ends(acts[k], c)
    ensures c < |cfgs| && Open(ViewAt(cfgs, acts[..j], c))
    decreases j
  {
    hide Runs, ViewAt, Advance, Allowed, Ok, PermitsAt, Open;
    ActAt(cfgs, acts, j - 1);
    assert acts[..j][..j - 1] == acts[..j - 1] && acts[..j][j - 1] == acts[j - 1];
    if Emits(acts[j - 1], c) {
      OpenAfter(cfgs, acts[..j], c);
    } else {
      OpenUntilFinished(cfgs, acts, c, i, j - 1);
      ViewMoves(cfgs, acts[..j], c);
    }
  }

  lemma OpenAfter(cfgs: seq<Config>, acts: seq<Act>, c: nat)
    requires acts != [] && c < |cfgs| && Emits(acts[|acts| - 1], c) && !Ends(acts[|acts| - 1], c)
    requires Known(cfgs, acts[..|acts| - 1]) && Ok(cfgs, acts[..|acts| - 1], acts[|acts| - 1])
    ensures Open(ViewAt(cfgs, acts, c))
  {
    ViewMoves(cfgs, acts, c);
    hide ViewAt, Advance, Allowed, PermitsAt, Open;
    StartsClosedOrGoesOn(cfgs[c], ViewAt(cfgs, acts[..|acts| - 1], c), acts[|acts| - 1].move.step.event);
  }

  /** Between any event of a budgeted request, a reservation among them, and
      its terminal status, no other request in the process does anything. */
  lemma BudgetedCallsExclude(cfgs: seq<Config>, acts: seq<Act>, c: nat, d: nat, i: nat, j: nat)
    requires Runs(cfgs, acts) && i < j < |acts| && Emits(acts[i], c) && Emits(acts[j], d) && c != d
    requires c < |cfgs| && cfgs[c].budgeted && !Ends(acts[i], c)
    ensures exists k :: i < k < j && Ends(acts[k], c)
  {
    hide Runs, ViewAt, PermitsAt, Allowed, Open, Ends;
    if forall k :: i < k < j ==> !Ends(acts[k], c) {
      OpenUntilFinished(cfgs, acts, c, i, j);
      ActAt(cfgs, acts, j);
      BudgetedIsAlone(cfgs, acts[..j], c, d);
      assert false;
    }
  }

  // ---------------------------------------------------------- the one pending

  /** The reservation an open request is at work on. */
  predicate Live(v: View, round: nat) {
    && round + 1 == v.rounds
    && (v.phase.Asked? || v.phase.Holding? || v.phase.InFlight? || v.phase.Returned?)
  }

  lemma {:induction false} RunConforms(cfgs: seq<Config>, acts: seq<Act>)
    requires Runs(cfgs, acts)
    ensures Conforms(cfgs, Moves(acts))
  {
    hide Observe, Allowed, Conforms, PermitsAt, Own;
    if acts != [] {
      var init, last := acts[..|acts| - 1], acts[|acts| - 1];
      RunConforms(cfgs, init);
      if last.Go? {
        MoveConforms(cfgs, Moves(init), last.move);
      } else {
        assert Moves(acts) == Moves(init);
      }
    } else {
      NothingConforms(cfgs);
    }
  }

  lemma MoveConforms(cfgs: seq<Config>, run: seq<Move>, move: Move)
    requires Conforms(cfgs, run) && move.step.call < |cfgs|
    requires var c := move.step.call;
             move.Does? ==> Allowed(cfgs[c], Observe(cfgs[c], Own(run, c)), move.step.event)
    ensures Conforms(cfgs, run + [move])
  {
    hide Observe, Allowed, Accepts, Own;
    var all := run + [move];
    assert all[..|all| - 1] == run;
    forall c | 0 <= c < |cfgs|
      ensures Accepts(cfgs[c], Project(Visible(all), c))
    {
      OwnIsProject(run, c);
      OwnIsProject(all, c);
      OwnStep(all, c);
      if move.Does? && move.step.call == c {
        ObserveAppend(cfgs[c], Own(run, c), move.step.event);
      }
    }
  }

  lemma OwnIsProject(run: seq<Move>, c: nat)
    ensures Own(run, c) == Project(Visible(run), c)
  {
  }

  lemma NothingConforms(cfgs: seq<Config>)
    ensures Conforms(cfgs, [])
  {
  }

  /** At any point at most one pending reservation is at work. Every other one
      is abandoned: its request is closed, or has gone on to a later attempt. */
  lemma AtMostOneLive(cap: nat, p: B.Profile, cfgs: seq<Config>, acts: seq<Act>, x: AttemptId, y: AttemptId)
    requires Runs(cfgs, acts) && Within(|cfgs|, Moves(acts)) && OwnerAdmits(cap, p, cfgs, Moves(acts))
    requires x in After(p, cfgs, Moves(acts)).ledger.pending && y in After(p, cfgs, Moves(acts)).ledger.pending
    ensures x.call < |cfgs| && y.call < |cfgs|
    ensures Live(ViewAt(cfgs, acts, x.call), x.round) && Live(ViewAt(cfgs, acts, y.call), y.round) ==> x == y
  {
    hide Observe, Runs, Balances, CallSafe, UnderwaySafe, After, ViewAt, OwnerAdmits, AllAccepted, Moves;
    RunConforms(cfgs, acts);
    RunSafe(cap, p, cfgs, Moves(acts));
    if x.call != y.call && Live(ViewAt(cfgs, acts, x.call), x.round) {
      BudgetedIsAlone(cfgs, acts, x.call, y.call);
    }
  }

  /** If nothing was abandoned, at most one reservation is pending at a time. */
  lemma NeverTwoPending(cap: nat, p: B.Profile, cfgs: seq<Config>, acts: seq<Act>)
    requires Runs(cfgs, acts) && Within(|cfgs|, Moves(acts)) && OwnerAdmits(cap, p, cfgs, Moves(acts))
    requires forall id <- After(p, cfgs, Moves(acts)).ledger.pending ::
               id.call < |cfgs| && Live(ViewAt(cfgs, acts, id.call), id.round)
    ensures |After(p, cfgs, Moves(acts)).ledger.pending| <= 1
  {
    var pending := After(p, cfgs, Moves(acts)).ledger.pending;
    hide After, ViewAt, Runs, Live;
    if pending != map[] {
      var x :| x in pending;
      forall y | y in pending
        ensures y == x
      {
        AtMostOneLive(cap, p, cfgs, acts, x, y);
      }
      assert pending.Keys == {x};
    }
  }

  // ------------------------------------------------- abandoned reservations

  /** An event of the one request of a process. */
  function Emit(e: Event): Act {
    Go(Does(Step(0, e)))
  }

  /** One budgeted request alone in its process, and where it stands. */
  ghost predicate Stands(cap: nat, p: B.Profile, cfg: Config, acts: seq<Act>, v: View, s: LedgerState) {
    && Runs([cfg], acts) && Known([cfg], acts) && Within(1, Moves(acts)) && OwnerAdmits(cap, p, [cfg], Moves(acts))
    && ViewAt([cfg], acts, 0) == v && After(p, [cfg], Moves(acts)).ledger == s && 0 in PermitsAt([cfg], acts).held
  }

  /** What one event, applied on the spot, does to the ledger. */
  ghost function Booked(p: B.Profile, cfg: Config, s: LedgerState, e: Event): LedgerState {
    if Applied(Does(Step(0, e))) then LedgerMove(p, cfg, s, Step(0, e)) else s
  }

  lemma Goes(cap: nat, p: B.Profile, cfg: Config, acts: seq<Act>, v: View, s: LedgerState, e: Event)
    requires Stands(cap, p, cfg, acts, v, s) && Allowed(cfg, v, e)
    requires e.ReserveSent? && e.committed ==> s.charged + QuoteOf(p, cfg) <= cap
    ensures Stands(cap, p, cfg, acts + [Emit(e)], Advance(cfg, v, e), Booked(p, cfg, s, e))
  {
    hide Runs, Ok, Observe, Advance, Allowed, LedgerMove, QuoteOf, Own, PermitSteps;
    var next := acts + [Emit(e)];
    RunsOn(cfg, acts, v, e);
    assert next[..|next| - 1] == acts;
    ViewMoves([cfg], next, 0);
    PermitsMove([cfg], next);
    assert Moves(next) == Moves(acts) + [Does(Step(0, e))];
    hide Moves;
    LedgerGoes(cap, p, cfg, Moves(acts), e);
  }

  lemma RunsOn(cfg: Config, acts: seq<Act>, v: View, e: Event)
    requires Runs([cfg], acts) && Known([cfg], acts) && ViewAt([cfg], acts, 0) == v && Allowed(cfg, v, e)
    requires 0 in PermitsAt([cfg], acts).held
    ensures Runs([cfg], acts + [Emit(e)]) && Known([cfg], acts + [Emit(e)])
  {
    hide Observe, Allowed, PermitSteps, Moves, Own;
    var next := acts + [Emit(e)];
    assert next[..|next| - 1] == acts;
    assert Ok([cfg], acts, Emit(e));
    RunsKnown([cfg], next);
  }

  lemma LedgerGoes(cap: nat, p: B.Profile, cfg: Config, run: seq<Move>, e: Event)
    requires Within(1, run) && OwnerAdmits(cap, p, [cfg], run)
    requires e.ReserveSent? && e.committed ==> After(p, [cfg], run).ledger.charged + QuoteOf(p, cfg) <= cap
    ensures var all := run + [Does(Step(0, e))];
      && Within(1, all) && OwnerAdmits(cap, p, [cfg], all)
      && After(p, [cfg], all).ledger == Booked(p, cfg, After(p, [cfg], run).ledger, e)
  {
    hide LedgerMove, QuoteOf, Advance;
    var all := run + [Does(Step(0, e))];
    assert all[..|all| - 1] == run && all[|all| - 1] == Does(Step(0, e));
    assert forall x <- all :: x in run || x == Does(Step(0, e));
  }

  lemma Begins(cap: nat, p: B.Profile, cfg: Config)
    requires cfg.budgeted
    ensures Stands(cap, p, cfg, [Acquire(0)], INITIAL, EmptyLedger())
  {
    hide Observe, Own, A.Apply, A.Conserved;
    var acts := [Acquire(0)];
    assert acts[..0] == [] && Moves(acts) == [];
    NothingHappened(cfg);
    A.RunConserves([]);
    assert Ok([cfg], [], Acquire(0));
    assert Runs([cfg], []) && Runs([cfg], acts);
    RunsKnown([cfg], acts);
    PermitsMove([cfg], acts);
    ViewMoves([cfg], acts, 0);
    Admitted(cfg);
  }

  lemma NothingHappened(cfg: Config)
    ensures Known([cfg], []) && ViewAt([cfg], [], 0) == INITIAL
    ensures PermitsAt([cfg], []) == A.Permits(A.MAX_CONCURRENT_LLM_REQUESTS, map[])
  {
  }

  lemma Admitted(cfg: Config)
    requires cfg.budgeted
    ensures 0 in PermitsAfter([cfg], A.Permits(A.MAX_CONCURRENT_LLM_REQUESTS, map[]), Acquire(0)).held
  {
  }

  /** A retried attempt leaves its reservation behind: one open request with two
      pending reservations, the first of them abandoned. */
  lemma RetryAbandonsReservation(cap: nat, p: B.Profile, cfg: Config) returns (acts: seq<Act>)
    requires cfg.budgeted && 2 * QuoteOf(p, cfg) <= cap
    ensures Runs([cfg], acts) && Within(1, Moves(acts)) && OwnerAdmits(cap, p, [cfg], Moves(acts))
    ensures Open(ViewAt([cfg], acts, 0))
    ensures var pending := After(p, [cfg], Moves(acts)).ledger.pending;
      && AttemptId(0, 0) in pending && AttemptId(0, 1) in pending
      && !Live(ViewAt([cfg], acts, 0), 0) && Live(ViewAt([cfg], acts, 0), 1)
  {
    hide Stands, QuoteOf, Advance, Allowed, Open, Booked;
    Begins(cap, p, cfg);
    FirstAttempt(cfg);
    var s := EmptyLedger();
    var a0 := [Acquire(0)];
    Goes(cap, p, cfg, a0, INITIAL, s, Started);
    FirstBooked(p, cfg, s);
    var a1 := a0 + [Emit(Started)];
    Goes(cap, p, cfg, a1, At(Waiting, 0, 0, []), s, ReserveSent(0, true));
    var a2, t := a1 + [Emit(ReserveSent(0, true))], Reserved(s, AttemptId(0, 0), QuoteOf(p, cfg));
    Goes(cap, p, cfg, a2, At(Asked(0, true), 1, 0, []), t, Granted(0));
    var a3 := a2 + [Emit(Granted(0))];
    Goes(cap, p, cfg, a3, At(Holding(0), 1, 0, []), t, Dispatched(0));
    acts := SecondAttempt(cap, p, cfg, a3 + [Emit(Dispatched(0))], t);
  }

  lemma FirstBooked(p: B.Profile, cfg: Config, s: LedgerState)
    ensures Booked(p, cfg, s, Started) == s
    ensures var t := Reserved(s, AttemptId(0, 0), QuoteOf(p, cfg));
            Booked(p, cfg, s, ReserveSent(0, true)) == t && Booked(p, cfg, t, Granted(0)) == t
            && Booked(p, cfg, t, Dispatched(0)) == t
  {
    hide QuoteOf;
  }

  lemma SecondAttempt(cap: nat, p: B.Profile, cfg: Config, from: seq<Act>, s: LedgerState) returns (acts: seq<Act>)
    requires cfg.budgeted && Stands(cap, p, cfg, from, At(InFlight(0), 1, 1, []), s)
    requires s == Reserved(EmptyLedger(), AttemptId(0, 0), QuoteOf(p, cfg)) && 2 * QuoteOf(p, cfg) <= cap
    ensures Runs([cfg], acts) && Within(1, Moves(acts)) && OwnerAdmits(cap, p, [cfg], Moves(acts))
    ensures Open(ViewAt([cfg], acts, 0))
    ensures var pending := After(p, [cfg], Moves(acts)).ledger.pending;
      && AttemptId(0, 0) in pending && AttemptId(0, 1) in pending
      && !Live(ViewAt([cfg], acts, 0), 0) && Live(ViewAt([cfg], acts, 0), 1)
  {
    hide Stands, QuoteOf, Advance, Allowed;
    NextAttempt(cfg);
    var failed := [ProviderError];
    Goes(cap, p, cfg, from, At(InFlight(0), 1, 1, []), s, AttemptEnded(ProviderError));
    var a1 := from + [Emit(AttemptEnded(ProviderError))];
    Goes(cap, p, cfg, a1, At(Returned(0), 1, 1, failed), s, RetryScheduled(ProviderError));
    var a2 := a1 + [Emit(RetryScheduled(ProviderError))];
    Goes(cap, p, cfg, a2, At(Waiting, 1, 1, failed), s, ReserveSent(1, true));
    acts := a2 + [Emit(ReserveSent(1, true))];
    Standing(cap, p, cfg, acts, At(Asked(1, true), 2, 1, failed), Booked(p, cfg, s, ReserveSent(1, true)));
  }

  /** A view of a request that nobody answered yet. */
  function At(phase: Phase, rounds: nat, dispatches: nat, statuses: seq<Status>): View {
    View(phase, rounds, dispatches, false, false, false, None, false, None, [], statuses, [])
  }

  lemma FirstAttempt(cfg: Config)
    requires cfg.budgeted
    ensures Allowed(cfg, INITIAL, Started) && Advance(cfg, INITIAL, Started) == At(Waiting, 0, 0, [])
    ensures var e := ReserveSent(0, true);
            Allowed(cfg, At(Waiting, 0, 0, []), e)
            && Advance(cfg, At(Waiting, 0, 0, []), e) == At(Asked(0, true), 1, 0, [])
    ensures var v := At(Asked(0, true), 1, 0, []);
            Allowed(cfg, v, Granted(0)) && Advance(cfg, v, Granted(0)) == At(Holding(0), 1, 0, [])
    ensures var v := At(Holding(0), 1, 0, []);
            Allowed(cfg, v, Dispatched(0)) && Advance(cfg, v, Dispatched(0)) == At(InFlight(0), 1, 1, [])
  {
  }

  lemma NextAttempt(cfg: Config)
    requires cfg.budgeted
    ensures var v, e, failed := At(InFlight(0), 1, 1, []), AttemptEnded(ProviderError), [ProviderError];
            Allowed(cfg, v, e) && Advance(cfg, v, e) == At(Returned(0), 1, 1, failed)
    ensures var v, e, failed := At(Returned(0), 1, 1, [ProviderError]), RetryScheduled(ProviderError), [ProviderError];
            Allowed(cfg, v, e) && Advance(cfg, v, e) == At(Waiting, 1, 1, failed)
    ensures var v, e, failed := At(Waiting, 1, 1, [ProviderError]), ReserveSent(1, true), [ProviderError];
            Allowed(cfg, v, e) && Advance(cfg, v, e) == At(Asked(1, true), 2, 1, failed)
  {
  }

  lemma Standing(cap: nat, p: B.Profile, cfg: Config, acts: seq<Act>, v: View, s: LedgerState)
    requires Stands(cap, p, cfg, acts, v, s)
    ensures Runs([cfg], acts) && Within(1, Moves(acts)) && OwnerAdmits(cap, p, [cfg], Moves(acts))
    ensures ViewAt([cfg], acts, 0) == v && After(p, [cfg], Moves(acts)).ledger == s
  {
  }
}
