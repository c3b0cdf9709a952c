/** One budget owner shared by any number of requests, whose steps interleave
    in any order. Their acknowledgements may be lost, and what they send may
    arrive late or never. The ledger rule is that of
    crates/llm-client/src/diagnostic_transport_tests.rs. */
module SharedOwner {
  import opened LlmTypes
  import opened CallTrace
  import opened BudgetControl
  import opened MapSum

  /** An attempt id: fresh for every reservation of every request. */
  datatype AttemptId = AttemptId(call: nat, round: nat)

  datatype LedgerState = LedgerState(
    charged: nat, attempts: nat, pending: map<AttemptId, nat>, settled: map<AttemptId, nat>)

  function EmptyLedger(): LedgerState {
    LedgerState(0, 0, map[], map[])
  }

  lemma EmptyBalances(s: LedgerState)
    requires s == EmptyLedger()
    ensures Balances(s)
  {
    SumEmpty<AttemptId>();
  }

  ghost predicate Balances(s: LedgerState) {
    s.pending.Keys !! s.settled.Keys && s.charged == Sum(s.pending) + Sum(s.settled)
  }

  function Reserved(s: LedgerState, id: AttemptId, quote: nat): LedgerState {
    LedgerState(s.charged + quote, s.attempts + 1, s.pending[id := quote], s.settled)
  }

  function SettledFor(s: LedgerState, id: AttemptId, actual: nat): LedgerState
    requires id in s.pending && s.pending[id] <= s.charged
  {
    LedgerState(s.charged - s.pending[id] + actual, s.attempts, s.pending - {id}, s.settled[id := actual])
  }

  lemma ReservedBalances(s: LedgerState, id: AttemptId, quote: nat)
    requires Balances(s) && id !in s.pending && id !in s.settled
    ensures Balances(Reserved(s, id, quote))
  {
    SumInsert(s.pending, id, quote);
  }

  lemma PendingCharged(s: LedgerState, id: AttemptId)
    requires Balances(s) && id in s.pending
    ensures s.pending[id] <= s.charged
  {
    SumRemove(s.pending, id);
  }

  lemma SettledBalances(s: LedgerState, id: AttemptId, actual: nat)
    requires Balances(s) && id in s.pending && s.pending[id] <= s.charged
    ensures Balances(SettledFor(s, id, actual))
  {
    SumRemove(s.pending, id);
    SumInsert(s.settled, id, actual);
  }

  /** The owner itself. `settled` is not part of its memory. */
  class Owner {
    const cap: nat
    const profile: Profile
    var charged: nat
    var peak: nat
    var attempts: nat
    var maxPending: nat
    var pending: map<AttemptId, nat>
    ghost var settled: map<AttemptId, nat>

    constructor (cap: nat, profile: Profile)
      ensures Valid() && Capped() && this.cap == cap && this.profile == profile && State() == EmptyLedger()
    {
      hide Balances;
      this.cap := cap;
      this.profile := profile;
      charged, peak, attempts, maxPending := 0, 0, 0, 0;
      pending, settled := map[], map[];
      new;
      EmptyBalances(State());
    }

    ghost function State(): LedgerState
      reads this
    {
      LedgerState(charged, attempts, pending, settled)
    }

    /** The books balance, and no more was ever pending than recorded. */
    ghost predicate Valid()
      reads this
    {
      Balances(State()) && |pending| <= maxPending
    }

    /** Neither the charge nor its recorded peak exceeds the cap. */
    ghost predicate Capped()
      reads this
    {
      charged <= cap && peak <= cap
    }

    method Reserve(id: AttemptId, outputLimit: nat) returns (ordinal: Option<nat>)
      requires Valid() && id !in pending && id !in settled
      modifies this
      ensures Valid()
      ensures var quote := Cost(profile, profile.inputTokenCeiling, outputLimit);
              if old(charged) + quote <= cap then
                State() == Reserved(old(State()), id, quote) && ordinal == Some(attempts)
              else
                State() == old(State()) && ordinal == None
      ensures old(Capped()) ==> Capped()
      ensures ordinal.Some? ==> charged <= peak && charged <= cap
      ensures peak == if ordinal.Some? && charged > old(peak) then charged else old(peak)
      ensures maxPending == if ordinal.Some? && |pending| > old(maxPending) then |pending| else old(maxPending)
    {
      hide Balances, Cost;
      var quote := Cost(profile, profile.inputTokenCeiling, outputLimit);
      if charged + quote > cap {
        return None;
      }
      ReservedBalances(State(), id, quote);
      charged := charged + quote;
      attempts := attempts + 1;
      pending := pending[id := quote];
      peak := if peak < charged then charged else peak;
      maxPending := if maxPending < |pending| then |pending| else maxPending;
      return Some(attempts);
    }

    /** Replaces the quote by the actual cost, whatever it is. The charge stays
        under the cap if the cost is at most the quote; seeing to that is the
        client's part. */
    method Settle(id: AttemptId, input: nat, output: nat)
      requires Valid() && id in pending
      modifies this
      ensures Valid() && old(State()).pending[id] <= old(State()).charged
      ensures State() == SettledFor(old(State()), id, Cost(profile, input, output))
      ensures old(Capped()) && Cost(profile, input, output) <= old(pending)[id] ==> Capped()
      ensures peak == old(peak) && maxPending == old(maxPending)
    {
      hide Balances, Cost;
      PendingCharged(State(), id);
      var actual := Cost(profile, input, output);
      SettledBalances(State(), id, actual);
      charged := charged - pending[id] + actual;
      settled := settled[id := actual];
      pending := pending - {id};
    }
  }

  // ------------------------------------------------------------- whole runs

  /** A visible step of one of the requests. */
  datatype Step = Step(call: nat, event: Event)

  /** A request does a step; or the owner applies, late, what a request sent
      and its client has given up for lost. */
  datatype Move = Does(step: Step) | Lands(step: Step)

  /** `underway` holds what was sent and neither applied nor refused so far. */
  datatype World = World(views: seq<View>, ledger: LedgerState, dispatched: set<AttemptId>, underway: set<Step>)

  /** Sent to the owner, but not applied on the spot. */
  predicate Delayed(e: Event) {
    (e.ReserveSent? || e.SettleSent?) && !e.committed
  }

  /** The owner applies a request now. */
  predicate Applied(move: Move) {
    (move.step.event.ReserveSent? || move.step.event.SettleSent?) && (move.Lands? || move.step.event.committed)
  }

  function IdOf(step: Step): AttemptId
    requires step.event.ReserveSent? || step.event.SettleSent?
  {
    AttemptId(step.call, step.event.round)
  }

  function QuoteOf(p: Profile, cfg: Config): nat {
    Cost(p, cfg.inputCeiling, cfg.outputLimit)
  }

  /** How the owner's ledger moves when it applies a request. */
  ghost function LedgerMove(p: Profile, cfg: Config, s: LedgerState, step: Step): LedgerState {
    if step.event.ReserveSent? then Reserved(s, IdOf(step), QuoteOf(p, cfg))
    else if step.event.SettleSent? && IdOf(step) in s.pending && s.pending[IdOf(step)] <= s.charged then
      SettledFor(s, IdOf(step), Cost(p, step.event.usage.input, step.event.usage.output))
    else s
  }

  ghost function Apply(p: Profile, cfgs: seq<Config>, w: World, move: Move): (r: World)
    requires |w.views| == |cfgs| && move.step.call < |cfgs|
    ensures |r.views| == |cfgs|
  {
    var c, e := move.step.call, move.step.event;
    var ledger := if Applied(move) then LedgerMove(p, cfgs[c], w.ledger, move.step) else w.ledger;
    match move
    case Does(step) =>
      World(w.views[c := Advance(cfgs[c], w.views[c], e)], ledger,
            if e.Dispatched? && cfgs[c].budgeted then w.dispatched + {AttemptId(c, e.round)} else w.dispatched,
            if Delayed(e) then w.underway + {step} else w.underway)
    case Lands(step) => World(w.views, ledger, w.dispatched, w.underway - {step})
  }

  ghost function InitialWorld(n: nat): (w: World)
    ensures |w.views| == n
  {
    World(seq(n, _ => INITIAL), EmptyLedger(), {}, {})
  }

  ghost predicate InRange(n: nat, log: seq<Step>) {
    forall step <- log :: step.call < n
  }

  ghost predicate Within(n: nat, run: seq<Move>) {
    forall move <- run :: move.step.call < n
  }

  ghost function After(p: Profile, cfgs: seq<Config>, run: seq<Move>): (w: World)
    requires Within(|cfgs|, run)
    ensures |w.views| == |cfgs|
  {
    if run == [] then InitialWorld(|cfgs|)
    else Apply(p, cfgs, After(p, cfgs, run[..|run| - 1]), run[|run| - 1])
  }

  /** The owner charges a reservation only where its cap allows it, and applies
      late only what is underway, and that once. */
  ghost predicate Admits(cap: nat, p: Profile, cfgs: seq<Config>, w: World, move: Move)
    requires move.step.call < |cfgs|
  {
    && (move.Lands? ==> move.step in w.underway)
    && (Applied(move) && move.step.event.ReserveSent? ==> w.ledger.charged + QuoteOf(p, cfgs[move.step.call]) <= cap)
  }

  ghost predicate OwnerAdmits(cap: nat, p: Profile, cfgs: seq<Config>, run: seq<Move>)
    requires Within(|cfgs|, run)
  {
    run == [] ||
    (OwnerAdmits(cap, p, cfgs, run[..|run| - 1])
     && Admits(cap, p, cfgs, After(p, cfgs, run[..|run| - 1]), run[|run| - 1]))
  }

  /** What one request did. */
  ghost function Project(log: seq<Step>, c: nat): seq<Event> {
    if log == [] then []
    else
      var last := log[|log| - 1];
      Project(log[..|log| - 1], c) + if last.call == c then [last.event] else []
  }

  lemma ProjectStep(log: seq<Step>, c: nat)
    requires log != []
    ensures Project(log, c) ==
            if log[|log| - 1].call == c then Project(log[..|log| - 1], c) + [log[|log| - 1].event]
            else Project(log[..|log| - 1], c)
  {
  }

  /** Each request, on its own, followed the protocol. */
  ghost predicate AllAccepted(cfgs: seq<Config>, log: seq<Step>) {
    forall c | 0 <= c < |cfgs| :: Accepts(cfgs[c], Project(log, c))
  }

  /** What the requests did in the run. */
  ghost function Visible(run: seq<Move>): seq<Step> {
    if run == [] then []
    else
      var last := run[|run| - 1];
      Visible(run[..|run| - 1]) + if last.Does? then [last.step] else []
  }

  /** What one request did in the run. */
  ghost function Own(run: seq<Move>, c: nat): seq<Event> {
    Project(Visible(run), c)
  }

  ghost predicate Conforms(cfgs: seq<Config>, run: seq<Move>) {
    Within(|cfgs|, run) && AllAccepted(cfgs, Visible(run))
  }

  lemma OwnStep(run: seq<Move>, c: nat)
    requires run != []
    ensures var init, last := run[..|run| - 1], run[|run| - 1];
            Own(run, c) == if last.Does? && last.step.call == c then Own(init, c) + [last.step.event] else Own(init, c)
  {
    var last, log, before := run[|run| - 1], Visible(run), Visible(run[..|run| - 1]);
    if last.Does? {
      assert log[..|log| - 1] == before;
      ProjectStep(log, c);
    } else {
      assert log == before;
    }
  }

  /** Whatever the interleaving, each request's view is that of its own steps. */
  lemma {:induction false} ViewsAreLocal(p: Profile, cfgs: seq<Config>, run: seq<Move>, c: nat)
    requires Within(|cfgs|, run) && c < |cfgs|
    ensures After(p, cfgs, run).views[c] == Observe(cfgs[c], Own(run, c))
  {
    hide Advance, Observe, LedgerMove, Own;
    if run != [] {
      var init, last := run[..|run| - 1], run[|run| - 1];
      ViewsAreLocal(p, cfgs, init, c);
      OwnStep(run, c);
      if last.Does? && last.step.call == c {
        ObserveAppend(cfgs[c], Own(init, c), last.step.event);
      }
    } else {
      ObserveNothing(cfgs[c], c);
    }
  }

  lemma ObserveNothing(cfg: Config, c: nat)
    ensures Observe(cfg, Own([], c)) == INITIAL
  {
  }

  lemma {:induction false} AcceptedStep(cfgs: seq<Config>, log: seq<Step>)
    requires log != [] && InRange(|cfgs|, log) && AllAccepted(cfgs, log)
    ensures AllAccepted(cfgs, log[..|log| - 1])
    ensures var c := log[|log| - 1].call;
            Allowed(cfgs[c], Observe(cfgs[c], Project(log[..|log| - 1], c)), log[|log| - 1].event)
  {
    hide Allowed, Observe, Accepts;
    var init, last := log[..|log| - 1], log[|log| - 1];
    forall c | 0 <= c < |cfgs|
      ensures Accepts(cfgs[c], Project(init, c))
    {
      assert Accepts(cfgs[c], Project(log, c));
      ProjectStep(log, c);
      if c == last.call {
        ObserveAppend(cfgs[c], Project(init, c), last.event);
      }
    }
    ProjectStep(log, last.call);
    ObserveAppend(cfgs[last.call], Project(init, last.call), last.event);
    assert Accepts(cfgs[last.call], Project(log, last.call));
  }

  lemma {:induction false} VisibleInRange(n: nat, run: seq<Move>)
    requires Within(n, run)
    ensures InRange(n, Visible(run))
  {
    if run != [] {
      VisibleInRange(n, run[..|run| - 1]);
      assert run[|run| - 1] in run;
    }
  }

  lemma ConformingStep(cfgs: seq<Config>, run: seq<Move>)
    requires run != [] && Conforms(cfgs, run)
    ensures var init, last := run[..|run| - 1], run[|run| - 1];
      && Conforms(cfgs, init) && last.step.call < |cfgs|
      && (last.Does? ==> var c := last.step.call; Allowed(cfgs[c], Observe(cfgs[c], Own(init, c)), last.step.event))
  {
    hide Allowed, Observe, AllAccepted;
    var last := run[|run| - 1];
    assert last in run;
    VisibleInRange(|cfgs|, run);
    var log, before := Visible(run), Visible(run[..|run| - 1]);
    if last.Does? {
      assert log[..|log| - 1] == before;
      AcceptedStep(cfgs, log);
    } else {
      assert log == before;
    }
  }

  // ------------------------------------------------------------- invariant

  ghost predicate CallSafe(cfg: Config, v: View, c: nat, w: World) {
    && Ordered(v) && NotYetDispatched(v, c, w.dispatched)
    && if cfg.budgeted then CallHolds(v, c, w.ledger) else !v.phase.Asked? && !v.phase.Holding?
  }

  /** What a budgeted request still holds a charge for. */
  ghost predicate CallHolds(v: View, c: nat, s: LedgerState) {
    && (v.phase.Asked? && v.phase.committed ==> AttemptId(c, v.phase.round) in s.pending)
    && (v.phase.Holding? || v.phase.InFlight? ==> AttemptId(c, v.phase.round) in s.pending)
    && (v.phase.Returned? && !v.sent ==> AttemptId(c, v.phase.round) in s.pending)
    && (v.phase.InFlight? ==> !v.sent && !v.delivered && !v.acked)
  }

  ghost predicate IdsKnown(p: Profile, cfgs: seq<Config>, w: World)
    requires |w.views| == |cfgs|
  {
    && (forall id <- w.ledger.pending ::
          && id.call < |cfgs| && cfgs[id.call].budgeted && id.round < w.views[id.call].rounds
          && w.ledger.pending[id] == QuoteOf(p, cfgs[id.call]))
    && (forall id <- w.ledger.settled ::
          id.call < |cfgs| && id.round < w.views[id.call].rounds && w.ledger.settled[id] <= QuoteOf(p, cfgs[id.call]))
    && (forall id <- w.dispatched :: id in w.ledger.pending || id in w.ledger.settled)
  }

  /** The id a request is about to dispatch was never dispatched. */
  ghost predicate NotYetDispatched(v: View, c: nat, dispatched: set<AttemptId>) {
    v.phase.Asked? || v.phase.Holding? ==> AttemptId(c, v.phase.round) !in dispatched
  }

  /** The request has sent the settlement of this attempt. */
  ghost predicate Behind(v: View, round: nat) {
    && round < v.rounds
    && (round + 1 == v.rounds ==> v.sent && (v.phase.Returned? || v.phase.Waiting? || v.phase.Closed?))
  }

  /** A reservation underway is unknown to the owner; a settlement underway
      finds its reservation pending, whenever it arrives. */
  ghost predicate Timely(cfg: Config, v: View, s: LedgerState, step: Step) {
    && cfg.budgeted && Delayed(step.event)
    && (step.event.ReserveSent? ==>
          step.event.round < v.rounds && IdOf(step) !in s.pending && IdOf(step) !in s.settled)
    && (step.event.SettleSent? ==>
          Behind(v, step.event.round) && WithinGrant(cfg, step.event.usage) && IdOf(step) in s.pending)
  }

  ghost predicate UnderwaySafe(cfgs: seq<Config>, w: World)
    requires |w.views| == |cfgs|
  {
    && (forall step <- w.underway ::
          step.call < |cfgs| && Timely(cfgs[step.call], w.views[step.call], w.ledger, step))
    && forall s, t | s in w.underway && t in w.underway && s.event.SettleSent? && t.event.SettleSent? ::
         (s.call == t.call && s.event.round == t.event.round ==> s == t)
  }

  ghost predicate Safe(cap: nat, p: Profile, cfgs: seq<Config>, w: World)
    requires |w.views| == |cfgs|
  {
    && Balances(w.ledger) && w.ledger.charged <= cap
    && IdsKnown(p, cfgs, w) && UnderwaySafe(cfgs, w)
    && (forall c | 0 <= c < |cfgs| :: CallSafe(cfgs[c], w.views[c], c, w))
  }

  /** A move the protocol and the owner allow. */
  ghost predicate Enabled(cap: nat, p: Profile, cfgs: seq<Config>, w: World, move: Move)
    requires |w.views| == |cfgs| && move.step.call < |cfgs|
  {
    && (move.Does? ==> Allowed(cfgs[move.step.call], w.views[move.step.call], move.step.event))
    && Admits(cap, p, cfgs, w, move)
  }

  /** A settlement always finds its reservation pending, sent or landing, and
      never costs more than it. */
  lemma SettlementFindsReservation(cap: nat, p: Profile, cfgs: seq<Config>, w: World, move: Move)
    requires |w.views| == |cfgs| && move.step.call < |cfgs|
    requires Safe(cap, p, cfgs, w) && Enabled(cap, p, cfgs, w, move) && move.step.event.SettleSent?
    ensures var id, u := IdOf(move.step), move.step.event.usage;
            id in w.ledger.pending && Cost(p, u.input, u.output) <= w.ledger.pending[id] <= w.ledger.charged
  {
    hide Balances, Cost;
    var c, e := move.step.call, move.step.event;
    assert CallSafe(cfgs[c], w.views[c], c, w);
    PendingCharged(w.ledger, IdOf(move.step));
    CostMonotone(p, e.usage.input, e.usage.output, cfgs[c].inputCeiling, cfgs[c].outputLimit);
  }

  /** A reservation never meets its own id in the ledger. */
  lemma ReservationIsNew(cap: nat, p: Profile, cfgs: seq<Config>, w: World, move: Move)
    requires |w.views| == |cfgs| && move.step.call < |cfgs|
    requires Safe(cap, p, cfgs, w) && Enabled(cap, p, cfgs, w, move) && move.step.event.ReserveSent?
    ensures IdOf(move.step) !in w.ledger.pending && IdOf(move.step) !in w.ledger.settled
    ensures cfgs[move.step.call].budgeted
    ensures move.Lands? ==> move.step.event.round < w.views[move.step.call].rounds
  {
    hide Balances, Cost, CallSafe;
  }

  lemma StepBalances(cap: nat, p: Profile, cfgs: seq<Config>, w: World, move: Move)
    requires |w.views| == |cfgs| && move.step.call < |cfgs|
    requires Safe(cap, p, cfgs, w) && Enabled(cap, p, cfgs, w, move)
    ensures var s := Apply(p, cfgs, w, move).ledger;
            Balances(s) && s.charged <= cap
  {
    hide Balances, Cost, Advance, Allowed, CallSafe, IdsKnown, UnderwaySafe;
    var step := move.step;
    if step.event.ReserveSent? {
      ReservationIsNew(cap, p, cfgs, w, move);
      ReservedBalances(w.ledger, IdOf(step), QuoteOf(p, cfgs[step.call]));
    } else if step.event.SettleSent? {
      SettlementFindsReservation(cap, p, cfgs, w, move);
      SettledBalances(w.ledger, IdOf(step), Cost(p, step.event.usage.input, step.event.usage.output));
    }
  }

  /** What a step leaves alone: rounds never go back, and the ledger changes at
      the id of an applied request only. */
  ghost predicate Keeps(p: Profile, cfgs: seq<Config>, w: World, move: Move, after: World)
    requires |w.views| == |cfgs| == |after.views| && move.step.call < |cfgs|
  {
    && (forall c | 0 <= c < |cfgs| :: w.views[c].rounds <= after.views[c].rounds)
    && (!Applied(move) ==> after.ledger == w.ledger)
    && (Applied(move) && move.step.event.ReserveSent? ==>
          && after.ledger.pending == w.ledger.pending[IdOf(move.step) := QuoteOf(p, cfgs[move.step.call])]
          && after.ledger.settled == w.ledger.settled && move.step.event.round < after.views[move.step.call].rounds
          && cfgs[move.step.call].budgeted)
    && (Applied(move) && move.step.event.SettleSent? ==>
          && IdOf(move.step) in w.ledger.pending && after.ledger.pending == w.ledger.pending - {IdOf(move.step)}
          && var id := IdOf(move.step);
             && id in after.ledger.settled && after.ledger.settled[id] <= w.ledger.pending[id]
             && after.ledger.settled == w.ledger.settled[id := after.ledger.settled[id]])
  }

  lemma StepKeeps(cap: nat, p: Profile, cfgs: seq<Config>, w: World, move: Move)
    requires |w.views| == |cfgs| && move.step.call < |cfgs|
    requires Safe(cap, p, cfgs, w) && Enabled(cap, p, cfgs, w, move)
    ensures Keeps(p, cfgs, w, move, Apply(p, cfgs, w, move))
  {
    hide Balances, Cost, CallSafe, IdsKnown, UnderwaySafe;
    if move.step.event.ReserveSent? {
      ReservationIsNew(cap, p, cfgs, w, move);
    } else if move.step.event.SettleSent? {
      SettlementFindsReservation(cap, p, cfgs, w, move);
    }
  }

  lemma StepIds(cap: nat, p: Profile, cfgs: seq<Config>, w: World, move: Move)
    requires |w.views| == |cfgs| && move.step.call < |cfgs|
    requires Safe(cap, p, cfgs, w) && Enabled(cap, p, cfgs, w, move)
    ensures IdsKnown(p, cfgs, Apply(p, cfgs, w, move))
  {
    var after := Apply(p, cfgs, w, move);
    StepKeeps(cap, p, cfgs, w, move);
    StepDispatches(cap, p, cfgs, w, move);
    hide Balances, Cost, QuoteOf, CallSafe, UnderwaySafe, Apply, Enabled, Applied;
  }

  lemma StepDispatches(cap: nat, p: Profile, cfgs: seq<Config>, w: World, move: Move)
    requires |w.views| == |cfgs| && move.step.call < |cfgs|
    requires Safe(cap, p, cfgs, w) && Enabled(cap, p, cfgs, w, move)
    ensures forall id <- Apply(p, cfgs, w, move).dispatched :: id in w.dispatched || id in w.ledger.pending
  {
    hide Balances, Cost, Advance, LedgerMove, IdsKnown, UnderwaySafe;
    var c := move.step.call;
    assert CallSafe(cfgs[c], w.views[c], c, w);
  }

  lemma StepHolds(cap: nat, p: Profile, cfgs: seq<Config>, w: World, move: Move, c: nat)
    requires |w.views| == |cfgs| && move.step.call < |cfgs| && c < |cfgs|
    requires Safe(cap, p, cfgs, w) && Enabled(cap, p, cfgs, w, move)
    ensures CallSafe(cfgs[c], Apply(p, cfgs, w, move).views[c], c, Apply(p, cfgs, w, move))
  {
    assert CallSafe(cfgs[c], w.views[c], c, w);
    if move.Lands? {
      LandHolds(cap, p, cfgs, w, move, c);
    } else {
      hide Balances, Cost, UnderwaySafe;
      if c == move.step.call {
        AdvanceOrdered(cfgs[c], w.views[c], move.step.event);
      }
    }
  }

  lemma LandHolds(cap: nat, p: Profile, cfgs: seq<Config>, w: World, move: Move, c: nat)
    requires |w.views| == |cfgs| && move.step.call < |cfgs| && c < |cfgs| && move.Lands?
    requires Safe(cap, p, cfgs, w) && Enabled(cap, p, cfgs, w, move) && CallSafe(cfgs[c], w.views[c], c, w)
    ensures CallSafe(cfgs[c], w.views[c], c, Apply(p, cfgs, w, move))
  {
    hide Balances, Cost, IdsKnown, Advance, Allowed;
  }

  lemma StepUnderway(cap: nat, p: Profile, cfgs: seq<Config>, w: World, move: Move)
    requires |w.views| == |cfgs| && move.step.call < |cfgs|
    requires Safe(cap, p, cfgs, w) && Enabled(cap, p, cfgs, w, move)
    ensures UnderwaySafe(cfgs, Apply(p, cfgs, w, move))
  {
    hide Balances, Cost, LedgerMove, CallHolds, Advance, Allowed;
    var after := Apply(p, cfgs, w, move);
    forall step | step in after.underway
      ensures step.call < |cfgs| && Timely(cfgs[step.call], after.views[step.call], after.ledger, step)
    {
      if step in w.underway {
        StaysTimely(cap, p, cfgs, w, move, step);
      } else {
        SentTimely(cap, p, cfgs, w, move);
      }
    }
    if move.Does? && move.step.event.SettleSent? {
      NothingBehind(cap, p, cfgs, w, move);
    }
  }

  /** A request sends the settlement of an attempt once. */
  lemma NothingBehind(cap: nat, p: Profile, cfgs: seq<Config>, w: World, move: Move)
    requires |w.views| == |cfgs| && move.step.call < |cfgs| && move.Does? && move.step.event.SettleSent?
    requires Safe(cap, p, cfgs, w) && Enabled(cap, p, cfgs, w, move)
    ensures forall step <- w.underway :: step.event.SettleSent? ==> IdOf(step) != IdOf(move.step)
  {
    hide Balances, Cost, IdsKnown;
    assert CallSafe(cfgs[move.step.call], w.views[move.step.call], move.step.call, w);
  }

  lemma SentTimely(cap: nat, p: Profile, cfgs: seq<Config>, w: World, move: Move)
    requires |w.views| == |cfgs| && move.step.call < |cfgs| && move.Does? && Delayed(move.step.event)
    requires Safe(cap, p, cfgs, w) && Enabled(cap, p, cfgs, w, move)
    ensures var after, c := Apply(p, cfgs, w, move), move.step.call;
            Timely(cfgs[c], after.views[c], after.ledger, move.step)
  {
    hide Balances, Cost, UnderwaySafe;
    assert CallSafe(cfgs[move.step.call], w.views[move.step.call], move.step.call, w);
  }

  /** Nothing that happens meanwhile makes a request underway untimely. */
  lemma StaysTimely(cap: nat, p: Profile, cfgs: seq<Config>, w: World, move: Move, step: Step)
    requires |w.views| == |cfgs| && move.step.call < |cfgs|
    requires Safe(cap, p, cfgs, w) && Enabled(cap, p, cfgs, w, move)
    requires step in w.underway && step in Apply(p, cfgs, w, move).underway
    ensures step.call < |cfgs|
    ensures var after := Apply(p, cfgs, w, move);
            Timely(cfgs[step.call], after.views[step.call], after.ledger, step)
  {
    hide Balances, Cost, IdsKnown;
  }

  lemma StepSafe(cap: nat, p: Profile, cfgs: seq<Config>, w: World, move: Move)
    requires |w.views| == |cfgs| && move.step.call < |cfgs|
    requires Safe(cap, p, cfgs, w) && Enabled(cap, p, cfgs, w, move)
    ensures Safe(cap, p, cfgs, Apply(p, cfgs, w, move))
  {
    hide Balances, CallSafe, IdsKnown, UnderwaySafe, Apply, Enabled;
    StepBalances(cap, p, cfgs, w, move);
    StepIds(cap, p, cfgs, w, move);
    StepUnderway(cap, p, cfgs, w, move);
    forall c | 0 <= c < |cfgs|
      ensures CallSafe(cfgs[c], Apply(p, cfgs, w, move).views[c], c, Apply(p, cfgs, w, move))
    {
      StepHolds(cap, p, cfgs, w, move, c);
    }
  }

  lemma InitiallySafe(cap: nat, p: Profile, cfgs: seq<Config>)
    ensures Safe(cap, p, cfgs, InitialWorld(|cfgs|))
  {
    hide Balances;
    EmptyBalances(EmptyLedger());
  }

  /** The last move of a run was enabled where it happened. */
  lemma LastMoveEnabled(cap: nat, p: Profile, cfgs: seq<Config>, run: seq<Move>)
    requires run != [] && Conforms(cfgs, run) && OwnerAdmits(cap, p, cfgs, run)
    ensures var init, last := run[..|run| - 1], run[|run| - 1];
      && Conforms(cfgs, init) && OwnerAdmits(cap, p, cfgs, init) && last.step.call < |cfgs|
      && Enabled(cap, p, cfgs, After(p, cfgs, init), last)
      && After(p, cfgs, run) == Apply(p, cfgs, After(p, cfgs, init), last)
  {
    hide Allowed, Observe, AllAccepted, Apply, Own;
    ConformingStep(cfgs, run);
    ViewsAreLocal(p, cfgs, run[..|run| - 1], run[|run| - 1].step.call);
  }

  /** Ledger safety over every interleaving, every lost acknowledgement and
      every late arrival. */
  lemma {:induction false} RunSafe(cap: nat, p: Profile, cfgs: seq<Config>, run: seq<Move>)
    requires Conforms(cfgs, run) && OwnerAdmits(cap, p, cfgs, run)
    ensures Safe(cap, p, cfgs, After(p, cfgs, run))
  {
    hide Safe, Apply, Admits, Enabled;
    if run == [] {
      InitiallySafe(cap, p, cfgs);
    } else {
      var init := run[..|run| - 1];
      hide OwnerAdmits, Conforms;
      LastMoveEnabled(cap, p, cfgs, run);
      RunSafe(cap, p, cfgs, init);
      StepSafe(cap, p, cfgs, After(p, cfgs, init), run[|run| - 1]);
    }
  }

  /** The charge is exactly what is pending plus what was settled, and it never
      exceeds the cap. */
  lemma ChargeIsExactAndCapped(cap: nat, p: Profile, cfgs: seq<Config>, run: seq<Move>)
    requires Conforms(cfgs, run) && OwnerAdmits(cap, p, cfgs, run)
    ensures var s := After(p, cfgs, run).ledger;
            && s.charged == Sum(s.pending) + Sum(s.settled) <= cap
            && s.pending.Keys !! s.settled.Keys
            && (forall id <- s.pending :: id.call < |cfgs| && s.pending[id] == QuoteOf(p, cfgs[id.call]))
  {
    hide After;
    RunSafe(cap, p, cfgs, run);
  }

  predicate Reserves(move: Move) {
    Applied(move) && move.step.event.ReserveSent?
  }

  function Reservations(run: seq<Move>): set<nat> {
    set i: nat | i < |run| && Reserves(run[i])
  }

  lemma ReservationsNext(run: seq<Move>, move: Move)
    ensures Reservations(run + [move]) == Reservations(run) + if Reserves(move) then {|run|} else {}
    ensures |run| !in Reservations(run)
  {
    hide Reserves;
  }

  /** The ledger counts every reservation it applied, and nothing else: its next
      ordinal is one more than their number. */
  lemma {:induction false} AttemptsCounted(p: Profile, cfgs: seq<Config>, run: seq<Move>)
    requires Within(|cfgs|, run)
    ensures After(p, cfgs, run).ledger.attempts == |Reservations(run)|
  {
    hide Advance, QuoteOf;
    if run == [] {
      assert Reservations(run) == {};
    } else {
      var init, last := run[..|run| - 1], run[|run| - 1];
      assert run == init + [last];
      AttemptsCounted(p, cfgs, init);
      ReservationsNext(init, last);
      hide Reservations;
    }
  }

  /** In any run, a budgeted dispatch spends a reservation that the owner holds
      at its full quote, and an id that was never dispatched before. */
  lemma DispatchIsPaidFor(cap: nat, p: Profile, cfgs: seq<Config>, run: seq<Move>)
    requires run != [] && Conforms(cfgs, run) && OwnerAdmits(cap, p, cfgs, run)
    requires var last := run[|run| - 1];
             last.Does? && last.step.event.Dispatched? && cfgs[last.step.call].budgeted
    ensures var w, last := After(p, cfgs, run[..|run| - 1]), run[|run| - 1].step;
            var id := AttemptId(last.call, last.event.round);
            id !in w.dispatched && id in w.ledger.pending && w.ledger.pending[id] == QuoteOf(p, cfgs[id.call])
  {
    hide After, Balances, AllAccepted, OwnerAdmits, Apply;
    var init, last := run[..|run| - 1], run[|run| - 1].step;
    LastMoveEnabled(cap, p, cfgs, run);
    RunSafe(cap, p, cfgs, init);
    assert CallSafe(cfgs[last.call], After(p, cfgs, init).views[last.call], last.call, After(p, cfgs, init));
  }

  /** In any run, a settlement finds its own reservation still pending, so no
      attempt is settled twice, and it never raises the charge. */
  lemma SettlementLowersCharge(cap: nat, p: Profile, cfgs: seq<Config>, run: seq<Move>)
    requires run != [] && Conforms(cfgs, run) && OwnerAdmits(cap, p, cfgs, run)
    requires run[|run| - 1].step.event.SettleSent?
    ensures var w, id := After(p, cfgs, run[..|run| - 1]), IdOf(run[|run| - 1].step);
            && id in w.ledger.pending && id !in w.ledger.settled
            && After(p, cfgs, run).ledger.charged <= w.ledger.charged
  {
    hide AllAccepted, Allowed, Cost, After, OwnerAdmits, Advance, CallSafe, Balances, UnderwaySafe, IdsKnown;
    var init, last := run[..|run| - 1], run[|run| - 1];
    LastMoveEnabled(cap, p, cfgs, run);
    RunSafe(cap, p, cfgs, init);
    SettlementFindsReservation(cap, p, cfgs, After(p, cfgs, init), last);
    KeysApart(After(p, cfgs, init).ledger);
  }

  lemma KeysApart(s: LedgerState)
    requires Balances(s)
    ensures s.pending.Keys !! s.settled.Keys
  {
  }

  /** The owner applies the reservation, or the settlement, with this id. */
  predicate Charges(move: Move, id: AttemptId) {
    Applied(move) && move.step.event.ReserveSent? && IdOf(move.step) == id
  }

  predicate Settles(move: Move, id: AttemptId) {
    Applied(move) && move.step.event.SettleSent? && IdOf(move.step) == id
  }

  ghost predicate Charged(run: seq<Move>, id: AttemptId) {
    exists move <- run :: Charges(move, id)
  }

  ghost predicate Settled(run: seq<Move>, id: AttemptId) {
    exists move <- run :: Settles(move, id)
  }

  ghost predicate HeldAs(s: LedgerState, id: AttemptId, quote: nat, settled: bool) {
    if settled then id in s.settled && id !in s.pending
    else id in s.pending && s.pending[id] == quote && id !in s.settled
  }

  /** Only an applied settlement releases a charge. A reservation whose
      acknowledgement was lost, or did not match, stays charged at its full
      quote to the end of the run. */
  lemma {:induction false} ReservationStaysCharged(cap: nat, p: Profile, cfgs: seq<Config>, run: seq<Move>,
                                                   id: AttemptId)
    requires Conforms(cfgs, run) && OwnerAdmits(cap, p, cfgs, run)
    requires Charged(run, id)
    ensures id.call < |cfgs|
    ensures HeldAs(After(p, cfgs, run).ledger, id, QuoteOf(p, cfgs[id.call]), Settled(run, id))
  {
    assert run != [];
    hide After, Conforms, OwnerAdmits, Safe, Enabled, Apply, HeldAs, Charged, Settled, Charges, Settles;
    var init, last := run[..|run| - 1], run[|run| - 1];
    LastOnRecord(run, id);
    LastMoveEnabled(cap, p, cfgs, run);
    RunSafe(cap, p, cfgs, init);
    if Charged(init, id) {
      ReservationStaysCharged(cap, p, cfgs, init, id);
      StillHeld(cap, p, cfgs, After(p, cfgs, init), last, id, Settled(init, id));
    } else {
      NewlyHeld(cap, p, cfgs, After(p, cfgs, init), last, id);
      UnchargedUnsettled(cap, p, cfgs, init, id);
    }
  }

  lemma StillHeld(cap: nat, p: Profile, cfgs: seq<Config>, w: World, move: Move, id: AttemptId, settled: bool)
    requires |w.views| == |cfgs| && move.step.call < |cfgs| && id.call < |cfgs|
    requires Safe(cap, p, cfgs, w) && Enabled(cap, p, cfgs, w, move)
    requires HeldAs(w.ledger, id, QuoteOf(p, cfgs[id.call]), settled)
    ensures HeldAs(Apply(p, cfgs, w, move).ledger, id, QuoteOf(p, cfgs[id.call]), settled || Settles(move, id))
  {
    hide Safe, Apply, Enabled, QuoteOf, Balances;
    StepKeeps(cap, p, cfgs, w, move);
    if move.step.event.ReserveSent? {
      ReservationIsNew(cap, p, cfgs, w, move);
    }
  }

  lemma NewlyHeld(cap: nat, p: Profile, cfgs: seq<Config>, w: World, move: Move, id: AttemptId)
    requires |w.views| == |cfgs| && move.step.call < |cfgs| && Charges(move, id)
    requires Safe(cap, p, cfgs, w) && Enabled(cap, p, cfgs, w, move)
    ensures id.call < |cfgs| && !Settles(move, id)
    ensures HeldAs(Apply(p, cfgs, w, move).ledger, id, QuoteOf(p, cfgs[id.call]), false)
  {
    StepKeeps(cap, p, cfgs, w, move);
    ReservationIsNew(cap, p, cfgs, w, move);
    hide Balances, Cost, Safe, Apply, Enabled;
  }

  lemma LastOnRecord(run: seq<Move>, id: AttemptId)
    requires run != []
    ensures var init, last := run[..|run| - 1], run[|run| - 1];
      && (Charged(run, id) <==> Charged(init, id) || Charges(last, id))
      && (Settled(run, id) <==> Settled(init, id) || Settles(last, id))
  {
    assert run == run[..|run| - 1] + [run[|run| - 1]];
    hide Charges, Settles;
  }

  /** What the owner never charged is neither pending nor settled. */
  lemma {:induction false} UnchargedUnsettled(cap: nat, p: Profile, cfgs: seq<Config>, run: seq<Move>, id: AttemptId)
    requires Conforms(cfgs, run) && OwnerAdmits(cap, p, cfgs, run)
    requires !Charged(run, id)
    ensures !Settled(run, id)
    ensures id !in After(p, cfgs, run).ledger.pending && id !in After(p, cfgs, run).ledger.settled
  {
    if run != [] {
      hide Conforms, OwnerAdmits, Safe, Enabled, Apply, After, Charges, Settles, Charged, Settled;
      var init, last := run[..|run| - 1], run[|run| - 1];
      LastOnRecord(run, id);
      LastMoveEnabled(cap, p, cfgs, run);
      UnchargedUnsettled(cap, p, cfgs, init, id);
      RunSafe(cap, p, cfgs, init);
      StillAbsent(cap, p, cfgs, After(p, cfgs, init), last, id);
    } else {
      NothingHeld(p, cfgs, id);
    }
  }

  lemma NothingHeld(p: Profile, cfgs: seq<Config>, id: AttemptId)
    ensures id !in After(p, cfgs, []).ledger.pending && id !in After(p, cfgs, []).ledger.settled
  {
  }

  lemma StillAbsent(cap: nat, p: Profile, cfgs: seq<Config>, w: World, move: Move, id: AttemptId)
    requires |w.views| == |cfgs| && move.step.call < |cfgs| && !Charges(move, id)
    requires Safe(cap, p, cfgs, w) && Enabled(cap, p, cfgs, w, move)
    requires id !in w.ledger.pending && id !in w.ledger.settled
    ensures !Settles(move, id)
    ensures var s := Apply(p, cfgs, w, move).ledger; id !in s.pending && id !in s.settled
  {
    StepKeeps(cap, p, cfgs, w, move);
    hide Balances, Cost, Safe, Apply, Enabled;
  }

  // ----------------------------------------------------------- late arrivals

  /** One request goes on by an enabled move. */
  lemma Extends(cap: nat, p: Profile, cfg: Config, run: seq<Move>, w: World, move: Move)
    requires Conforms([cfg], run) && OwnerAdmits(cap, p, [cfg], run) && After(p, [cfg], run) == w
    requires move.step.call == 0 && Enabled(cap, p, [cfg], w, move)
    ensures var all := run + [move];
      Conforms([cfg], all) && OwnerAdmits(cap, p, [cfg], all) && After(p, [cfg], all) == Apply(p, [cfg], w, move)
  {
    hide Allowed, Observe, Accepts, Apply, Own;
    var all := run + [move];
    assert all[..|all| - 1] == run && all[|all| - 1] == move;
    assert forall m <- all :: m in run || m == move;
    ViewsAreLocal(p, [cfg], run, 0);
    OwnStep(all, 0);
    OwnIs(run, 0);
    OwnIs(all, 0);
    if move.Does? {
      ObserveAppend(cfg, Own(run, 0), move.step.event);
    }
  }

  lemma OwnIs(run: seq<Move>, c: nat)
    ensures Own(run, c) == Project(Visible(run), c)
  {
  }

  lemma NothingDone(cap: nat, p: Profile, cfg: Config)
    ensures Conforms([cfg], []) && OwnerAdmits(cap, p, [cfg], [])
    ensures After(p, [cfg], []) == World([INITIAL], EmptyLedger(), {}, {})
  {
    assert seq(1, _ => INITIAL) == [INITIAL];
  }

  /** A reservation may arrive after its request gave it up and ended: it is
      charged all the same, and stays, though nothing was ever dispatched. */
  lemma LateReservationIsCharged(cap: nat, p: Profile, cfg: Config) returns (run: seq<Move>)
    requires cfg.budgeted && QuoteOf(p, cfg) <= cap
    ensures Conforms([cfg], run) && OwnerAdmits(cap, p, [cfg], run)
    ensures var w := After(p, [cfg], run);
      && w.views[0].phase == Closed(BudgetError) && w.views[0].dispatches == 0 && w.dispatched == {}
      && AttemptId(0, 0) in w.ledger.pending && w.ledger.charged == QuoteOf(p, cfg)
  {
    hide Conforms, OwnerAdmits, After, QuoteOf, Advance, Allowed;
    var sent := Step(0, ReserveSent(0, false));
    var waiting := View(Waiting, 0, 0, false, false, false, None, false, None, [], [], []);
    var asked := waiting.(phase := Asked(0, false), rounds := 1);
    var closed := asked.(phase := Closed(BudgetError), undispatched := true);
    GivesUp(cfg, waiting, asked, closed);
    NothingDone(cap, p, cfg);
    var w0 := World([INITIAL], EmptyLedger(), {}, {});
    Extends(cap, p, cfg, [], w0, Does(Step(0, Started)));
    var r1, w1 := [] + [Does(Step(0, Started))], World([waiting], EmptyLedger(), {}, {});
    Extends(cap, p, cfg, r1, w1, Does(sent));
    var r2, w2 := r1 + [Does(sent)], World([asked], EmptyLedger(), {}, {sent});
    Extends(cap, p, cfg, r2, w2, Does(Step(0, Finished(BudgetError))));
    var r3, w3 := r2 + [Does(Step(0, Finished(BudgetError)))], World([closed], EmptyLedger(), {}, {sent});
    Extends(cap, p, cfg, r3, w3, Lands(sent));
    run := r3 + [Lands(sent)];
  }

  lemma GivesUp(cfg: Config, waiting: View, asked: View, closed: View)
    requires cfg.budgeted
    requires waiting == View(Waiting, 0, 0, false, false, false, None, false, None, [], [], [])
    requires asked == waiting.(phase := Asked(0, false), rounds := 1)
    requires closed == asked.(phase := Closed(BudgetError), undispatched := true)
    ensures Allowed(cfg, INITIAL, Started) && Advance(cfg, INITIAL, Started) == waiting
    ensures Allowed(cfg, waiting, ReserveSent(0, false)) && Advance(cfg, waiting, ReserveSent(0, false)) == asked
    ensures Allowed(cfg, asked, Finished(BudgetError)) && Advance(cfg, asked, Finished(BudgetError)) == closed
  {
  }

  // ------------------------------------------------------------ true spend

  /** Every settlement carries what the provider reported for its attempt. */
  ghost predicate Forwards(log: seq<Step>, reports: AttemptId -> Option<Usage>) {
    forall step <- log :: step.event.SettleSent? ==> reports(IdOf(step)) == Some(step.event.usage)
  }

  /** What the provider reports is what it used. */
  ghost predicate Honest(reports: AttemptId -> Option<Usage>, truth: AttemptId -> Usage) {
    forall id :: reports(id).Some? ==> reports(id).value == truth(id)
  }

  ghost function Spend(p: Profile, truth: AttemptId -> Usage, ids: set<AttemptId>): map<AttemptId, nat> {
    map id | id in ids :: Cost(p, truth(id).input, truth(id).output)
  }

  /** What is settled, or may still be, is settled at the true cost. */
  ghost predicate AtRealCost(p: Profile, truth: AttemptId -> Usage, w: World) {
    && (forall id <- w.ledger.settled :: w.ledger.settled[id] == Cost(p, truth(id).input, truth(id).output))
    && (forall step <- w.underway :: step.event.SettleSent? ==> step.event.usage == truth(IdOf(step)))
  }

  lemma RealCostStep(p: Profile, cfgs: seq<Config>, w: World, move: Move, truth: AttemptId -> Usage)
    requires |w.views| == |cfgs| && move.step.call < |cfgs| && AtRealCost(p, truth, w)
    requires move.Does? && move.step.event.SettleSent? ==> move.step.event.usage == truth(IdOf(move.step))
    requires move.Lands? ==> move.step in w.underway
    ensures AtRealCost(p, truth, Apply(p, cfgs, w, move))
  {
    hide Cost, Advance;
  }

  lemma {:induction false} SettledAtRealCost(cap: nat, p: Profile, cfgs: seq<Config>, run: seq<Move>,
                                             reports: AttemptId -> Option<Usage>, truth: AttemptId -> Usage)
    requires Conforms(cfgs, run) && OwnerAdmits(cap, p, cfgs, run)
    requires Forwards(Visible(run), reports) && Honest(reports, truth)
    ensures AtRealCost(p, truth, After(p, cfgs, run))
  {
    hide Apply, AllAccepted, AtRealCost;
    if run != [] {
      var init, last := run[..|run| - 1], run[|run| - 1];
      LastMoveEnabled(cap, p, cfgs, run);
      SettledAtRealCost(cap, p, cfgs, init, reports, truth);
      assert last.Does? ==> last.step in Visible(run);
      RealCostStep(p, cfgs, After(p, cfgs, init), last, truth);
    } else {
      NothingAtRealCost(p, cfgs, truth);
    }
  }

  lemma NothingAtRealCost(p: Profile, cfgs: seq<Config>, truth: AttemptId -> Usage)
    ensures AtRealCost(p, truth, After(p, cfgs, []))
  {
  }

  /** If the provider reports truly and stays within each grant, the true spend
      of everything ever dispatched never exceeds the charge. */
  lemma SpendNeverExceedsCharge(cap: nat, p: Profile, cfgs: seq<Config>, run: seq<Move>,
                                reports: AttemptId -> Option<Usage>, truth: AttemptId -> Usage)
    requires Conforms(cfgs, run) && OwnerAdmits(cap, p, cfgs, run)
    requires Forwards(Visible(run), reports) && Honest(reports, truth)
    requires forall id <- After(p, cfgs, run).dispatched :: id.call < |cfgs| ==> WithinGrant(cfgs[id.call], truth(id))
    ensures Sum(Spend(p, truth, After(p, cfgs, run).dispatched)) <= After(p, cfgs, run).ledger.charged <= cap
  {
    hide After, Cost, AllAccepted, OwnerAdmits, UnderwaySafe;
    var w := After(p, cfgs, run);
    RunSafe(cap, p, cfgs, run);
    SettledAtRealCost(cap, p, cfgs, run, reports, truth);
    var held := w.ledger.pending + w.ledger.settled;
    SumDisjoint(w.ledger.pending, w.ledger.settled);
    var spend := Spend(p, truth, w.dispatched);
    forall id <- spend
      ensures id in held && spend[id] <= held[id]
    {
      if id in w.ledger.pending && id !in w.ledger.settled {
        var cfg := cfgs[id.call];
        CostMonotone(p, truth(id).input, truth(id).output, cfg.inputCeiling, cfg.outputLimit);
      }
    }
    SumBelow(spend, held);
  }
}
