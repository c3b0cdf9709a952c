/** The process-wide admission semaphore (crates/llm-client/src/client.rs). A
    budgeted request takes all permits, any other request takes one. */
module Admission {
  import opened LlmTypes
  import opened MapSum

  const MAX_CONCURRENT_LLM_REQUESTS := 8

  datatype Permits = Permits(available: nat, held: map<nat, nat>)

  /** No permit is lost or created; every admitted request holds some. */
  ghost predicate Conserved(s: Permits) {
    s.available + Sum(s.held) == MAX_CONCURRENT_LLM_REQUESTS && forall c <- s.held :: s.held[c] > 0
  }

  datatype Step =
    | Acquire(call: nat, permits: nat)
    | Release(call: nat)

  ghost predicate Allowed(s: Permits, step: Step) {
    match step
    case Acquire(c, n) => c !in s.held && n <= s.available && (n == 1 || n == MAX_CONCURRENT_LLM_REQUESTS)
    case Release(c) => c in s.held
  }

  function Apply(s: Permits, step: Step): Permits {
    match step
    case Acquire(c, n) => if n <= s.available then Permits(s.available - n, s.held[c := n]) else s
    case Release(c) => if c in s.held then Permits(s.available + s.held[c], s.held - {c}) else s
  }

  function After(run: seq<Step>): Permits {
    if run == [] then Permits(MAX_CONCURRENT_LLM_REQUESTS, map[])
    else Apply(After(run[..|run| - 1]), run[|run| - 1])
  }

  ghost predicate Runs(run: seq<Step>) {
    run == [] || (Runs(run[..|run| - 1]) && Allowed(After(run[..|run| - 1]), run[|run| - 1]))
  }

  lemma StepConserves(s: Permits, step: Step)
    requires Conserved(s) && Allowed(s, step)
    ensures Conserved(Apply(s, step))
  {
    hide Sum;
    match step
    case Acquire(c, n) => SumInsert(s.held, c, n);
    case Release(c) => SumRemove(s.held, c);
  }

  /** Held and available permits always add up to eight. */
  lemma {:induction false} RunConserves(run: seq<Step>)
    requires Runs(run)
    ensures Conserved(After(run))
  {
    hide Sum, Apply, Allowed;
    SumEmpty<nat>();
    if run != [] {
      RunConserves(run[..|run| - 1]);
      StepConserves(After(run[..|run| - 1]), run[|run| - 1]);
    }
  }

  lemma {:induction false} HoldersBound(held: map<nat, nat>)
    requires forall c <- held :: held[c] > 0
    ensures |held| <= Sum(held)
    decreases |held|
  {
    if held != map[] {
      var c :| c in held;
      SumRemove(held, c);
      HoldersBound(held - {c});
    }
  }

  /** At most eight requests are admitted at a time. */
  lemma AtMostEight(run: seq<Step>)
    requires Runs(run)
    ensures |After(run).held| <= MAX_CONCURRENT_LLM_REQUESTS
  {
    RunConserves(run);
    HoldersBound(After(run).held);
  }

  /** Whoever holds all permits is admitted alone. */
  lemma FullHolderIsAlone(s: Permits, c: nat)
    requires Conserved(s) && c in s.held && s.held[c] == MAX_CONCURRENT_LLM_REQUESTS
    ensures s.held.Keys == {c} && s.available == 0
  {
    hide Sum;
    SumRemove(s.held, c);
    HoldersBound(s.held - {c});
  }

  /** The semaphore itself. */
  class Semaphore {
    var available: nat
    ghost var held: map<nat, nat>

    ghost predicate Valid()
      reads this
    {
      Conserved(State())
    }

    ghost function State(): Permits
      reads this
    {
      Permits(available, held)
    }

    constructor ()
      ensures Valid() && available == MAX_CONCURRENT_LLM_REQUESTS
    {
      available, held := MAX_CONCURRENT_LLM_REQUESTS, map[];
      new;
      SumEmpty<nat>();
    }

    /** Takes `n` permits if that many are free; a budgeted request repeats this
        until it succeeds or its deadline passes. */
    method TryAcquire(ghost call: nat, n: nat) returns (ok: bool)
      requires Valid() && call !in held && (n == 1 || n == MAX_CONCURRENT_LLM_REQUESTS)
      modifies this
      ensures Valid()
      ensures ok <==> n <= old(available)
      ensures State() == if ok then Apply(old(State()), Acquire(call, n)) else old(State())
    {
      hide Conserved;
      if n > available {
        return false;
      }
      StepConserves(State(), Acquire(call, n));
      available, held := available - n, held[call := n];
      return true;
    }

    method Free(ghost call: nat, n: nat)
      requires Valid() && call in held && held[call] == n
      modifies this
      ensures Valid() && State() == Apply(old(State()), Release(call))
    {
      hide Conserved;
      StepConserves(State(), Release(call));
      available, held := available + n, held - {call};
    }
  }
}
