/** The spend theorem for requests that the client itself ran: nothing is
    assumed of the client, and of the provider only that it reports its usage
    truly and stays within what each attempt was granted. */
module ClientSpend {
  import opened LlmTypes
  import opened CallTrace
  import opened BudgetControl
  import opened MapSum
  import opened SharedOwner
  import opened Requests

  /** A run in progress: each request has done a part of the trace that its
      script leads to. */
  ghost predicate Running(cfgs: seq<Config>, sources: seq<Source>, traces: seq<seq<Event>>, run: seq<Move>) {
    && |sources| == |traces| == |cfgs| && Within(|cfgs|, run)
    && forall c: nat | c < |cfgs| ::
         && Completed(cfgs[c], traces[c]) && RanAs(sources[c], Observe(cfgs[c], traces[c]))
         && Own(run, c) <= traces[c]
  }

  /** What the provider reported for an attempt. */
  ghost function ReportsOf(sources: seq<Source>): AttemptId -> Option<Usage> {
    (id: AttemptId) => if id.call < |sources| then ReportedBy(sources[id.call], id.round) else None
  }

  lemma {:induction false} InProject(log: seq<Step>, step: Step)
    requires step in log
    ensures step.event in Project(log, step.call)
  {
    var init, last := log[..|log| - 1], log[|log| - 1];
    assert log == init + [last];
    if step in init { InProject(init, step); }
  }

  lemma RunningConforms(cfgs: seq<Config>, sources: seq<Source>, traces: seq<seq<Event>>, run: seq<Move>)
    requires Running(cfgs, sources, traces, run)
    ensures Conforms(cfgs, run)
  {
    hide Observe, Accepts, RanAs, Project, Visible;
    forall c: nat | c < |cfgs|
      ensures Accepts(cfgs[c], Project(Visible(run), c))
    {
      AcceptsPrefix(cfgs[c], traces[c], |Own(run, c)|);
      assert traces[c][..|Own(run, c)|] == Own(run, c);
    }
  }

  /** The client forwards the reports: proved, not assumed. */
  lemma RunningForwards(cfgs: seq<Config>, sources: seq<Source>, traces: seq<seq<Event>>, run: seq<Move>)
    requires Running(cfgs, sources, traces, run)
    ensures Forwards(Visible(run), ReportsOf(sources))
  {
    hide Observe, Accepts, RanAs, Project, ReportedBy, Visible;
    VisibleInRange(|cfgs|, run);
    forall step | step in Visible(run) && step.event.SettleSent?
      ensures ReportsOf(sources)(IdOf(step)) == Some(step.event.usage)
    {
      var c := step.call;
      InProject(Visible(run), step);
      assert step.event in Own(run, c);
      assert step.event in traces[c];
      SettlesWhatWasReported(sources[c], cfgs[c], traces[c], step.event);
    }
  }

  lemma ClientSpendNeverExceedsCharge(cap: nat, p: Profile, cfgs: seq<Config>, sources: seq<Source>,
                                      traces: seq<seq<Event>>, run: seq<Move>, truth: AttemptId -> Usage)
    requires Running(cfgs, sources, traces, run) && OwnerAdmits(cap, p, cfgs, run)
    requires Honest(ReportsOf(sources), truth)
    requires forall id <- After(p, cfgs, run).dispatched :: id.call < |cfgs| ==> WithinGrant(cfgs[id.call], truth(id))
    ensures Sum(Spend(p, truth, After(p, cfgs, run).dispatched)) <= After(p, cfgs, run).ledger.charged <= cap
  {
    hide After, OwnerAdmits, Forwards, Honest;
    RunningConforms(cfgs, sources, traces, run);
    RunningForwards(cfgs, sources, traces, run);
    SpendNeverExceedsCharge(cap, p, cfgs, run, ReportsOf(sources), truth);
  }
}
