/** What a run of readiness observations records, in terms of the registered
    jobs and the rows alone (infra/ops/import_readiness.py). */
module ReadinessOutcomes {
  import opened LlmTypes
  import opened ImportReadiness

  /** When a job must be ready at the latest. */
  function Deadline(reg: Registration, j: Job): int {
    j.created + reg.cutoffSeconds * 1_000_000
  }

  // ----------------------------------------------------------------- a run

  /** The evidence of a run counts its observations and keeps the times of the
      first and the last one. */
  lemma {:induction false} EvidenceOfRun(reg: Registration, digest: string, run: seq<Snapshot>)
    requires AcceptedRun(reg, digest, run) && run != []
    ensures EvidenceAfter(reg, digest, run).Some?
    ensures var e := EvidenceAfter(reg, digest, run).value;
      && e.observations == |run| && e.digest == digest
      && Some(e.first) == run[0].observed && Some(e.last) == run[|run| - 1].observed
  {
    var init := run[..|run| - 1];
    if init != [] {
      EvidenceOfRun(reg, digest, init);
    }
  }

  /** The rows say that the job is there, completed and ready. */
  predicate ReadyIn(s: Snapshot, id: string) {
    exists row <- s.rows :: row.id == id && row.job == Completed && row.novel == Ready
  }

  predicate InTime(reg: Registration, s: Snapshot, j: Job) {
    s.observed.Some? && s.observed.value <= Deadline(reg, j) && ReadyIn(s, j.id)
  }

  /** A job's recorded time is that of the earliest observation of the run that
      saw it completed and ready by its deadline; there is none exactly when no
      observation did. */
  lemma GoodExactly(reg: Registration, digest: string, run: seq<Snapshot>, j: Job)
    requires Registered(reg) && AcceptedRun(reg, digest, run) && run != [] && j in reg.jobs
    ensures EvidenceAfter(reg, digest, run).Some? && j.id in EvidenceAfter(reg, digest, run).value.jobs
    ensures var good := EvidenceAfter(reg, digest, run).value.jobs[j.id];
      && (good.Some? <==> exists i :: 0 <= i < |run| && InTime(reg, run[i], j))
      && (good.Some? ==>
            && (exists i :: 0 <= i < |run| && InTime(reg, run[i], j) && run[i].observed == good)
            && forall i :: 0 <= i < |run| && InTime(reg, run[i], j) ==> good.value <= run[i].observed.value)
  {
    ExpectedEnrolls(reg.jobs);
    RunIsValid(reg, digest, run);
    var e := EvidenceAfter(reg, digest, run);
    assert Expected(reg.jobs)[j.id] == j.created;
    hide Expected, AcceptedRun, EvidenceAfter, Registered, Enrolls;
    forall i | 0 <= i < |run|
      ensures OnTime(reg, run[i], j.id) <==> InTime(reg, run[i], j)
    {
      OnTimeExactly(reg, run[i], j);
    }
    hide OnTime, InTime, ValidEvidence;
    KnownJob(reg, digest, e.value, j);
    if e.value.jobs[j.id].Some? {
      GoodIsEarliest(reg, digest, run, j.id, e.value.jobs[j.id].value);
    }
    if exists i :: 0 <= i < |run| && InTime(reg, run[i], j) {
      EarliestExists(reg, digest, run, j);
    }
  }

  lemma OnTimeExactly(reg: Registration, s: Snapshot, j: Job)
    requires j.id in Expected(reg.jobs) && Expected(reg.jobs)[j.id] == j.created
    ensures OnTime(reg, s, j.id) <==> InTime(reg, s, j)
  {
    hide Expected;
  }

  lemma KnownJob(reg: Registration, digest: string, e: Evidence, j: Job)
    requires ValidEvidence(reg, digest, e) && j in reg.jobs
    ensures j.id in e.jobs
  {
    hide Expected;
  }

  lemma EarliestExists(reg: Registration, digest: string, run: seq<Snapshot>, j: Job)
    requires Registered(reg) && AcceptedRun(reg, digest, run) && j.id in Expected(reg.jobs)
    requires exists i :: 0 <= i < |run| && OnTime(reg, run[i], j.id)
    ensures Before(EvidenceAfter(reg, digest, run), j.id).Some?
  {
    FoldIsFirstOnTime(reg, digest, run, j.id);
    var k := FirstOnTimeIs(reg, run, j.id);
    hide ShowsReady, Expected, AcceptedRun, EvidenceAfter, Before, FirstOnTime, Registered;
  }

  // ------------------------------------------------------------ one snapshot

  /** A row of an enrolled job, with a known status, and with its origin exactly
      if the job is there; no origin lies in the future. */
  predicate FitsJob(row: Row, j: Job, now: int) {
    && row.id == j.id && j.created <= now
    && row.job != OtherJob && row.novel != OtherNovel
    && row.created == if row.job == NoJob then Null else At(j.created)
  }

  lemma RowExactly(reg: Registration, now: int, row: Row)
    requires Registered(reg)
    ensures RowFits(Expected(reg.jobs), now, row) <==> exists j <- reg.jobs :: FitsJob(row, j, now)
  {
    ExpectedEnrolls(reg.jobs);
    var expected := Expected(reg.jobs);
    assert forall j <- reg.jobs :: j.id in expected && expected[j.id] == j.created;
    if row.id in expected {
      var i := JobOf(reg.jobs, row.id);
      assert reg.jobs[i] in reg.jobs;
    }
    hide Expected, Enrolls, Registered;
  }

  /** Evidence that another observation may extend: of this registration, with
      every enrolled job and no other, first seen between each job's origin and
      deadline, and every recorded time within the run and the deadline. */
  ghost predicate Extends(reg: Registration, digest: string, e: Evidence) {
    && e.digest == digest && e.observations > 0 && e.first <= e.last
    && (forall id :: id in e.jobs <==> exists j <- reg.jobs :: j.id == id)
    && forall j <- reg.jobs ::
         && j.id in e.jobs && j.created <= e.first < Deadline(reg, j)
         && (e.jobs[j.id].Some? ==>
               e.first <= e.jobs[j.id].value <= e.last && e.jobs[j.id].value <= Deadline(reg, j))
  }

  lemma EvidenceExactly(reg: Registration, digest: string, e: Evidence)
    requires Registered(reg)
    ensures ValidEvidence(reg, digest, e) <==> Extends(reg, digest, e)
  {
    ExpectedEnrolls(reg.jobs);
    var expected := Expected(reg.jobs);
    forall id
      ensures id in expected <==> exists j <- reg.jobs :: j.id == id
    {
      if id in expected {
        var i := JobOf(reg.jobs, id);
        assert reg.jobs[i] in reg.jobs;
      }
    }
    hide Expected, Enrolls, Registered;
  }

  /** A snapshot is accepted exactly when it comes read-only from the registered
      database, no earlier than the evidence it extends, and has one fitting row
      per job; the first one also needs every job present before its deadline. */
  lemma AcceptedExactly(reg: Registration, digest: string, previous: Option<Evidence>, s: Snapshot)
    requires Registered(reg)
    ensures Accepts(reg, digest, previous, s) <==>
      && s.database == reg.database && s.readOnly && s.observed.Some?
      && (previous.Some? ==> Extends(reg, digest, previous.value) && previous.value.last <= s.observed.value)
      && |s.rows| == |reg.jobs|
      && (forall i, k :: 0 <= i < k < |s.rows| ==> s.rows[i].id != s.rows[k].id)
      && (forall row <- s.rows :: exists j <- reg.jobs :: FitsJob(row, j, s.observed.value))
      && (previous.None? ==>
            && (forall row <- s.rows :: row.job != NoJob && row.novel != NoNovel)
            && forall j <- reg.jobs :: s.observed.value < Deadline(reg, j))
  {
    if previous.Some? { EvidenceExactly(reg, digest, previous.value); }
    if s.observed.Some? {
      forall row
        ensures RowFits(Expected(reg.jobs), s.observed.value, row) <==>
                exists j <- reg.jobs :: FitsJob(row, j, s.observed.value)
      {
        RowExactly(reg, s.observed.value, row);
      }
    }
    hide Expected, ValidEvidence, Extends, RowFits, FitsJob, Registered;
  }

  // ------------------------------------------------------------------ counts

  predicate Enrolled(reg: Registration, e: Evidence) {
    forall j <- reg.jobs :: j.id in e.jobs
  }

  function GoodOnes(reg: Registration, e: Evidence): set<nat>
    requires Enrolled(reg, e)
  {
    set i: nat | i < |reg.jobs| && e.jobs[reg.jobs[i].id].Some?
  }

  /** Not good yet, and the deadline has not come. */
  function OpenOnes(reg: Registration, e: Evidence): set<nat>
    requires Enrolled(reg, e)
  {
    set i: nat | i < |reg.jobs| && e.jobs[reg.jobs[i].id].None? && e.last < Deadline(reg, reg.jobs[i])
  }

  function UnknownOnes(reg: Registration, e: Evidence): set<nat>
    requires Enrolled(reg, e)
  {
    set i: nat | i < |reg.jobs| && e.jobs[reg.jobs[i].id].None? && e.last >= Deadline(reg, reg.jobs[i])
  }

  function PresentOnes(s: Snapshot): set<nat> {
    set i: nat | i < |s.rows| && s.rows[i].job != NoJob && s.rows[i].novel != NoNovel
  }

  /** Every job is good, open before its deadline, or unknown; a job is observed
      when both its rows are there; latencies are those of the good jobs. */
  lemma CountedExactly(reg: Registration, s: Snapshot, e: Evidence, c: Counts)
    requires CountsAre(reg, s, e, c)
    ensures Enrolled(reg, e) && c.denominator == |reg.jobs| && c.bad == 0
    ensures c.good == c.latencies == |GoodOnes(reg, e)|
    ensures c.open == |OpenOnes(reg, e)| && c.unknown == |UnknownOnes(reg, e)|
    ensures c.observedJobs == |PresentOnes(s)| && c.missingJobs == |reg.jobs| - c.observedJobs
  {
    SetsExactly(reg, s, e);
    Partition(reg, e);
    hide GoodJobs, OpenJobs, PresentRows, Extremes, GoodOnes, OpenOnes, UnknownOnes, PresentOnes;
    Parts(GoodOnes(reg, e), OpenOnes(reg, e), UnknownOnes(reg, e));
  }

  lemma SetsExactly(reg: Registration, s: Snapshot, e: Evidence)
    requires Covers(reg.jobs, e.jobs)
    ensures Enrolled(reg, e)
    ensures GoodOnes(reg, e) == GoodJobs(reg.jobs, e.jobs, |reg.jobs|)
    ensures OpenOnes(reg, e) == OpenJobs(reg, e.jobs, e.last, |reg.jobs|)
    ensures PresentOnes(s) == PresentRows(s.rows, |s.rows|)
  {
  }

  lemma Partition(reg: Registration, e: Evidence)
    requires Enrolled(reg, e)
    ensures GoodOnes(reg, e) + OpenOnes(reg, e) + UnknownOnes(reg, e) == Below(|reg.jobs|)
    ensures GoodOnes(reg, e) !! OpenOnes(reg, e)
    ensures (GoodOnes(reg, e) + OpenOnes(reg, e)) !! UnknownOnes(reg, e)
  {
    assert forall i: nat :: i < |reg.jobs| ==> reg.jobs[i] in reg.jobs;
  }

  function Below(n: nat): (s: set<nat>)
    ensures |s| == n && forall i: nat :: i in s <==> i < n
  {
    if n == 0 then {} else Below(n - 1) + {n - 1}
  }

  lemma Parts(a: set<nat>, b: set<nat>, c: set<nat>)
    requires a !! b && (a + b) !! c
    ensures |a + b + c| == |a| + |b| + |c|
  {
  }

  /** The reported latencies are the least and the greatest of the good jobs,
      and there are none exactly when no job is good. */
  lemma LatenciesExactly(reg: Registration, s: Snapshot, e: Evidence, c: Counts)
    requires CountsAre(reg, s, e, c)
    ensures forall j <- reg.jobs :: j.id in e.jobs
    ensures c.fastest.Some? <==> exists j <- reg.jobs :: e.jobs[j.id].Some?
    ensures c.slowest.Some? <==> c.fastest.Some?
    ensures c.fastest.Some? ==>
      && (exists j <- reg.jobs :: e.jobs[j.id].Some? && e.jobs[j.id].value - j.created == c.fastest.value)
      && (exists j <- reg.jobs :: e.jobs[j.id].Some? && e.jobs[j.id].value - j.created == c.slowest.value)
      && forall j <- reg.jobs :: e.jobs[j.id].Some? ==>
           c.fastest.value <= e.jobs[j.id].value - j.created <= c.slowest.value
  {
    var jobs := reg.jobs;
    hide GoodJobs, OpenJobs, PresentRows;
    if c.fastest.Some? {
      var i :| 0 <= i < |jobs| && LatencyIs(jobs, e.jobs, i, c.fastest.value);
      var k :| 0 <= k < |jobs| && LatencyIs(jobs, e.jobs, k, c.slowest.value);
      assert jobs[i] in jobs && jobs[k] in jobs;
    }
  }
}
