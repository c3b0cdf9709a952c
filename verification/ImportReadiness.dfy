/** The fold of database snapshots into import-readiness evidence
    (infra/ops/import_readiness.py). Times are microseconds. */
module ImportReadiness {
  import opened LlmTypes

  const SECOND: int := 1_000_000
  const MAX_JOBS: nat := 1000
  const MAX_CUTOFF: int := 365 * 24 * 60 * 60
  const LAST_INSTANT: int := 3652059 * 24 * 60 * 60 * SECOND - 1   // end of year 9999

  // ------------------------------------------------------------ registration

  datatype Job = Job(id: string, created: int)

  datatype Registration = Registration(database: string, cutoffSeconds: int, jobs: seq<Job>) {
    function Cutoff(origin: int): int { origin + cutoffSeconds * SECOND }
  }

  predicate DistinctIds(jobs: seq<Job>) {
    forall i, j :: 0 <= i < j < |jobs| ==> jobs[i].id != jobs[j].id
  }

  ghost predicate Registered(reg: Registration) {
    && 0 < reg.cutoffSeconds <= MAX_CUTOFF && 0 < |reg.jobs| <= MAX_JOBS
    && DistinctIds(reg.jobs)
    && forall j <- reg.jobs :: reg.Cutoff(j.created) <= LAST_INSTANT
  }

  datatype Failure = InvalidRegistration | DuplicateJob | InvalidEvidence | RegistrationChanged
    | DatabaseMismatch | NotReadOnly | ClockRegressed | InvalidSnapshot | InvalidTimestamp | OriginMismatch
    | EnrollmentIncomplete | EnrollmentLate

  /** An entry of the registration file; `canonical` says that the identifier
      is a UUID in its own spelling, and `created` is None for no timestamp. */
  datatype Entry = Entry(id: string, canonical: bool, created: Option<int>)

  /** Uniqueness and the cutoff: what makes a registration acceptable. */
  method Register(database: string, cutoffSeconds: int, entries: seq<Entry>)
    returns (f: Option<Failure>, reg: Registration)
    ensures f.None? <==>
              && 0 < cutoffSeconds <= 31_536_000 && 0 < |entries| <= 1000
              && (forall i, j :: 0 <= i < j < |entries| ==> entries[i].id != entries[j].id)
              && forall e <- entries ::
                   e.canonical && e.created.Some? && e.created.value + cutoffSeconds * 1_000_000 <= LAST_INSTANT
    ensures f.None? ==> Registered(reg) && reg.database == database && reg.cutoffSeconds == cutoffSeconds
                        && |reg.jobs| == |entries|
                        && forall i :: 0 <= i < |entries| ==>
                           Some(reg.jobs[i].created) == entries[i].created && reg.jobs[i].id == entries[i].id
    ensures f == Some(DuplicateJob) ==> exists i, j :: 0 <= i < j < |entries| && entries[i].id == entries[j].id
  {
    reg := Registration(database, cutoffSeconds, []);
    if !(0 < cutoffSeconds <= MAX_CUTOFF) || !(0 < |entries| <= MAX_JOBS) { return Some(InvalidRegistration), reg; }
    var seen: set<string>, jobs: seq<Job> := {}, [];
    for k := 0 to |entries|
      invariant |jobs| == k
      invariant forall i :: 0 <= i < k ==>
                  && entries[i].canonical && entries[i].created.Some?
                  && entries[i].created.value + cutoffSeconds * SECOND <= LAST_INSTANT
      invariant forall i :: 0 <= i < k ==> jobs[i].id == entries[i].id && Some(jobs[i].created) == entries[i].created
      invariant forall id :: id in seen <==> exists i :: 0 <= i < k && entries[i].id == id
      invariant forall i, j :: 0 <= i < j < k ==> entries[i].id != entries[j].id
    {
      var e := entries[k];
      assert e in entries;
      if !e.canonical { return Some(InvalidRegistration), reg; }
      if e.id in seen { return Some(DuplicateJob), reg; }
      seen := seen + {e.id};
      if e.created.None? { return Some(InvalidTimestamp), reg; }
      if e.created.value + cutoffSeconds * SECOND > LAST_INSTANT { return Some(InvalidRegistration), reg; }
      jobs := jobs + [Job(e.id, e.created.value)];
    }
    return None, Registration(database, cutoffSeconds, jobs);
  }

  /** The origin of each enrolled job. */
  function Expected(jobs: seq<Job>): map<string, int> {
    if jobs == [] then map[]
    else
      var last := jobs[|jobs| - 1];
      Expected(jobs[..|jobs| - 1])[last.id := last.created]
  }

  lemma {:induction false} JobOf(jobs: seq<Job>, id: string) returns (i: nat)
    requires id in Expected(jobs)
    ensures i < |jobs| && jobs[i].id == id
  {
    if jobs[|jobs| - 1].id == id {
      i := |jobs| - 1;
    } else {
      i := JobOf(jobs[..|jobs| - 1], id);
    }
  }

  predicate Enrolls(jobs: seq<Job>, m: map<string, int>) {
    |m| == |jobs| && forall j <- jobs :: j.id in m && m[j.id] == j.created
  }

  lemma {:induction false} ExpectedEnrolls(jobs: seq<Job>)
    requires DistinctIds(jobs)
    ensures Enrolls(jobs, Expected(jobs))
  {
    if jobs != [] {
      var init, last := jobs[..|jobs| - 1], jobs[|jobs| - 1];
      ExpectedEnrolls(init);
      var m := Expected(init);
      if last.id in m {
        var i := JobOf(init, last.id);
        assert false;
      }
      hide Expected;
      assert jobs == init + [last];
      assert m[last.id := last.created].Keys == m.Keys + {last.id};
      forall j | j in init
        ensures j.id in m && m[j.id] == j.created && j.id != last.id
      {
      }
    }
  }

  predicate Covers(jobs: seq<Job>, good: map<string, Option<int>>) {
    forall j <- jobs :: j.id in good
  }

  // ---------------------------------------------------------------- evidence

  datatype Evidence = Evidence(digest: string, first: int, last: int, observations: int, jobs: map<string, Option<int>>)

  predicate JobSound(reg: Registration, e: Evidence, origin: int, good: Option<int>) {
    && origin <= e.first < reg.Cutoff(origin)
    && (good.Some? ==> e.first <= good.value <= e.last && good.value <= reg.Cutoff(origin))
  }

  ghost predicate ValidEvidence(reg: Registration, digest: string, e: Evidence) {
    && e.digest == digest && e.observations > 0 && e.first <= e.last
    && e.jobs.Keys == Expected(reg.jobs).Keys
    && forall j <- reg.jobs :: j.id in e.jobs && JobSound(reg, e, j.created, e.jobs[j.id])
  }

  method ValidateEvidence(reg: Registration, digest: string, e: Evidence) returns (f: Option<Failure>)
    requires Registered(reg)
    ensures f.None? <==> ValidEvidence(reg, digest, e)
    ensures f == Some(RegistrationChanged) <==> e.digest != digest
    ensures f.Some? ==> f.value == RegistrationChanged || f.value == InvalidEvidence
  {
    if e.digest != digest { return Some(RegistrationChanged); }
    ExpectedEnrolls(reg.jobs);
    hide Expected, JobSound, Registered;
    if e.observations <= 0 || e.first > e.last { return Some(InvalidEvidence); }
    var expected := Expected(reg.jobs);
    if e.jobs.Keys != expected.Keys { return Some(InvalidEvidence); }
    for k := 0 to |reg.jobs|
      invariant forall j <- reg.jobs[..k] :: j.id in e.jobs && JobSound(reg, e, j.created, e.jobs[j.id])
    {
      var job := reg.jobs[k];
      assert job in reg.jobs && reg.jobs[..k + 1] == reg.jobs[..k] + [job];
      if !JobSound(reg, e, job.created, e.jobs[job.id]) { return Some(InvalidEvidence); }
    }
    assert reg.jobs[..|reg.jobs|] == reg.jobs;
    return None;
  }

  // --------------------------------------------------------------- snapshots

  datatype Stamp = Null | NoTimestamp | At(time: int)

  datatype JobStatus = NoJob | Pending | InProgress | Failed | Completed | OtherJob

  datatype NovelStatus = NoNovel | NovelPending | Parsing | Error | Ready | OtherNovel

  datatype Row = Row(id: string, created: Stamp, job: JobStatus, novel: NovelStatus)

  datatype Snapshot = Snapshot(database: string, readOnly: bool, observed: Option<int>, rows: seq<Row>)

  predicate Present(row: Row) {
    !row.job.NoJob? && !row.novel.NoNovel?
  }

  predicate Recognized(row: Row) {
    !row.job.OtherJob? && !row.novel.OtherNovel? && (row.created.Null? <==> row.job.NoJob?) && !row.created.NoTimestamp?
  }

  predicate RowFits(expected: map<string, int>, now: int, row: Row) {
    && row.id in expected && Recognized(row)
    && (row.created.At? ==> row.created.time == expected[row.id])
    && expected[row.id] <= now
  }

  predicate DistinctRows(rows: seq<Row>) {
    forall i, j :: 0 <= i < j < |rows| ==> rows[i].id != rows[j].id
  }

  /** What is wrong with a row, by failure code. */
  predicate Defect(expected: map<string, int>, now: int, row: Row, f: Failure) {
    match f
    case InvalidSnapshot => row.id !in expected || row.job.OtherJob? || row.novel.OtherNovel?
      || (row.created.Null? != row.job.NoJob?)
    case InvalidTimestamp => row.created.NoTimestamp?
    case OriginMismatch => row.id in expected && row.created.At? && row.created.time != expected[row.id]
    case ClockRegressed => row.id in expected && now < expected[row.id]
    case _ => false
  }

  function RowFailure(expected: map<string, int>, now: int, row: Row): (f: Option<Failure>)
    ensures f.None? <==> RowFits(expected, now, row)
    ensures f.Some? ==> Defect(expected, now, row, f.value)
  {
    if row.id !in expected || row.job.OtherJob? || row.novel.OtherNovel? then Some(InvalidSnapshot)
    else if row.created.Null? != row.job.NoJob? then Some(InvalidSnapshot)
    else if row.created.NoTimestamp? then Some(InvalidTimestamp)
    else if row.created.At? && row.created.time != expected[row.id] then Some(OriginMismatch)
    else if now < expected[row.id] then Some(ClockRegressed)
    else None
  }

  predicate RowsFit(reg: Registration, now: int, rows: seq<Row>) {
    && |rows| == |reg.jobs| && DistinctRows(rows)
    && forall row <- rows :: RowFits(Expected(reg.jobs), now, row)
  }

  /** What a snapshot must be to extend the evidence. */
  ghost predicate Accepts(reg: Registration, digest: string, previous: Option<Evidence>, s: Snapshot) {
    && s.database == reg.database && s.readOnly && s.observed.Some?
    && (previous.Some? ==> ValidEvidence(reg, digest, previous.value) && previous.value.last <= s.observed.value)
    && RowsFit(reg, s.observed.value, s.rows)
    && (previous.None? ==>
          && (forall row <- s.rows :: Present(row))
          && forall j <- reg.jobs :: s.observed.value < reg.Cutoff(j.created))
  }

  /** The snapshot shows the job completed and ready. */
  predicate ShowsReady(s: Snapshot, id: string) {
    exists row :: row in s.rows && row.id == id && row.job.Completed? && row.novel.Ready?
  }

  /** Completed, ready and not past the cutoff. */
  predicate OnTime(reg: Registration, s: Snapshot, id: string)
    requires id in Expected(reg.jobs)
  {
    s.observed.Some? && ShowsReady(s, id) && s.observed.value <= reg.Cutoff(Expected(reg.jobs)[id])
  }

  function GoodAfter(reg: Registration, before: Option<int>, s: Snapshot, id: string): Option<int>
    requires id in Expected(reg.jobs)
  {
    if before.None? && OnTime(reg, s, id) then s.observed else before
  }

  function Before(previous: Option<Evidence>, id: string): Option<int> {
    if previous.Some? && id in previous.value.jobs then previous.value.jobs[id] else None
  }

  function NextEvidence(reg: Registration, digest: string, previous: Option<Evidence>, s: Snapshot): Evidence
    requires s.observed.Some?
  {
    Evidence(digest,
             if previous.Some? then previous.value.first else s.observed.value,
             s.observed.value,
             if previous.Some? then previous.value.observations + 1 else 1,
             map id | id in Expected(reg.jobs) :: GoodAfter(reg, Before(previous, id), s, id))
  }

  // ------------------------------------------------------------------ counts

  datatype Counts = Counts(denominator: nat, good: nat, bad: nat, unknown: nat, open: nat,
    observedJobs: nat, missingJobs: int, latencies: nat, fastest: Option<int>, slowest: Option<int>)

  function GoodJobs(jobs: seq<Job>, good: map<string, Option<int>>, k: nat): set<nat>
    requires k <= |jobs| && Covers(jobs, good)
  {
    set i | 0 <= i < k && good[jobs[i].id].Some?
  }

  function OpenJobs(reg: Registration, good: map<string, Option<int>>, now: int, k: nat): set<nat>
    requires k <= |reg.jobs| && Covers(reg.jobs, good)
  {
    set i | 0 <= i < k && good[reg.jobs[i].id].None? && now < reg.Cutoff(reg.jobs[i].created)
  }

  function PresentRows(rows: seq<Row>, k: nat): set<nat>
    requires k <= |rows|
  {
    set i | 0 <= i < k && Present(rows[i])
  }

  /** The latency of job `i`, once good. */
  predicate LatencyIs(jobs: seq<Job>, good: map<string, Option<int>>, i: nat, latency: int)
    requires i < |jobs| && Covers(jobs, good)
  {
    good[jobs[i].id] == Some(jobs[i].created + latency)
  }

  /** The reported extremes are attained and bound every latency. */
  predicate Extremes(jobs: seq<Job>, good: map<string, Option<int>>, k: nat, fastest: Option<int>, slowest: Option<int>)
    requires k <= |jobs| && Covers(jobs, good)
  {
    && (fastest.Some? <==> slowest.Some?)
    && (fastest.Some? ==> exists i :: 0 <= i < k && LatencyIs(jobs, good, i, fastest.value))
    && (slowest.Some? ==> exists i :: 0 <= i < k && LatencyIs(jobs, good, i, slowest.value))
    && forall i :: 0 <= i < k && good[jobs[i].id].Some? ==>
         fastest.Some? && fastest.value <= good[jobs[i].id].value - jobs[i].created <= slowest.value
  }

  function Least(x: Option<int>, y: int): Option<int> {
    if x.None? || y < x.value then Some(y) else x
  }

  function Greatest(x: Option<int>, y: int): Option<int> {
    if x.None? || y > x.value then Some(y) else x
  }

  lemma NextExtremes(jobs: seq<Job>, good: map<string, Option<int>>, k: nat, fastest: Option<int>, slowest: Option<int>)
    requires k < |jobs| && Covers(jobs, good) && Extremes(jobs, good, k, fastest, slowest)
    ensures good[jobs[k].id].None? ==> Extremes(jobs, good, k + 1, fastest, slowest)
    ensures good[jobs[k].id].Some? ==>
      var latency := good[jobs[k].id].value - jobs[k].created;
      Extremes(jobs, good, k + 1, Least(fastest, latency), Greatest(slowest, latency))
  {
    if good[jobs[k].id].Some? {
      assert LatencyIs(jobs, good, k, good[jobs[k].id].value - jobs[k].created);
    }
  }

  ghost predicate CountsAre(reg: Registration, s: Snapshot, e: Evidence, c: Counts) {
    && Covers(reg.jobs, e.jobs)
    && c.denominator == |reg.jobs| && c.bad == 0
    && c.good == |GoodJobs(reg.jobs, e.jobs, |reg.jobs|)| && c.latencies == c.good
    && c.open == |OpenJobs(reg, e.jobs, e.last, |reg.jobs|)|
    && c.good + c.open + c.unknown == c.denominator
    && c.observedJobs == |PresentRows(s.rows, |s.rows|)| && c.missingJobs == c.denominator - c.observedJobs
    && Extremes(reg.jobs, e.jobs, |reg.jobs|, c.fastest, c.slowest)
  }

  /** Every latency lies between zero and the cutoff. */
  predicate LatenciesInRange(reg: Registration, c: Counts) {
    (c.fastest.Some? <==> c.slowest.Some?)
    && (c.fastest.Some? ==> 0 <= c.fastest.value <= c.slowest.value <= reg.cutoffSeconds * SECOND)
  }

  lemma ValidLatencies(reg: Registration, digest: string, s: Snapshot, e: Evidence, c: Counts)
    requires ValidEvidence(reg, digest, e) && CountsAre(reg, s, e, c)
    ensures LatenciesInRange(reg, c)
  {
    var jobs := reg.jobs;
    hide Expected, GoodJobs, OpenJobs, PresentRows;
    if c.fastest.Some? {
      var i :| 0 <= i < |jobs| && LatencyIs(jobs, e.jobs, i, c.fastest.value);
      var k :| 0 <= k < |jobs| && LatencyIs(jobs, e.jobs, k, c.slowest.value);
      assert jobs[i] in jobs && jobs[k] in jobs;
    }
  }

  // ------------------------------------------------------------------- merge

  datatype Merged = Refused(failure: Failure) | Recorded(evidence: Evidence, counts: Counts)

  ghost predicate RowsDefect(reg: Registration, now: int, rows: seq<Row>, f: Failure) {
    || (f.InvalidSnapshot? && (|rows| != |reg.jobs| || !DistinctRows(rows)))
    || exists row <- rows :: Defect(Expected(reg.jobs), now, row, f)
  }

  /** The failure codes of a refused snapshot name a real defect. */
  ghost predicate Explains(reg: Registration, digest: string, previous: Option<Evidence>, s: Snapshot, f: Failure) {
    || (f.DatabaseMismatch? && s.database != reg.database)
    || (f.NotReadOnly? && !s.readOnly)
    || (f.InvalidTimestamp? && s.observed.None?)
    || (f.RegistrationChanged? && previous.Some? && previous.value.digest != digest)
    || (f.InvalidEvidence? && previous.Some? && !ValidEvidence(reg, digest, previous.value))
    || (f.ClockRegressed? && previous.Some? && s.observed.Some? && s.observed.value < previous.value.last)
    || (s.observed.Some? && RowsDefect(reg, s.observed.value, s.rows, f))
    || (f.EnrollmentIncomplete? && previous.None? && exists row <- s.rows :: !Present(row))
    || (f.EnrollmentLate? && previous.None? && s.observed.Some?
       && exists j <- reg.jobs :: s.observed.value >= reg.Cutoff(j.created))
  }

  method ReadRows(reg: Registration, now: int, list: seq<Row>) returns (f: Option<Failure>, rows: map<string, Row>)
    requires Registered(reg)
    ensures f.None? <==> RowsFit(reg, now, list)
    ensures f.None? ==> rows.Keys == Expected(reg.jobs).Keys
                        && forall id <- rows :: rows[id] in list && rows[id].id == id
    ensures f.Some? ==> RowsDefect(reg, now, list, f.value)
  {
    rows := map[];
    var expected := Expected(reg.jobs);
    ExpectedEnrolls(reg.jobs);
    assert |expected| == |reg.jobs|;
    hide Expected, Registered, Enrolls, RowFits, Defect, RowFailure, DistinctRows, ReadSoFar;
    if |list| != |expected| { return Some(InvalidSnapshot), rows; }
    NothingRead(expected, now, list);
    for k := 0 to |list|
      invariant ReadSoFar(expected, now, list, k, rows)
    {
      var row := list[k];
      assert row in list;
      if row.id in rows {
        Repeat(expected, now, list, k, rows);
        return Some(InvalidSnapshot), rows;
      }
      f := RowFailure(expected, now, row);
      if f.Some? { return; }
      ReadNext(expected, now, list, k, rows);
      rows := rows[row.id := row];
    }
    AllRead(expected, now, list, rows);
    f := None;
  }

  /** The first `k` rows fit and are in the map. */
  predicate Listed(expected: map<string, int>, now: int, list: seq<Row>, k: nat, rows: map<string, Row>)
    requires k <= |list|
  {
    forall i :: 0 <= i < k ==> RowFits(expected, now, list[i]) && list[i].id in rows
  }

  /** The map holds nothing else. */
  predicate Backed(list: seq<Row>, k: nat, rows: map<string, Row>)
    requires k <= |list|
  {
    forall id <- rows :: rows[id] in list[..k] && rows[id].id == id
  }

  predicate ReadSoFar(expected: map<string, int>, now: int, list: seq<Row>, k: nat, rows: map<string, Row>) {
    && k <= |list| && |rows| == k && rows.Keys <= expected.Keys
    && DistinctRows(list[..k]) && Listed(expected, now, list, k, rows) && Backed(list, k, rows)
  }

  lemma NothingRead(expected: map<string, int>, now: int, list: seq<Row>)
    ensures ReadSoFar(expected, now, list, 0, map[])
  {
  }

  lemma ReadNext(expected: map<string, int>, now: int, list: seq<Row>, k: nat, rows: map<string, Row>)
    requires k < |list| && ReadSoFar(expected, now, list, k, rows)
    requires RowFits(expected, now, list[k]) && list[k].id !in rows
    ensures ReadSoFar(expected, now, list, k + 1, rows[list[k].id := list[k]])
  {
    assert list[k].id in expected;
    StillDistinct(expected, now, list, k, rows);
    hide RowFits, DistinctRows;
    ListedNext(expected, now, list, k, rows);
    BackedNext(list, k, rows);
    hide Listed, Backed;
    assert rows[list[k].id := list[k]].Keys == rows.Keys + {list[k].id};
  }

  lemma StillDistinct(expected: map<string, int>, now: int, list: seq<Row>, k: nat, rows: map<string, Row>)
    requires k < |list| && DistinctRows(list[..k]) && Listed(expected, now, list, k, rows) && list[k].id !in rows
    ensures DistinctRows(list[..k + 1])
  {
    hide RowFits;
    assert forall i :: 0 <= i < k ==> list[..k][i] == list[i];
  }

  lemma ListedNext(expected: map<string, int>, now: int, list: seq<Row>, k: nat, rows: map<string, Row>)
    requires k < |list| && Listed(expected, now, list, k, rows) && RowFits(expected, now, list[k])
    ensures Listed(expected, now, list, k + 1, rows[list[k].id := list[k]])
  {
    hide RowFits;
  }

  lemma BackedNext(list: seq<Row>, k: nat, rows: map<string, Row>)
    requires k < |list| && list[k].id !in rows && Backed(list, k, rows)
    ensures Backed(list, k + 1, rows[list[k].id := list[k]])
  {
    assert list[..k + 1] == list[..k] + [list[k]];
  }

  lemma AllRead(expected: map<string, int>, now: int, list: seq<Row>, rows: map<string, Row>)
    requires |list| == |expected| && ReadSoFar(expected, now, list, |list|, rows)
    ensures DistinctRows(list) && forall row <- list :: RowFits(expected, now, row)
    ensures rows.Keys == expected.Keys && forall id <- rows :: rows[id] in list && rows[id].id == id
  {
    assert list[..|list|] == list;
    hide DistinctRows, RowFits;
    Pigeonhole(rows.Keys, expected.Keys);
  }

  lemma Repeat(expected: map<string, int>, now: int, list: seq<Row>, k: nat, rows: map<string, Row>)
    requires k < |list| && ReadSoFar(expected, now, list, k, rows) && list[k].id in rows
    ensures !DistinctRows(list)
  {
    var i :| 0 <= i < k && list[..k][i] == rows[list[k].id];
    assert list[i].id == list[k].id;
  }

  /** Equally many rows without repeats cover all the enrolled jobs. */
  lemma Pigeonhole(part: set<string>, whole: set<string>)
    requires part <= whole && |part| == |whole|
    ensures part == whole
  {
    assert whole == part + (whole - part);
    assert |whole| == |part| + |whole - part|;
  }

  method CountJobs(reg: Registration, s: Snapshot, e: Evidence) returns (c: Counts)
    requires Covers(reg.jobs, e.jobs)
    ensures CountsAre(reg, s, e, c)
  {
    hide Extremes, Least, Greatest, GoodJobs, OpenJobs, PresentRows;
    var good, open, unknown, present := 0, 0, 0, 0;
    var fastest: Option<int>, slowest: Option<int> := None, None;
    NoneYet(reg, s, e);
    var jobs := reg.jobs;
    for k := 0 to |jobs|
      invariant good == |GoodJobs(jobs, e.jobs, k)| && open == |OpenJobs(reg, e.jobs, e.last, k)|
      invariant good + open + unknown == k
      invariant Extremes(jobs, e.jobs, k, fastest, slowest)
    {
      var job := jobs[k];
      NextGood(jobs, e.jobs, k);
      NextOpen(reg, e.jobs, e.last, k);
      NextExtremes(jobs, e.jobs, k, fastest, slowest);
      if e.jobs[job.id].Some? {
        var latency := e.jobs[job.id].value - job.created;
        good := good + 1;
        fastest, slowest := Least(fastest, latency), Greatest(slowest, latency);
      } else if e.last < reg.Cutoff(job.created) {
        open := open + 1;
      } else {
        unknown := unknown + 1;
      }
    }
    for k := 0 to |s.rows|
      invariant present == |PresentRows(s.rows, k)|
    {
      NextPresent(s.rows, k);
      if Present(s.rows[k]) { present := present + 1; }
    }
    return Counts(|jobs|, good, 0, unknown, open, present, |jobs| - present, good, fastest, slowest);
  }

  lemma NoneYet(reg: Registration, s: Snapshot, e: Evidence)
    requires Covers(reg.jobs, e.jobs)
    ensures |GoodJobs(reg.jobs, e.jobs, 0)| == 0 && |OpenJobs(reg, e.jobs, e.last, 0)| == 0
            && |PresentRows(s.rows, 0)| == 0
    ensures Extremes(reg.jobs, e.jobs, 0, None, None)
  {
  }

  lemma NextGood(jobs: seq<Job>, good: map<string, Option<int>>, k: nat)
    requires k < |jobs| && Covers(jobs, good)
    ensures |GoodJobs(jobs, good, k + 1)| == |GoodJobs(jobs, good, k)| + if good[jobs[k].id].Some? then 1 else 0
  {
    assert GoodJobs(jobs, good, k + 1) == GoodJobs(jobs, good, k) + if good[jobs[k].id].Some? then {k} else {};
  }

  lemma NextOpen(reg: Registration, good: map<string, Option<int>>, now: int, k: nat)
    requires k < |reg.jobs| && Covers(reg.jobs, good)
    ensures |OpenJobs(reg, good, now, k + 1)| ==
            |OpenJobs(reg, good, now, k)| + if good[reg.jobs[k].id].None? && now < reg.Cutoff(reg.jobs[k].created)
              then 1 else 0
  {
    assert OpenJobs(reg, good, now, k + 1) == OpenJobs(reg, good, now, k) +
           if good[reg.jobs[k].id].None? && now < reg.Cutoff(reg.jobs[k].created) then {k} else {};
  }

  lemma NextPresent(rows: seq<Row>, k: nat)
    requires k < |rows|
    ensures |PresentRows(rows, k + 1)| == |PresentRows(rows, k)| + if Present(rows[k]) then 1 else 0
  {
    assert PresentRows(rows, k + 1) == PresentRows(rows, k) + if Present(rows[k]) then {k} else {};
  }

  /** One observation: accepted exactly when the snapshot extends the evidence. */
  method Merge(reg: Registration, digest: string, previous: Option<Evidence>, s: Snapshot) returns (m: Merged)
    requires Registered(reg)
    ensures m.Recorded? <==> Accepts(reg, digest, previous, s)
    ensures m.Recorded? ==>
              m.evidence == NextEvidence(reg, digest, previous, s) && CountsAre(reg, s, m.evidence, m.counts)
    ensures m.Recorded? ==> LatenciesInRange(reg, m.counts)
    ensures m.Refused? ==> Explains(reg, digest, previous, s, m.failure)
  {
    hide Expected, Registered, RowsFit, RowsDefect, GoodAfter, Before, ValidEvidence, CountsAre, Covers;
    if s.database != reg.database { return Refused(DatabaseMismatch); }
    if !s.readOnly { return Refused(NotReadOnly); }
    if s.observed.None? { return Refused(InvalidTimestamp); }
    var now := s.observed.value;
    if previous.Some? {
      var f := ValidateEvidence(reg, digest, previous.value);
      if f.Some? { return Refused(f.value); }
      if now < previous.value.last { return Refused(ClockRegressed); }
    }
    var f, rows := ReadRows(reg, now, s.rows);
    if f.Some? { return Refused(f.value); }
    if previous.None? {
      if exists i :: 0 <= i < |s.rows| && !Present(s.rows[i]) { return Refused(EnrollmentIncomplete); }
      if exists i :: 0 <= i < |reg.jobs| && now >= reg.Cutoff(reg.jobs[i].created) { return Refused(EnrollmentLate); }
    }
    var good := FillGood(reg, previous, s, rows);
    var evidence := Evidence(digest, if previous.Some? then previous.value.first else now, now,
                             if previous.Some? then previous.value.observations + 1 else 1, good);
    assert evidence == NextEvidence(reg, digest, previous, s);
    var counts := CountJobs(reg, s, evidence);
    MergedIsValid(reg, digest, previous, s);
    ValidLatencies(reg, digest, s, evidence, counts);
    return Recorded(evidence, counts);
  }

  method FillGood(reg: Registration, previous: Option<Evidence>, s: Snapshot, rows: map<string, Row>)
    returns (good: map<string, Option<int>>)
    requires Registered(reg) && s.observed.Some? && RowsFit(reg, s.observed.value, s.rows)
    requires rows.Keys == Expected(reg.jobs).Keys && forall id <- rows :: rows[id] in s.rows && rows[id].id == id
    requires previous.Some? ==> ValidEvidence(reg, previous.value.digest, previous.value)
    ensures good == map id | id in Expected(reg.jobs) :: GoodAfter(reg, Before(previous, id), s, id)
    ensures Covers(reg.jobs, good)
  {
    hide FillOne, FilledTo, DistinctRows, Registered, RowsFit, ValidEvidence, Expected, GoodAfter, Before, Covers;
    RowsAreDistinct(reg, previous, s);
    good := StartGood(reg, previous);
    NothingFilled(reg, previous, s, good);
    for k := 0 to |reg.jobs|
      invariant FilledTo(reg, previous, s, good, k)
    {
      var job := reg.jobs[k];
      assert job in reg.jobs;
      InExpected(reg, job);
      FillNext(reg, previous, s, good, k, rows[job.id]);
      good := FillOne(reg, good, s, job, rows[job.id]);
    }
    AllFilled(reg, previous, s, good);
  }

  /** What the loop over the jobs starts from. */
  lemma RowsAreDistinct(reg: Registration, previous: Option<Evidence>, s: Snapshot)
    requires s.observed.Some? && RowsFit(reg, s.observed.value, s.rows)
    requires previous.Some? ==> ValidEvidence(reg, previous.value.digest, previous.value)
    ensures DistinctRows(s.rows)
    ensures previous.Some? ==> previous.value.jobs.Keys == Expected(reg.jobs).Keys
  {
    hide Expected, DistinctRows;
  }

  /** The good times after looking at one job's row. */
  function FillOne(reg: Registration, good: map<string, Option<int>>, s: Snapshot, job: Job,
                   row: Row): map<string, Option<int>>
    requires s.observed.Some?
  {
    if job.id in good && good[job.id].None? && row.job.Completed? && row.novel.Ready?
      && s.observed.value <= reg.Cutoff(job.created)
    then good[job.id := s.observed]
    else good
  }

  ghost predicate FilledTo(reg: Registration, previous: Option<Evidence>, s: Snapshot, good: map<string, Option<int>>,
                           k: nat) {
    && k <= |reg.jobs| && good.Keys == Expected(reg.jobs).Keys
    && (forall i :: 0 <= i < k ==> GoodIs(reg, previous, s, good, i))
    && forall i :: k <= i < |reg.jobs| ==>
       reg.jobs[i].id in good && good[reg.jobs[i].id] == Before(previous, reg.jobs[i].id)
  }

  lemma InExpected(reg: Registration, job: Job)
    requires Registered(reg) && job in reg.jobs
    ensures job.id in Expected(reg.jobs)
  {
    ExpectedEnrolls(reg.jobs);
  }

  lemma NothingFilled(reg: Registration, previous: Option<Evidence>, s: Snapshot, good: map<string, Option<int>>)
    requires good.Keys == Expected(reg.jobs).Keys
    requires forall j <- reg.jobs :: j.id in good && good[j.id] == Before(previous, j.id)
    ensures FilledTo(reg, previous, s, good, 0)
  {
    hide Expected, Before;
  }

  lemma FillNext(reg: Registration, previous: Option<Evidence>, s: Snapshot, good: map<string, Option<int>>, k: nat,
                 row: Row)
    requires Registered(reg) && s.observed.Some? && DistinctRows(s.rows)
    requires k < |reg.jobs| && FilledTo(reg, previous, s, good, k) && row in s.rows && row.id == reg.jobs[k].id
    ensures FilledTo(reg, previous, s, FillOne(reg, good, s, reg.jobs[k], row), k + 1)
  {
    var job := reg.jobs[k];
    OnlyRow(s, row);
    StepGood(reg, good[job.id], s, job);
    assert forall i :: 0 <= i < |reg.jobs| && i != k ==> reg.jobs[i].id != job.id;
    hide Registered, DistinctRows, Expected, Before, ShowsReady, GoodAfter;
    var next := FillOne(reg, good, s, job, row);
    forall i | 0 <= i < k + 1
      ensures GoodIs(reg, previous, s, next, i)
    {
      if i < k { assert GoodIs(reg, previous, s, good, i); }
    }
  }

  lemma AllFilled(reg: Registration, previous: Option<Evidence>, s: Snapshot, good: map<string, Option<int>>)
    requires FilledTo(reg, previous, s, good, |reg.jobs|)
    ensures good == map id | id in Expected(reg.jobs) :: GoodAfter(reg, Before(previous, id), s, id)
    ensures Covers(reg.jobs, good)
  {
    forall i | 0 <= i < |reg.jobs|
      ensures reg.jobs[i].id in good
    {
      assert GoodIs(reg, previous, s, good, i);
    }
    forall id | id in Expected(reg.jobs)
      ensures good[id] == GoodAfter(reg, Before(previous, id), s, id)
    {
      var i := JobOf(reg.jobs, id);
      assert GoodIs(reg, previous, s, good, i);
    }
  }

  predicate GoodIs(reg: Registration, previous: Option<Evidence>, s: Snapshot, good: map<string, Option<int>>, i: nat)
    requires i < |reg.jobs|
  {
    var id := reg.jobs[i].id;
    id in good && id in Expected(reg.jobs) && good[id] == GoodAfter(reg, Before(previous, id), s, id)
  }

  method StartGood(reg: Registration, previous: Option<Evidence>) returns (good: map<string, Option<int>>)
    requires Registered(reg) && (previous.Some? ==> previous.value.jobs.Keys == Expected(reg.jobs).Keys)
    ensures good.Keys == Expected(reg.jobs).Keys
    ensures forall id <- good :: good[id] == Before(previous, id)
    ensures forall j <- reg.jobs :: j.id in good && good[j.id] == Before(previous, j.id)
  {
    ExpectedEnrolls(reg.jobs);
    good := if previous.Some? then previous.value.jobs else map id | id in Expected(reg.jobs) :: None;
  }

  lemma StepGood(reg: Registration, before: Option<int>, s: Snapshot, job: Job)
    requires Registered(reg) && job in reg.jobs && s.observed.Some?
    ensures job.id in Expected(reg.jobs)
    ensures GoodAfter(reg, before, s, job.id) ==
            if before.None? && ShowsReady(s, job.id) && s.observed.value <= reg.Cutoff(job.created)
              then s.observed else before
  {
    ExpectedEnrolls(reg.jobs);
  }

  lemma OnlyRow(s: Snapshot, row: Row)
    requires DistinctRows(s.rows) && row in s.rows
    ensures ShowsReady(s, row.id) <==> row.job.Completed? && row.novel.Ready?
  {
  }

  // --------------------------------------------------------------- the fold

  /** The evidence a run of observations leaves. */
  ghost function EvidenceAfter(reg: Registration, digest: string, run: seq<Snapshot>): Option<Evidence>
    decreases |run|
  {
    if run == [] || run[|run| - 1].observed.None? then None
    else Some(NextEvidence(reg, digest, EvidenceAfter(reg, digest, run[..|run| - 1]), run[|run| - 1]))
  }

  ghost predicate AcceptedRun(reg: Registration, digest: string, run: seq<Snapshot>)
    decreases |run|
  {
    run == []
    || (AcceptedRun(reg, digest, run[..|run| - 1])
        && Accepts(reg, digest, EvidenceAfter(reg, digest, run[..|run| - 1]), run[|run| - 1]))
  }

  /** The evidence file: each observation reads it and replaces it whole. */
  class EvidenceFile {
    const reg: Registration
    const digest: string
    var saved: Option<Evidence>
    ghost var run: seq<Snapshot>

    ghost predicate Valid()
      reads this
    {
      Registered(reg) && AcceptedRun(reg, digest, run) && saved == EvidenceAfter(reg, digest, run)
    }

    constructor (reg: Registration, digest: string)
      requires Registered(reg)
      ensures Valid() && run == [] && this.reg == reg && this.digest == digest
    {
      this.reg, this.digest, saved, run := reg, digest, None, [];
    }

    method Observe(s: Snapshot) returns (m: Merged)
      requires Valid()
      modifies this
      ensures Valid()
      ensures m.Recorded? <==> Accepts(reg, digest, old(saved), s)
      ensures run == if m.Recorded? then old(run) + [s] else old(run)
      ensures m.Recorded? ==>
                saved == Some(m.evidence) && CountsAre(reg, s, m.evidence, m.counts)
                && LatenciesInRange(reg, m.counts)
    {
      hide Registered, Accepts, NextEvidence, CountsAre, Explains;
      m := Merge(reg, digest, saved, s);
      if m.Recorded? {
        HasTime(reg, digest, saved, s);
        saved := Some(m.evidence);
        run := run + [s];
        assert run[..|run| - 1] == old(run);
      }
    }
  }

  lemma HasTime(reg: Registration, digest: string, previous: Option<Evidence>, s: Snapshot)
    requires Accepts(reg, digest, previous, s)
    ensures s.observed.Some?
  {
  }

  /** What the merge records passes the validation of the next observation. */
  lemma MergedIsValid(reg: Registration, digest: string, previous: Option<Evidence>, s: Snapshot)
    requires Registered(reg) && Accepts(reg, digest, previous, s)
    ensures ValidEvidence(reg, digest, NextEvidence(reg, digest, previous, s))
  {
    ExpectedEnrolls(reg.jobs);
    var e := NextEvidence(reg, digest, previous, s);
    assert forall j <- reg.jobs :: j.id in Expected(reg.jobs) && Expected(reg.jobs)[j.id] == j.created;
    hide Expected, RowsFit, ShowsReady;
    if previous.None? {
      OriginsBefore(reg, s);
    }
    forall j | j in reg.jobs
      ensures j.id in e.jobs && JobSound(reg, e, j.created, e.jobs[j.id])
    {
    }
  }

  /** The rows cover every job, so every origin has passed. */
  lemma OriginsBefore(reg: Registration, s: Snapshot)
    requires Registered(reg) && s.observed.Some? && RowsFit(reg, s.observed.value, s.rows)
    ensures forall j <- reg.jobs :: j.created <= s.observed.value
  {
    ExpectedEnrolls(reg.jobs);
    var expected := Expected(reg.jobs);
    var ids := RowIds(s.rows);
    assert forall j <- reg.jobs :: j.id in expected && expected[j.id] == j.created;
    assert |expected| == |reg.jobs|;
    hide Expected, Enrolls, Registered;
    RowIdsAre(s.rows);
    assert ids <= expected.Keys;
    Pigeonhole(ids, expected.Keys);
    forall j | j in reg.jobs
      ensures j.created <= s.observed.value
    {
      assert j.id in ids;
    }
  }

  function RowIds(rows: seq<Row>): set<string> {
    if rows == [] then {} else RowIds(rows[..|rows| - 1]) + {rows[|rows| - 1].id}
  }

  lemma {:induction false} RowIdsAre(rows: seq<Row>)
    requires DistinctRows(rows)
    ensures |RowIds(rows)| == |rows|
    ensures forall id <- RowIds(rows) :: exists row <- rows :: row.id == id
  {
    if rows != [] {
      var init, last := rows[..|rows| - 1], rows[|rows| - 1];
      RowIdsAre(init);
      assert last.id !in RowIds(init) by {
        assert forall i :: 0 <= i < |init| ==> init[i] == rows[i];
      }
      assert last in rows && forall row <- init :: row in rows;
    }
  }

  lemma RunIsValid(reg: Registration, digest: string, run: seq<Snapshot>)
    requires Registered(reg) && AcceptedRun(reg, digest, run) && run != []
    ensures EvidenceAfter(reg, digest, run).Some? && ValidEvidence(reg, digest, EvidenceAfter(reg, digest, run).value)
    ensures EvidenceAfter(reg, digest, run).value.last == run[|run| - 1].observed.value
  {
    MergedIsValid(reg, digest, EvidenceAfter(reg, digest, run[..|run| - 1]), run[|run| - 1]);
  }

  lemma {:induction false} AcceptedPrefix(reg: Registration, digest: string, run: seq<Snapshot>, n: nat)
    requires AcceptedRun(reg, digest, run) && n <= |run|
    ensures AcceptedRun(reg, digest, run[..n])
    decreases |run|
  {
    if n < |run| {
      AcceptedPrefix(reg, digest, run[..|run| - 1], n);
      assert run[..|run| - 1][..n] == run[..n];
    } else {
      assert run[..n] == run;
    }
  }

  /** Observation times never go back within an accepted run. */
  lemma {:induction false} TimesGrow(reg: Registration, digest: string, run: seq<Snapshot>, i: nat, j: nat)
    requires Registered(reg) && AcceptedRun(reg, digest, run) && i <= j < |run|
    ensures run[i].observed.Some? && run[j].observed.Some? && run[i].observed.value <= run[j].observed.value
    decreases j - i, |run|
  {
    AcceptedPrefix(reg, digest, run, j + 1);
    var init := run[..j];
    assert run[..j + 1][..j] == init && run[..j + 1][j] == run[j];
    if i < j {
      TimesGrow(reg, digest, run, i, j - 1);
      AcceptedPrefix(reg, digest, run, j);
      RunIsValid(reg, digest, init);
    }
  }

  /** The first observation, in order, that shows the job good in time. */
  function FirstOnTime(reg: Registration, run: seq<Snapshot>, id: string): Option<int>
    requires id in Expected(reg.jobs)
  {
    if run == [] then None
    else if OnTime(reg, run[0], id) then run[0].observed
    else FirstOnTime(reg, run[1..], id)
  }

  lemma {:induction false} FirstOnTimeSnoc(reg: Registration, run: seq<Snapshot>, s: Snapshot, id: string)
    requires id in Expected(reg.jobs)
    ensures FirstOnTime(reg, run + [s], id) == GoodAfter(reg, FirstOnTime(reg, run, id), s, id)
  {
    hide ShowsReady, Expected;
    if run == [] {
      assert [] + [s] == [s] && [s][1..] == [];
    } else {
      assert (run + [s])[1..] == run[1..] + [s];
      FirstOnTimeSnoc(reg, run[1..], s, id);
    }
  }

  /** The incremental merge computes the declarative earliest time. */
  lemma {:induction false} FoldIsFirstOnTime(reg: Registration, digest: string, run: seq<Snapshot>, id: string)
    requires Registered(reg) && AcceptedRun(reg, digest, run) && id in Expected(reg.jobs)
    ensures Before(EvidenceAfter(reg, digest, run), id) == FirstOnTime(reg, run, id)
  {
    if run != [] {
      var init, last := run[..|run| - 1], run[|run| - 1];
      assert last.observed.Some?;
      hide Accepts, OnTime, Registered;
      FoldIsFirstOnTime(reg, digest, init, id);
      assert run == init + [last];
      FirstOnTimeSnoc(reg, init, last, id);
    }
  }

  lemma {:induction false} FirstOnTimeIs(reg: Registration, run: seq<Snapshot>, id: string) returns (k: nat)
    requires id in Expected(reg.jobs)
    ensures k <= |run| && forall i :: 0 <= i < k ==> !OnTime(reg, run[i], id)
    ensures FirstOnTime(reg, run, id) == if k < |run| then run[k].observed else None
    ensures k < |run| ==> OnTime(reg, run[k], id)
  {
    hide OnTime, Expected;
    if run == [] || OnTime(reg, run[0], id) {
      k := 0;
    } else {
      k := FirstOnTimeIs(reg, run[1..], id);
      assert forall i :: 0 <= i < |run| - 1 ==> run[1..][i] == run[i + 1];
      k := k + 1;
    }
  }

  /** A job is good exactly when some observation of the run showed it completed
      and ready in time, and its good time is the earliest such time. */
  lemma GoodIsEarliest(reg: Registration, digest: string, run: seq<Snapshot>, id: string, t: int)
    requires Registered(reg) && AcceptedRun(reg, digest, run) && id in Expected(reg.jobs)
    ensures Before(EvidenceAfter(reg, digest, run), id) == Some(t) <==>
            && (exists i :: 0 <= i < |run| && OnTime(reg, run[i], id) && run[i].observed == Some(t))
            && (forall i :: 0 <= i < |run| && OnTime(reg, run[i], id) ==> t <= run[i].observed.value)
  {
    FoldIsFirstOnTime(reg, digest, run, id);
    var k := FirstOnTimeIs(reg, run, id);
    forall i | k <= i < |run|
      ensures run[k].observed.Some? && run[i].observed.Some? && run[k].observed.value <= run[i].observed.value
    {
      TimesGrow(reg, digest, run, k, i);
    }
    hide ShowsReady, Expected, AcceptedRun, EvidenceAfter, Before, FirstOnTime;
  }

  /** A good time never changes once set. */
  lemma GoodNeverChanges(reg: Registration, digest: string, run: seq<Snapshot>, n: nat, id: string)
    requires Registered(reg) && AcceptedRun(reg, digest, run) && n <= |run| && id in Expected(reg.jobs)
    requires Before(EvidenceAfter(reg, digest, run[..n]), id).Some?
    ensures Before(EvidenceAfter(reg, digest, run), id) == Before(EvidenceAfter(reg, digest, run[..n]), id)
  {
    AcceptedPrefix(reg, digest, run, n);
    FoldIsFirstOnTime(reg, digest, run[..n], id);
    FoldIsFirstOnTime(reg, digest, run, id);
    hide EvidenceAfter, AcceptedRun, Registered, Expected, OnTime;
    FirstOfPrefix(reg, run, n, id);
  }

  lemma {:induction false} FirstOfPrefix(reg: Registration, run: seq<Snapshot>, n: nat, id: string)
    requires n <= |run| && id in Expected(reg.jobs) && FirstOnTime(reg, run[..n], id).Some?
    ensures FirstOnTime(reg, run, id) == FirstOnTime(reg, run[..n], id)
  {
    hide OnTime, Expected;
    if n > 0 && !OnTime(reg, run[0], id) {
      assert run[1..][..n - 1] == run[..n][1..];
      FirstOfPrefix(reg, run[1..], n - 1, id);
    }
  }

  /** Not good, and the cutoff has come. */
  ghost predicate Unknown(reg: Registration, e: Option<Evidence>, id: string)
    requires id in Expected(reg.jobs)
  {
    e.Some? && Before(e, id).None? && e.value.last >= reg.Cutoff(Expected(reg.jobs)[id])
  }

  /** A job that is not good strictly past its cutoff stays unknown forever. */
  lemma UnknownForever(reg: Registration, digest: string, run: seq<Snapshot>, n: nat, id: string)
    requires Registered(reg) && AcceptedRun(reg, digest, run) && 0 < n <= |run| && id in Expected(reg.jobs)
    requires Before(EvidenceAfter(reg, digest, run[..n]), id).None?
    requires run[n - 1].observed.Some? && run[n - 1].observed.value > reg.Cutoff(Expected(reg.jobs)[id])
    ensures Unknown(reg, EvidenceAfter(reg, digest, run), id)
  {
    hide EvidenceAfter, AcceptedRun, Registered, Expected, ShowsReady, ValidEvidence, FirstOnTime;
    AcceptedPrefix(reg, digest, run, n);
    FoldIsFirstOnTime(reg, digest, run[..n], id);
    FoldIsFirstOnTime(reg, digest, run, id);
    RunIsValid(reg, digest, run);
    forall i | n <= i < |run|
      ensures !OnTime(reg, run[i], id)
    {
      TimesGrow(reg, digest, run, n - 1, i);
    }
    TimesGrow(reg, digest, run, n - 1, |run| - 1);
    hide OnTime;
    NoneLater(reg, run, n, id);
  }

  lemma {:induction false} NoneLater(reg: Registration, run: seq<Snapshot>, n: nat, id: string)
    requires n <= |run| && id in Expected(reg.jobs) && FirstOnTime(reg, run[..n], id).None?
    requires forall i :: n <= i < |run| ==> !OnTime(reg, run[i], id)
    ensures FirstOnTime(reg, run, id).None?
  {
    hide ShowsReady, Expected;
    if run != [] {
      if n > 0 { assert run[1..][..n - 1] == run[..n][1..]; }
      NoneLater(reg, run[1..], if n > 0 then n - 1 else 0, id);
    }
  }

  /** Strictly: at the cutoff itself an unknown job can still turn good. */
  lemma UnknownCanTurnGood(reg: Registration, digest: string, id: string, start: Snapshot, waiting: Snapshot,
                           done: Snapshot)
    requires reg == Registration("db", 1, [Job(id, 0)])
    requires start == Snapshot("db", true, Some(0), [Row(id, At(0), Pending, Parsing)])
    requires waiting == start.(observed := Some(SECOND))
    requires done == Snapshot("db", true, Some(SECOND), [Row(id, At(0), Completed, Ready)])
    ensures Registered(reg) && AcceptedRun(reg, digest, [start, waiting, done]) && id in Expected(reg.jobs)
    ensures Unknown(reg, EvidenceAfter(reg, digest, [start, waiting]), id)
    ensures Before(EvidenceAfter(reg, digest, [start, waiting, done]), id) == Some(SECOND)
  {
    OnlyJob(reg, id);
    hide Registered, AcceptedRun, EvidenceAfter, Before, Expected;
    var none: seq<Snapshot> := [];
    Extends(reg, digest, none, start, id);
    assert none + [start] == [start];
    Extends(reg, digest, [start], waiting, id);
    assert [start] + [waiting] == [start, waiting];
    Extends(reg, digest, [start, waiting], done, id);
    assert [start, waiting] + [done] == [start, waiting, done];
    assert done.rows[0] in done.rows && ShowsReady(done, id);
  }

  lemma OnlyJob(reg: Registration, id: string)
    requires reg == Registration("db", 1, [Job(id, 0)])
    ensures Registered(reg) && Expected(reg.jobs) == map[id := 0]
    ensures forall digest :: AcceptedRun(reg, digest, []) && Before(EvidenceAfter(reg, digest, []), id) == None
  {
    assert reg.jobs[..0] == [];
  }

  /** Appending an acceptable snapshot of a one-job registration. */
  lemma Extends(reg: Registration, digest: string, run: seq<Snapshot>, s: Snapshot, id: string)
    requires Registered(reg) && reg.jobs == [Job(id, 0)] && AcceptedRun(reg, digest, run)
    requires s.database == reg.database && s.readOnly && s.observed.Some? && s.observed.value >= 0
    requires |s.rows| == 1 && s.rows[0].id == id && s.rows[0].created == At(0) && Recognized(s.rows[0])
             && Present(s.rows[0])
    requires run == [] ==> s.observed.value < reg.Cutoff(0)
    requires run != [] ==> run[|run| - 1].observed.Some? && run[|run| - 1].observed.value <= s.observed.value
    ensures AcceptedRun(reg, digest, run + [s]) && id in Expected(reg.jobs)
    ensures EvidenceAfter(reg, digest, run + [s]).Some?
            && EvidenceAfter(reg, digest, run + [s]).value.last == s.observed.value
    ensures Before(EvidenceAfter(reg, digest, run + [s]), id) ==
            GoodAfter(reg, Before(EvidenceAfter(reg, digest, run), id), s, id)
  {
    ExpectedEnrolls(reg.jobs);
    assert reg.jobs[0] in reg.jobs;
    if run != [] { RunIsValid(reg, digest, run); }
    assert (run + [s])[..|run|] == run;
    hide ValidEvidence, ShowsReady;
    assert RowsFit(reg, s.observed.value, s.rows);
  }
}
