/** The schedule catalog (crates/asmodeus-control-plane/src/scheduler.rs): claims, outcomes, detection
    feedback, the alert ring, and the retry of outcomes whose write failed. Timestamps are not carried. A
    drift factor is kept as its two operands and compared exactly. Which job the hash table yields next is
    an input, `order`. */
module Scheduler {
  import opened Wrappers
  import opened Records
  import opened Text

  const MAX_HISTORY_PER_JOB: nat := 50
  const MAX_ALERTS: nat := 200
  const U64_MAX: nat := 0xFFFF_FFFF_FFFF_FFFF

  datatype Factor = Factor(observed: nat, baseline: nat)

  datatype Sample = Sample(
    runId: Option<string>, feedback: bool, detected: Option<bool>, status: string,
    mttd: nat, drift: bool, factor: Option<Factor>)

  datatype Job = Job(
    generation: string, id: string, scenarioId: string, interval: nat, enabled: bool,
    lastEpoch: Option<nat>, lastStatus: Option<string>, lastRunId: Option<string>, lastMttd: Option<nat>,
    baseline: Option<nat>, drift: bool, missed: bool, factor: Option<Factor>, history: seq<Sample>)

  datatype Alert = Alert(
    missed: bool, number: nat, jobId: string, scenarioId: string, baseline: Option<nat>,
    observed: nat, factor: Option<Factor>)

  datatype Catalog = Catalog(jobs: map<string, Job>, alerts: seq<Alert>, alertSeq: nat)

  datatype PendingOutcome = PendingOutcome(jobId: string, generation: string, runId: Option<string>, status: string)

  function SaturatingAdd(a: nat, b: nat): nat { if a + b > U64_MAX then U64_MAX else a + b }

  /** The last n elements. */
  function LastOf<T>(s: seq<T>, n: nat): (r: seq<T>)
    ensures |r| == if |s| < n then |s| else n
    ensures r == s[|s| - |r|..]
  {
    if |s| > n then s[|s| - n..] else s
  }

  // ----- claims, outcomes, recovery -----

  predicate Due(job: Job, now: nat) {
    && job.enabled && job.lastStatus != Some("RUNNING")
    && (job.lastEpoch.None? || now >= SaturatingAdd(job.lastEpoch.value, job.interval))
  }

  function Claimed(job: Job, now: nat): Job {
    job.(lastEpoch := Some(now), lastStatus := Some("RUNNING"))
  }

  function AfterClaims(jobs: map<string, Job>, now: nat): map<string, Job> {
    map id | id in jobs :: if Due(jobs[id], now) then Claimed(jobs[id], now) else jobs[id]
  }

  function DueIds(jobs: map<string, Job>, now: nat): set<string> {
    set id | id in jobs && Due(jobs[id], now)
  }

  /** The claimed jobs in id order. */
  ghost predicate ClaimedInOrder(jobs: map<string, Job>, now: nat, due: seq<Job>) {
    var ids := SortedIds(DueIds(jobs, now));
    |due| == |ids| && forall i | 0 <= i < |ids| :: ids[i] in jobs && due[i] == Claimed(jobs[ids[i]], now)
  }

  function OutcomeSample(job: Job, p: PendingOutcome): Sample {
    Sample(p.runId, false, None, p.status, 0, job.drift, None)
  }

  predicate IsCurrent(jobs: map<string, Job>, p: PendingOutcome) {
    p.jobId in jobs && jobs[p.jobId].generation == p.generation
  }

  function Ended(job: Job, p: PendingOutcome): Job {
    if p.status == "SKIPPED" then job.(lastStatus := Some(p.status))
    else job.(lastStatus := Some(p.status), lastRunId := p.runId, lastMttd := None,
              history := LastOf(job.history + [OutcomeSample(job, p)], MAX_HISTORY_PER_JOB))
  }

  function AfterOutcome(jobs: map<string, Job>, p: PendingOutcome): map<string, Job> {
    if IsCurrent(jobs, p) then jobs[p.jobId := Ended(jobs[p.jobId], p)] else jobs
  }

  function RecoveredJob(job: Job): Job {
    if job.lastStatus == Some("RUNNING") then job.(lastStatus := Some("INTERRUPTED")) else job
  }

  function AfterRecovery(jobs: map<string, Job>): map<string, Job> {
    map id | id in jobs :: RecoveredJob(jobs[id])
  }

  /** The job has to run: it is enabled, not running, and its interval has passed since its last claim; the sum
      stops at the largest 64-bit number. */
  predicate MustRun(job: Job, now: nat) {
    && job.enabled && job.lastStatus != Some("RUNNING")
    && match job.lastEpoch
       case None => true
       case Some(last) => last + job.interval <= now || 18446744073709551615 <= now
  }

  /** The table after all jobs that have to run were claimed. */
  ghost predicate ClaimsMade(before: map<string, Job>, after: map<string, Job>, now: nat) {
    && after.Keys == before.Keys
    && forall id | id in before ::
         after[id] == if MustRun(before[id], now) then before[id].(lastEpoch := Some(now), lastStatus := Some("RUNNING")) else before[id]
  }

  /** The claimed jobs, each once, in the order of their table keys. */
  ghost predicate ListsClaims(before: map<string, Job>, after: map<string, Job>, now: nat, due: seq<Job>) {
    var ids := SortedIds(set id | id in before && MustRun(before[id], now));
    |due| == |ids| && forall i | 0 <= i < |ids| :: ids[i] in after && due[i] == after[ids[i]]
  }

  lemma MustRunIsDue(job: Job, now: nat)
    ensures MustRun(job, now) <==> Due(job, now)
  {
  }

  lemma ClaimsExactly(before: map<string, Job>, now: nat, due: seq<Job>)
    requires ClaimedInOrder(before, now, due)
    ensures ClaimsMade(before, AfterClaims(before, now), now)
    ensures ListsClaims(before, AfterClaims(before, now), now, due)
  {
    hide Due, MustRun, Less, SortedIds;
    forall id | id in before { MustRunIsDue(before[id], now); }
    assert (set id | id in before && MustRun(before[id], now)) == DueIds(before, now);
    var ids := SortedIds(DueIds(before, now));
    forall i | 0 <= i < |ids| ensures ids[i] in AfterClaims(before, now) && due[i] == AfterClaims(before, now)[ids[i]] {
      assert ids[i] in ids;
    }
  }

  /** What a committed outcome makes of the table: nothing, unless its job is still the one it was claimed for. */
  lemma OutcomeExactly(jobs: map<string, Job>, p: PendingOutcome)
    ensures var after := AfterOutcome(jobs, p);
            if p.jobId !in jobs || jobs[p.jobId].generation != p.generation then after == jobs
            else
              && p.jobId in after && after == jobs[p.jobId := after[p.jobId]]
              && var a, b := jobs[p.jobId], after[p.jobId];
                 if p.status == "SKIPPED" then b == a.(lastStatus := Some("SKIPPED"))
                 else
                   var all := a.history + [Sample(p.runId, false, None, p.status, 0, a.drift, None)];
                   && b == a.(lastStatus := Some(p.status), lastRunId := p.runId, lastMttd := None, history := b.history)
                   && b.history == if |all| <= 50 then all else all[|all| - 50..]
  {
  }

  /** What recovery makes of the table: running jobs are INTERRUPTED, the rest stays. */
  lemma RecoveryExactly(jobs: map<string, Job>, id: string)
    ensures var after := AfterRecovery(jobs);
            && after.Keys == jobs.Keys
            && (id in jobs ==> after[id] == if jobs[id].lastStatus == Some("RUNNING") then jobs[id].(lastStatus := Some("INTERRUPTED"))
                                            else jobs[id])
  {
  }

  // ----- feedback -----

  predicate ConfirmedFeedback(record: AuditRecord) {
    && Terminal(record.status)
    && record.evidence.Some? && record.evidence.value.mode == RunnerMode && record.evidence.value.feedbackReceived
  }

  /** The first sample of a run, or the length of the history. */
  function SampleOf(history: seq<Sample>, runId: string): (i: nat)
    ensures i <= |history|
    ensures i < |history| ==> history[i].runId == Some(runId)
    ensures forall j | 0 <= j < i :: history[j].runId != Some(runId)
  {
    if history == [] then 0 else if history[0].runId == Some(runId) then 0 else 1 + SampleOf(history[1..], runId)
  }

  function ObservedMttd(record: AuditRecord): nat {
    if record.measurements.detected then record.measurements.mttdMs else 0
  }

  predicate AlreadyHeard(s: Sample, record: AuditRecord) {
    s.feedback && s.mttd == ObservedMttd(record) && s.detected == Some(record.measurements.detected)
  }

  function WithBaseline(job: Job, mttd: nat): Option<nat> {
    if job.baseline.None? && mttd > 0 then Some(mttd) else job.baseline
  }

  function FactorOf(baseline: Option<nat>, mttd: nat): Option<Factor> {
    if baseline.Some? && baseline.value > 0 then Some(Factor(mttd, baseline.value)) else None
  }

  /** At least one and a half times the baseline. */
  predicate Excessive(f: Option<Factor>) {
    f.Some? && 2 * f.value.observed >= 3 * f.value.baseline
  }

  /** The job once its latest run has been judged; its sample is at position i. */
  function Judged(job: Job, record: AuditRecord, i: nat): Job
    requires i < |job.history|
  {
    var mttd := ObservedMttd(record);
    var baseline := WithBaseline(job, mttd);
    var factor := FactorOf(baseline, mttd);
    var missed := !record.measurements.detected;
    var drift := missed || Excessive(factor);
    var shown := if missed then None else factor;
    job.(lastMttd := if missed then None else Some(mttd), baseline := baseline, missed := missed, drift := drift,
         factor := shown,
         history := job.history[i := job.history[i].(feedback := true, detected := Some(!missed), mttd := mttd,
                                                     drift := drift, factor := shown)])
  }

  function Attached(job: Job, record: AuditRecord, i: nat): Job
    requires i < |job.history|
  {
    job.(history := job.history[i := job.history[i].(
           feedback := true, detected := Some(record.measurements.detected), mttd := ObservedMttd(record))])
  }

  /** Feedback on a run of this job: nothing new, attached to an old run, or judged. */
  function HeardJob(job: Job, record: AuditRecord): Job {
    var i := SampleOf(job.history, record.runId);
    if i == |job.history| || AlreadyHeard(job.history[i], record) then job
    else if job.lastRunId != Some(record.runId) then Attached(job, record, i)
    else Judged(job, record, i)
  }

  /** The job enters a degraded state, or newly misses a detection. */
  predicate Raises(before: Job, after: Job) {
    after.drift && (!before.drift || (after.missed && !before.missed))
  }

  function AlertFor(job: Job, record: AuditRecord, number: nat): Alert {
    Alert(job.missed, number, job.id, job.scenarioId, job.baseline, ObservedMttd(record),
          FactorOf(job.baseline, ObservedMttd(record)))
  }

  function HeardAt(c: Catalog, id: string, record: AuditRecord): Catalog {
    if id !in c.jobs then c
    else
      var before := c.jobs[id];
      var after := HeardJob(before, record);
      var jobs := c.jobs[id := after];
      if Raises(before, after)
      then Catalog(jobs, LastOf(c.alerts + [AlertFor(after, record, c.alertSeq + 1)], MAX_ALERTS), c.alertSeq + 1)
      else c.(jobs := jobs)
  }

  function HeardIn(c: Catalog, order: seq<string>, record: AuditRecord): Catalog
    decreases order
  {
    if order == [] then c else HeardIn(HeardAt(c, order[0], record), order[1..], record)
  }

  function AfterFeedback(c: Catalog, order: seq<string>, record: AuditRecord): Catalog {
    if ConfirmedFeedback(record) then HeardIn(c, order, record) else c
  }

  predicate Enumerates(order: seq<string>, jobs: map<string, Job>) {
    && (forall id | id in order :: id in jobs)
    && (forall id | id in jobs :: id in order)
    && (forall i, j | 0 <= i < j < |order| :: order[i] != order[j])
  }

  lemma BaselineIs(job: Job, mttd: nat)
    ensures WithBaseline(job, mttd) == if job.baseline.None? && mttd > 0 then Some(mttd) else job.baseline
  {
  }

  /** Judges the latest run of a job by the feedback on its sample at position i. */
  method Judge(before: Job, record: AuditRecord, i: nat) returns (job: Job, raises: bool, factor: Option<Factor>)
    requires i < |before.history|
    ensures job == Judged(before, record, i) && raises == Raises(before, job)
    ensures factor == FactorOf(job.baseline, ObservedMttd(record))
  {
    hide ObservedMttd, FactorOf, Excessive, WithBaseline;
    job := before;
    var mttd := ObservedMttd(record);
    BaselineIs(job, mttd);
    var sample := job.history[i].(feedback := true, detected := Some(record.measurements.detected), mttd := mttd);
    job := job.(lastMttd := if record.measurements.detected then Some(mttd) else None);
    if job.baseline.None? && mttd > 0 { job := job.(baseline := Some(mttd)); }
    factor := FactorOf(job.baseline, mttd);
    var wasDrifting, wasMissed := job.drift, job.missed;
    job := job.(missed := !record.measurements.detected);
    job := job.(drift := job.missed || Excessive(factor));
    job := job.(factor := if record.measurements.detected then factor else None);
    sample := sample.(drift := job.drift, factor := job.factor);
    job := job.(history := job.history[i := sample]);
    raises := job.drift && (!wasDrifting || (job.missed && !wasMissed));
  }

  /** Feedback for one job: nothing new, attached to an old run, or judged. */
  method Listen(before: Job, record: AuditRecord) returns (job: Job, raises: bool, factor: Option<Factor>)
    ensures job == HeardJob(before, record) && raises == Raises(before, job)
    ensures raises ==> factor == FactorOf(job.baseline, ObservedMttd(record))
  {
    hide Judged, SampleOf, FactorOf;
    job, raises, factor := before, false, None;
    var i := SampleOf(job.history, record.runId);
    if i == |job.history| { return; }
    var mttd := if record.measurements.detected then record.measurements.mttdMs else 0;
    var sample := job.history[i];
    if sample.feedback && sample.mttd == mttd && sample.detected == Some(record.measurements.detected) { return; }
    if job.lastRunId != Some(record.runId) {
      sample := sample.(feedback := true, detected := Some(record.measurements.detected), mttd := mttd);
      job := job.(history := job.history[i := sample]);
      return;
    }
    job, raises, factor := Judge(job, record, i);
  }

  // ----- outcomes whose commit may fail -----

  /** One committed update: the outcome together with the feedback the audit has for its run by now. */
  function Flushed(c: Catalog, p: PendingOutcome, audit: map<string, AuditRecord>, order: seq<string>): Catalog {
    var ended := c.(jobs := AfterOutcome(c.jobs, p));
    if p.runId.Some? && p.runId.value in audit then AfterFeedback(ended, order, audit[p.runId.value]) else ended
  }

  function FlushedAll(c: Catalog, ps: seq<PendingOutcome>, audit: map<string, AuditRecord>, order: seq<string>): Catalog {
    if ps == [] then c else Flushed(FlushedAll(c, ps[..|ps| - 1], audit, order), ps[|ps| - 1], audit, order)
  }

  // ----- feedback, on the data itself -----

  /** The audit record carries detection feedback for a run on a runner that is over. */
  predicate Reports(record: AuditRecord) {
    && record.status != Queued && record.status != Running && record.status != OtherStatus("CANCELLING")
    && record.evidence.Some? && record.evidence.value.mode == RunnerMode && record.evidence.value.feedbackReceived
  }

  /** The time to detect that counts: 0 for a missed detection. */
  function Mttd(record: AuditRecord): nat {
    if record.measurements.detected then record.measurements.mttdMs else 0
  }

  /** Position i is the first sample of the run, and it does not say yet what the record says. */
  ghost predicate NewAt(job: Job, record: AuditRecord, i: nat) {
    && i < |job.history| && job.history[i].runId == Some(record.runId)
    && (forall j | 0 <= j < i :: job.history[j].runId != Some(record.runId))
    && !(job.history[i].feedback && job.history[i].detected == Some(record.measurements.detected) && job.history[i].mttd == Mttd(record))
  }

  /** What the job's baseline is once the record counts: the first positive time to detect, for good. */
  function BaselineWith(job: Job, record: AuditRecord): Option<nat> {
    if job.baseline.None? && Mttd(record) > 0 then Some(Mttd(record)) else job.baseline
  }

  /** The detection took at least one and a half times the baseline. */
  predicate Slow(job: Job, record: AuditRecord) {
    match BaselineWith(job, record)
    case None => false
    case Some(base) => base > 0 && 2 * Mttd(record) >= 3 * base
  }

  /** The job after the feedback, field by field, when sample i is new. */
  ghost predicate Takes(before: Job, after: Job, record: AuditRecord, i: nat)
    requires i < |before.history|
  {
    var detected := record.measurements.detected;
    && |after.history| == |before.history|
    && (forall j | 0 <= j < |before.history| && j != i :: after.history[j] == before.history[j])
    && (var a, b := before.history[i], after.history[i];
        && b.runId == a.runId && b.status == a.status && b.feedback && b.detected == Some(detected) && b.mttd == Mttd(record)
        && if before.lastRunId == Some(record.runId) then b.drift == after.drift && b.factor == after.factor
           else b.drift == a.drift && b.factor == a.factor)
    && if before.lastRunId != Some(record.runId) then after == before.(history := after.history)
       else
         && after == before.(history := after.history, lastMttd := after.lastMttd, baseline := after.baseline,
                             missed := after.missed, drift := after.drift, factor := after.factor)
         && after.lastMttd == (if detected then Some(Mttd(record)) else None)
         && after.baseline == BaselineWith(before, record)
         && after.missed == !detected
         && after.drift == (!detected || Slow(before, record))
         && after.factor == (if detected && after.baseline.Some? && after.baseline.value > 0
                             then Some(Factor(Mttd(record), after.baseline.value)) else None)
  }

  /** What feedback makes of one job: nothing, or the new sample and, for the latest run, the verdict. */
  lemma HeardExactly(job: Job, record: AuditRecord)
    ensures (forall i: nat :: !NewAt(job, record, i)) ==> HeardJob(job, record) == job
    ensures forall i: nat | NewAt(job, record, i) :: Takes(job, HeardJob(job, record), record, i)
  {
    hide Takes;
    var i := SampleOf(job.history, record.runId);
    if i < |job.history| && !AlreadyHeard(job.history[i], record) {
      assert NewAt(job, record, i);
      forall n: nat | NewAt(job, record, n) ensures n == i {}
      if job.lastRunId == Some(record.runId) { JudgedTakes(job, record, i); } else { AttachedTakes(job, record, i); }
    }
  }

  lemma JudgedTakes(job: Job, record: AuditRecord, i: nat)
    requires i < |job.history| && job.lastRunId == Some(record.runId)
    ensures Takes(job, Judged(job, record, i), record, i)
  {
  }

  lemma AttachedTakes(job: Job, record: AuditRecord, i: nat)
    requires i < |job.history| && job.lastRunId != Some(record.runId)
    ensures Takes(job, Attached(job, record, i), record, i)
  {
  }

  lemma ReportsIs(record: AuditRecord)
    ensures Reports(record) <==> ConfirmedFeedback(record)
  {
  }

  // ----- claims, one by one -----

  /** The table once every job outside `left` has been looked at. */
  ghost predicate PartlyClaimed(before: map<string, Job>, after: map<string, Job>, now: nat, left: set<string>, claimed: set<string>) {
    && left <= before.Keys && after.Keys == before.Keys
    && (forall id | id in before ::
          after[id] == if id !in left && Due(before[id], now) then Claimed(before[id], now) else before[id])
    && (forall id :: id in claimed <==> id in before && id !in left && Due(before[id], now))
  }

  lemma NothingClaimed(before: map<string, Job>, now: nat)
    ensures PartlyClaimed(before, before, now, before.Keys, {})
  {
    hide Due, Claimed;
  }

  lemma OneClaimed(before: map<string, Job>, after: map<string, Job>, now: nat, left: set<string>, claimed: set<string>, id: string)
    requires PartlyClaimed(before, after, now, left, claimed) && id in left
    ensures id in after
    ensures Due(after[id], now) ==>
              PartlyClaimed(before, after[id := Claimed(after[id], now)], now, left - {id}, claimed + {id})
    ensures !Due(after[id], now) ==> PartlyClaimed(before, after, now, left - {id}, claimed)
  {
    hide Due, Claimed;
  }

  lemma AllClaimed(before: map<string, Job>, after: map<string, Job>, now: nat, claimed: set<string>)
    requires PartlyClaimed(before, after, now, {}, claimed)
    ensures after == AfterClaims(before, now) && claimed == DueIds(before, now)
    ensures forall id | id in claimed :: id in before && id in after && after[id] == Claimed(before[id], now)
  {
    hide Due, Claimed;
  }

  // ----- the catalog object -----

  class ScheduleCatalog {
    var jobs: map<string, Job>
    var alerts: seq<Alert>
    var alertSeq: nat

    function Value(): Catalog
      reads this
    {
      Catalog(jobs, alerts, alertSeq)
    }

    constructor (c: Catalog)
      ensures Value() == c
    {
      jobs, alerts, alertSeq := c.jobs, c.alerts, c.alertSeq;
    }

    method ClaimJob(id: string, now: nat) returns (due: bool)
      requires id in jobs
      modifies this`jobs
      ensures due == Due(old(jobs)[id], now)
      ensures jobs == if due then old(jobs)[id := Claimed(old(jobs)[id], now)] else old(jobs)
    {
      var job := jobs[id];
      due := job.enabled && job.lastStatus != Some("RUNNING") &&
             (job.lastEpoch.None? || now >= SaturatingAdd(job.lastEpoch.value, job.interval));
      if due {
        job := job.(lastEpoch := Some(now), lastStatus := Some("RUNNING"));
        jobs := jobs[id := job];
      }
    }

    method ClaimDue(now: nat) returns (due: seq<Job>)
      modifies this`jobs
      ensures jobs == AfterClaims(old(jobs), now) && ClaimedInOrder(old(jobs), now, due)
      ensures ClaimsMade(old(jobs), jobs, now) && ListsClaims(old(jobs), jobs, now, due)
    {
      hide Due, Claimed, SortedIds, AfterClaims, DueIds, PartlyClaimed;
      var before := jobs;
      var left := jobs.Keys;
      var claimed: set<string> := {};
      NothingClaimed(before, now);
      while left != {}
        invariant PartlyClaimed(before, jobs, now, left, claimed)
        decreases |left|
      {
        var id :| id in left;
        OneClaimed(before, jobs, now, left, claimed, id);
        var isDue := ClaimJob(id, now);
        if isDue { claimed := claimed + {id}; }
        left := left - {id};
      }
      AllClaimed(before, jobs, now, claimed);
      due := SortJobs(claimed);
      ClaimsExactly(before, now, due);
    }

    method SortJobs(ids: set<string>) returns (sorted: seq<Job>)
      requires ids <= jobs.Keys
      ensures |sorted| == |SortedIds(ids)|
      ensures forall i | 0 <= i < |sorted| :: SortedIds(ids)[i] in jobs && sorted[i] == jobs[SortedIds(ids)[i]]
    {
      var order := SortIds(ids);
      sorted := [];
      for i := 0 to |order|
        invariant |sorted| == i
        invariant forall j | 0 <= j < i :: order[j] in jobs && sorted[j] == jobs[order[j]]
      {
        assert order[i] in order;
        sorted := sorted + [jobs[order[i]]];
      }
    }

    method RecoverInterrupted()
      modifies this`jobs
      ensures jobs == AfterRecovery(old(jobs))
    {
      var before := jobs;
      var left := jobs.Keys;
      while left != {}
        invariant left <= before.Keys && jobs.Keys == before.Keys
        invariant forall id | id in before :: jobs[id] == if id !in left then RecoveredJob(before[id]) else before[id]
        decreases |left|
      {
        var id :| id in left;
        if jobs[id].lastStatus == Some("RUNNING") {
          jobs := jobs[id := jobs[id].(lastStatus := Some("INTERRUPTED"))];
        }
        left := left - {id};
      }
      assert jobs == AfterRecovery(before);
    }

    method Apply(p: PendingOutcome)
      modifies this`jobs
      ensures jobs == AfterOutcome(old(jobs), p)
    {
      if p.jobId !in jobs { return; }
      var job := jobs[p.jobId];
      if job.generation != p.generation { return; }
      job := job.(lastStatus := Some(p.status));
      if p.status == "SKIPPED" {
        jobs := jobs[p.jobId := job];
        return;
      }
      job := job.(lastRunId := p.runId, lastMttd := None);
      ghost var all := job.history + [Sample(p.runId, false, None, p.status, 0, job.drift, None)];
      job := job.(history := job.history + [Sample(p.runId, false, None, p.status, 0, job.drift, None)]);
      while |job.history| > MAX_HISTORY_PER_JOB
        invariant job == jobs[p.jobId].(lastStatus := Some(p.status), lastRunId := p.runId, lastMttd := None, history := job.history)
        invariant |job.history| <= |all| && job.history == all[|all| - |job.history|..]
        invariant |all| > MAX_HISTORY_PER_JOB ==> |job.history| >= MAX_HISTORY_PER_JOB
        invariant |all| <= MAX_HISTORY_PER_JOB ==> job.history == all
      {
        job := job.(history := job.history[1..]);
      }
      jobs := jobs[p.jobId := job];
    }

    method Raise(alert: Alert)
      modifies this`alerts
      ensures alerts == LastOf(old(alerts) + [alert], MAX_ALERTS)
    {
      alerts := alerts + [alert];
      ghost var all := alerts;
      while |alerts| > MAX_ALERTS
        invariant |alerts| <= |all| && alerts == all[|all| - |alerts|..]
        invariant |all| > MAX_ALERTS ==> |alerts| >= MAX_ALERTS
        invariant |all| <= MAX_ALERTS ==> alerts == all
      {
        alerts := alerts[1..];
      }
    }

    /** Feedback for one job of the table. */
    method Hear(id: string, record: AuditRecord)
      requires id in jobs
      modifies this
      ensures Value() == HeardAt(old(Value()), id, record) && jobs.Keys == old(jobs.Keys)
    {
      hide HeardJob, LastOf, Raises, FactorOf;
      var after, raises, factor := Listen(jobs[id], record);
      jobs := jobs[id := after];
      if raises {
        alertSeq := alertSeq + 1;
        Raise(Alert(after.missed, alertSeq, after.id, after.scenarioId, after.baseline, ObservedMttd(record), factor));
      }
    }

    method RecordFeedback(record: AuditRecord, order: seq<string>)
      requires Enumerates(order, jobs)
      modifies this
      ensures Value() == AfterFeedback(old(Value()), order, record)
      ensures jobs.Keys == old(jobs.Keys)
    {
      hide HeardAt, ConfirmedFeedback;
      if !ConfirmedFeedback(record) { return; }
      ghost var start := Value();
      for i := 0 to |order|
        invariant jobs.Keys == start.jobs.Keys
        invariant HeardIn(start, order, record) == HeardIn(Value(), order[i..], record)
      {
        assert order[i..][1..] == order[i + 1..];
        Hear(order[i], record);
      }
    }
  }

  lemma OutcomeKeepsKeys(jobs: map<string, Job>, p: PendingOutcome)
    ensures AfterOutcome(jobs, p).Keys == jobs.Keys
  {
  }

  lemma SameKeysEnumerate(order: seq<string>, a: map<string, Job>, b: map<string, Job>)
    requires Enumerates(order, a) && a.Keys == b.Keys
    ensures Enumerates(order, b)
  {
    assert forall id :: id in a <==> id in b;
  }

  /** `flush_outcomes`: outcomes leave the queue in order, each exactly when its commit succeeded. The first
      failed write, the one after `writable` successes, keeps the rest for the next poll. */
  method FlushOutcomes(catalog: ScheduleCatalog, pending: seq<PendingOutcome>, audit: map<string, AuditRecord>,
                       order: seq<string>, writable: nat) returns (rest: seq<PendingOutcome>, done: bool)
    requires Enumerates(order, catalog.jobs)
    modifies catalog
    ensures done <==> |pending| <= writable
    ensures rest == if done then [] else pending[writable..]
    ensures catalog.Value() == FlushedAll(old(catalog.Value()), pending[..|pending| - |rest|], audit, order)
  {
    hide Enumerates, AfterOutcome, AfterFeedback;
    rest := pending;
    var written := 0;
    ghost var start := catalog.Value();
    while rest != []
      invariant written <= writable && written <= |pending| && rest == pending[written..]
      invariant Enumerates(order, catalog.jobs)
      invariant catalog.Value() == FlushedAll(start, pending[..written], audit, order)
    {
      if written == writable { return rest, false; }
      var p := rest[0];
      assert pending[..written + 1][..written] == pending[..written];
      ghost var before := catalog.jobs;
      catalog.Apply(p);
      OutcomeKeepsKeys(before, p);
      SameKeysEnumerate(order, before, catalog.jobs);
      ghost var ended := catalog.jobs;
      if p.runId.Some? && p.runId.value in audit {
        catalog.RecordFeedback(audit[p.runId.value], order);
        SameKeysEnumerate(order, ended, catalog.jobs);
      }
      rest := rest[1..];
      written := written + 1;
    }
    done := true;
  }
}
