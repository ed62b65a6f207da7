/** The single transactions of a campaign worker (crates/asmodeus-control-plane/src/campaign_execution.rs):
    what one committed change does to one run, and the resume decision taken against the audit. */
module CampaignExecution {
  import opened Wrappers
  import opened Records
  import opened CampaignRunStore

  // ----- the worker's changes -----

  function PendingResult(step: Step, id: string): StepResult {
    StepResult(step.order, step.scenarioId, id, Running, NO_MEASUREMENTS, None)
  }

  /** Stage intent: made durable before the scenario is admitted. */
  function WithIntent(run: CampaignRun, pending: StepResult): CampaignRun {
    run.(status := Running, results := run.results + [pending])
  }

  function Stopped(run: CampaignRun): CampaignRun {
    run.(status := Cancelled)
  }

  /** Cancelled after the intent but before admission: the scenario run id is cleared. */
  function StoppedPending(run: CampaignRun): CampaignRun
    requires run.results != []
  {
    var n := |run.results|;
    run.(status := Cancelled,
         results := run.results[n - 1 := run.results[n - 1].(status := Cancelled, runId := "")])
  }

  function StageResult(step: Step, id: string, audit: Option<AuditRecord>): StepResult {
    match audit
    case None => StepResult(step.order, step.scenarioId, id, Failed, NO_MEASUREMENTS, None)
    case Some(record) =>
      StepResult(step.order, step.scenarioId, id, record.status, record.measurements, record.evidence)
  }

  /** The campaign status after a stage; only RUNNING lets the worker go on. */
  function AfterStage(ok: bool, stage: Status, cancelled: bool, last: bool): Status {
    if !ok && (stage == Queued || stage == Running) then Interrupted
    else if stage == Cancelled then Cancelled
    else if stage != Completed || !ok then Failed
    else if cancelled then Cancelled
    else if last then Completed
    else Running
  }

  function Folded(run: CampaignRun, result: StepResult, status: Status): CampaignRun
    requires run.results != []
  {
    run.(status := status, results := run.results[|run.results| - 1 := result])
  }

  function Finalized(run: CampaignRun): CampaignRun {
    run.(status := Completed)
  }

  // ----- resume -----

  /** The stage commit won the race with process death: its result is taken from the audit. */
  function Acknowledged(run: CampaignRun, record: AuditRecord): CampaignRun
    requires run.results != []
  {
    var n := |run.results|;
    run.(results := run.results[n - 1 := run.results[n - 1].(
      status := record.status, measurements := record.measurements, evidence := record.evidence)])
  }

  /** The run that an accepted resume continues with. */
  function ResumedRun(run: CampaignRun, seen: Option<AuditRecord>): CampaignRun {
    if HasUnfinishedAttempt(run) && seen.Some? && seen.value.status == Completed
    then RequeuedRun(Acknowledged(run, seen.value))
    else RequeuedRun(run)
  }

  /** Why a resume of this run is refused, if it is; `seen` is the audit of its last stage attempt. */
  function ResumeRefusal(run: CampaignRun, seen: Option<AuditRecord>): Option<ResumeError> {
    if !Resumable(run.status) then Some(NotResumable(run.status))
    else if !HasUnfinishedAttempt(run) then None
    else
      var last := run.results[|run.results| - 1];
      match seen
      case Some(record) => if SafeToRetry(record) then None else Some(CleanupUnknown)
      case None => if last.status == Cancelled && last.runId == "" then None else Some(AuditUnavailable)
  }

  function PreparedResume(runs: Runs, id: string, seen: Option<AuditRecord>): Result<(Runs, CampaignRun), ResumeError> {
    match Get(runs, id)
    case None => Err(NotFound)
    case Some(run) =>
      match ResumeRefusal(run, seen)
      case Some(e) => Err(e)
      case None => Ok((Put(runs, ResumedRun(run, seen)), ResumedRun(run, seen)))
  }

  function LastRunId(runs: Runs, id: string): string {
    match Get(runs, id)
    case None => ""
    case Some(run) => if run.results == [] then "" else run.results[|run.results| - 1].runId
  }

  function Lookup(audit: map<string, AuditRecord>, id: string): Option<AuditRecord> {
    if id in audit then Some(audit[id]) else None
  }

  // ----- resume, on the data itself -----

  /** The audit proves that the attempt is over and left nothing behind. */
  predicate Proves(record: AuditRecord) {
    && record.status != Queued && record.status != Running && record.status != OtherStatus("CANCELLING")
    && ((record.evidence.Some? && record.evidence.value.mode == SimulatedMode)
        || record.cleanup == CleanupSuccess || record.cleanup == CleanupNotApplicable)
  }

  /** The last stage attempt is absent or done, or may be done again. */
  predicate LastAllows(run: CampaignRun, audit: map<string, AuditRecord>) {
    run.results == [] ||
    var last := run.results[|run.results| - 1];
    || last.status == Completed
    || (last.runId in audit && Proves(audit[last.runId]))
    || (last.runId !in audit && last.status == Cancelled && last.runId == "")
  }

  predicate MayResume(run: CampaignRun, audit: map<string, AuditRecord>) {
    (run.status == Interrupted || run.status == Cancelled) && LastAllows(run, audit)
  }

  /** What a resumed run is: a last attempt that the audit calls COMPLETED is taken over from the audit,
      another unfinished one is archived, nothing else changes. */
  ghost predicate IsResumed(before: CampaignRun, after: CampaignRun, audit: map<string, AuditRecord>) {
    var n := |before.results|;
    && after.id == before.id && after.request == before.request && after.steps == before.steps
    && after.status == Queued && after.resumeCount == (before.resumeCount + 1) % 4294967296
    && if n == 0 || before.results[n - 1].status == Completed then
         after.results == before.results && after.superseded == before.superseded
       else
         var last := before.results[n - 1];
         if last.runId in audit && audit[last.runId].status == Completed then
           var record := audit[last.runId];
           && after.superseded == before.superseded && |after.results| == n && after.results[..n - 1] == before.results[..n - 1]
           && after.results[n - 1] == StepResult(last.stepOrder, last.scenarioId, last.runId, Completed, record.measurements, record.evidence)
         else
           after.results == before.results[..n - 1] && after.superseded == before.superseded + [last]
  }

  /** Why a stored run is not resumed. */
  predicate RefusedFor(run: CampaignRun, audit: map<string, AuditRecord>, e: ResumeError) {
    if run.status != Interrupted && run.status != Cancelled then e == NotResumable(run.status)
    else run.results != [] && e == if run.results[|run.results| - 1].runId in audit then CleanupUnknown else AuditUnavailable
  }

  /** Exactly which resumes are accepted, with what result, and why the others are refused. */
  lemma ResumesExactly(runs: Runs, id: string, audit: map<string, AuditRecord>)
    ensures var i := IndexOf(runs, id);
            match PreparedResume(runs, id, Lookup(audit, LastRunId(runs, id)))
            case Err(e) => if i == |runs| then e == NotFound else !MayResume(runs[i], audit) && RefusedFor(runs[i], audit, e)
            case Ok((next, run)) => i < |runs| && MayResume(runs[i], audit) && IsResumed(runs[i], run, audit) && next == runs[i := run]
  {
    hide MayResume, IsResumed, RefusedFor;
    var i := IndexOf(runs, id);
    if i < |runs| { ResumeExactly(runs[i], audit); }
  }

  /** The audit record of the last attempt. */
  function SeenOf(run: CampaignRun, audit: map<string, AuditRecord>): Option<AuditRecord> {
    Lookup(audit, if run.results == [] then "" else run.results[|run.results| - 1].runId)
  }

  lemma ResumeExactly(run: CampaignRun, audit: map<string, AuditRecord>)
    ensures ResumeRefusal(run, SeenOf(run, audit)).None? <==> MayResume(run, audit)
    ensures ResumeRefusal(run, SeenOf(run, audit)).Some? ==> RefusedFor(run, audit, ResumeRefusal(run, SeenOf(run, audit)).value)
    ensures MayResume(run, audit) ==> IsResumed(run, ResumedRun(run, SeenOf(run, audit)), audit)
    ensures ResumedRun(run, SeenOf(run, audit)).id == run.id
  {
    if run.results != [] {
      var n, seen := |run.results|, SeenOf(run, audit);
      if seen.Some? { assert Acknowledged(run, seen.value).results[..n - 1] == run.results[..n - 1]; }
    }
  }

  /** Looks at the audit of an unfinished attempt, and takes a completed stage's result from it. */
  method ReviewAttempt(current: CampaignRun, audit: map<string, AuditRecord>)
    returns (reviewed: Result<CampaignRun, ResumeError>)
    requires HasUnfinishedAttempt(current) && Resumable(current.status)
    ensures var seen := Lookup(audit, current.results[|current.results| - 1].runId);
            match ResumeRefusal(current, seen)
            case Some(e) => reviewed == Err(e)
            case None => reviewed == Ok(if seen.Some? && seen.value.status == Completed
                                        then Acknowledged(current, seen.value) else current)
  {
    var last := current.results[|current.results| - 1];
    if last.runId in audit {
      var record := audit[last.runId];
      var simulated := record.evidence.Some? && record.evidence.value.mode == SimulatedMode;
      var cleaned := record.cleanup == CleanupSuccess || record.cleanup == CleanupNotApplicable;
      if !Terminal(record.status) || (!simulated && !cleaned) { return Err(CleanupUnknown); }
      if record.status == Completed { return Ok(Acknowledged(current, record)); }
    } else if !(last.status == Cancelled && last.runId == "") {
      return Err(AuditUnavailable);
    }
    reviewed := Ok(current);
  }

  /** `prepare_resume` over the store and the published audit. */
  method PrepareResume(store: Store, audit: map<string, AuditRecord>, id: string)
    returns (r: Result<CampaignRun, ResumeError>)
    modifies store`runs
    ensures match PreparedResume(old(store.runs), id, Lookup(audit, LastRunId(old(store.runs), id)))
            case Ok((next, run)) => r == Ok(run) && store.runs == next
            case Err(e) => r == Err(e) && store.runs == old(store.runs)
    ensures var i := IndexOf(old(store.runs), id);
            && (r == Err(NotFound) <==> i == |old(store.runs)|)
            && (r.Ok? <==> i < |old(store.runs)| && MayResume(old(store.runs)[i], audit))
            && (r.Ok? ==> IsResumed(old(store.runs)[i], r.value, audit) && store.runs == old(store.runs)[i := r.value])
            && (r.Err? && i < |old(store.runs)| ==> RefusedFor(old(store.runs)[i], audit, r.error) && store.runs == old(store.runs))
  {
    ResumesExactly(store.runs, id, audit);
    hide MayResume, IsResumed, RefusedFor;
    var i := IndexOf(store.runs, id);
    if i == |store.runs| { return Err(NotFound); }
    var current := store.runs[i];
    if !Resumable(current.status) { return Err(NotResumable(current.status)); }
    if current.results != [] && current.results[|current.results| - 1].status != Completed {
      var reviewed := ReviewAttempt(current, audit);
      if reviewed.Err? { return Err(reviewed.error); }
      SameIndex(store.runs, store.runs[i := reviewed.value], id);
      store.runs := store.runs[i := reviewed.value];
    }
    r := store.BeginResume(id);
  }

  lemma SameIndex(a: Runs, b: Runs, id: string)
    requires |a| == |b| && forall i | 0 <= i < |a| :: a[i].id == b[i].id
    ensures IndexOf(a, id) == IndexOf(b, id)
  {
    var i, j := IndexOf(a, id), IndexOf(b, id);
    assert i < |a| ==> b[i].id == id;
    assert j < |b| ==> a[j].id == id;
  }

  // ----- each change keeps the snapshot valid -----

  /** A run with the worker standing between stages. */
  ghost predicate IdleRun(run: CampaignRun) {
    && (run.status == Queued || run.status == Running)
    && AllCompleted(run.results)
  }

  /** A run whose last stage is in flight under scenario run `id`. */
  ghost predicate StageRun(run: CampaignRun, id: string) {
    && run.status == Running
    && run.results != []
    && AllCompleted(run.results[..|run.results| - 1])
    && run.results[|run.results| - 1].runId == id
    && run.results[|run.results| - 1].status == Running
    && id != ""
  }

  lemma IntentKeepsRun(run: CampaignRun, id: string)
    requires ValidRun(run) && IdleRun(run) && |run.results| < |run.steps| && id != ""
    ensures var next := WithIntent(run, PendingResult(run.steps[|run.results|], id));
            ValidRun(next) && StageRun(next, id)
  {
    var next := WithIntent(run, PendingResult(run.steps[|run.results|], id));
    assert next.results[..|next.results| - 1] == run.results;
  }

  lemma StopKeepsRun(run: CampaignRun)
    requires ValidRun(run)
    ensures ValidRun(Stopped(run))
  {
  }

  lemma StopPendingKeepsRun(run: CampaignRun, id: string)
    requires ValidRun(run) && StageRun(run, id)
    ensures ValidRun(StoppedPending(run))
  {
  }

  /** What the worker knows of the verdict it is about to commit. */
  ghost predicate SoundVerdict(run: CampaignRun, result: StepResult, status: Status) {
    && (status == Running ==> result.status == Completed && |run.results| < |run.steps|)
    && (status == Completed ==> result.status == Completed && |run.results| == |run.steps|)
    && status != Queued && !status.OtherStatus?
  }

  lemma AfterStageIsSound(run: CampaignRun, result: StepResult, ok: bool, cancelled: bool)
    requires |run.results| <= |run.steps|
    ensures SoundVerdict(run, result, AfterStage(ok, result.status, cancelled, |run.results| == |run.steps|))
    ensures cancelled ==> AfterStage(ok, result.status, cancelled, |run.results| == |run.steps|) != Running
  {
  }

  /** The campaign status after a stage, arm by arm. */
  lemma AfterStageExactly(ok: bool, stage: Status, cancelled: bool, last: bool)
    ensures var status := AfterStage(ok, stage, cancelled, last);
            && (status == Running <==> ok && stage == Completed && !cancelled && !last)
            && (status == Completed <==> ok && stage == Completed && !cancelled && last)
            && (status == Interrupted <==> !ok && (stage == Queued || stage == Running))
            && (status == Cancelled <==> stage == Cancelled || (ok && stage == Completed && cancelled))
            && (status == Failed <==> (ok && stage != Completed && stage != Cancelled)
                                      || (!ok && stage != Queued && stage != Running && stage != Cancelled))
  {
  }

  lemma FoldKeepsRun(run: CampaignRun, id: string, result: StepResult, status: Status)
    requires ValidRun(run) && StageRun(run, id) && SoundVerdict(run, result, status)
    requires MatchesStep(result, run.steps[|run.results| - 1])
    ensures ValidRun(Folded(run, result, status))
    ensures status == Running ==> IdleRun(Folded(run, result, status)) && |run.results| < |run.steps|
  {
    var n := |run.results|;
    var next := Folded(run, result, status);
    assert forall i | 0 <= i < n - 1 :: next.results[i] == run.results[..n - 1][i];
  }

  lemma FinalizeKeepsRun(run: CampaignRun)
    requires ValidRun(run) && IdleRun(run) && |run.results| == |run.steps|
    ensures ValidRun(Finalized(run))
  {
  }

  lemma AcknowledgedValid(run: CampaignRun, record: AuditRecord)
    requires ValidRun(run) && HasUnfinishedAttempt(run) && record.status == Completed && run.status != Completed
    ensures ValidRun(Acknowledged(run, record))
    ensures AllCompleted(Acknowledged(run, record).results)
  {
  }

  /** An accepted resume continues behind a prefix of completed stages. A stage whose audit says
      COMPLETED stays in that prefix; any other unfinished attempt moves to the archive. */
  lemma ResumeNeverReplays(run: CampaignRun, seen: Option<AuditRecord>)
    requires ValidRun(run) && ResumeRefusal(run, seen).None?
    ensures var next := ResumedRun(run, seen);
            && ValidRun(next) && IdleRun(next) && next.status == Queued
            && next.id == run.id && next.steps == run.steps
            && (if HasUnfinishedAttempt(run) && !(seen.Some? && seen.value.status == Completed)
                then next.results == run.results[..|run.results| - 1] &&
                     next.superseded == run.superseded + [run.results[|run.results| - 1]]
                else |next.results| == |run.results| && next.superseded == run.superseded &&
                     forall i | 0 <= i < |run.results| :: next.results[i].runId == run.results[i].runId)
  {
    if HasUnfinishedAttempt(run) && seen.Some? && seen.value.status == Completed {
      AcknowledgedValid(run, seen.value);
      RequeuedRunValid(Acknowledged(run, seen.value));
    } else {
      RequeuedRunValid(run);
    }
  }

  /** A refused resume leaves the store as it was; an accepted one keeps it valid and touches one run. */
  lemma PreparedResumeKeepsSnapshot(runs: Runs, id: string, seen: Option<AuditRecord>)
    requires ValidSnapshot(runs)
    ensures match PreparedResume(runs, id, seen)
            case Err(_) => Get(runs, id).None? || ResumeRefusal(Get(runs, id).value, seen).Some?
            case Ok((next, run)) =>
              && ValidSnapshot(next) && Get(next, id) == Some(run)
              && PreparedResume(next, id, seen) == Err(NotResumable(Queued))
              && forall d | d != id :: Get(next, d) == Get(runs, d)
  {
    match Get(runs, id)
    case None =>
    case Some(run) =>
      if ResumeRefusal(run, seen).None? {
        ResumeNeverReplays(run, seen);
        PutValid(runs, ResumedRun(run, seen));
        forall d { GetPut(runs, ResumedRun(run, seen), d); }
      }
  }
}
