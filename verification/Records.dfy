/** The records the control plane persists: signed audit records and campaign runs.
    Timestamps, signatures and the descriptive text of a record are opaque to every
    decision modelled here and are not carried. */
module Records {
  import opened Wrappers

  /** A status string; OtherStatus stands for every string that is none of the six. */
  datatype Status = Queued | Running | Completed | Failed | Cancelled | Interrupted | OtherStatus(name: string)

  datatype Cleanup = CleanupPending | CleanupSuccess | CleanupNotApplicable | CleanupUnconfirmed

  datatype ExecutionMode = RunnerMode | SimulatedMode | LegacyMode

  datatype Evidence = Evidence(
    mode: ExecutionMode, feedbackReceived: bool, contained: bool,
    cleanupConfirmed: bool, failureReason: Option<string>)

  datatype Measurements = Measurements(mttdMs: nat, mttrMs: nat, detected: bool)

  datatype AuditRecord = AuditRecord(
    runId: string, status: Status, cleanup: Cleanup,
    measurements: Measurements, evidence: Option<Evidence>)

  const NO_MEASUREMENTS := Measurements(0, 0, false)

  /** An audit record is in flight in three states; a campaign run in two. */
  predicate Terminal(status: Status) {
    status != Queued && status != Running && status != OtherStatus("CANCELLING")
  }

  predicate RunTerminal(status: Status) {
    status != Queued && status != Running
  }

  predicate Simulated(record: AuditRecord) {
    record.evidence.Some? && record.evidence.value.mode == SimulatedMode
  }

  predicate Cleaned(record: AuditRecord) {
    record.cleanup == CleanupSuccess || record.cleanup == CleanupNotApplicable
  }

  /** The record proves that its attempt is over and left nothing behind. */
  predicate SafeToRetry(record: AuditRecord) {
    Terminal(record.status) && (Simulated(record) || Cleaned(record))
  }

  /** Two revisions that agree on everything a retry decision looks at. */
  predicate SameVerdict(a: AuditRecord, b: AuditRecord) {
    && a.runId == b.runId
    && a.status == b.status
    && a.cleanup == b.cleanup
    && Simulated(a) == Simulated(b)
  }

  datatype Step = Step(order: nat, scenarioId: string)

  datatype StepResult = StepResult(
    stepOrder: nat, scenarioId: string, runId: string, status: Status,
    measurements: Measurements, evidence: Option<Evidence>)

  /** `request` stands for the fields a run only carries along: campaign, initiator, target, timeout. */
  datatype CampaignRun = CampaignRun(
    id: string, request: string, steps: seq<Step>, status: Status,
    results: seq<StepResult>, superseded: seq<StepResult>, resumeCount: nat)
}
