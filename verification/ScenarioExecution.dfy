/** Revisions of one signed audit record: admission, terminal commit, startup recovery and
    operator feedback (crates/asmodeus-control-plane/src/execution.rs, audit_store.rs, runs_http.rs). */
module ScenarioExecution {
  import opened Wrappers
  import opened Records

  /** What the execution of an admitted scenario hands to the terminal audit commit. */
  datatype Settlement = Settlement(
    status: Status, cleaned: bool, simulated: bool, failed: bool, detail: Option<string>)

  function QueuedRecord(id: string, mode: ExecutionMode): AuditRecord {
    AuditRecord(id, Queued, CleanupPending, NO_MEASUREMENTS, Some(Evidence(mode, false, false, false, None)))
  }

  function SettledEvidence(e: Evidence, s: Settlement): Evidence {
    e.(mode := if s.simulated then SimulatedMode else e.mode,
       cleanupConfirmed := s.cleaned, failureReason := s.detail)
  }

  function SettledRecord(record: AuditRecord, mode: ExecutionMode, s: Settlement): AuditRecord {
    record.(
      status := s.status,
      cleanup := if mode == SimulatedMode then CleanupNotApplicable
                 else if s.cleaned then CleanupSuccess else CleanupUnconfirmed,
      evidence := match record.evidence case None => None case Some(e) => Some(SettledEvidence(e, s)))
  }

  /** Startup reconciliation of a record that never got its terminal commit. */
  function InterruptedRecord(record: AuditRecord): AuditRecord {
    record.(
      status := Interrupted, cleanup := CleanupUnconfirmed,
      evidence := match record.evidence
                  case None => None
                  case Some(e) => Some(e.(cleanupConfirmed := false, failureReason :=
                    Some("control-plane restarted before terminal acknowledgement"))))
  }

  function FeedbackRecord(record: AuditRecord, m: Measurements, contained: bool): AuditRecord {
    var e := match record.evidence
             case None => Evidence(LegacyMode, false, false, false, None)
             case Some(e) => e;
    record.(measurements := m, evidence := Some(e.(feedbackReceived := true, contained := contained)))
  }

  /** Feedback never changes anything a retry decision looks at. */
  lemma FeedbackKeepsVerdict(record: AuditRecord, m: Measurements, contained: bool)
    ensures SameVerdict(record, FeedbackRecord(record, m, contained))
  {
  }

  /** A settled record permits a retry exactly when it is terminal and the scenario was simulated,
      by choice of mode or by the runner's own report, or its cleanup was confirmed. */
  lemma SettledRetry(record: AuditRecord, mode: ExecutionMode, s: Settlement)
    requires record.evidence.Some? && record.evidence.value.mode == mode
    ensures SafeToRetry(SettledRecord(record, mode, s)) <==>
            Terminal(s.status) && (mode == SimulatedMode || s.simulated || s.cleaned)
  {
  }
}
