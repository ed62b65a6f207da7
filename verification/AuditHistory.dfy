/** Where an audit record comes from: what each step does to it, field by field, how its scenario ran and
    what its terminal commit said, over whole runs; and the safety of retries in those terms. */
module AuditHistory {
  import opened Wrappers
  import opened Records
  import opened ScenarioExecution
  import opened CampaignProtocol
  import opened CampaignInvariant
  import opened CampaignSteps
  import CampaignSafety

  // ----- one step -----

  /** The steps that write the record of run `id`. */
  predicate Writes(w: World, a: Action, id: string) {
    match a
    case Scenario(x, s) =>
      x == id &&
      (match s
       case Append(ok) => ok && id in w.tasks && id !in w.audit
       case Settle(_, ok) => ok && id in w.tasks && id in w.audit
       case Feedback(_, _) => id in w.audit
       case _ => false)
    case System(y) => y == RecoverRecord(id) && id in w.audit
    case _ => false
  }

  const RESTARTED := "control-plane restarted before terminal acknowledgement"

  /** What the record of run `id` is after the step that writes it, field by field. */
  ghost predicate Wrote(w: World, a: Action, id: string, after: AuditRecord)
    requires Writes(w, a, id)
  {
    match a
    case Scenario(_, s) =>
      (match s
       case Append(_) =>
         after == AuditRecord(id, Queued, CleanupPending, Measurements(0, 0, false),
                              Some(Evidence(w.tasks[id].mode, false, false, false, None)))
       case Settle(outcome, _) =>
         var before := w.audit[id];
         && after.runId == id && after.status == outcome.status && after.measurements == before.measurements
         && after.cleanup == (if w.tasks[id].mode == SimulatedMode then CleanupNotApplicable
                              else if outcome.cleaned then CleanupSuccess else CleanupUnconfirmed)
         && before.evidence.Some? && after.evidence.Some?
         && var (was, now) := (before.evidence.value, after.evidence.value);
            && now.mode == (if outcome.simulated then SimulatedMode else was.mode)
            && now.feedbackReceived == was.feedbackReceived && now.contained == was.contained
            && now.cleanupConfirmed == outcome.cleaned && now.failureReason == outcome.detail
       case Feedback(m, contained) =>
         var before := w.audit[id];
         && before.evidence.Some? && Terminal(before.status)
         && after == AuditRecord(id, before.status, before.cleanup, m,
                                 Some(before.evidence.value.(feedbackReceived := true, contained := contained)))
       case _ => false)
    case System(_) =>
      var before := w.audit[id];
      && before.evidence.Some? && !Terminal(before.status)
      && after == AuditRecord(id, Interrupted, CleanupUnconfirmed, before.measurements,
                              Some(before.evidence.value.(cleanupConfirmed := false, failureReason := Some(RESTARTED))))
    case _ => false
  }

  /** Every record carries evidence, and the record of a simulated task is marked so. */
  ghost predicate EvidenceOk(w: World) {
    && (forall id | id in w.audit :: w.audit[id].evidence.Some?)
    && (forall id | id in w.audit && id in w.tasks && w.tasks[id].mode == SimulatedMode :: Simulated(w.audit[id]))
  }

  lemma AppendWrites(w: World, id: string)
    requires id in w.tasks && id !in w.audit
    ensures var w' := DoAppend(w, id, true); id in w'.audit && Wrote(w, Scenario(id, Append(true)), id, w'.audit[id])
  {
  }

  lemma SettleWrites(w: World, id: string, outcome: Settlement)
    requires id in w.tasks && id in w.audit && w.audit[id].evidence.Some? && w.audit[id].runId == id
    ensures var w' := DoSettle(w, id, outcome, true); id in w'.audit && Wrote(w, Scenario(id, Settle(outcome, true)), id, w'.audit[id])
  {
  }

  lemma FeedbackWrites(w: World, id: string, m: Measurements, contained: bool)
    requires id in w.audit && w.audit[id].evidence.Some? && w.audit[id].runId == id && Terminal(w.audit[id].status)
    ensures var w' := DoFeedback(w, id, m, contained); id in w'.audit && Wrote(w, Scenario(id, Feedback(m, contained)), id, w'.audit[id])
  {
  }

  lemma RecoverWrites(w: World, id: string)
    requires id in w.audit && w.audit[id].evidence.Some? && w.audit[id].runId == id && !Terminal(w.audit[id].status)
    ensures var w' := DoRecoverRecord(w, id); id in w'.audit && Wrote(w, System(RecoverRecord(id)), id, w'.audit[id])
  {
  }

  lemma StepWrites(w: World, a: Action, id: string)
    requires Inv(w) && EvidenceOk(w) && Enabled(w, a) && Writes(w, a, id)
    ensures id in Next(w, a).audit && Wrote(w, a, id, Next(w, a).audit[id])
  {
    hide Inv, Wrote, DoAppend, DoSettle, DoFeedback, DoRecoverRecord;
    RecordId(w, id);
    match a
    case Scenario(x, s) =>
      match s {
        case Append(ok) => AppendWrites(w, id);
        case Settle(outcome, ok) => SettleWrites(w, id, outcome);
        case Feedback(m, contained) => FeedbackWrites(w, id, m, contained);
        case _ =>
      }
    case System(y) => RecoverWrites(w, id);
    case _ =>
  }

  lemma RecordId(w: World, id: string)
    requires Inv(w)
    ensures id in w.audit ==> w.audit[id].runId == id
  {
    hide WorkersOk, StoreOk, AttemptsOk, ControlsOk, LaunchesOk, QuietWhenDown, TasksOk;
  }

  lemma ScenarioAudit(w: World, x: string, s: ScenarioStep, id: string)
    requires ScenarioEnabled(w, x, s) && !Writes(w, Scenario(x, s), id)
    ensures Find(DoScenario(w, x, s).audit, id) == Find(w.audit, id)
  {
    hide QueuedRecord, SettledRecord, FeedbackRecord;
  }

  lemma LocalAudit(w: World, k: nat, l: LocalStep)
    requires LocalEnabled(w, k, l)
    ensures DoLocal(w, k, l).audit == w.audit
  {
    hide LocalMove, LocalReady, LocalTask, StageId;
  }

  lemma CommitAudit(w: World, k: nat, c: CommitStep, ok: bool)
    requires CommitEnabled(w, k, c)
    ensures DoCommit(w, k, c, ok).audit == w.audit
  {
    hide Change, Onward, CampaignRunStore.Revised, CampaignRunStore.Get;
  }

  lemma AdmissionAudit(w: World, k: nat, a: AdmissionStep)
    requires AdmissionEnabled(w, k, a)
    ensures DoAdmission(w, k, a).audit == w.audit
  {
    hide AdmissionEnabled, DoAdmission;
    CampaignSafety.AdmissionMoves(w, k, a);
  }

  lemma CancelAudit(w: World, t: nat, x: CancelStep)
    requires CancelEnabled(w, t, x)
    ensures DoCancel(w, t, x).audit == w.audit
  {
  }

  lemma SystemAudit(w: World, y: SystemStep, id: string)
    requires SystemEnabled(w, y) && !Writes(w, System(y), id)
    ensures Find(DoSystem(w, y).audit, id) == Find(w.audit, id)
  {
    hide InterruptedRecord, CampaignRunStore.Recovered, CampaignRunStore.ValidSnapshot, AllTerminal;
  }

  lemma StepLeaves(w: World, a: Action, id: string)
    requires Enabled(w, a) && !Writes(w, a, id)
    ensures Find(Next(w, a).audit, id) == Find(w.audit, id)
  {
    hide LocalEnabled, AdmissionEnabled, CommitEnabled, ScenarioEnabled, CancelEnabled, SystemEnabled, LaunchEnabled, Find, Writes,
         DoLocal, DoAdmission, DoCommit, DoScenario, DoCancel, DoSystem;
    match a
    case Launch(k, run, resume) =>
    case Admission(k, a) => AdmissionAudit(w, k, a);
    case Local(k, l) => LocalAudit(w, k, l);
    case Commit(k, c, ok) => CommitAudit(w, k, c, ok);
    case Scenario(x, s) => ScenarioAudit(w, x, s, id);
    case Cancel(t, x) => CancelAudit(w, t, x);
    case System(y) => SystemAudit(w, y, id);
  }

  // ----- evidence over whole runs -----

  lemma NewTaskHasNoRecord(w: World, a: Action, id: string)
    requires Inv(w) && Enabled(w, a) && id !in w.tasks && id in Next(w, a).tasks
    ensures id !in w.audit && id !in Next(w, a).audit
  {
    hide Inv, Enabled, Next, CampaignSafety.StartsTask, CampaignSafety.StartsOutside;
    CampaignSafety.TaskOrigin(w, a, id);
    if CampaignSafety.StartsTask(w, a, id) { StartHasNoRecord(w, a, id); } else { OutsideHasNoRecord(w, a, id); }
    assert !Writes(w, a, id) by { StarterWritesNothing(w, a, id); }
    StepLeaves(w, a, id);
  }

  lemma StarterWritesNothing(w: World, a: Action, id: string)
    requires CampaignSafety.StartsTask(w, a, id) || CampaignSafety.StartsOutside(a, id)
    ensures !Writes(w, a, id)
  {
  }

  lemma StartHasNoRecord(w: World, a: Action, id: string)
    requires Inv(w) && CampaignSafety.StartsTask(w, a, id)
    ensures id !in w.audit
  {
    hide Inv, WorkersOk, WorkerOk;
    CampaignSafety.InvWorkers(w);
    WorkerIsOk(w, a.k);
    StartingView(w.workers[a.k], ViewOf(w, a.k), id);
  }

  lemma OutsideHasNoRecord(w: World, a: Action, id: string)
    requires Inv(w) && id !in w.issued
    ensures id !in w.audit
  {
    hide WorkersOk, StoreOk, AttemptsOk, ControlsOk, LaunchesOk, QuietWhenDown, TasksOk;
  }

  lemma WroteEvidence(w: World, a: Action, id: string, after: AuditRecord)
    requires EvidenceOk(w) && Writes(w, a, id) && Wrote(w, a, id, after)
    ensures after.evidence.Some?
    ensures id in w.tasks && w.tasks[id].mode == SimulatedMode ==> Simulated(after)
    ensures Simulated(after) <==> MarksSimulated(w, a, id) || (id in w.audit && Simulated(w.audit[id]))
  {
    hide Terminal;
  }

  /** The step marks the record as simulated: it admits a task in simulated mode, or commits a settlement in
      which the runner says so. */
  predicate MarksSimulated(w: World, a: Action, id: string) {
    Writes(w, a, id) && a.Scenario? &&
    ((a.s.Append? && w.tasks[id].mode == SimulatedMode) || (a.s.Settle? && a.s.outcome.simulated))
  }

  lemma NextKeepsEvidence(w: World, a: Action)
    requires Inv(w) && EvidenceOk(w) && Enabled(w, a)
    ensures EvidenceOk(Next(w, a))
  {
    hide Inv, Enabled, Next, Writes, Wrote, MarksSimulated, Simulated, TaskKeepsCancel, TaskStaysOut, Admitted;
    var w' := Next(w, a);
    forall id | id in w'.audit
      ensures w'.audit[id].evidence.Some?
      ensures id in w'.tasks && w'.tasks[id].mode == SimulatedMode ==> Simulated(w'.audit[id])
    {
      RecordStays(w, a, id);
    }
  }

  lemma RecordStays(w: World, a: Action, id: string)
    requires Inv(w) && EvidenceOk(w) && Enabled(w, a) && id in Next(w, a).audit
    ensures var w' := Next(w, a);
            w'.audit[id].evidence.Some? && (id in w'.tasks && w'.tasks[id].mode == SimulatedMode ==> Simulated(w'.audit[id]))
    ensures Simulated(Next(w, a).audit[id]) <==> MarksSimulated(w, a, id) || (id in w.audit && Simulated(w.audit[id]))
  {
    hide Inv, Enabled, Next, Wrote, Simulated, TaskKeepsCancel, TaskStaysOut, Admitted;
    var w' := Next(w, a);
    if id in w'.tasks {
      if id !in w.tasks { NewTaskHasNoRecord(w, a, id); }
      else { SameMode(w, a, id); }
    }
    if Writes(w, a, id) {
      StepWrites(w, a, id);
      WroteEvidence(w, a, id, w'.audit[id]);
    } else {
      StepLeaves(w, a, id);
    }
  }

  lemma SameMode(w: World, a: Action, id: string)
    requires Inv(w) && Enabled(w, a) && id in w.tasks && id in Next(w, a).tasks
    ensures Next(w, a).tasks[id].mode == w.tasks[id].mode
  {
    hide Inv, Enabled, Next, TaskKeepsCancel, TaskStaysOut, Admitted;
    if a == System(Crash) { CrashedTasks(w); } else { CampaignSafety.OthersGrow(w, a, id); }
  }

  lemma CrashedTasks(w: World)
    requires Enabled(w, System(Crash))
    ensures Next(w, System(Crash)).tasks == map[]
  {
  }

  lemma {:induction false} EvidenceReachable(ws: seq<World>, acts: seq<Action>, i: nat)
    requires Behaviour(ws, acts) && i < |ws|
    ensures EvidenceOk(ws[i])
  {
    hide Inv, Enabled, Next, EvidenceOk;
    if i == 0 { NoEvidence(); }
    else {
      EvidenceReachable(ws, acts, i - 1);
      CampaignSafety.Reachable(ws, acts, i - 1);
      NextKeepsEvidence(ws[i - 1], acts[i - 1]);
    }
  }

  lemma NoEvidence()
    ensures EvidenceOk(Init())
  {
  }

  /** In every run of the system a step changes the record of a scenario run only by its admission, its terminal
      commit, operator feedback and startup recovery, and each changes exactly these fields. */
  lemma RecordChanges(ws: seq<World>, acts: seq<Action>, i: nat, id: string)
    requires Behaviour(ws, acts) && i < |acts|
    ensures if Writes(ws[i], acts[i], id)
            then id in ws[i + 1].audit && Wrote(ws[i], acts[i], id, ws[i + 1].audit[id])
            else Find(ws[i + 1].audit, id) == Find(ws[i].audit, id)
  {
    hide Inv, Enabled, Next, EvidenceOk, Writes, Wrote;
    CampaignSafety.Reachable(ws, acts, i);
    EvidenceReachable(ws, acts, i);
    if Writes(ws[i], acts[i], id) { StepWrites(ws[i], acts[i], id); } else { StepLeaves(ws[i], acts[i], id); }
  }

  // ----- what the simulation mark and the cleanup status mean -----

  /** Before step j the scenario was admitted in simulated mode, or its terminal commit said it was simulated. */
  ghost predicate RanSimulated(ws: seq<World>, acts: seq<Action>, j: nat, id: string)
    requires j <= |acts| && j <= |ws|
  {
    exists i | 0 <= i < j :: MarksSimulated(ws[i], acts[i], id)
  }

  /** A record is marked as simulated exactly when the scenario ran simulated. */
  lemma {:induction false} SimulatedExactly(ws: seq<World>, acts: seq<Action>, j: nat, id: string)
    requires Behaviour(ws, acts) && j < |ws| && id in ws[j].audit
    ensures Simulated(ws[j].audit[id]) <==> RanSimulated(ws, acts, j, id)
  {
    hide Inv, Enabled, Next, EvidenceOk, MarksSimulated, Simulated;
    if j > 0 {
      CampaignSafety.Reachable(ws, acts, j - 1);
      EvidenceReachable(ws, acts, j - 1);
      RecordStays(ws[j - 1], acts[j - 1], id);
      if id in ws[j - 1].audit { SimulatedExactly(ws, acts, j - 1, id); } else { NeverMarked(ws, acts, j - 1, id); }
    }
  }

  lemma {:induction false} NeverMarked(ws: seq<World>, acts: seq<Action>, j: nat, id: string)
    requires Behaviour(ws, acts) && j < |ws| && id !in ws[j].audit
    ensures !RanSimulated(ws, acts, j, id)
  {
    hide Inv, Enabled, Next, EvidenceOk, Writes, Wrote;
    forall i | 0 <= i < j ensures !MarksSimulated(ws[i], acts[i], id) {
      if MarksSimulated(ws[i], acts[i], id) {
        RecordChanges(ws, acts, i, id);
        RecordsStay(ws, acts, i + 1, j, id);
      }
    }
  }

  lemma {:induction false} RecordsStay(ws: seq<World>, acts: seq<Action>, i: nat, j: nat, id: string)
    requires Behaviour(ws, acts) && i <= j < |ws| && id in ws[i].audit
    ensures id in ws[j].audit
  {
    hide Enabled, Next, Writes, Wrote;
    if i < j {
      RecordsStay(ws, acts, i, j - 1, id);
      RecordChanges(ws, acts, j - 1, id);
    }
  }

  /** Step i is the terminal commit of run `id`. */
  predicate Settles(w: World, a: Action, id: string) {
    a.Scenario? && a.id == id && a.s.Settle? && a.s.ok && id in w.tasks && id in w.audit
  }

  /** Where a terminal record's verdict comes from: its one terminal commit, or startup recovery. */
  lemma {:induction false} VerdictFrom(ws: seq<World>, acts: seq<Action>, j: nat, id: string) returns (i: nat)
    requires Behaviour(ws, acts) && j < |ws| && id in ws[j].audit && Terminal(ws[j].audit[id].status)
    ensures i < j && id in ws[i].audit
    ensures var record := ws[j].audit[id];
            if Settles(ws[i], acts[i], id) then
              && record.status == acts[i].s.outcome.status
              && record.cleanup == (if ws[i].tasks[id].mode == SimulatedMode then CleanupNotApplicable
                                    else if acts[i].s.outcome.cleaned then CleanupSuccess else CleanupUnconfirmed)
            else
              acts[i] == System(RecoverRecord(id)) && record.status == Interrupted && record.cleanup == CleanupUnconfirmed
  {
    hide Inv, Enabled, Next, Simulated, Evolves;
    if j == 0 {
      assert false;
    } else {
      var w := ws[j - 1];
      if id in w.audit && Terminal(w.audit[id].status) {
        i := VerdictFrom(ws, acts, j - 1, id);
        CampaignSafety.VerdictIsFinal(ws, acts, j - 1, j, id);
      } else {
        i := j - 1;
        RecordChanges(ws, acts, i, id);
      }
    }
  }

  // ----- safe retry -----

  /** Before step j the terminal commit of the run reported a confirmed cleanup. */
  ghost predicate CleanupReported(ws: seq<World>, acts: seq<Action>, j: nat, id: string)
    requires j <= |acts| && j <= |ws|
  {
    exists i | 0 <= i < j :: Settles(ws[i], acts[i], id) && acts[i].s.outcome.cleaned
  }

  lemma SafeMeans(ws: seq<World>, acts: seq<Action>, j: nat, id: string)
    requires Behaviour(ws, acts) && j < |ws| && id in ws[j].audit && SafeToRetry(ws[j].audit[id])
    ensures RanSimulated(ws, acts, j, id) || CleanupReported(ws, acts, j, id)
  {
    hide Inv, Enabled, Next, EvidenceOk, RanSimulated;
    SimulatedExactly(ws, acts, j, id);
    if !Simulated(ws[j].audit[id]) {
      var i := VerdictFrom(ws, acts, j, id);
      assert Settles(ws[i], acts[i], id);
      SimulatedTask(ws, acts, i, j, id);
    }
  }

  lemma SimulatedTask(ws: seq<World>, acts: seq<Action>, i: nat, j: nat, id: string)
    requires Behaviour(ws, acts) && i <= j < |ws| && id in ws[i].audit && id in ws[i].tasks && id in ws[j].audit
    ensures ws[i].tasks[id].mode == SimulatedMode ==> Simulated(ws[j].audit[id])
  {
    hide Inv, Enabled, Next, Simulated, MarksSimulated;
    EvidenceReachable(ws, acts, i);
    if ws[i].tasks[id].mode == SimulatedMode {
      SimulatedExactly(ws, acts, i, id);
      SimulatedExactly(ws, acts, j, id);
    }
  }

  /** When an attempt is admitted, every other attempt at its stage is over for good: it was not admitted and never
      will be, or its record is terminal, not COMPLETED, and the scenario ran simulated or its terminal commit
      reported a confirmed cleanup. An attempt of which nothing is known, cut off by a crash or left by a failed
      commit, is therefore never followed by another, unless it ran simulated. */
  lemma SafeRetry(ws: seq<World>, acts: seq<Action>, j: nat, m: nat, earlier: string, b: string)
    requires Behaviour(ws, acts) && j < |acts| && j <= m < |ws| && CampaignSafety.Admits(acts[j], b)
    requires earlier in ws[j].intents && b in ws[j].intents
    requires earlier != b && ws[j].intents[earlier] == ws[j].intents[b]
    ensures earlier !in ws[m].audit ==> m < |acts| ==> !CampaignSafety.Admits(acts[m], earlier)
    ensures earlier in ws[m].audit ==>
              var status := ws[m].audit[earlier].status;
              && status != Queued && status != Running && status != OtherStatus("CANCELLING") && status != Completed
              && (RanSimulated(ws, acts, m, earlier) || CleanupReported(ws, acts, m, earlier))
  {
    hide Inv, Enabled, Next, RanSimulated, CleanupReported, Retired;
    CampaignSafety.OthersAreSettled(ws, acts, j, m, earlier, b);
    if earlier in ws[m].audit {
      RetiredHasNoRecord(ws[m], earlier);
      SafeMeans(ws, acts, m, earlier);
    } else if m < |acts| && CampaignSafety.Admits(acts[m], earlier) {
      SettledNotAdmitted(ws, acts, m, earlier);
    }
  }

  lemma RetiredHasNoRecord(w: World, id: string)
    requires id in w.audit
    ensures !Retired(w, id)
  {
  }

  lemma SettledNotAdmitted(ws: seq<World>, acts: seq<Action>, m: nat, id: string)
    requires Behaviour(ws, acts) && m < |acts| && Settled(ws[m], id)
    ensures !CampaignSafety.Admits(acts[m], id)
  {
    hide Inv, Settled, Next;
    CampaignSafety.Reachable(ws, acts, m);
    if CampaignSafety.Admits(acts[m], id) { CampaignSafety.AdmittingIsNotSettled(ws[m], id); }
  }
}
