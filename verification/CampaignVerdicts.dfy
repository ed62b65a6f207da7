/** What a campaign worker commits, over whole runs: every transaction's result field by field, the verdict
    after a stage with the audit record and the cancel flag it was taken from, and how the stage ended. */
module CampaignVerdicts {
  import opened Wrappers
  import opened Records
  import opened CampaignRunStore
  import opened CampaignExecution
  import opened ScenarioExecution
  import opened CampaignProtocol
  import opened CampaignInvariant
  import opened CampaignSteps
  import CampaignSafety
  import AuditHistory

  // ----- what a transaction stores -----

  /** The run and the worker after a committed transaction. */
  ghost predicate Stores(before: Worker, after: Worker, c: CommitStep) {
    var r, s, n := before.run, after.run, |before.run.results|;
    && after.cid == before.cid && after.resume == before.resume && after.cancelled == before.cancelled && after.current == before.current
    && match c
       case StopIdle => s == r.(status := Cancelled) && after.pc == Leaving
       case Plan(id) =>
         && n < |r.steps| && after.pc == Pending(id)
         && s == r.(status := Running, results := r.results + [
              StepResult(r.steps[n].order, r.steps[n].scenarioId, id, Running, Measurements(0, 0, false), None)])
       case StopPending =>
         && n > 0 && after.pc == Leaving
         && s == r.(status := Cancelled, results := r.results[n - 1 := r.results[n - 1].(status := Cancelled, runId := "")])
       case Fold =>
         && n > 0 && before.pc.Folding?
         && s == r.(status := before.pc.verdict, results := r.results[n - 1 := before.pc.result])
         && after.pc == (if s.status == Running then Head else Leaving)
       case Finalize => s == r.(status := Completed) && after.pc == Leaving
  }

  lemma StopStores(w: World, k: nat, c: CommitStep)
    requires CommitEnabled(w, k, c) && Stored(w, k) == Some(w.workers[k].run) && (c.StopIdle? || c.Finalize? || c.StopPending?)
    ensures Stores(w.workers[k], CommittedWorker(w, k, c), c)
  {
  }

  lemma PlanStores(w: World, k: nat, c: CommitStep)
    requires CommitEnabled(w, k, c) && Stored(w, k) == Some(w.workers[k].run) && c.Plan?
    ensures Stores(w.workers[k], CommittedWorker(w, k, c), c)
  {
  }

  lemma FoldStores(w: World, k: nat, c: CommitStep)
    requires CommitEnabled(w, k, c) && Stored(w, k) == Some(w.workers[k].run) && c.Fold?
    ensures Stores(w.workers[k], CommittedWorker(w, k, c), c)
  {
  }

  /** In every run of the system a committed worker transaction stores exactly this, and the store then holds the
      worker's run, unless it just became COMPLETED or FAILED and retention dropped it at once. */
  lemma CommitStoresExactly(ws: seq<World>, acts: seq<Action>, i: nat)
    requires Behaviour(ws, acts) && i < |acts| && acts[i].Commit? && acts[i].ok
    ensures var k := acts[i].k;
            && k in ws[i].workers && k in ws[i + 1].workers
            && Get(ws[i].store, ws[i].workers[k].cid) == Some(ws[i].workers[k].run)
            && Stores(ws[i].workers[k], ws[i + 1].workers[k], acts[i].c)
            && var run := ws[i + 1].workers[k].run;
               Get(ws[i + 1].store, ws[i].workers[k].cid) == Some(run) ||
               ((run.status == Completed || run.status == Failed) && Get(ws[i + 1].store, ws[i].workers[k].cid).None?)
  {
    hide Inv, Stores, StoreOk, OthersKept, AttemptEffect, Change, Onward;
    var k, c := acts[i].k, acts[i].c;
    CampaignSafety.Reachable(ws, acts, i);
    CommitStore(ws[i], k, c);
    CommittedFields(ws[i], k, c);
    if c.Plan? { PlanStores(ws[i], k, c); } else if c.Fold? { FoldStores(ws[i], k, c); } else { StopStores(ws[i], k, c); }
  }

  // ----- the last own step of a worker -----

  predicate SameButCancel(a: Worker, b: Worker) { b == a.(cancelled := b.cancelled) }

  /** Step j launches worker k, or is worker k's own. */
  predicate OwnStep(a: Action, k: nat) {
    (a.Launch? && a.k == k) || (CampaignSafety.ActsFor(a, k) && a != System(Crash))
  }

  lemma OwnOrAlone(w: World, a: Action, k: nat)
    requires Inv(w) && Enabled(w, a) && k in Next(w, a).workers && !OwnStep(a, k)
    ensures k in w.workers && SameButCancel(w.workers[k], Next(w, a).workers[k])
  {
    hide Inv, CampaignSafety.LeavesAlone;
    if a == System(Crash) {
      CrashedNobody(w);
    } else {
      WorkersAppearByLaunch(w, a, k);
      CampaignSafety.OthersLeaveWorker(w, a, k);
      AloneIsSame(w, Next(w, a), k);
    }
  }

  lemma AloneIsSame(w: World, w': World, k: nat)
    requires CampaignSafety.LeavesAlone(w, w', k)
    ensures k in w.workers && k in w'.workers && SameButCancel(w.workers[k], w'.workers[k])
  {
  }

  lemma CrashedNobody(w: World)
    requires Enabled(w, System(Crash))
    ensures Next(w, System(Crash)).workers == map[]
  {
  }

  lemma WorkersAppearByLaunch(w: World, a: Action, k: nat)
    requires Inv(w) && Enabled(w, a) && k in Next(w, a).workers && !(a.Launch? && a.k == k)
    ensures k in w.workers
  {
    hide Inv, CommitEnabled, AdmissionEnabled, LocalEnabled, ScenarioEnabled, CancelEnabled, SystemEnabled, LaunchEnabled,
         DoCommit, DoAdmission, DoLocal, DoScenario, DoCancel, DoSystem;
    match a
    case Launch(j, run, resume) =>
    case Admission(j, x) => CampaignSafety.AdmissionMoves(w, j, x);
    case Local(j, l) => LocalWorkers(w, j, l);
    case Commit(j, c, ok) => CommitWorkers(w, j, c, ok);
    case Scenario(id, s) => ScenarioWorkers(w, id, s);
    case Cancel(t, x) => CancelWorkers(w, t, x);
    case System(y) => SystemWorkers(w, y);
  }

  lemma LocalWorkers(w: World, j: nat, l: LocalStep)
    requires LocalEnabled(w, j, l)
    ensures DoLocal(w, j, l).workers.Keys == w.workers.Keys
  {
    hide LocalMove, LocalReady, LocalTask, StageId;
  }

  lemma CommitWorkers(w: World, j: nat, c: CommitStep, ok: bool)
    requires CommitEnabled(w, j, c)
    ensures DoCommit(w, j, c, ok).workers.Keys == w.workers.Keys
  {
    hide Change, Revised, Get, Onward;
  }

  lemma ScenarioWorkers(w: World, id: string, s: ScenarioStep)
    requires Inv(w) && ScenarioEnabled(w, id, s)
    ensures DoScenario(w, id, s).workers == w.workers
  {
    hide WorkersOk, StoreOk, TasksOk, IdsOk, AttemptsOk, ControlsOk, LaunchesOk, QuietWhenDown, TaskMove, ScenarioEnabled, DoScenario;
    ScenarioIsMove(w, id, s);
    CampaignSafety.MoveWorld(w, DoScenario(w, id, s), id);
  }

  lemma CancelWorkers(w: World, t: nat, x: CancelStep)
    requires CancelEnabled(w, t, x)
    ensures DoCancel(w, t, x).workers.Keys == w.workers.Keys
  {
  }

  lemma SystemWorkers(w: World, y: SystemStep)
    requires SystemEnabled(w, y)
    ensures DoSystem(w, y).workers.Keys <= w.workers.Keys
  {
    hide Recovered, ValidSnapshot, AllTerminal, InterruptedRecord;
  }

  /** A worker stands where its last own step left it; only its cancel flag may have been set since. */
  lemma {:induction false} LastOwnStep(ws: seq<World>, acts: seq<Action>, i: nat, k: nat) returns (j: nat)
    requires Behaviour(ws, acts) && i < |ws| && k in ws[i].workers
    ensures j < i && OwnStep(acts[j], k) && k in ws[j + 1].workers && SameButCancel(ws[j + 1].workers[k], ws[i].workers[k])
  {
    hide Inv, Enabled, Next, OwnStep;
    if i == 0 { assert false; }
    else {
      j := i - 1;
      if !OwnStep(acts[j], k) {
        CampaignSafety.Reachable(ws, acts, j);
        OwnOrAlone(ws[j], acts[j], k);
        j := LastOwnStep(ws, acts, j, k);
      }
    }
  }

  // ----- which own step leads where -----

  /** A point of the worker loop between two transactions. */
  predicate InLoop(pc: Pc) {
    !(pc.Spawned? || pc.Admitting? || pc.Consulted? || pc.Head? || pc.Pending? || pc.Leaving? || pc.Gone?)
  }

  lemma ResumePc(w: World, k: nat, ok: bool)
    requires k in w.workers && w.workers[k].pc.Consulted?
    ensures k in DoResume(w, k, ok).workers && !InLoop(DoResume(w, k, ok).workers[k].pc)
  {
    hide PreparedResume;
    assert !InLoop(Head) && !InLoop(Leaving);
    hide InLoop;
  }

  lemma EntryPc(w: World, k: nat)
    requires k in w.workers
    ensures k in DoRegister(w, k).workers && !InLoop(DoRegister(w, k).workers[k].pc)
    ensures k in DoLeave(w, k).workers && !InLoop(DoLeave(w, k).workers[k].pc)
  {
    assert !InLoop(Gone) && !InLoop(Admitting);
    hide InLoop;
  }

  lemma InsertPc(w: World, k: nat, ok: bool)
    requires k in w.workers
    ensures k in DoInsert(w, k, ok).workers && !InLoop(DoInsert(w, k, ok).workers[k].pc)
  {
    hide Inserted;
    assert !InLoop(Head) && !InLoop(Leaving);
    hide InLoop;
  }

  lemma ConsultPc(w: World, k: nat)
    requires k in w.workers
    ensures k in DoConsult(w, k).workers && !InLoop(DoConsult(w, k).workers[k].pc)
  {
    hide Lookup, LastRunId;
  }

  lemma AdmissionPc(w: World, k: nat, a: AdmissionStep)
    requires AdmissionEnabled(w, k, a)
    ensures k in DoAdmission(w, k, a).workers && !InLoop(DoAdmission(w, k, a).workers[k].pc)
  {
    hide DoRegister, DoInsert, DoConsult, DoResume, DoLeave, InLoop;
    match a
    case Resume(ok) => ResumePc(w, k, ok);
    case InsertRun(ok) => InsertPc(w, k, ok);
    case Consult => ConsultPc(w, k);
    case _ => EntryPc(w, k);
  }

  lemma CommitPc(w: World, k: nat, c: CommitStep, ok: bool)
    requires CommitEnabled(w, k, c) && k in DoCommit(w, k, c, ok).workers
    ensures !InLoop(DoCommit(w, k, c, ok).workers[k].pc)
  {
    hide Change, Revised, Get;
  }

  /** A worker inside its loop was brought there by a step of its own. */
  lemma LoopIsLocal(w: World, a: Action, k: nat)
    requires Enabled(w, a) && OwnStep(a, k) && k in Next(w, a).workers && InLoop(Next(w, a).workers[k].pc)
    ensures a.Local? && a.k == k && LocalEnabled(w, k, a.l) && k in w.workers
    ensures Next(w, a).workers[k] == MovedBy(w, k, a.l)
  {
    hide CommitEnabled, AdmissionEnabled, DoCommit, DoAdmission, LocalMove, LocalReady, LocalTask, InLoop, StageId;
    match a
    case Launch(_, run, resume) => LaunchPc(w, k, run, resume);
    case Admission(_, x) => AdmissionPc(w, k, x);
    case Commit(_, c, ok) => CommitPc(w, k, c, ok);
    case Local(_, l) =>
    case _ =>
  }

  lemma LaunchPc(w: World, k: nat, run: CampaignRun, resume: bool)
    ensures k in DoLaunch(w, k, run, resume).workers && !InLoop(DoLaunch(w, k, run, resume).workers[k].pc)
  {
  }

  function MovedBy(w: World, k: nat, l: LocalStep): Worker
    requires LocalEnabled(w, k, l)
  {
    var stage := StageId(w.workers[k].pc);
    LocalMove(w.workers[k], FindAt(w.tasks, stage), FindAt(w.audit, stage), l)
  }

  /** The worker's step that led to this point of its loop. */
  lemma LoopStep(ws: seq<World>, acts: seq<Action>, i: nat, k: nat) returns (j: nat)
    requires Behaviour(ws, acts) && i < |ws| && k in ws[i].workers && InLoop(ws[i].workers[k].pc)
    ensures j < i && acts[j].Local? && acts[j].k == k && LocalEnabled(ws[j], k, acts[j].l) && k in ws[j].workers
    ensures SameButCancel(MovedBy(ws[j], k, acts[j].l), ws[i].workers[k])
  {
    hide LocalEnabled, MovedBy, InLoop;
    j := LastOwnStep(ws, acts, i, k);
    SameLoop(ws[j + 1].workers[k], ws[i].workers[k]);
    LoopIsLocal(ws[j], acts[j], k);
  }

  lemma SameLoop(a: Worker, b: Worker)
    requires SameButCancel(a, b) && InLoop(b.pc)
    ensures InLoop(a.pc)
  {
  }

  // ----- admission and cancel requests -----

  /** What a step of admission changes. */
  ghost predicate Enters(w: World, w': World, k: nat, a: AdmissionStep) {
    && k in w.workers && k in w'.workers && w'.audit == w.audit && w'.tasks == w.tasks && w'.intents == w.intents
    && var (wk, pc) := (w.workers[k], w'.workers[k].pc);
       match a
       case Register =>
         && w'.store == w.store && (pc == Gone <==> wk.cid in w.controls)
         && (pc == Gone ==> w'.controls == w.controls)
         && (pc != Gone ==> pc == Admitting && w'.controls == w.controls[wk.cid := k])
       case InsertRun(ok) =>
         && w'.controls == w.controls
         && (ok ==> w'.store == Inserted(w.store, wk.run) && pc == Head)
         && (!ok ==> w'.store == w.store && pc == Leaving)
       case Consult =>
         && w'.store == w.store && w'.controls == w.controls
         && pc == Consulted(Lookup(w.audit, LastRunId(w.store, wk.cid)))
       case Resume(ok) =>
         && w'.controls == w.controls && wk.pc.Consulted?
         && (match PreparedResume(w.store, wk.cid, wk.pc.seen)
             case Ok((next, run)) =>
               if ok then w'.store == next && w'.workers[k].run == run && pc == Head
               else w'.store == w.store && w'.workers[k].run == wk.run && pc == Leaving
             case Err(_) => w'.store == w.store && pc == Leaving)
       case Leave =>
         w'.store == w.store && w'.controls.Keys == w.controls.Keys - {wk.cid} && pc == Gone
  }

  lemma EntryEnters(w: World, k: nat)
    requires k in w.workers
    ensures Enters(w, DoRegister(w, k), k, Register)
  {
  }

  lemma InsertEnters(w: World, k: nat, ok: bool)
    requires k in w.workers
    ensures Enters(w, DoInsert(w, k, ok), k, InsertRun(ok))
  {
    hide Inserted;
  }

  lemma ExitEnters(w: World, k: nat)
    requires k in w.workers
    ensures Enters(w, DoConsult(w, k), k, Consult)
    ensures Enters(w, DoLeave(w, k), k, Leave)
  {
    hide Lookup, LastRunId;
  }

  lemma ResumeEnters(w: World, k: nat, ok: bool)
    requires k in w.workers && w.workers[k].pc.Consulted?
    ensures Enters(w, DoResume(w, k, ok), k, Resume(ok))
  {
    hide DoResume, Enters, PreparedResume;
    var wk := w.workers[k];
    if ok && PreparedResume(w.store, wk.cid, wk.pc.seen).Ok? { ResumeAccepted(w, k); } else { ResumeRefused(w, k, ok); }
  }

  lemma ResumeAccepted(w: World, k: nat)
    requires k in w.workers && w.workers[k].pc.Consulted? && PreparedResume(w.store, w.workers[k].cid, w.workers[k].pc.seen).Ok?
    ensures Enters(w, DoResume(w, k, true), k, Resume(true))
  {
    hide PreparedResume;
  }

  lemma ResumeRefused(w: World, k: nat, ok: bool)
    requires k in w.workers && w.workers[k].pc.Consulted?
    requires ok ==> PreparedResume(w.store, w.workers[k].cid, w.workers[k].pc.seen).Err?
    ensures Enters(w, DoResume(w, k, ok), k, Resume(ok))
  {
    hide PreparedResume;
  }

  /** In every run of the system a launch holds the campaign's control entry or gives up, a failed write admits and
      resumes nothing, a resume takes what the resume decision says on the record it read, and leaving frees the entry. */
  lemma AdmissionsExactly(ws: seq<World>, acts: seq<Action>, i: nat)
    requires Behaviour(ws, acts) && i < |acts| && acts[i].Admission?
    ensures Enters(ws[i], ws[i + 1], acts[i].k, acts[i].a)
  {
    hide DoRegister, DoInsert, DoConsult, DoResume, DoLeave, Enters;
    var w, k := ws[i], acts[i].k;
    match acts[i].a
    case InsertRun(ok) => InsertEnters(w, k, ok);
    case Register => EntryEnters(w, k);
    case Resume(ok) => ResumeEnters(w, k, ok);
    case _ => ExitEnters(w, k);
  }

  /** A cancel request takes hold of the worker that the control entry names, sets that worker's flag, and goes on to
      flag the stage exactly if the worker had published one. */
  lemma RequestsExactly(ws: seq<World>, acts: seq<Action>, i: nat)
    requires Behaviour(ws, acts) && i < |acts| && acts[i].Cancel?
    ensures var (w, w', t) := (ws[i], ws[i + 1], acts[i].t);
            && w'.store == w.store && w'.audit == w.audit && w'.controls == w.controls && w'.workers.Keys == w.workers.Keys
            && match acts[i].x
               case LookUp(cid) =>
                 && w'.workers == w.workers && w'.tasks == w.tasks
                 && (cid in w.controls ==> t in w'.cancellers && w'.cancellers[t] == Holding(w.controls[cid]))
                 && (cid !in w.controls ==> w'.cancellers == w.cancellers)
               case Set =>
                 && t in w.cancellers && w.cancellers[t].Holding? && w.cancellers[t].worker in w.workers
                 && var k := w.cancellers[t].worker;
                    && w'.workers == w.workers[k := w.workers[k].(cancelled := true)] && w'.tasks == w.tasks
                    && (w.workers[k].current.None? ==> t !in w'.cancellers)
                    && (w.workers[k].current.Some? ==>
                          t in w'.cancellers && w'.cancellers[t] == Committed(w.workers[k].current.value))
               case FlagStage => w'.workers == w.workers && t !in w'.cancellers
  {
  }

  // ----- why a worker commits or starts what it does -----

  /** What the worker saw at the step that decided on the transaction. */
  predicate DecidedOn(c: CommitStep, at: Worker, l: LocalStep) {
    var (done, planned) := (|at.run.results|, |at.run.steps|);
    match c
    case Finalize => l == Check && done >= planned
    case StopIdle => l == Check && done < planned && at.cancelled
    case Plan(_) => l == Check && done < planned && !at.cancelled
    case StopPending => l == Recheck && at.cancelled
    case Fold => l == Judge
  }

  lemma DecisionIs(w: World, k: nat, l: LocalStep, after: Worker, c: CommitStep)
    requires LocalEnabled(w, k, l) && SameButCancel(MovedBy(w, k, l), after)
    requires match c
             case Finalize => after.pc == Finalizing
             case StopIdle => after.pc == StoppingIdle
             case Plan(_) => after.pc == Planning
             case StopPending => after.pc.StoppingPending?
             case Fold => after.pc.Folding?
    ensures DecidedOn(c, w.workers[k], l) && w.workers[k].run == after.run
  {
  }

  /** In every run of the system a worker stops its campaign only after it saw the cancel flag with a stage left to
      run, plans a stage only after it saw no flag, and completes the campaign exactly when no stage was left. */
  lemma CommitIsDecided(ws: seq<World>, acts: seq<Action>, i: nat) returns (j: nat)
    requires Behaviour(ws, acts) && i < |acts| && acts[i].Commit?
    ensures j < i && acts[j].Local? && acts[j].k == acts[i].k && acts[i].k in ws[j].workers && acts[i].k in ws[i].workers
    ensures DecidedOn(acts[i].c, ws[j].workers[acts[i].k], acts[j].l) && ws[j].workers[acts[i].k].run == ws[i].workers[acts[i].k].run
  {
    hide LocalEnabled, MovedBy, DecidedOn, StoredHasStage, MayPlan;
    var k := acts[i].k;
    j := LoopStep(ws, acts, i, k);
    DecisionIs(ws[j], k, acts[j].l, ws[i].workers[k], acts[i].c);
  }

  lemma StartIs(w: World, k: nat, l: LocalStep)
    requires LocalEnabled(w, k, l) && MovedBy(w, k, l).pc.Starting?
    ensures l == Recheck && !w.workers[k].cancelled && w.workers[k].pc == Pending(MovedBy(w, k, l).pc.id)
  {
  }

  /** A scenario is started only after the flag was read once more, behind the durable intent. */
  lemma StartIsRechecked(ws: seq<World>, acts: seq<Action>, i: nat) returns (j: nat)
    requires Behaviour(ws, acts) && i < |acts| && acts[i].Local? && acts[i].l.Start?
    ensures j < i && acts[j] == Local(acts[i].k, Recheck) && acts[i].k in ws[j].workers && acts[i].k in ws[i].workers
    ensures !ws[j].workers[acts[i].k].cancelled && ws[i].workers[acts[i].k].pc.Starting?
    ensures ws[j].workers[acts[i].k].pc == Pending(ws[i].workers[acts[i].k].pc.id)
  {
    hide MovedBy;
    var k := acts[i].k;
    j := LoopStep(ws, acts, i, k);
    StartIs(ws[j], k, acts[j].l);
  }

  /** A write that fails, or a run that is gone, changes nothing but the worker, which leaves. */
  lemma FailedCommitChangesNothing(ws: seq<World>, acts: seq<Action>, i: nat)
    requires Behaviour(ws, acts) && i < |acts| && acts[i].Commit? && !acts[i].ok
    ensures var k := acts[i].k;
            && ws[i + 1].store == ws[i].store && ws[i + 1].audit == ws[i].audit && ws[i + 1].tasks == ws[i].tasks
            && ws[i + 1].controls == ws[i].controls && ws[i + 1].intents == ws[i].intents
            && k in ws[i].workers && ws[i + 1].workers == ws[i].workers[k := ws[i].workers[k].(pc := Leaving)]
  {
    hide MayPlan, StoredHasStage;
  }

  // ----- the verdict after a stage -----

  /** The stage's result as the audit record read at the end of the stage gives it. */
  ghost predicate ReadFrom(result: StepResult, step: Step, id: string, record: Option<AuditRecord>) {
    && result.stepOrder == step.order && result.scenarioId == step.scenarioId && result.runId == id
    && match record
       case None => result.status == Failed && result.measurements == Measurements(0, 0, false) && result.evidence.None?
       case Some(r) => result.status == r.status && result.measurements == r.measurements && result.evidence == r.evidence
  }

  /** The campaign status after a stage: `ok` tells whether the scenario task succeeded. */
  ghost predicate VerdictIs(status: Status, ok: bool, stage: Status, cancelled: bool, last: bool) {
    && (status == Running <==> ok && stage == Completed && !cancelled && !last)
    && (status == Completed <==> ok && stage == Completed && !cancelled && last)
    && (status == Interrupted <==> !ok && (stage == Queued || stage == Running))
    && (status == Cancelled <==> stage == Cancelled || (ok && stage == Completed && cancelled))
    && (status == Failed <==> (ok && stage != Completed && stage != Cancelled)
                              || (!ok && stage != Queued && stage != Running && stage != Cancelled))
  }

  lemma IntoFolding(w: World, k: nat, l: LocalStep)
    requires LocalEnabled(w, k, l) && MovedBy(w, k, l).pc.Folding?
    ensures l == Judge && w.workers[k].pc.Judging?
    ensures var (a, b) := (w.workers[k], MovedBy(w, k, l));
            && b.run == a.run && b.pc.id == a.pc.id && b.pc.result == a.pc.result && b.cancelled == a.cancelled
            && VerdictIs(b.pc.verdict, a.pc.done, a.pc.result.status, a.cancelled, |a.run.results| == |a.run.steps|)
  {
    var a := w.workers[k];
    if l.Judge? { AfterStageExactly(a.pc.done, a.pc.result.status, a.cancelled, |a.run.results| == |a.run.steps|); }
  }

  lemma IntoJudging(w: World, k: nat, l: LocalStep)
    requires LocalEnabled(w, k, l) && MovedBy(w, k, l).pc.Judging?
    ensures l == Collect && w.workers[k].pc.Collecting? && OnStage(w.workers[k].run)
    ensures var (a, b) := (w.workers[k], MovedBy(w, k, l));
            && b.run == a.run && b.pc.id == a.pc.id && b.pc.done == a.pc.done
            && ReadFrom(b.pc.result, a.run.steps[|a.run.results| - 1], a.pc.id, Find(w.audit, a.pc.id))
  {
  }

  /** How the worker learned whether the scenario task succeeded: it joined the task, the start was refused, or
      the task's admission failed. */
  ghost predicate Learned(w: World, k: nat, l: LocalStep, id: string, ok: bool)
    requires k in w.workers
  {
    || (l == Join && w.workers[k].pc == Awaiting(id) && id in w.tasks && w.tasks[id].pc.Ended? && ok == w.tasks[id].pc.ok)
    || (l.Start? && !l.accepted && w.workers[k].pc == Starting(id) && !ok)
    || (l == Observe && w.workers[k].pc == AwaitingAdmission(id) && id in w.tasks && w.tasks[id].pc.Refused? && !ok)
  }

  lemma IntoCollecting(w: World, k: nat, l: LocalStep)
    requires LocalEnabled(w, k, l) && MovedBy(w, k, l).pc.Collecting?
    ensures var (a, b) := (w.workers[k], MovedBy(w, k, l));
            if l == Unlink then a.pc == Unlinking(b.pc.id, b.pc.done) else Learned(w, k, l, b.pc.id, b.pc.done)
  {
  }

  lemma IntoUnlinking(w: World, k: nat, l: LocalStep)
    requires LocalEnabled(w, k, l) && MovedBy(w, k, l).pc.Unlinking?
    ensures var b := MovedBy(w, k, l); Learned(w, k, l, b.pc.id, b.pc.done)
  {
  }

  lemma LearnedAt(ws: seq<World>, acts: seq<Action>, i: nat, k: nat) returns (c: nat)
    requires Behaviour(ws, acts) && i < |ws| && k in ws[i].workers && ws[i].workers[k].pc.Collecting?
    ensures c < i && acts[c].Local? && acts[c].k == k && k in ws[c].workers
    ensures Learned(ws[c], k, acts[c].l, ws[i].workers[k].pc.id, ws[i].workers[k].pc.done)
  {
    hide LocalEnabled, MovedBy, Learned, Enabled, Next;
    c := LoopStep(ws, acts, i, k);
    IntoCollecting(ws[c], k, acts[c].l);
    if acts[c].l == Unlink {
      var d := LoopStep(ws, acts, c, k);
      IntoUnlinking(ws[d], k, acts[d].l);
      c := d;
    }
  }

  /** The verdict of a stage, in every run of the system. When a worker commits the fold of a stage, it learned at
      some step c whether the scenario task succeeded, read the audit at a later step a, and took the verdict with
      the cancel flag of a still later step b. The stored result is the record read, the stored status follows from
      task, record, flag and remaining stages, and the worker goes on exactly when it is RUNNING. */
  lemma StageVerdict(ws: seq<World>, acts: seq<Action>, i: nat, k: nat) returns (c: nat, a: nat, b: nat, ok: bool)
    requires Behaviour(ws, acts) && i < |acts| && acts[i] == Commit(k, Fold, true)
    ensures c < a < b < i && acts[c].Local? && acts[c].k == k && acts[a] == Local(k, Collect) && acts[b] == Local(k, Judge)
    ensures k in ws[i].workers && k in ws[c].workers && k in ws[b].workers && k in ws[i + 1].workers && ws[i].workers[k].pc.Folding?
    ensures var id, before, after := ws[i].workers[k].pc.id, ws[i].workers[k].run, ws[i + 1].workers[k].run;
            var n := |before.results|;
            && 0 < n <= |before.steps| && |after.results| == n && Learned(ws[c], k, acts[c].l, id, ok)
            && ReadFrom(after.results[n - 1], before.steps[n - 1], id, Find(ws[a].audit, id))
            && VerdictIs(after.status, ok, after.results[n - 1].status, ws[b].workers[k].cancelled, n == |before.steps|)
            && after.results[..n - 1] == before.results[..n - 1]
            && ws[i + 1].workers[k].pc == (if after.status == Running then Head else Leaving)
  {
    hide LocalEnabled, MovedBy, Learned, ReadFrom, VerdictIs, Enabled, Next, Stores, Get;
    CommitStoresExactly(ws, acts, i);
    FoldedParts(ws[i].workers[k], ws[i + 1].workers[k]);
    b := LoopStep(ws, acts, i, k);
    IntoFolding(ws[b], k, acts[b].l);
    a := LoopStep(ws, acts, b, k);
    IntoJudging(ws[a], k, acts[a].l);
    c := LearnedAt(ws, acts, a, k);
    ok := ws[a].workers[k].pc.done;
  }

  lemma FoldedParts(before: Worker, after: Worker)
    requires Stores(before, after, Fold)
    ensures before.pc.Folding?
    ensures var n := |before.run.results|;
            && 0 < n == |after.run.results| && after.run.results[n - 1] == before.pc.result
            && after.run.results[..n - 1] == before.run.results[..n - 1] && after.run.status == before.pc.verdict
            && after.pc == (if after.run.status == Running then Head else Leaving)
  {
  }

  // ----- how a scenario task ended -----

  /** The step neither moves the task's own state nor ends the process. */
  predicate Elsewhere(a: Action, id: string) {
    a != System(Crash) && (a.Scenario? && a.id == id ==> a.s.Feedback? || a.s.Abort?)
  }

  lemma LocalTaskPc(w: World, k: nat, l: LocalStep, id: string)
    requires LocalEnabled(w, k, l)
    ensures var t, t' := Find(w.tasks, id), Find(DoLocal(w, k, l).tasks, id);
            if t.Some? then t'.Some? && t'.value.pc == t.value.pc else t'.None? || t'.value.pc == Appending
  {
    hide LocalMove;
  }

  lemma ScenarioTaskPc(w: World, x: string, s: ScenarioStep, id: string)
    requires ScenarioEnabled(w, x, s) && TasksOk(w) && IdsOk(w) && (x != id || s.Feedback? || s.Abort?)
    ensures var t, t' := Find(w.tasks, id), Find(DoScenario(w, x, s).tasks, id);
            if t.Some? then t'.Some? && t'.value.pc == t.value.pc else t'.None?
  {
    hide ScenarioEnabled, DoScenario, TasksOk, IdsOk, TaskGrows, RecordGrows, TaskOk;
    if x != id { ScenarioIsMove(w, x, s); } else { WatchedTaskPc(w, x, s); }
  }

  lemma WatchedTaskPc(w: World, id: string, s: ScenarioStep)
    requires ScenarioEnabled(w, id, s) && (s.Feedback? || s.Abort?)
    ensures var t, t' := Find(w.tasks, id), Find(DoScenario(w, id, s).tasks, id);
            if t.Some? then t'.Some? && t'.value.pc == t.value.pc else t'.None?
  {
    hide FeedbackRecord;
  }

  lemma CancelTaskPc(w: World, t: nat, x: CancelStep, id: string)
    requires CancelEnabled(w, t, x)
    ensures var u, u' := Find(w.tasks, id), Find(DoCancel(w, t, x).tasks, id);
            if u.Some? then u'.Some? && u'.value.pc == u.value.pc else u'.None?
  {
  }

  lemma TaskPcKept(w: World, a: Action, id: string)
    requires Inv(w) && Enabled(w, a) && Elsewhere(a, id) && id in Next(w, a).tasks
    ensures (id in w.tasks && Next(w, a).tasks[id].pc == w.tasks[id].pc) || (id !in w.tasks && Next(w, a).tasks[id].pc == Appending)
  {
    hide WorkersOk, StoreOk, IdsOk, AttemptsOk, ControlsOk, LaunchesOk, QuietWhenDown, TasksOk,
         CommitEnabled, AdmissionEnabled, LocalEnabled, ScenarioEnabled, CancelEnabled, SystemEnabled, LaunchEnabled,
         DoCommit, DoAdmission, DoLocal, DoScenario, DoCancel, DoSystem;
    match a
    case Launch(k, run, resume) =>
    case Admission(k, x) => CampaignSafety.AdmissionTasks(w, k, x);
    case Local(k, l) => LocalTaskPc(w, k, l, id);
    case Commit(k, c, ok) => CampaignSafety.CommitTasks(w, k, c, ok);
    case Scenario(x, s) => ScenarioTaskPc(w, x, s, id);
    case Cancel(t, x) => CancelTaskPc(w, t, x, id);
    case System(y) => CampaignSafety.SystemTasks(w, y);
  }

  predicate Over(pc: TaskPc) { pc.Settling? || pc.Ended? }

  /** Step e is the attempt at the terminal commit that made the task's outcome `ok`. */
  ghost predicate EndedBy(w: World, a: Action, id: string, ok: bool) {
    a.Scenario? && a.id == id && a.s.Settle? && ok == (a.s.ok && id in w.audit && !a.s.outcome.failed)
  }

  lemma SetTaskIs(w: World, id: string, pc: TaskPc)
    requires id in w.tasks
    ensures id in SetTask(w, id, pc).tasks && SetTask(w, id, pc).tasks[id].pc == pc
  {
  }

  lemma SettleEnds(w: World, id: string, outcome: Settlement, written: bool)
    requires id in w.tasks
    ensures var w' := DoSettle(w, id, outcome, written);
            id in w'.tasks && Over(w'.tasks[id].pc) && EndedBy(w, Scenario(id, Settle(outcome, written)), id, w'.tasks[id].pc.ok)
  {
    hide SettledRecord, SetTask;
    if written && id in w.audit {
      var settled := w.(audit := w.audit[id := SettledRecord(w.audit[id], w.tasks[id].mode, outcome)]);
      SetTaskIs(settled, id, Settling(!outcome.failed));
    } else {
      SetTaskIs(w, id, Ended(false, !written));
    }
  }

  lemma AppendEndsNothing(w: World, id: string, ok: bool)
    requires id in w.tasks
    ensures id in DoAppend(w, id, ok).tasks && !Over(DoAppend(w, id, ok).tasks[id].pc)
  {
    hide QueuedRecord;
  }

  lemma ScenarioEnds(w: World, id: string, s: ScenarioStep)
    requires ScenarioEnabled(w, id, s) && !s.Feedback? && !s.Abort? && id in DoScenario(w, id, s).tasks
    requires Over(DoScenario(w, id, s).tasks[id].pc)
    ensures var ok := DoScenario(w, id, s).tasks[id].pc.ok;
            EndedBy(w, Scenario(id, s), id, ok) || (id in w.tasks && Over(w.tasks[id].pc) && w.tasks[id].pc.ok == ok)
  {
    hide DoSettle, DoAppend, EndedBy;
    match s
    case Settle(outcome, written) => SettleEnds(w, id, outcome, written);
    case Append(ok) => AppendEndsNothing(w, id, ok);
    case _ =>
  }

  /** A scenario task succeeded exactly when its terminal commit was written and its execution did not fail. */
  lemma {:induction false} TaskEndedBy(ws: seq<World>, acts: seq<Action>, i: nat, id: string) returns (e: nat)
    requires Behaviour(ws, acts) && i < |ws| && id in ws[i].tasks && Over(ws[i].tasks[id].pc)
    ensures e < i && EndedBy(ws[e], acts[e], id, ws[i].tasks[id].pc.ok)
  {
    hide Inv, Enabled, Next, EndedBy;
    if i == 0 { assert false; }
    else {
      e := i - 1;
      var w, a := ws[e], acts[e];
      if Elsewhere(a, id) {
        CampaignSafety.Reachable(ws, acts, e);
        TaskPcKept(w, a, id);
        e := TaskEndedBy(ws, acts, e, id);
      } else if a == System(Crash) {
        AuditHistory.CrashedTasks(w);
        assert false;
      } else {
        EndsOrWasOver(w, a, id);
        if !EndedBy(w, a, id, ws[i].tasks[id].pc.ok) { e := TaskEndedBy(ws, acts, e, id); }
      }
    }
  }

  lemma EndsOrWasOver(w: World, a: Action, id: string)
    requires Enabled(w, a) && !Elsewhere(a, id) && a != System(Crash) && id in Next(w, a).tasks && Over(Next(w, a).tasks[id].pc)
    ensures var ok := Next(w, a).tasks[id].pc.ok;
            EndedBy(w, a, id, ok) || (id in w.tasks && Over(w.tasks[id].pc) && w.tasks[id].pc.ok == ok)
  {
    hide ScenarioEnabled, DoScenario, Over, EndedBy;
    ScenarioEnds(w, id, a.s);
  }
}
