/** Nothing gets stuck: in every reachable state each worker, each scenario task and the startup has a step it can
    take, with any outcome of its write, or waits for a named other that has one. */
module CampaignProgress {
  import opened Wrappers
  import opened Records
  import opened CampaignRunStore
  import opened CampaignExecution
  import opened ScenarioExecution
  import opened CampaignProtocol
  import opened CampaignInvariant
  import opened CampaignSteps
  import CampaignSafety

  // ----- workers -----

  /** Enabled whether or not the write succeeds. */
  ghost predicate MayCommit(w: World, k: nat, c: CommitStep) {
    Enabled(w, Commit(k, c, true)) && Enabled(w, Commit(k, c, false))
  }

  /** No resume transaction is in progress. */
  predicate Unlocked(w: World) { w.consulting.None? }

  /** What the worker can do, or whom it waits for. */
  ghost predicate GoesOn(w: World, k: nat)
    requires k in w.workers
  {
    var wk := w.workers[k];
    match wk.pc
    case Spawned => Enabled(w, Admission(k, Register))
    case Admitting =>
      Unlocked(w) ==>
        if wk.resume then Enabled(w, Admission(k, Consult))
        else forall ok :: Enabled(w, Admission(k, InsertRun(ok)))
    case Consulted(_) => forall ok :: Enabled(w, Admission(k, Resume(ok)))
    case Head => Enabled(w, Local(k, Check))
    case StoppingIdle => Unlocked(w) ==> MayCommit(w, k, StopIdle)
    case Planning => Unlocked(w) ==> forall id | id != "" && id !in w.issued :: MayCommit(w, k, Plan(id))
    case Pending(_) => Enabled(w, Local(k, Recheck))
    case StoppingPending(_) => Unlocked(w) ==> MayCommit(w, k, StopPending)
    case Starting(_) => forall accepted, mode :: Enabled(w, Local(k, Start(accepted, mode)))
    case AwaitingAdmission(id) =>
      id in w.tasks && (!w.tasks[id].pc.Appending? && !w.tasks[id].pc.Enlisting? ==> Enabled(w, Local(k, Observe)))
    case Linking(_) => Enabled(w, Local(k, Link))
    case Forwarding(_) => Enabled(w, Local(k, Forward))
    case Awaiting(id) => id in w.tasks && (w.tasks[id].pc.Ended? ==> Enabled(w, Local(k, Join)))
    case Unlinking(_, _) => Enabled(w, Local(k, Unlink))
    case Collecting(_, _) => Enabled(w, Local(k, Collect))
    case Judging(_, _, _) => Enabled(w, Local(k, Judge))
    case Folding(_, _, _) => Unlocked(w) ==> MayCommit(w, k, Fold)
    case Finalizing => Unlocked(w) ==> MayCommit(w, k, Finalize)
    case Leaving => Enabled(w, Admission(k, Leave))
    case Gone => true
  }

  predicate Locking(pc: Pc) { pc.StoppingIdle? || pc.Planning? || pc.StoppingPending? || pc.Folding? || pc.Finalizing? }

  predicate Entering(pc: Pc) { pc.Spawned? || pc.Admitting? || pc.Consulted? || pc.Leaving? || pc.Gone? }

  lemma EnteringGoesOn(w: World, k: nat)
    requires w.phase == Up && k in w.workers && WorkerOk(w.workers[k], ViewOf(w, k)) && Entering(w.workers[k].pc)
    ensures GoesOn(w, k)
  {
    hide PcOk, Locking;
  }

  /** The worker of a stage in flight finds the run it writes to, with a result to write over. */
  lemma StageIsStored(w: World, k: nat)
    requires k in w.workers && WorkerOk(w.workers[k], ViewOf(w, k)) && (w.workers[k].pc.StoppingPending? || w.workers[k].pc.Folding?)
    ensures StoredHasStage(w, k)
  {
    hide ValidRun, ResultOk, SoundVerdict, AllCompleted, Get;
  }

  lemma PlanningMayPlan(w: World, k: nat)
    requires k in w.workers && WorkerOk(w.workers[k], ViewOf(w, k)) && w.workers[k].pc.Planning?
    ensures MayPlan(w.workers[k].run)
  {
    hide IdleOk;
  }

  lemma LockingGoesOn(w: World, k: nat)
    requires w.phase == Up && k in w.workers && WorkerOk(w.workers[k], ViewOf(w, k)) && Locking(w.workers[k].pc)
    ensures GoesOn(w, k)
  {
    hide WorkerOk, StoredHasStage, MayPlan;
    if w.workers[k].pc.Planning? { PlanningMayPlan(w, k); }
    else if w.workers[k].pc.StoppingPending? || w.workers[k].pc.Folding? { StageIsStored(w, k); }
  }

  lemma LoopGoesOn(w: World, k: nat)
    requires w.phase == Up && k in w.workers && WorkerOk(w.workers[k], ViewOf(w, k))
    requires !Locking(w.workers[k].pc) && !Entering(w.workers[k].pc)
    requires StageId(w.workers[k].pc).Some? ==> OnStage(w.workers[k].run)
    ensures GoesOn(w, k)
  {
    hide OnStage, StageOk, IdleOk, ResultOk, SoundVerdict, MayCommit;
  }

  /** No worker is ever stuck: whatever it is about to do it can do, unless it waits for the resume transaction in
      progress or for its own scenario task. */
  lemma WorkerIsNeverStuck(ws: seq<World>, acts: seq<Action>, i: nat, k: nat)
    requires Behaviour(ws, acts) && i < |ws| && k in ws[i].workers
    ensures GoesOn(ws[i], k)
  {
    hide Inv, Next, Enabled, GoesOn, WorkersOk, WorkerOk;
    CampaignSafety.Reachable(ws, acts, i);
    WorkersMeanUp(ws[i], k);
    CampaignSafety.InvWorkers(ws[i]);
    WorkerIsOk(ws[i], k);
    var pc := ws[i].workers[k].pc;
    if Entering(pc) { EnteringGoesOn(ws[i], k); }
    else if Locking(pc) { LockingGoesOn(ws[i], k); }
    else {
      CampaignSafety.WorkerNeverPanics(ws, acts, i, k);
      LoopGoesOn(ws[i], k);
    }
  }

  lemma WorkersMeanUp(w: World, k: nat)
    requires Inv(w) && k in w.workers
    ensures w.phase == Up
  {
    hide WorkersOk, ControlsOk, LaunchesOk, TasksOk, IdsOk, StoreOk, AttemptsOk;
  }

  /** A resume transaction in progress is held by a worker that can commit or drop it. */
  lemma LockIsReleasable(ws: seq<World>, acts: seq<Action>, i: nat)
    requires Behaviour(ws, acts) && i < |ws| && ws[i].consulting.Some?
    ensures forall ok :: Enabled(ws[i], Admission(ws[i].consulting.value, Resume(ok)))
  {
    hide Inv, Next, WorkersOk, PcOk;
    CampaignSafety.Reachable(ws, acts, i);
    CampaignSafety.InvWorkers(ws[i]);
    HolderExists(ws[i]);
    var k := ws[i].consulting.value;
    WorkersMeanUp(ws[i], k);
    WorkerIsOk(ws[i], k);
  }

  lemma HolderExists(w: World)
    requires WorkersOk(w) && w.consulting.Some?
    ensures w.consulting.value in w.workers
  {
  }

  // ----- scenario tasks, startup and the outside world -----

  /** A scenario task goes on with every outcome until it has ended or was refused. */
  lemma TaskIsNeverStuck(ws: seq<World>, acts: seq<Action>, i: nat, id: string)
    requires Behaviour(ws, acts) && i < |ws| && id in ws[i].tasks
    ensures var w := ws[i];
            match w.tasks[id].pc
            case Appending => forall ok :: Enabled(w, Scenario(id, Append(ok)))
            case Enlisting => Enabled(w, Scenario(id, Enlist))
            case Executing => forall outcome, ok :: Enabled(w, Scenario(id, Settle(outcome, ok)))
            case Settling(_) => Enabled(w, Scenario(id, Delist))
            case Refused => true
            case Ended(_, _) => true
  {
    hide Inv, Next;
    CampaignSafety.Reachable(ws, acts, i);
    TasksMeanUp(ws[i], id);
  }

  lemma TasksMeanUp(w: World, id: string)
    requires Inv(w) && id in w.tasks
    ensures w.phase == Up
  {
    hide WorkersOk, ControlsOk, LaunchesOk, TasksOk, IdsOk, StoreOk, AttemptsOk;
  }

  /** Startup never gets stuck: the audit recovers record by record, and then the snapshot is accepted. */
  lemma StartupIsNeverStuck(ws: seq<World>, acts: seq<Action>, i: nat)
    requires Behaviour(ws, acts) && i < |ws|
    ensures ws[i].phase == Down ==> Enabled(ws[i], System(Boot))
    ensures ws[i].phase == RecoveringAudit ==>
              Enabled(ws[i], System(LoadSnapshot)) || exists id :: Enabled(ws[i], System(RecoverRecord(id)))
    ensures ws[i].phase == RecoveringCampaigns ==> Enabled(ws[i], System(RecoverRuns))
    ensures ws[i].phase != Down ==> Enabled(ws[i], System(Crash))
  {
    hide Inv, Next, ValidSnapshot;
    CampaignSafety.SnapshotNeverBlocksStartup(ws, acts, i);
    if ws[i].phase == RecoveringAudit && !AllTerminal(ws[i].audit) {
      var id :| id in ws[i].audit && !Terminal(ws[i].audit[id].status);
      assert Enabled(ws[i], System(RecoverRecord(id)));
    }
  }

  /** Whenever the process is up, anybody may launch a plan of one or more stages under a fresh id, resume any id,
      cancel anything, start a scenario run and give feedback on a finished one. */
  lemma RequestsAreFree(w: World, k: nat, t: nat, id: string)
    requires w.phase == Up && k !in w.spawned && t !in w.cancellers
    ensures forall run: CampaignRun |
              && run.id !in w.issued && run.id != "" && run.status == Queued && run.results == [] && run.superseded == []
              && run.resumeCount == 0 && run.steps != []
              && (forall n | 0 <= n < |run.steps| :: run.steps[n].order > 0 && run.steps[n].scenarioId != "")
              && (forall m, n | 0 <= m < n < |run.steps| :: run.steps[m].order < run.steps[n].order) ::
                Enabled(w, Launch(k, run, false))
    ensures forall run :: Enabled(w, Launch(k, run, true))
    ensures Enabled(w, Cancel(t, LookUp(id))) && Enabled(w, Scenario(id, Abort))
    ensures id != "" && id !in w.issued ==> forall mode :: Enabled(w, Scenario(id, SpawnForeign(mode)))
    ensures id in w.audit && Terminal(w.audit[id].status) ==> forall m, contained :: Enabled(w, Scenario(id, Feedback(m, contained)))
  {
  }
}
