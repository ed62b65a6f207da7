/** Every action of the campaign protocol keeps the invariant. */
module CampaignSteps {
  import opened Wrappers
  import opened Records
  import opened CampaignRunStore
  import opened CampaignExecution
  import opened ScenarioExecution
  import opened CampaignProtocol
  import opened CampaignInvariant

  // ----- how the shared state may evolve -----

  /** No record is lost, and the verdict of a terminal record never changes again. */
  ghost predicate AuditKept(a: map<string, AuditRecord>, b: map<string, AuditRecord>) {
    forall id | id in a :: id in b && (Terminal(a[id].status) ==> SameVerdict(a[id], b[id]))
  }

  ghost predicate NewRecordsAppended(w: World, w': World) {
    forall id | id in w'.audit && id !in w.audit :: id in w.tasks && w.tasks[id].pc.Appending?
  }

  ghost predicate NewTasksStarted(w: World, w': World) {
    forall id | id in w'.tasks ::
      (id in w.tasks && (w.tasks[id].pc.Refused? ==> w'.tasks[id].pc.Refused?)) ||
      id !in w.issued || StartsIn(w, id)
  }

  ghost predicate NewStartsFresh(w: World, w': World) {
    forall id | StartsIn(w', id) :: StartsIn(w, id) || id !in w.issued
  }

  /** The stage a run id was committed for is fixed. */
  ghost predicate IntentsKept(a: map<string, Slot>, b: map<string, Slot>) {
    forall id | id in a :: id in b && b[id] == a[id]
  }

  ghost predicate Evolves(w: World, w': World) {
    && AuditKept(w.audit, w'.audit) && IntentsKept(w.intents, w'.intents) && NewRecordsAppended(w, w') && NewTasksStarted(w, w')
    && NewStartsFresh(w, w') && w.issued <= w'.issued && w.spawned <= w'.spawned
  }

  /** A settled attempt stays settled: nothing can admit it or reopen its record. */
  lemma SettledForever(w: World, w': World, id: string)
    requires Evolves(w, w') && id in w.issued && Settled(w, id)
    ensures Settled(w', id)
  {
    if id in w.audit {
      assert Closed(w.audit[id]);
      assert SameVerdict(w.audit[id], w'.audit[id]);
    } else {
      assert id !in w'.audit;
    }
  }

  /** An attempt stays accounted for while its run keeps its current attempts and its archive. */
  lemma AccountedStays(w: World, w': World, run: CampaignRun, run': CampaignRun, slot: Slot, id: string)
    requires Evolves(w, w') && id in w.issued && Accounted(w, run, slot, id) && run.superseded <= run'.superseded
    requires CurrentAttempt(run, slot, id) ==> CurrentAttempt(run', slot, id)
    ensures Accounted(w', run', slot, id)
  {
    hide AuditKept, SameVerdict;
    if id in w.audit && Closed(w.audit[id]) {
      SettledForever(w, w', id);
      ArchivedStays(run, run', id);
    } else if Retired(w, id) {
      SettledForever(w, w', id);
      RetiredNotAppended(w, w', id);
    }
  }

  lemma ArchivedStays(run: CampaignRun, run': CampaignRun, id: string)
    requires run.superseded <= run'.superseded
    ensures Archived(run, id) ==> Archived(run', id)
  {
    if Archived(run, id) {
      var i :| 0 <= i < |run.superseded| && run.superseded[i].runId == id;
      assert run'.superseded[i].runId == id;
    }
  }

  lemma RetiredNotAppended(w: World, w': World, id: string)
    requires Evolves(w, w') && id in w.issued && Retired(w, id)
    ensures id !in w'.audit && Retired(w', id)
  {
  }

  // ----- worker steps without a transaction -----

  lemma WorkerIsOk(w: World, k: nat)
    requires WorkersOk(w) && k in w.workers
    ensures WorkerOk(w.workers[k], ViewOf(w, k)) && k in w.spawned
    ensures w.consulting.Some? ==> w.consulting.value in w.workers
  {
    hide WorkerOk;
  }

  /** What a local step may do to the worker and to the task of its stage. */
  ghost predicate LocalChange(wk: Worker, next: Worker, task: Option<Task>, task': Option<Task>) {
    && next.cid == wk.cid && next.resume == wk.resume && Owns(next.pc) && Owns(wk.pc)
    && (forall id :: AboutToStart(next.pc, id) ==> AboutToStart(wk.pc, id))
    && (StageId(wk.pc).Some? ==> StageId(next.pc) == StageId(wk.pc))
    && (StageId(wk.pc).None? ==> StageId(next.pc).None?)
    && (task'.None? ==> task.None?)
    && (task' != task ==>
          if task.Some? then task'.value.pc == task.value.pc
          else task'.Some? && task'.value.pc == Appending && StageId(wk.pc).Some? && AboutToStart(wk.pc, StageId(wk.pc).value))
  }

  lemma LocalMoveChange(wk: Worker, task: Option<Task>, record: Option<AuditRecord>, l: LocalStep)
    requires LocalReady(wk, task, l)
    ensures LocalChange(wk, LocalMove(wk, task, record, l), task, LocalTask(task, l))
  {
    hide LocalChange, LocalMove, LocalReady, LocalTask;
    if l.Start? || l.Forward? { TaskMoveChange(wk, task, record, l); } else { QuietMoveChange(wk, task, record, l); }
  }

  lemma TaskMoveChange(wk: Worker, task: Option<Task>, record: Option<AuditRecord>, l: LocalStep)
    requires LocalReady(wk, task, l) && (l.Start? || l.Forward?)
    ensures LocalChange(wk, LocalMove(wk, task, record, l), task, LocalTask(task, l))
  {
  }

  lemma QuietMoveChange(wk: Worker, task: Option<Task>, record: Option<AuditRecord>, l: LocalStep)
    requires LocalReady(wk, task, l) && !l.Start? && !l.Forward?
    ensures LocalChange(wk, LocalMove(wk, task, record, l), task, LocalTask(task, l))
  {
    hide AfterStage, StageResult;
  }

  lemma LocalMoveOk(wk: Worker, v: View, l: LocalStep)
    requires WorkerOk(wk, v) && LocalReady(wk, v.task, l)
    ensures WorkerOk(LocalMove(wk, v.task, v.record, l), v.(task := LocalTask(v.task, l)))
  {
    hide WorkerOk, LocalMove, LocalReady;
    match l
    case Check => CheckOk(wk, v);
    case Recheck => RecheckOk(wk, v);
    case Start(_, _) => StartOk(wk, v, l);
    case Observe => ObserveOk(wk, v);
    case Link => StageMoveOk(wk, v, l);
    case Forward => StageMoveOk(wk, v, l);
    case Join => StageMoveOk(wk, v, l);
    case Unlink => StageMoveOk(wk, v, l);
    case Collect => CollectOk(wk, v);
    case Judge => JudgeOk(wk, v);
  }

  lemma CheckOk(wk: Worker, v: View)
    requires WorkerOk(wk, v) && LocalReady(wk, v.task, Check)
    ensures WorkerOk(LocalMove(wk, v.task, v.record, Check), v)
  {
    hide FreshRun, ValidPlan, IdleRun;
  }

  lemma RecheckOk(wk: Worker, v: View)
    requires WorkerOk(wk, v) && LocalReady(wk, v.task, Recheck)
    ensures WorkerOk(LocalMove(wk, v.task, v.record, Recheck), v)
  {
    hide ValidRun, StageRun;
  }

  lemma StartOk(wk: Worker, v: View, l: LocalStep)
    requires WorkerOk(wk, v) && l.Start? && LocalReady(wk, v.task, l)
    ensures WorkerOk(LocalMove(wk, v.task, v.record, l), v.(task := LocalTask(v.task, l)))
  {
    hide ValidRun, StageRun;
  }

  lemma ObserveOk(wk: Worker, v: View)
    requires WorkerOk(wk, v) && LocalReady(wk, v.task, Observe)
    ensures WorkerOk(LocalMove(wk, v.task, v.record, Observe), v)
  {
    hide ValidRun, StageRun;
  }

  /** The steps between an admitted stage and its end. */
  lemma StageMoveOk(wk: Worker, v: View, l: LocalStep)
    requires WorkerOk(wk, v) && LocalReady(wk, v.task, l) && (l.Link? || l.Forward? || l.Join? || l.Unlink?)
    ensures WorkerOk(LocalMove(wk, v.task, v.record, l), v.(task := LocalTask(v.task, l)))
  {
    hide ValidRun, StageRun;
  }

  lemma CollectOk(wk: Worker, v: View)
    requires WorkerOk(wk, v) && LocalReady(wk, v.task, Collect)
    ensures WorkerOk(LocalMove(wk, v.task, v.record, Collect), v)
  {
    hide ValidRun, StageRun;
  }

  lemma JudgeOk(wk: Worker, v: View)
    requires WorkerOk(wk, v) && LocalReady(wk, v.task, Judge)
    ensures WorkerOk(LocalMove(wk, v.task, v.record, Judge), v)
  {
    hide AfterStage, SoundVerdict, ValidRun;
    AfterStageIsSound(wk.run, wk.pc.result, wk.pc.done, wk.cancelled);
  }

  lemma PlacedEvolves(w: World, k: nat, next: Worker, task: Option<Task>)
    requires k in w.workers
    requires LocalChange(w.workers[k], next, FindAt(w.tasks, StageId(w.workers[k].pc)), task)
    ensures Evolves(w, Placed(w, k, next, StageId(w.workers[k].pc), task))
  {
    var wk := w.workers[k];
    var w' := Placed(w, k, next, StageId(wk.pc), task);
    forall id | StartsIn(w', id) ensures StartsIn(w, id) {
      var j :| j in w'.workers && AboutToStart(w'.workers[j].pc, id);
      assert AboutToStart(w.workers[j].pc, id);
    }
    forall id | id in w'.tasks && id !in w.tasks ensures StartsIn(w, id) {
      assert AboutToStart(wk.pc, id);
    }
  }

  lemma PlacedViews(w: World, k: nat, next: Worker, task: Option<Task>, j: nat)
    requires k in w.workers && j in w.workers && next.cid == w.workers[k].cid
    requires task.None? ==> FindAt(w.tasks, StageId(w.workers[k].pc)).None?
    requires StageId(next.pc) == StageId(w.workers[k].pc)
    requires j != k && StageId(w.workers[k].pc).Some? ==> StageId(w.workers[j].pc) != StageId(w.workers[k].pc)
    ensures var w' := Placed(w, k, next, StageId(w.workers[k].pc), task);
            ViewOf(w', j) == if j == k && StageId(next.pc).Some? then ViewOf(w, k).(task := task) else ViewOf(w, j)
  {
  }

  lemma PlacedWorkers(w: World, k: nat, next: Worker, task: Option<Task>)
    requires WorkersOk(w) && k in w.workers
    requires LocalChange(w.workers[k], next, FindAt(w.tasks, StageId(w.workers[k].pc)), task)
    requires WorkerOk(next, ViewOf(w, k).(task := task))
    ensures WorkersOk(Placed(w, k, next, StageId(w.workers[k].pc), task))
  {
    hide PcOk;
    var w' := Placed(w, k, next, StageId(w.workers[k].pc), task);
    var stage := StageId(w.workers[k].pc);
    forall j | j in w'.workers ensures WorkerOk(w'.workers[j], ViewOf(w', j)) {
      if j != k {
        if stage.Some? { StagesDiffer(w, j, k, stage.value); }
        assert WorkerOk(w.workers[j], ViewOf(w, j));
      }
      PlacedViews(w, k, next, task, j);
    }
  }

  /** With the snapshot and the intents unchanged, attempts stay accounted for. */
  lemma AttemptsStay(w: World, w': World)
    requires AttemptsOk(w) && IdsOk(w) && Evolves(w, w')
    requires w'.store == w.store && w'.intents == w.intents
    ensures AttemptsOk(w')
  {
    hide Accounted, Settled, Evolves;
    forall id | id in w.intents && Settled(w, id) ensures Settled(w', id) {
      SettledForever(w, w', id);
    }
    forall id | id in w'.intents ensures AttemptOk(w', id) {
      assert AttemptOk(w, id);
      var run := Get(w.store, w.intents[id].campaign);
      if run.Some? { AccountedStays(w, w', run.value, run.value, w.intents[id], id); }
    }
  }

  lemma PlacedTasks(w: World, k: nat, next: Worker, task: Option<Task>)
    requires WorkersOk(w) && TasksOk(w) && IdsOk(w) && k in w.workers
    requires LocalChange(w.workers[k], next, FindAt(w.tasks, StageId(w.workers[k].pc)), task)
    ensures TasksOk(Placed(w, k, next, StageId(w.workers[k].pc), task))
  {
    hide WorkersOk, IdsOk, LocalChange, TaskOk, StageId;
    var stage := StageId(w.workers[k].pc);
    if stage.Some? && task.Some? { PlacedTask(w, k, next, stage.value, task.value); }
  }

  lemma PlacedTask(w: World, k: nat, next: Worker, id: string, task: Task)
    requires WorkersOk(w) && TasksOk(w) && IdsOk(w) && k in w.workers && StageId(w.workers[k].pc) == Some(id)
    requires LocalChange(w.workers[k], next, Find(w.tasks, id), Some(task))
    ensures id in w.issued && TaskOk(task, Find(w.audit, id))
  {
    hide WorkerOk, WorkersOk, RowsAudited;
    StageOf(w, k, id);
    if AboutToStart(w.workers[k].pc, id) {
      WorkerIsOk(w, k);
      StartingView(w.workers[k], ViewOf(w, k), id);
    }
  }

  /** The tables of a state that leaves ids, records, intents and snapshot alone. */
  lemma StoresStay(w: World, w': World)
    requires IdsOk(w) && StoreOk(w)
    requires w'.store == w.store && w'.audit == w.audit && w'.intents == w.intents && w'.issued == w.issued
    ensures IdsOk(w') && StoreOk(w')
  {
    hide RowsAudited, ValidSnapshot;
  }

  lemma StartingView(wk: Worker, v: View, id: string)
    requires WorkerOk(wk, v) && AboutToStart(wk.pc, id)
    ensures v.task.None? && v.record.None?
  {
  }

  lemma PlacedControls(w: World, k: nat, next: Worker, task: Option<Task>)
    requires ControlsOk(w) && LaunchesOk(w) && k in w.workers
    requires LocalChange(w.workers[k], next, FindAt(w.tasks, StageId(w.workers[k].pc)), task)
    ensures var w' := Placed(w, k, next, StageId(w.workers[k].pc), task);
            ControlsOk(w') && LaunchesOk(w')
  {
    hide ControlsOk, LaunchesOk, StageId, AboutToStart;
    var w' := Placed(w, k, next, StageId(w.workers[k].pc), task);
    ControlsStay(w, w', k);
    LaunchesStay(w, w', k);
  }

  lemma PlacedKeepsInv(w: World, k: nat, next: Worker, task: Option<Task>)
    requires Inv(w) && At(w, k)
    requires LocalChange(w.workers[k], next, FindAt(w.tasks, StageId(w.workers[k].pc)), task)
    requires WorkerOk(next, ViewOf(w, k).(task := task))
    ensures var w' := Placed(w, k, next, StageId(w.workers[k].pc), task); Inv(w') && Evolves(w, w')
  {
    hide WorkersOk, WorkerOk, TasksOk, AttemptsOk, Evolves, ControlsOk, LaunchesOk, LocalChange, IdsOk, StoreOk, StageId;
    var w' := Placed(w, k, next, StageId(w.workers[k].pc), task);
    StoresStay(w, w');
    PlacedEvolves(w, k, next, task);
    PlacedWorkers(w, k, next, task);
    PlacedTasks(w, k, next, task);
    PlacedControls(w, k, next, task);
    AttemptsStay(w, w');
  }

  lemma LocalKeepsInv(w: World, k: nat, l: LocalStep)
    requires Inv(w) && LocalEnabled(w, k, l)
    ensures Inv(DoLocal(w, k, l)) && Evolves(w, DoLocal(w, k, l))
  {
    hide WorkerOk, LocalChange, LocalReady, LocalMove, LocalTask, Evolves, ControlsOk, LaunchesOk, TasksOk, AttemptsOk, IdsOk, StoreOk, WorkersOk;
    var wk := w.workers[k];
    var v := ViewOf(w, k);
    WorkerIsOk(w, k);
    LocalMoveChange(wk, v.task, v.record, l);
    LocalMoveOk(wk, v, l);
    PlacedKeepsInv(w, k, LocalMove(wk, v.task, v.record, l), LocalTask(v.task, l));
  }

  // ----- frames for the workers that do not act -----

  predicate FreshLaunch(wk: Worker) {
    !wk.resume && (wk.pc.Spawned? || wk.pc.Admitting?)
  }

  /** The part of the view that a worker's state depends on is unchanged. */
  ghost predicate SameView(wk: Worker, v: View, v': View) {
    && v'.owned == v.owned && v'.locked == v.locked
    && (Drives(wk.pc) ==> v'.stored == v.stored && v'.task == v.task && v'.record == v.record && v'.slot == v.slot)
    && (FreshLaunch(wk) ==> v'.stored.None? && v'.untouched)
    && (wk.pc.Consulted? && v.last.Some? && Terminal(v.last.value.status) ==>
          v'.last.Some? && SameVerdict(v.last.value, v'.last.value))
  }

  lemma SameViewOk(wk: Worker, v: View, v': View)
    requires WorkerOk(wk, v) && SameView(wk, v, v')
    ensures WorkerOk(wk, v')
  {
  }

  // ----- worker transactions -----

  /** How a transaction changes the stage attempts of its run. */
  ghost predicate AttemptEffect(before: CampaignRun, after: CampaignRun, c: CommitStep) {
    && after.id == before.id && after.superseded == before.superseded
    && match c
       case Plan(id) =>
         |after.results| == |before.results| + 1 && after.results[|before.results|].runId == id &&
         forall i | 0 <= i < |before.results| :: after.results[i].runId == before.results[i].runId
       case StopPending =>
         |after.results| == |before.results| > 0 &&
         forall i | 0 <= i < |before.results| - 1 :: after.results[i].runId == before.results[i].runId
       case _ =>
         |after.results| == |before.results| &&
         forall i | 0 <= i < |before.results| :: after.results[i].runId == before.results[i].runId
  }

  lemma ChangeEffect(w: World, k: nat, c: CommitStep)
    requires CommitEnabled(w, k, c) && WorkerOk(w.workers[k], ViewOf(w, k))
    ensures Stored(w, k) == Some(w.workers[k].run)
    ensures AttemptEffect(w.workers[k].run, Change(w, k, c, w.workers[k].run), c)
    ensures Change(w, k, c, w.workers[k].run).id == w.workers[k].run.id == w.workers[k].cid
  {
    hide ValidRun, FreshRun, ValidPlan, MatchesStep, SoundVerdict;
  }

  lemma ChangeValid(w: World, k: nat, c: CommitStep)
    requires CommitEnabled(w, k, c) && WorkerOk(w.workers[k], ViewOf(w, k)) && Stored(w, k) == Some(w.workers[k].run)
    ensures ValidRun(Change(w, k, c, w.workers[k].run))
  {
    hide FreshRun, ValidPlan, MatchesStep, ValidRun, SoundVerdict, IdleRun, StageRun, Stopped, StoppedPending, Folded, Finalized, WithIntent;
    var wk := w.workers[k];
    match c
    case StopIdle => StopKeepsRun(wk.run);
    case Plan(id) => IntentKeepsRun(wk.run, id);
    case StopPending => StopPendingKeepsRun(wk.run, wk.pc.id);
    case Fold => FoldKeepsRun(wk.run, wk.pc.id, wk.pc.result, wk.pc.verdict);
    case Finalize => FinalizeKeepsRun(wk.run);
  }

  lemma ChangeRows(w: World, k: nat, c: CommitStep)
    requires CommitEnabled(w, k, c) && WorkerOk(w.workers[k], ViewOf(w, k)) && Stored(w, k) == Some(w.workers[k].run)
    requires RowsAudited(w.workers[k].run, w.audit)
    ensures RowsAudited(Change(w, k, c, w.workers[k].run), w.audit)
  {
  }

  /** What the worker needs of its own view once the transaction is committed. */
  lemma OnwardOk(w: World, k: nat, c: CommitStep, v: View)
    requires CommitEnabled(w, k, c) && WorkerOk(w.workers[k], ViewOf(w, k)) && Stored(w, k) == Some(w.workers[k].run)
    requires var run := Change(w, k, c, w.workers[k].run);
             && v.owned && !v.locked && (run.status == Running ==> v.stored == Some(run))
             && (c.Plan? ==> v.slot == Some(Slot(w.workers[k].cid, |w.workers[k].run.results|)) && v.task.None? && v.record.None?)
    ensures var run := Change(w, k, c, w.workers[k].run);
            WorkerOk(w.workers[k].(run := run, pc := Onward(w.workers[k].pc, c)), v)
  {
    hide WorkerOk, Folded, Stopped, StoppedPending, Finalized;
    var wk := w.workers[k];
    match c
    case Plan(id) => PlannedOk(wk, ViewOf(w, k), v, id);
    case Fold => FoldedOk(wk, ViewOf(w, k), v);
    case _ => OutgoingOk(wk, ViewOf(w, k), v, Change(w, k, c, wk.run));
  }

  lemma PlannedOk(wk: Worker, v: View, v': View, id: string)
    requires WorkerOk(wk, v) && wk.pc == Planning && id != "" && |wk.run.results| < |wk.run.steps|
    requires v'.owned && !v'.locked && v'.slot == Some(Slot(wk.cid, |wk.run.results|)) && v'.task.None? && v'.record.None?
    requires v'.stored == Some(WithIntent(wk.run, PendingResult(wk.run.steps[|wk.run.results|], id)))
    ensures WorkerOk(wk.(run := WithIntent(wk.run, PendingResult(wk.run.steps[|wk.run.results|], id)), pc := Pending(id)), v')
  {
    IntentKeepsRun(wk.run, id);
  }

  lemma FoldedOk(wk: Worker, v: View, v': View)
    requires WorkerOk(wk, v) && wk.pc.Folding? && wk.run.results != [] && v'.owned && !v'.locked
    requires var run := Folded(wk.run, wk.pc.result, wk.pc.verdict); run.status == Running ==> v'.stored == Some(run)
    ensures WorkerOk(wk.(run := Folded(wk.run, wk.pc.result, wk.pc.verdict), pc := Onward(wk.pc, Fold)), v')
  {
    hide MatchesStep;
    FoldKeepsRun(wk.run, wk.pc.id, wk.pc.result, wk.pc.verdict);
  }

  lemma OutgoingOk(wk: Worker, v: View, v': View, run: CampaignRun)
    requires WorkerOk(wk, v) && (wk.pc.StoppingIdle? || wk.pc.StoppingPending? || wk.pc.Finalizing?) && v'.owned && !v'.locked
    ensures WorkerOk(wk.(run := run, pc := Leaving), v')
  {
    hide ValidRun, IdleRun, StageRun;
  }

  /** The fields a committed transaction touches, for a worker whose run is stored. */
  lemma CommittedFields(w: World, k: nat, c: CommitStep)
    requires CommitEnabled(w, k, c) && Stored(w, k) == Some(w.workers[k].run)
    ensures var w' := DoCommit(w, k, c, true);
            var run := Change(w, k, c, w.workers[k].run);
            var slot := Slot(w.workers[k].cid, |w.workers[k].run.results|);
            && w'.store == Revised(w.store, run)
            && w'.workers == w.workers[k := w.workers[k].(run := run, pc := Onward(w.workers[k].pc, c))]
            && w'.intents == (if c.Plan? then w.intents[c.id := slot] else w.intents)
            && w'.issued == (if c.Plan? then w.issued + {c.id} else w.issued)
            && w'.audit == w.audit && w'.tasks == w.tasks && w'.controls == w.controls && w'.phase == w.phase
            && w'.consulting == w.consulting && w'.spawned == w.spawned && w'.cancellers == w.cancellers
  {
  }

  lemma CommitStore(w: World, k: nat, c: CommitStep)
    requires Inv(w) && CommitEnabled(w, k, c)
    ensures Stored(w, k) == Some(w.workers[k].run)
    ensures var w' := DoCommit(w, k, c, true);
            var run := Change(w, k, c, w.workers[k].run);
            && StoreOk(w') && OthersKept(w.store, w'.store, w.workers[k].cid)
            && AttemptEffect(w.workers[k].run, run, c)
            && (Get(w'.store, w.workers[k].cid) == Some(run) ||
                (Finished(run) && Get(w'.store, w.workers[k].cid).None?))
  {
    hide PcOk, Change, Onward, AttemptEffect, ValidRun, RowsAudited, AttemptsOk, TasksOk, ControlsOk, LaunchesOk, WorkersOk, IdsOk;
    var wk := w.workers[k];
    WorkerIsOk(w, k);
    ChangeEffect(w, k, c);
    ChangeValid(w, k, c);
    ChangeRows(w, k, c);
    CommittedFields(w, k, c);
    var run := Change(w, k, c, wk.run);
    RevisedKeepsSnapshot(w.store, run);
  }

  // ----- any committed store transaction, seen from outside -----

  /** Worker k's transaction: its own run becomes `run`, the worker becomes `next`, and `plan` is the
      scenario run id whose intent the transaction recorded, if it recorded one. */
  ghost predicate Txn(w: World, w': World, k: nat, run: CampaignRun, next: Worker, plan: Option<string>) {
    && k in w.workers && Owns(w.workers[k].pc) && Owns(next.pc)
    && next.cid == w.workers[k].cid == run.id && next.resume == w.workers[k].resume
    && (Get(w.store, run.id).Some? || FreshLaunch(w.workers[k]))
    && (w.consulting.None? || w.consulting == Some(k)) && w'.consulting.None?
    && OthersKept(w.store, w'.store, run.id)
    && (Get(w'.store, run.id) == Some(run) || (Finished(run) && Get(w'.store, run.id).None?))
    && (forall id :: AboutToStart(next.pc, id) ==> plan == Some(id))
    && (plan.Some? ==> plan.value !in w.issued && plan.value != "" && Get(w.store, run.id).Some?)
    && w'.workers == w.workers[k := next]
    && w'.intents == (if plan.Some? then w.intents[plan.value := Slot(run.id, |Get(w.store, run.id).value.results|)]
                      else w.intents)
    && w'.issued == (if plan.Some? then w.issued + {plan.value} else w.issued)
    && w'.audit == w.audit && w'.tasks == w.tasks && w'.controls == w.controls && w'.phase == w.phase
    && w'.spawned == w.spawned && w'.cancellers == w.cancellers
  }

  lemma TxnEvolves(w: World, w': World, k: nat, run: CampaignRun, next: Worker, plan: Option<string>)
    requires IdsOk(w) && Txn(w, w', k, run, next, plan)
    ensures Evolves(w, w')
  {
    forall id | StartsIn(w', id) ensures StartsIn(w, id) || id !in w.issued {
      var j :| j in w'.workers && AboutToStart(w'.workers[j].pc, id);
      if j != k { assert AboutToStart(w.workers[j].pc, id); }
    }
  }

  lemma TxnIds(w: World, w': World, k: nat, run: CampaignRun, next: Worker, plan: Option<string>)
    requires IdsOk(w) && LaunchesOk(w) && Txn(w, w', k, run, next, plan)
    ensures IdsOk(w')
  {
    forall d | Get(w'.store, d).Some? ensures d in w'.issued {
      if d != run.id { assert Get(w.store, d).Some?; }
    }
  }

  lemma TxnSeenByDriver(w: World, w': World, k: nat, run: CampaignRun, next: Worker, plan: Option<string>, j: nat)
    requires IdsOk(w) && Txn(w, w', k, run, next, plan)
    requires j in w.workers && w.workers[j].cid != run.id && Drives(w.workers[j].pc)
    requires Get(w.store, w.workers[j].cid).Some? && !Finished(Get(w.store, w.workers[j].cid).value)
    requires StageId(w.workers[j].pc).Some? ==> StageId(w.workers[j].pc).value in w.intents
    requires w.consulting != Some(j)
    ensures SameView(w.workers[j], ViewOf(w, j), ViewOf(w', j))
  {
    hide RowsAudited;
  }

  lemma TxnSeenByFresh(w: World, w': World, k: nat, run: CampaignRun, next: Worker, plan: Option<string>, j: nat)
    requires Txn(w, w', k, run, next, plan)
    requires j in w.workers && w.workers[j].cid != run.id && FreshLaunch(w.workers[j]) && w.consulting != Some(j)
    requires Get(w.store, w.workers[j].cid).None? && NoIntentFor(w.intents, w.workers[j].cid)
    ensures SameView(w.workers[j], ViewOf(w, j), ViewOf(w', j))
  {
  }

  lemma TxnOther(w: World, w': World, k: nat, run: CampaignRun, next: Worker, plan: Option<string>, j: nat)
    requires WorkersOk(w) && LaunchesOk(w) && IdsOk(w) && Txn(w, w', k, run, next, plan)
    requires j in w.workers && j != k
    ensures WorkerOk(w.workers[j], ViewOf(w', j))
  {
    hide PcOk, IdsOk, OthersKept, RowsAudited;
    var wj, v, v' := w.workers[j], ViewOf(w, j), ViewOf(w', j);
    assert WorkerOk(wj, v);
    assert !wj.pc.Consulted?;
    if Drives(wj.pc) {
      OwnersDiffer(w, j, k);
      DriverUnfinished(wj, v);
      if StageId(wj.pc).Some? { StageOf(w, j, StageId(wj.pc).value); }
      TxnSeenByDriver(w, w', k, run, next, plan, j);
    } else if FreshLaunch(wj) {
      FreshView(wj, v);
      TxnSeenByFresh(w, w', k, run, next, plan, j);
    }
    SameViewOk(wj, v, v');
  }

  lemma DriverUnfinished(wk: Worker, v: View)
    requires WorkerOk(wk, v) && Drives(wk.pc)
    ensures v.stored == Some(wk.run) && !Finished(wk.run) && wk.run.id == wk.cid
  {
  }

  lemma FreshView(wk: Worker, v: View)
    requires WorkerOk(wk, v) && FreshLaunch(wk)
    ensures v.stored.None? && v.untouched
  {
  }

  lemma TxnWorkers(w: World, w': World, k: nat, run: CampaignRun, next: Worker, plan: Option<string>)
    requires WorkersOk(w) && LaunchesOk(w) && IdsOk(w) && Txn(w, w', k, run, next, plan)
    requires WorkerOk(next, ViewOf(w', k))
    ensures WorkersOk(w')
  {
    hide PcOk, WorkerOk, LaunchesOk, IdsOk, OthersKept;
    forall j | j in w'.workers ensures WorkerOk(w'.workers[j], ViewOf(w', j)) {
      if j != k { TxnOther(w, w', k, run, next, plan, j); }
    }
  }

  /** The attempts of the transaction's own run are accounted for afterwards. */
  ghost predicate OwnAttemptsOk(w: World, w': World, run: CampaignRun) {
    forall id | id in w.intents && w.intents[id].campaign == run.id :: Accounted(w', run, w.intents[id], id)
  }

  lemma TxnAttempts(w: World, w': World, k: nat, run: CampaignRun, next: Worker, plan: Option<string>)
    requires AttemptsOk(w) && IdsOk(w) && Txn(w, w', k, run, next, plan) && OwnAttemptsOk(w, w', run)
    requires plan.Some? ==> CurrentAttempt(run, w'.intents[plan.value], plan.value)
    ensures AttemptsOk(w')
  {
    hide Settled, Evolves, Accounted, AttemptOk;
    TxnEvolves(w, w', k, run, next, plan);
    forall id | id in w.intents && Settled(w, id) ensures Settled(w', id) {
      SettledForever(w, w', id);
    }
    forall id | id in w'.intents ensures AttemptOk(w', id) {
      TxnAttempt(w, w', k, run, next, plan, id);
    }
    forall a, b | a in w'.intents && b in w'.intents && a != b && w'.intents[a] == w'.intents[b]
      ensures Settled(w', a) || Settled(w', b)
    {
      if plan == Some(a) { NotCurrentIsSettled(w, b); }
      else if plan == Some(b) { NotCurrentIsSettled(w, a); }
    }
  }

  lemma TxnAttempt(w: World, w': World, k: nat, run: CampaignRun, next: Worker, plan: Option<string>, id: string)
    requires AttemptsOk(w) && IdsOk(w) && Txn(w, w', k, run, next, plan) && OwnAttemptsOk(w, w', run)
    requires plan.Some? ==> CurrentAttempt(run, w'.intents[plan.value], plan.value)
    requires Evolves(w, w') && id in w'.intents
    ensures AttemptOk(w', id)
  {
    hide Evolves, Retired, Archived, Closed, RowsAudited;
    if plan != Some(id) && w.intents[id].campaign != run.id {
      assert AttemptOk(w, id);
      var before := Get(w.store, w.intents[id].campaign);
      if before.Some? { AccountedStays(w, w', before.value, before.value, w.intents[id], id); }
    }
  }

  /** An attempt at the stage that its run has not reached again is settled. */
  lemma NotCurrentIsSettled(w: World, id: string)
    requires id in w.intents && AttemptOk(w, id) && Get(w.store, w.intents[id].campaign).Some?
    requires w.intents[id].stage >= |Get(w.store, w.intents[id].campaign).value.results|
    ensures Settled(w, id)
  {
  }

  lemma TxnKeepsInv(w: World, w': World, k: nat, run: CampaignRun, next: Worker, plan: Option<string>)
    requires Inv(w) && w.phase == Up && Txn(w, w', k, run, next, plan) && StoreOk(w') && OwnAttemptsOk(w, w', run)
    requires plan.Some? ==> CurrentAttempt(run, w'.intents[plan.value], plan.value)
    requires WorkerOk(next, ViewOf(w', k))
    ensures Inv(w') && Evolves(w, w')
  {
    hide PcOk, WorkerOk, WorkersOk, AttemptsOk, OthersKept, IdsOk, Evolves, OwnAttemptsOk, StoreOk;
    TxnEvolves(w, w', k, run, next, plan);
    TxnIds(w, w', k, run, next, plan);
    TxnWorkers(w, w', k, run, next, plan);
    TxnAttempts(w, w', k, run, next, plan);
    TxnTasks(w, w', k, run, next, plan);
  }

  lemma TxnTasks(w: World, w': World, k: nat, run: CampaignRun, next: Worker, plan: Option<string>)
    requires TasksOk(w) && ControlsOk(w) && LaunchesOk(w) && Txn(w, w', k, run, next, plan)
    ensures TasksOk(w') && ControlsOk(w') && LaunchesOk(w')
  {
  }

  function PlanId(c: CommitStep): Option<string> {
    match c case Plan(id) => Some(id) case _ => None
  }

  function CommittedWorker(w: World, k: nat, c: CommitStep): Worker
    requires CommitEnabled(w, k, c) && Stored(w, k) == Some(w.workers[k].run)
  {
    w.workers[k].(run := Change(w, k, c, w.workers[k].run), pc := Onward(w.workers[k].pc, c))
  }

  lemma OnwardStarts(w: World, k: nat, c: CommitStep, id: string)
    requires CommitEnabled(w, k, c)
    ensures Owns(w.workers[k].pc) && Owns(Onward(w.workers[k].pc, c))
    ensures AboutToStart(Onward(w.workers[k].pc, c), id) ==> PlanId(c) == Some(id)
  {
  }

  lemma CommitIsTxn(w: World, k: nat, c: CommitStep)
    requires Inv(w) && CommitEnabled(w, k, c)
    ensures Stored(w, k) == Some(w.workers[k].run)
    ensures var w' := DoCommit(w, k, c, true);
            StoreOk(w') && Txn(w, w', k, Change(w, k, c, w.workers[k].run), CommittedWorker(w, k, c), PlanId(c))
  {
    hide PcOk, Change, Onward, AttemptEffect, ValidRun, RowsAudited, AttemptsOk, TasksOk, ControlsOk, LaunchesOk,
         WorkerOk, OthersKept, StoreOk, Owns, IdsOk;
    CommitStore(w, k, c);
    CommittedFields(w, k, c);
    ChangeEffect(w, k, c) by { assert WorkerOk(w.workers[k], ViewOf(w, k)); }
    OnwardStarts(w, k, c, "");
    forall id ensures AboutToStart(Onward(w.workers[k].pc, c), id) ==> PlanId(c) == Some(id) {
      OnwardStarts(w, k, c, id);
    }
  }

  /** A stopped, never admitted attempt is retired: its id was cleared and nobody else holds it. */
  lemma StoppedIsRetired(w: World, k: nat, id: string)
    requires WorkersOk(w) && CommitEnabled(w, k, StopPending) && w.workers[k].pc == StoppingPending(id)
    requires Stored(w, k) == Some(w.workers[k].run)
    ensures Retired(DoCommit(w, k, StopPending, true), id)
  {
    hide PcOk, Change, DoCommit, Revised;
    var w' := DoCommit(w, k, StopPending, true);
    CommittedFields(w, k, StopPending);
    StoppingView(w.workers[k], ViewOf(w, k), id) by { assert WorkerOk(w.workers[k], ViewOf(w, k)); }
    NobodyStarts(w, w', k, id);
  }

  lemma NobodyStarts(w: World, w': World, k: nat, id: string)
    requires WorkersOk(w) && k in w.workers && StageId(w.workers[k].pc) == Some(id)
    requires k in w'.workers && w'.workers == w.workers[k := w'.workers[k]] && !AboutToStart(w'.workers[k].pc, id)
    ensures !StartsIn(w', id)
  {
    hide PcOk, WorkerOk;
    forall j | j in w'.workers ensures !AboutToStart(w'.workers[j].pc, id) {
      if j != k { StagesDiffer(w, j, k, id); }
    }
  }

  lemma StoppingView(wk: Worker, v: View, id: string)
    requires WorkerOk(wk, v) && wk.pc == StoppingPending(id)
    ensures v.task.None? && v.record.None?
    ensures wk.run.results != [] && wk.run.results[|wk.run.results| - 1].runId == id
  {
  }

  /** Stopping a pending stage gives up exactly the attempt that was never admitted. */
  lemma StopPendingRetires(w: World, k: nat, slot: Slot, id: string)
    requires WorkersOk(w) && CommitEnabled(w, k, StopPending) && Stored(w, k) == Some(w.workers[k].run)
    requires CurrentAttempt(w.workers[k].run, slot, id) && slot.stage == |w.workers[k].run.results| - 1
    ensures Retired(DoCommit(w, k, StopPending, true), id)
  {
    hide PcOk, Change, WorkerOk, WorkersOk, Retired, DoCommit, ViewOf;
    WorkerIsOk(w, k);
    StoppingView(w.workers[k], ViewOf(w, k), w.workers[k].pc.id);
    StoppedIsRetired(w, k, id);
  }

  /** A transaction keeps the current attempts, but for the one that StopPending gives up. */
  lemma EffectKeepsCurrent(before: CampaignRun, after: CampaignRun, c: CommitStep, slot: Slot, id: string)
    requires AttemptEffect(before, after, c) && CurrentAttempt(before, slot, id)
    requires !c.StopPending? || slot.stage != |before.results| - 1
    ensures CurrentAttempt(after, slot, id)
  {
  }

  lemma EffectKeepsArchive(before: CampaignRun, after: CampaignRun, c: CommitStep)
    requires AttemptEffect(before, after, c)
    ensures after.id == before.id && before.superseded <= after.superseded
  {
  }

  lemma CommitOwnAttempts(w: World, k: nat, c: CommitStep)
    requires Inv(w) && CommitEnabled(w, k, c) && Stored(w, k) == Some(w.workers[k].run)
    requires AttemptEffect(w.workers[k].run, Change(w, k, c, w.workers[k].run), c)
    requires Evolves(w, DoCommit(w, k, c, true)) && w.workers[k].run.id == w.workers[k].cid
    ensures OwnAttemptsOk(w, DoCommit(w, k, c, true), Change(w, k, c, w.workers[k].run))
  {
    hide PcOk, Change, WorkerOk, Retired, Archived, Closed, Evolves, TasksOk, ControlsOk, LaunchesOk, StoreOk, DoCommit,
         WorkersOk, AttemptEffect, CurrentAttempt;
    var w' := DoCommit(w, k, c, true);
    var wk := w.workers[k];
    var run := Change(w, k, c, wk.run);
    EffectKeepsArchive(wk.run, run, c);
    forall id | id in w.intents && w.intents[id].campaign == run.id
      ensures Accounted(w', run, w.intents[id], id)
    {
      var slot := w.intents[id];
      assert AttemptOk(w, id);
      if CurrentAttempt(wk.run, slot, id) {
        if c.StopPending? && slot.stage == |wk.run.results| - 1 { StopPendingRetires(w, k, slot, id); }
        else { EffectKeepsCurrent(wk.run, run, c, slot, id); }
      } else {
        AccountedStays(w, w', wk.run, run, slot, id);
      }
    }
  }

  lemma CommitKeepsInv(w: World, k: nat, c: CommitStep)
    requires Inv(w) && CommitEnabled(w, k, c)
    ensures Inv(DoCommit(w, k, c, true)) && Evolves(w, DoCommit(w, k, c, true))
  {
    hide PcOk, Change, WorkerOk, Settled, Evolves, TasksOk, ControlsOk, LaunchesOk, StoreOk, OthersKept, AttemptsOk;
    var w' := DoCommit(w, k, c, true);
    CommitIsTxn(w, k, c);
    var run, next := Change(w, k, c, w.workers[k].run), CommittedWorker(w, k, c);
    TxnEvolves(w, w', k, run, next, PlanId(c));
    ChangeEffect(w, k, c) by { assert WorkersOk(w); }
    CommitOwnAttempts(w, k, c);
    CommitOwnView(w, k, c);
    TxnKeepsInv(w, w', k, run, next, PlanId(c));
  }

  lemma CommitOwnView(w: World, k: nat, c: CommitStep)
    requires WorkersOk(w) && IdsOk(w) && TasksOk(w) && CommitEnabled(w, k, c) && Stored(w, k) == Some(w.workers[k].run)
    requires Txn(w, DoCommit(w, k, c, true), k, Change(w, k, c, w.workers[k].run), CommittedWorker(w, k, c), PlanId(c))
    ensures WorkerOk(CommittedWorker(w, k, c), ViewOf(DoCommit(w, k, c, true), k))
  {
    hide PcOk, Change, OthersKept, DoCommit, Onward;
    var w' := DoCommit(w, k, c, true);
    var v' := ViewOf(w', k);
    assert WorkerOk(w.workers[k], ViewOf(w, k));
    assert v'.owned && !v'.locked;
    PlanView(w, w', k, c, CommittedWorker(w, k, c));
    OnwardOk(w, k, c, v');
  }

  lemma PlanView(w: World, w': World, k: nat, c: CommitStep, next: Worker)
    requires IdsOk(w) && TasksOk(w) && k in w.workers && Stored(w, k) == Some(w.workers[k].run)
    requires Txn(w, w', k, next.run, next, PlanId(c)) && next.pc == Onward(w.workers[k].pc, c)
    ensures c.Plan? ==> var v' := ViewOf(w', k);
              v'.slot == Some(Slot(next.cid, |w.workers[k].run.results|)) && v'.task.None? && v'.record.None?
  {
    hide OthersKept, RowsAudited, TaskOk;
  }

  // ----- steps that only hand control over: launch, register, consult, retreat, leave -----

  /** Worker k becomes `next`; only the control table, the transaction lock and history move along. */
  ghost predicate Handoff(w: World, w': World, k: nat, next: Worker) {
    && w'.phase == w.phase == Up && w'.workers == w.workers[k := next]
    && w'.store == w.store && w'.audit == w.audit && w'.tasks == w.tasks && w'.intents == w.intents
    && w.issued <= w'.issued && w.spawned <= w'.spawned && k in w'.spawned
    && (forall id :: !AboutToStart(next.pc, id))
    && (forall j | j in w.workers && j != k ::
          && (Find(w'.controls, w.workers[j].cid) == Some(j) <==> Find(w.controls, w.workers[j].cid) == Some(j))
          && (w'.consulting == Some(j) <==> w.consulting == Some(j)))
    && (w'.consulting.Some? ==> w'.consulting.value in w'.workers)
  }

  lemma HandoffEvolves(w: World, w': World, k: nat, next: Worker)
    requires Handoff(w, w', k, next)
    ensures Evolves(w, w')
  {
    forall id | StartsIn(w', id) ensures StartsIn(w, id) {
      var j :| j in w'.workers && AboutToStart(w'.workers[j].pc, id);
      assert j != k && AboutToStart(w.workers[j].pc, id);
    }
  }

  lemma HandoffWorkers(w: World, w': World, k: nat, next: Worker)
    requires WorkersOk(w) && Handoff(w, w', k, next) && WorkerOk(next, ViewOf(w', k))
    ensures WorkersOk(w')
  {
    hide WorkerOk;
    forall j | j in w'.workers ensures WorkerOk(w'.workers[j], ViewOf(w', j)) {
      if j != k { assert ViewOf(w', j) == ViewOf(w, j); }
    }
  }

  lemma HandoffKeepsInv(w: World, w': World, k: nat, next: Worker)
    requires Inv(w) && Handoff(w, w', k, next) && WorkerOk(next, ViewOf(w', k))
    requires ControlsOk(w') && LaunchesOk(w') && "" !in w'.issued
    ensures Inv(w') && Evolves(w, w')
  {
    hide WorkerOk, WorkersOk, AttemptsOk, ControlsOk, LaunchesOk, Evolves, RowsAudited, TaskOk;
    HandoffEvolves(w, w', k, next);
    HandoffWorkers(w, w', k, next);
    AttemptsStay(w, w');
  }

  lemma NoEmptyId(w: World)
    requires IdsOk(w)
    ensures "" !in w.issued
  {
  }

  lemma LaunchTables(w: World, k: nat, run: CampaignRun, resume: bool)
    requires ControlsOk(w) && LaunchesOk(w) && LaunchEnabled(w, k, run, resume) && k !in w.workers
    ensures ControlsOk(DoLaunch(w, k, run, resume)) && LaunchesOk(DoLaunch(w, k, run, resume))
  {
  }

  lemma LaunchView(w: World, k: nat, run: CampaignRun, resume: bool)
    requires IdsOk(w) && LaunchEnabled(w, k, run, resume) && w.consulting != Some(k)
    ensures var w' := DoLaunch(w, k, run, resume); WorkerOk(w'.workers[k], ViewOf(w', k))
  {
    hide RowsAudited;
  }

  lemma LaunchKeepsInv(w: World, k: nat, run: CampaignRun, resume: bool)
    requires Inv(w) && LaunchEnabled(w, k, run, resume)
    ensures Inv(DoLaunch(w, k, run, resume)) && Evolves(w, DoLaunch(w, k, run, resume))
  {
    hide WorkerOk, AttemptsOk, TasksOk, StoreOk, IdsOk, ControlsOk, LaunchesOk, FreshRun, ValidPlan;
    var w' := DoLaunch(w, k, run, resume);
    LaunchTables(w, k, run, resume);
    LaunchView(w, k, run, resume);
    NoEmptyId(w);
    assert "" !in w'.issued by { assert !resume ==> FreshRun(run); FreshRunNamed(run); }
    HandoffKeepsInv(w, w', k, w'.workers[k]);
  }

  lemma FreshRunNamed(run: CampaignRun)
    ensures FreshRun(run) ==> run.id != ""
  {
  }

  /** A worker between owning states, or on its way out, seen by the control and launch tables. */
  ghost predicate SameIdentity(w: World, w': World, k: nat) {
    && k in w.workers && w'.workers.Keys == w.workers.Keys && w.issued <= w'.issued
    && (forall j | j in w.workers && j != k :: w'.workers[j] == w.workers[j])
    && w'.workers[k].cid == w.workers[k].cid && w'.workers[k].resume == w.workers[k].resume
  }

  lemma LaunchesStay(w: World, w': World, k: nat)
    requires LaunchesOk(w) && SameIdentity(w, w', k)
    ensures LaunchesOk(w')
  {
  }

  lemma ControlsStay(w: World, w': World, k: nat)
    requires ControlsOk(w) && SameIdentity(w, w', k)
    requires w'.controls == w.controls && Owns(w'.workers[k].pc)
    ensures ControlsOk(w')
  {
  }

  lemma ControlsEntered(w: World, w': World, k: nat)
    requires ControlsOk(w) && SameIdentity(w, w', k)
    requires w'.controls == w.controls[w.workers[k].cid := k] && Owns(w'.workers[k].pc)
    ensures ControlsOk(w')
  {
  }

  lemma ControlsRefused(w: World, w': World, k: nat)
    requires ControlsOk(w) && SameIdentity(w, w', k)
    requires w'.controls == w.controls && w.workers[k].pc == Spawned
    ensures ControlsOk(w')
  {
  }

  lemma ControlsLeft(w: World, w': World, k: nat)
    requires ControlsOk(w) && SameIdentity(w, w', k) && Find(w.controls, w.workers[k].cid) == Some(k)
    requires w'.controls == w.controls - {w.workers[k].cid}
    ensures ControlsOk(w')
  {
  }

  lemma EntryHandoff(w: World, controls: map<string, nat>, k: nat, next: Worker)
    requires w.phase == Up && k in w.workers && k in w.spawned && (next.pc == Gone || next.pc == Admitting)
    requires controls == w.controls || (w.workers[k].cid !in w.controls && controls == w.controls[w.workers[k].cid := k])
    requires w.consulting != Some(k) && (w.consulting.Some? ==> w.consulting.value in w.workers)
    ensures Handoff(w, SetWorker(w.(controls := controls), k, next), k, next)
  {
  }

  lemma RegisterHandoff(w: World, k: nat)
    requires AdmissionEnabled(w, k, Register) && k in w.spawned
    requires w.consulting != Some(k) && (w.consulting.Some? ==> w.consulting.value in w.workers)
    ensures Handoff(w, DoRegister(w, k), k, DoRegister(w, k).workers[k])
  {
    hide Handoff;
    EntryHandoff(w, w.controls, k, w.workers[k].(pc := Gone));
    if w.workers[k].cid !in w.controls {
      EntryHandoff(w, w.controls[w.workers[k].cid := k], k, w.workers[k].(pc := Admitting));
    }
  }

  lemma RegisterView(wk: Worker, v: View, v': View, entered: bool)
    requires WorkerOk(wk, v) && wk.pc == Spawned
    requires v'.locked == v.locked && v'.stored == v.stored && v'.untouched == v.untouched && (entered ==> v'.owned)
    ensures !v.locked && WorkerOk(wk.(pc := if entered then Admitting else Gone), v')
  {
  }

  lemma RegisterWorker(w: World, k: nat)
    requires WorkersOk(w) && AdmissionEnabled(w, k, Register)
    ensures WorkerOk(DoRegister(w, k).workers[k], ViewOf(DoRegister(w, k), k))
    ensures Handoff(w, DoRegister(w, k), k, DoRegister(w, k).workers[k])
  {
    hide WorkerOk, Handoff, LastRunId, NoIntentFor;
    assert WorkerOk(w.workers[k], ViewOf(w, k));
    RegisterView(w.workers[k], ViewOf(w, k), ViewOf(DoRegister(w, k), k), w.workers[k].cid !in w.controls);
    RegisterHandoff(w, k);
  }

  lemma RegisterKeepsInv(w: World, k: nat)
    requires Inv(w) && AdmissionEnabled(w, k, Register)
    ensures Inv(DoRegister(w, k)) && Evolves(w, DoRegister(w, k))
  {
    hide AttemptsOk, TasksOk, StoreOk, IdsOk, ControlsOk, LaunchesOk, WorkersOk, WorkerOk, Handoff, ViewOf, Evolves, QuietWhenDown;
    var w' := DoRegister(w, k);
    var entered := w.workers[k].cid !in w.controls;
    RegisterWorker(w, k);
    LaunchesStay(w, w', k);
    if entered { ControlsEntered(w, w', k); } else { ControlsRefused(w, w', k); }
    NoEmptyId(w);
    HandoffKeepsInv(w, w', k, w'.workers[k]);
  }

  lemma ConsultHandoff(w: World, k: nat)
    requires AdmissionEnabled(w, k, Consult) && WorkersOk(w)
    ensures Handoff(w, DoConsult(w, k), k, DoConsult(w, k).workers[k])
    ensures ViewOf(DoConsult(w, k), k) == ViewOf(w, k).(locked := true)
  {
    hide WorkerOk, LastRunId;
  }

  lemma ConsultView(wk: Worker, v: View)
    requires WorkerOk(wk, v) && wk.pc == Admitting && wk.resume
    ensures WorkerOk(wk.(pc := Consulted(v.last)), v.(locked := true))
  {
  }

  lemma ConsultKeepsInv(w: World, k: nat)
    requires Inv(w) && AdmissionEnabled(w, k, Consult)
    ensures Inv(DoConsult(w, k)) && Evolves(w, DoConsult(w, k))
  {
    hide WorkersOk, AttemptsOk, TasksOk, StoreOk, IdsOk, LaunchesOk, WorkerOk, ControlsOk, Handoff, LastRunId;
    var w' := DoConsult(w, k);
    WorkerIsOk(w, k);
    ConsultHandoff(w, k);
    ConsultView(w.workers[k], ViewOf(w, k));
    LaunchesStay(w, w', k);
    ControlsStay(w, w', k);
    NoEmptyId(w);
    HandoffKeepsInv(w, w', k, w'.workers[k]);
  }

  /** A worker gives up: a failed or refused admission, or a failed transaction. */
  function Retreat(w: World, k: nat, drawn: set<string>): World
    requires k in w.workers
  {
    Goto(w.(consulting := None, issued := w.issued + drawn), k, Leaving)
  }

  lemma RetreatHandoff(w: World, k: nat, drawn: set<string>)
    requires At(w, k) && (w.consulting.None? || w.consulting == Some(k)) && k in w.spawned
    ensures Handoff(w, Retreat(w, k, drawn), k, Retreat(w, k, drawn).workers[k])
  {
    hide LastRunId;
  }

  lemma RetreatView(wk: Worker, v: View, v': View)
    requires WorkerOk(wk, v) && Owns(wk.pc) && wk.current.None? && v'.owned == v.owned && !v'.locked
    ensures WorkerOk(wk.(pc := Leaving), v')
  {
  }

  lemma RetreatKeepsInv(w: World, k: nat, drawn: set<string>)
    requires Inv(w) && At(w, k) && Owns(w.workers[k].pc) && w.workers[k].current.None?
    requires (w.consulting.None? || w.consulting == Some(k)) && "" !in drawn
    ensures Inv(Retreat(w, k, drawn)) && Evolves(w, Retreat(w, k, drawn))
  {
    hide WorkersOk, AttemptsOk, TasksOk, StoreOk, IdsOk, LaunchesOk, WorkerOk, ControlsOk, Handoff, LastRunId;
    var w' := Retreat(w, k, drawn);
    WorkerIsOk(w, k);
    RetreatHandoff(w, k, drawn);
    RetreatView(w.workers[k], ViewOf(w, k), ViewOf(w', k));
    LaunchesStay(w, w', k);
    ControlsStay(w, w', k);
    NoEmptyId(w);
    HandoffKeepsInv(w, w', k, w'.workers[k]);
  }

  lemma LeaveHandoff(w: World, k: nat)
    requires AdmissionEnabled(w, k, AdmissionStep.Leave) && k in w.spawned
    requires Find(w.controls, w.workers[k].cid) == Some(k) && w.consulting != Some(k)
    requires w.consulting.Some? ==> w.consulting.value in w.workers
    ensures Handoff(w, DoLeave(w, k), k, DoLeave(w, k).workers[k])
  {
    hide LastRunId;
  }

  lemma LeaveView(wk: Worker, v: View, v': View)
    requires WorkerOk(wk, v) && wk.pc == Leaving && v'.locked == v.locked
    ensures WorkerOk(wk.(pc := Gone), v') && v.owned && !v.locked
  {
  }

  lemma LeaveKeepsInv(w: World, k: nat)
    requires Inv(w) && AdmissionEnabled(w, k, AdmissionStep.Leave)
    ensures Inv(DoLeave(w, k)) && Evolves(w, DoLeave(w, k))
  {
    hide WorkersOk, AttemptsOk, TasksOk, StoreOk, IdsOk, LaunchesOk, WorkerOk, ControlsOk, Handoff, LastRunId;
    var w' := DoLeave(w, k);
    WorkerIsOk(w, k);
    LeaveView(w.workers[k], ViewOf(w, k), ViewOf(w', k));
    LeaveHandoff(w, k);
    LaunchesStay(w, w', k);
    ControlsLeft(w, w', k);
    NoEmptyId(w);
    HandoffKeepsInv(w, w', k, w'.workers[k]);
  }

  // ----- admission of a new run -----

  lemma FreshRunValid(wk: Worker, v: View)
    requires WorkerOk(wk, v) && FreshLaunch(wk)
    ensures ValidRun(wk.run) && wk.run.results == [] && wk.run.status == Queued && wk.run.id == wk.cid
    ensures v.stored.None? && v.untouched
  {
  }

  lemma InsertedOk(wk: Worker, v: View, v': View)
    requires WorkerOk(wk, v) && wk.pc == Admitting && !wk.resume
    requires v'.owned == v.owned && !v'.locked && v'.stored == Some(wk.run)
    ensures WorkerOk(wk.(pc := Head), v')
  {
    FreshRunValid(wk, v);
  }

  lemma InsertStore(w: World, k: nat)
    requires StoreOk(w) && AdmissionEnabled(w, k, InsertRun(true)) && WorkerOk(w.workers[k], ViewOf(w, k))
    ensures StoreOk(DoInsert(w, k, true))
    ensures OthersKept(w.store, DoInsert(w, k, true).store, w.workers[k].cid)
    ensures Get(DoInsert(w, k, true).store, w.workers[k].cid) == Some(w.workers[k].run)
  {
    hide PcOk, Inserted, ValidRun, WorkerOk;
    FreshRunValid(w.workers[k], ViewOf(w, k));
    InsertedKeepsSnapshot(w.store, w.workers[k].run);
  }

  lemma InsertKeepsInv(w: World, k: nat)
    requires Inv(w) && AdmissionEnabled(w, k, InsertRun(true))
    ensures Inv(DoInsert(w, k, true)) && Evolves(w, DoInsert(w, k, true))
  {
    hide PcOk, Inserted, ValidRun, StoreOk, OthersKept, AttemptsOk, TasksOk, IdsOk, ControlsOk, LaunchesOk, Settled, WorkerOk, Evolves,
         WorkersOk;
    var w' := DoInsert(w, k, true);
    var wk, next := w.workers[k], w'.workers[k];
    WorkerIsOk(w, k);
    FreshRunValid(wk, ViewOf(w, k));
    InsertStore(w, k);
    InsertedOk(wk, ViewOf(w, k), ViewOf(w', k));
    TxnKeepsInv(w, w', k, wk.run, next, None);
  }

  // ----- resume -----

  /** What a refused or accepted resume decision rests on, with the consulted audit still standing. */
  lemma ResumeRows(run: CampaignRun, seen: Option<AuditRecord>, audit: map<string, AuditRecord>)
    requires ValidRun(run) && ResumeRefusal(run, seen).None? && RowsAudited(run, audit)
    requires run.results != [] ==> ConsultOk(seen, Lookup(audit, run.results[|run.results| - 1].runId))
    ensures RowsAudited(ResumedRun(run, seen), audit)
  {
    ResumeNeverReplays(run, seen);
    var next := ResumedRun(run, seen);
    forall i | 0 <= i < |next.results| && next.results[i].status == Completed
      ensures next.results[i].runId in audit && audit[next.results[i].runId].status == Completed
    {
      if run.results[i].status == Completed {
        assert run.results[i].runId in audit;
      }
    }
  }

  /** An archived attempt is closed by its own audit, or its id was cleared and is nobody's. */
  lemma ResumeAttempt(run: CampaignRun, seen: Option<AuditRecord>, audit: map<string, AuditRecord>, slot: Slot, id: string)
    requires ValidRun(run) && ResumeRefusal(run, seen).None? && id != ""
    requires run.results != [] ==> ConsultOk(seen, Lookup(audit, run.results[|run.results| - 1].runId))
    requires CurrentAttempt(run, slot, id)
    ensures var next := ResumedRun(run, seen);
            CurrentAttempt(next, slot, id) || (id in audit && Closed(audit[id]) && Archived(next, id))
  {
    ResumeNeverReplays(run, seen);
    var next := ResumedRun(run, seen);
    if !CurrentAttempt(next, slot, id) {
      assert next.superseded[|run.superseded|].runId == id;
    }
  }

  lemma ResumeArchive(run: CampaignRun, seen: Option<AuditRecord>)
    requires ValidRun(run) && ResumeRefusal(run, seen).None?
    ensures run.superseded <= ResumedRun(run, seen).superseded
  {
    ResumeNeverReplays(run, seen);
  }

  lemma ResumeStore(w: World, k: nat, run: CampaignRun)
    requires StoreOk(w) && AdmissionEnabled(w, k, Resume(true)) && WorkerOk(w.workers[k], ViewOf(w, k))
    requires Get(w.store, w.workers[k].cid) == Some(run) && ResumeRefusal(run, w.workers[k].pc.seen).None?
    ensures var w' := DoResume(w, k, true);
            var next := ResumedRun(run, w.workers[k].pc.seen);
            && StoreOk(w') && OthersKept(w.store, w'.store, run.id) && Get(w'.store, run.id) == Some(next)
            && w'.workers == w.workers[k := w.workers[k].(run := next, pc := Head)]
            && w' == w.(store := w'.store, workers := w'.workers, consulting := None)
            && ValidRun(run) && ValidRun(next) && IdleRun(next) && next.id == run.id == w.workers[k].cid
            && (run.results != [] ==>
                  ConsultOk(w.workers[k].pc.seen, Lookup(w.audit, run.results[|run.results| - 1].runId)))
  {
    hide ResumeRefusal, ResumedRun, ValidRun, IdleRun, RowsAudited;
    var seen := w.workers[k].pc.seen;
    PreparedResumeKeepsSnapshot(w.store, w.workers[k].cid, seen);
    assert ValidRun(run);
    ResumeRows(run, seen, w.audit);
    ResumeNeverReplays(run, seen);
  }

  lemma ResumedOk(wk: Worker, v: View, v': View, run: CampaignRun)
    requires WorkerOk(wk, v) && wk.pc.Consulted?
    requires v'.owned == v.owned && !v'.locked && v'.stored == Some(run)
    requires ValidRun(run) && IdleRun(run) && run.id == wk.cid
    ensures WorkerOk(wk.(run := run, pc := Head), v')
  {
  }

  lemma ResumeOwnAttempts(w: World, w': World, run: CampaignRun, seen: Option<AuditRecord>)
    requires AttemptsOk(w) && IdsOk(w) && w'.audit == w.audit && Get(w.store, run.id) == Some(run)
    requires ValidRun(run) && ResumeRefusal(run, seen).None? && ResumedRun(run, seen).id == run.id
    requires run.results != [] ==> ConsultOk(seen, Lookup(w.audit, run.results[|run.results| - 1].runId))
    requires Evolves(w, w')
    ensures OwnAttemptsOk(w, w', ResumedRun(run, seen))
  {
    hide ResumeRefusal, ResumedRun, ValidRun, Evolves, ConsultOk, Retired, Closed, Archived;
    var next := ResumedRun(run, seen);
    ResumeArchive(run, seen);
    forall id | id in w.intents && w.intents[id].campaign == run.id
      ensures Accounted(w', next, w.intents[id], id)
    {
      assert AttemptOk(w, id);
      if CurrentAttempt(run, w.intents[id], id) { ResumeAttempt(run, seen, w.audit, w.intents[id], id); }
      else { AccountedStays(w, w', run, next, w.intents[id], id); }
    }
  }

  lemma ResumeKeepsInv(w: World, k: nat, run: CampaignRun)
    requires Inv(w) && AdmissionEnabled(w, k, Resume(true))
    requires Get(w.store, w.workers[k].cid) == Some(run) && ResumeRefusal(run, w.workers[k].pc.seen).None?
    ensures Inv(DoResume(w, k, true)) && Evolves(w, DoResume(w, k, true))
  {
    hide PcOk, ResumeRefusal, ResumedRun, ValidRun, StoreOk, OthersKept, AttemptsOk, TasksOk, IdsOk, ControlsOk,
         LaunchesOk, Settled, WorkerOk, WorkersOk, Evolves, DoResume, OwnAttemptsOk, ConsultOk, IdleRun;
    var w' := DoResume(w, k, true);
    var seen := w.workers[k].pc.seen;
    WorkerIsOk(w, k);
    ResumeStore(w, k, run);
    var next := w'.workers[k];
    TxnEvolves(w, w', k, next.run, next, None);
    ResumeOwnAttempts(w, w', run, seen);
    ResumedOk(w.workers[k], ViewOf(w, k), ViewOf(w', k), next.run);
    TxnKeepsInv(w, w', k, next.run, next, None);
  }

  lemma CurrentWhileOwning(w: World, k: nat)
    requires WorkersOk(w) && k in w.workers
    requires !w.workers[k].pc.Forwarding? && !w.workers[k].pc.Awaiting? && !w.workers[k].pc.Unlinking?
    ensures w.workers[k].current.None?
  {
    assert WorkerOk(w.workers[k], ViewOf(w, k));
  }

  lemma AdmissionKeepsInv(w: World, k: nat, a: AdmissionStep)
    requires Inv(w) && AdmissionEnabled(w, k, a)
    ensures Inv(DoAdmission(w, k, a)) && Evolves(w, DoAdmission(w, k, a))
  {
    hide PcOk, AttemptsOk, TasksOk, IdsOk, StoreOk, ControlsOk, LaunchesOk, WorkerOk, Evolves, ResumedRun, ResumeRefusal, Inserted;
    match a
    case Register => RegisterKeepsInv(w, k);
    case Consult => ConsultKeepsInv(w, k);
    case Leave => LeaveKeepsInv(w, k);
    case InsertRun(ok) =>
      CurrentWhileOwning(w, k);
      if ok { InsertKeepsInv(w, k); } else { RetreatKeepsInv(w, k, {}); assert w.issued + {} == w.issued; }
    case Resume(ok) =>
      CurrentWhileOwning(w, k);
      match PreparedResume(w.store, w.workers[k].cid, w.workers[k].pc.seen) {
        case Err(_) => RetreatKeepsInv(w, k, {}); assert w.issued + {} == w.issued;
        case Ok(_) =>
          if ok { ResumeKeepsInv(w, k, Get(w.store, w.workers[k].cid).value); }
          else { RetreatKeepsInv(w, k, {}); assert w.issued + {} == w.issued; }
      }
  }

  lemma CommitStepKeepsInv(w: World, k: nat, c: CommitStep, ok: bool)
    requires Inv(w) && CommitEnabled(w, k, c)
    ensures Inv(DoCommit(w, k, c, ok)) && Evolves(w, DoCommit(w, k, c, ok))
  {
    hide PcOk, AttemptsOk, TasksOk, IdsOk, StoreOk, ControlsOk, LaunchesOk, WorkerOk, Evolves, Change, Onward;
    if ok && Stored(w, k).Some? { CommitKeepsInv(w, k, c); }
    else {
      CurrentWhileOwning(w, k);
      OnwardStarts(w, k, c, "");
      var drawn: set<string> := if c.Plan? then {c.id} else {};
      RetreatKeepsInv(w, k, drawn);
      assert w.issued + {} == w.issued;
      assert DoCommit(w, k, c, ok) == Retreat(w, k, drawn);
    }
  }

  // ----- scenario tasks, feedback and cancel flags -----

  ghost predicate TaskGrows(t: Option<Task>, t': Option<Task>) {
    && (t.Some? ==> t'.Some? && t'.value.mode == t.value.mode)
    && (Admitted(t) ==> Admitted(t'))
    && (t.Some? && t.value.pc.Refused? ==> t'.value.pc.Refused?)
    && TaskKeepsCancel(t, t')
    && TaskStaysOut(t, t')
  }

  /** A cancel that reached a stage stays with it; an admitted task never re-enters the table. */
  predicate TaskKeepsCancel(t: Option<Task>, t': Option<Task>) {
    t.Some? && Admitted(t) ==>
      t'.Some? && (t.value.cancel ==> t'.value.cancel) && (!ListedTask(t.value) ==> !ListedTask(t'.value))
  }

  /** A task that left its append never returns to it. */
  predicate TaskStaysOut(t: Option<Task>, t': Option<Task>) {
    t.Some? && !t.value.pc.Appending? ==> t'.Some? && !t'.value.pc.Appending?
  }

  lemma TaskUnchanged(t: Option<Task>)
    ensures TaskGrows(t, t)
  {
  }

  lemma FlaggedTask(t: Task, record: Option<AuditRecord>)
    ensures TaskGrows(Some(t), Some(t.(cancel := true)))
    ensures TaskOk(t, record) ==> TaskOk(t.(cancel := true), record)
  {
  }

  ghost predicate RecordGrows(r: Option<AuditRecord>, r': Option<AuditRecord>) {
    r.Some? ==> r'.Some? && (Terminal(r.value.status) ==> SameVerdict(r.value, r'.value))
  }

  lemma RecordUnchanged(r: Option<AuditRecord>)
    ensures RecordGrows(r, r)
  {
  }

  /** At most the entry for `id` was added or replaced. */
  ghost predicate Touched<V>(m: map<string, V>, m': map<string, V>, id: string) {
    m' == m || (id in m' && m' == m[id := m'[id]])
  }

  /** One scenario run's task and record move; every other run's stay. */
  ghost predicate TaskMove(w: World, w': World, id: string) {
    && w' == w.(tasks := w'.tasks, audit := w'.audit, issued := w'.issued)
    && w.issued <= w'.issued && "" !in w'.issued && (id in w'.tasks || id in w'.audit ==> id in w'.issued)
    && Touched(w.tasks, w'.tasks, id) && Touched(w.audit, w'.audit, id)
    && (id in w.issued ==>
          && TaskGrows(Find(w.tasks, id), Find(w'.tasks, id)) && RecordGrows(Find(w.audit, id), Find(w'.audit, id))
          && (id !in w.tasks ==> id !in w'.tasks && (id in w'.audit ==> id in w.audit)))
    && (id !in w.issued ==> id !in w'.audit)
    && (id in w'.audit ==> w'.audit[id].runId == id && (id in w.audit || (id in w.tasks && w.tasks[id].pc.Appending?)))
    && (id in w'.tasks ==> TaskOk(w'.tasks[id], Find(w'.audit, id)))
  }

  lemma MapTouched<V>(m: map<string, V>, m': map<string, V>, id: string)
    requires m' == m || (id in m' && m' == m[id := m'[id]])
    ensures Touched(m, m', id)
  {
  }

  lemma IdFacts(w: World, id: string)
    requires TasksOk(w) && IdsOk(w)
    ensures "" !in w.issued
    ensures id in w.tasks ==> id in w.issued && TaskOk(w.tasks[id], Find(w.audit, id))
    ensures id in w.audit ==> id in w.issued && w.audit[id].runId == id
  {
    hide RowsAudited, TaskOk;
  }

  lemma AppendIsMove(w: World, id: string, ok: bool)
    requires TasksOk(w) && IdsOk(w) && id in w.tasks && w.tasks[id].pc == Appending
    ensures TaskMove(w, DoAppend(w, id, ok), id)
  {
    hide TasksOk, IdsOk, Touched;
    IdFacts(w, id);
    var w' := DoAppend(w, id, ok);
    MapTouched(w.tasks, w'.tasks, id);
    MapTouched(w.audit, w'.audit, id);
  }

  lemma SettleIsMove(w: World, id: string, outcome: Settlement, ok: bool)
    requires TasksOk(w) && IdsOk(w) && id in w.tasks && w.tasks[id].pc == Executing
    ensures TaskMove(w, DoSettle(w, id, outcome, ok), id)
  {
    hide TasksOk, IdsOk, Touched;
    IdFacts(w, id);
    var w' := DoSettle(w, id, outcome, ok);
    MapTouched(w.tasks, w'.tasks, id);
    MapTouched(w.audit, w'.audit, id);
  }

  lemma RepositionIsMove(w: World, id: string, pc: TaskPc)
    requires TasksOk(w) && IdsOk(w) && id in w.tasks
    requires (w.tasks[id].pc == Enlisting && pc == Executing) || (w.tasks[id].pc.Settling? && pc.Ended?)
    ensures TaskMove(w, SetTask(w, id, pc), id)
  {
    hide TasksOk, IdsOk, Touched;
    IdFacts(w, id);
    var w' := SetTask(w, id, pc);
    MapTouched(w.tasks, w'.tasks, id);
    MapTouched(w.audit, w'.audit, id);
  }

  lemma FeedbackIsMove(w: World, id: string, m: Measurements, contained: bool)
    requires TasksOk(w) && IdsOk(w) && id in w.audit && Terminal(w.audit[id].status)
    ensures TaskMove(w, DoFeedback(w, id, m, contained), id)
  {
    hide TasksOk, IdsOk, Touched;
    IdFacts(w, id);
    var w' := DoFeedback(w, id, m, contained);
    MapTouched(w.tasks, w'.tasks, id);
    MapTouched(w.audit, w'.audit, id);
    FeedbackKeepsVerdict(w.audit[id], m, contained);
  }

  lemma ForeignIsMove(w: World, id: string, mode: ExecutionMode)
    requires TasksOk(w) && IdsOk(w) && id !in w.issued && id != ""
    ensures TaskMove(w, DoForeign(w, id, mode), id)
  {
    hide TasksOk, IdsOk, Touched;
    IdFacts(w, id);
    var w' := DoForeign(w, id, mode);
    MapTouched(w.tasks, w'.tasks, id);
    MapTouched(w.audit, w'.audit, id);
  }

  lemma ScenarioIsMove(w: World, id: string, s: ScenarioStep)
    requires TasksOk(w) && IdsOk(w) && ScenarioEnabled(w, id, s)
    ensures TaskMove(w, DoScenario(w, id, s), id)
  {
    hide TaskMove, TasksOk, IdsOk;
    match s
    case SpawnForeign(mode) => ForeignIsMove(w, id, mode);
    case Append(ok) => AppendIsMove(w, id, ok);
    case Enlist => RepositionIsMove(w, id, Executing);
    case Settle(outcome, ok) => SettleIsMove(w, id, outcome, ok);
    case Delist => RepositionIsMove(w, id, Ended(w.tasks[id].pc.ok, false));
    case Feedback(m, contained) => FeedbackIsMove(w, id, m, contained);
    case Abort => FlagIsMove(w, id);
  }

  lemma FlagIsMove(w: World, id: string)
    requires TasksOk(w) && IdsOk(w)
    ensures TaskMove(w, Flag(w, id), id)
  {
    hide TasksOk, IdsOk, Touched, TaskGrows, RecordGrows, TaskOk;
    IdFacts(w, id);
    var w' := Flag(w, id);
    MapTouched(w.tasks, w'.tasks, id);
    MapTouched(w.audit, w'.audit, id);
    TaskUnchanged(Find(w.tasks, id));
    RecordUnchanged(Find(w.audit, id));
    if id in w.tasks { FlaggedTask(w.tasks[id], Find(w.audit, id)); }
  }

  lemma MoveEvolves(w: World, w': World, id: string)
    requires TaskMove(w, w', id) && TasksOk(w) && IdsOk(w)
    ensures Evolves(w, w')
  {
    hide RowsAudited, TaskOk, AboutToStart;
    forall x | StartsIn(w', x) ensures StartsIn(w, x) {
      var j :| j in w'.workers && AboutToStart(w'.workers[j].pc, x);
      assert AboutToStart(w.workers[j].pc, x);
    }
  }

  /** The parts of the view that scenario tasks change. */
  ghost predicate ViewGrows(v: View, v': View) {
    && v' == v.(task := v'.task, record := v'.record, last := v'.last)
    && TaskGrows(v.task, v'.task) && RecordGrows(v.record, v'.record) && RecordGrows(v.last, v'.last)
    && (v.task.None? && v.record.None? ==> v'.task.None? && v'.record.None?)
  }

  lemma ViewGrowsOk(wk: Worker, v: View, v': View)
    requires WorkerOk(wk, v) && ViewGrows(v, v')
    ensures WorkerOk(wk, v')
  {
    hide ValidRun, IdleRun, StageRun, FreshRun, ValidPlan, MatchesStep, SoundVerdict, TaskKeepsCancel, TaskStaysOut;
  }

  lemma MoveView(w: World, w': World, id: string, j: nat)
    requires TaskMove(w, w', id) && j in w.workers && w.audit.Keys <= w.issued
    requires StageId(w.workers[j].pc).Some? ==> StageId(w.workers[j].pc).value in w.issued
    ensures ViewGrows(ViewOf(w, j), ViewOf(w', j))
  {
    hide TaskOk, NoIntentFor, StageId, LastRunId, Terminal, Get, Simulated;
  }

  lemma MoveWorkers(w: World, w': World, id: string)
    requires WorkersOk(w) && IdsOk(w) && TaskMove(w, w', id)
    ensures WorkersOk(w')
  {
    hide WorkerOk, ViewGrows, TaskMove;
    assert w'.workers == w.workers && w'.spawned == w.spawned && w'.consulting == w.consulting by { MoveFrame(w, w', id); }
    forall j | j in w'.workers ensures WorkerOk(w'.workers[j], ViewOf(w', j)) {
      var stage := StageId(w.workers[j].pc);
      if stage.Some? { StageOf(w, j, stage.value); }
      MoveView(w, w', id, j);
      ViewGrowsOk(w.workers[j], ViewOf(w, j), ViewOf(w', j));
    }
  }

  lemma MoveFrame(w: World, w': World, id: string)
    requires TaskMove(w, w', id)
    ensures w' == w.(tasks := w'.tasks, audit := w'.audit, issued := w'.issued)
  {
  }

  lemma RowsStay(run: CampaignRun, a: map<string, AuditRecord>, b: map<string, AuditRecord>)
    requires RowsAudited(run, a) && AuditKept(a, b)
    ensures RowsAudited(run, b)
  {
  }

  lemma StoreStays(w: World, w': World)
    requires StoreOk(w) && w'.store == w.store && AuditKept(w.audit, w'.audit)
    ensures StoreOk(w')
  {
    hide RowsAudited, ValidSnapshot, AuditKept;
    forall c | Get(w.store, c).Some? ensures RowsAudited(Get(w.store, c).value, w'.audit) {
      RowsStay(Get(w.store, c).value, w.audit, w'.audit);
    }
  }

  lemma MoveTasks(w: World, w': World, id: string)
    requires TasksOk(w) && IdsOk(w) && TaskMove(w, w', id)
    ensures TasksOk(w') && IdsOk(w')
  {
    hide TaskOk, RowsAudited, TaskGrows, RecordGrows;
  }

  lemma MoveKeepsInv(w: World, w': World, id: string)
    requires Inv(w) && w.phase == Up && TaskMove(w, w', id)
    ensures Inv(w') && Evolves(w, w')
  {
    hide WorkerOk, WorkersOk, AttemptsOk, TasksOk, IdsOk, StoreOk, TaskMove, Settled, AuditKept, NewRecordsAppended,
         NewTasksStarted, NewStartsFresh;
    MoveEvolves(w, w', id);
    MoveWorkers(w, w', id);
    MoveTasks(w, w', id);
    MoveFrame(w, w', id);
    StoreStays(w, w');
    AttemptsStay(w, w');
    TablesStay(w, w');
  }

  lemma TablesStay(w: World, w': World)
    requires ControlsOk(w) && LaunchesOk(w) && w'.controls == w.controls && w'.workers == w.workers && w.issued <= w'.issued
    ensures ControlsOk(w') && LaunchesOk(w')
  {
  }

  lemma ScenarioKeepsInv(w: World, id: string, s: ScenarioStep)
    requires Inv(w) && ScenarioEnabled(w, id, s)
    ensures Inv(DoScenario(w, id, s)) && Evolves(w, DoScenario(w, id, s))
  {
    hide WorkersOk, AttemptsOk, TasksOk, IdsOk, StoreOk, TaskMove, Evolves, DoScenario, ControlsOk, LaunchesOk;
    ScenarioIsMove(w, id, s);
    MoveKeepsInv(w, DoScenario(w, id, s), id);
  }

  // ----- cancel requests -----

  /** Setting the cancel flag of a worker changes nothing the invariant speaks about. */
  lemma CancelFlagOk(wk: Worker, v: View)
    requires WorkerOk(wk, v)
    ensures WorkerOk(wk.(cancelled := true), v)
  {
  }

  /** The request sets one worker's flag and moves on itself. */
  lemma SetFrame(w: World, t: nat)
    requires CancelEnabled(w, t, CancelStep.Set)
    ensures var k, w' := w.cancellers[t].worker, DoSet(w, t);
            w' == w.(workers := w.workers[k := w.workers[k].(cancelled := true)], cancellers := w'.cancellers)
  {
  }

  lemma CancelSetKeepsInv(w: World, t: nat)
    requires Inv(w) && CancelEnabled(w, t, CancelStep.Set)
    ensures Inv(DoSet(w, t)) && Evolves(w, DoSet(w, t))
  {
    hide WorkersOk, AttemptsOk, TasksOk, IdsOk, StoreOk, ControlsOk, LaunchesOk, Evolves;
    var w' := DoSet(w, t);
    SetEvolves(w, t);
    SetWorkers(w, t);
    SetTables(w, t);
    AttemptsStay(w, w');
  }

  lemma SetWorkers(w: World, t: nat)
    requires WorkersOk(w) && CancelEnabled(w, t, CancelStep.Set)
    ensures WorkersOk(DoSet(w, t))
  {
    hide WorkerOk, ViewOf, StageId, DoSet;
    SetFrame(w, t);
    var k := w.cancellers[t].worker;
    var w' := DoSet(w, t);
    forall j | j in w'.workers ensures WorkerOk(w'.workers[j], ViewOf(w', j)) {
      SetView(w, t, j);
      assert WorkerOk(w.workers[j], ViewOf(w, j));
      if j == k { CancelFlagOk(w.workers[k], ViewOf(w, k)); }
    }
  }

  lemma SetView(w: World, t: nat, j: nat)
    requires CancelEnabled(w, t, CancelStep.Set) && j in w.workers
    ensures ViewOf(DoSet(w, t), j) == ViewOf(w, j)
  {
    hide DoSet, StageId, LastRunId, NoIntentFor, Get, Lookup, FindAt;
    SetFrame(w, t);
  }

  lemma SetTables(w: World, t: nat)
    requires CancelEnabled(w, t, CancelStep.Set)
    ensures ControlsOk(w) ==> ControlsOk(DoSet(w, t))
    ensures LaunchesOk(w) ==> LaunchesOk(DoSet(w, t))
    ensures TasksOk(w) ==> TasksOk(DoSet(w, t))
    ensures IdsOk(w) ==> IdsOk(DoSet(w, t))
    ensures StoreOk(w) ==> StoreOk(DoSet(w, t))
  {
    hide RowsAudited, TaskOk, ValidSnapshot, DoSet, Get;
    SetFrame(w, t);
  }

  lemma SetEvolves(w: World, t: nat)
    requires CancelEnabled(w, t, CancelStep.Set)
    ensures Evolves(w, DoSet(w, t))
  {
    hide DoSet;
    SetFrame(w, t);
    var w' := DoSet(w, t);
    forall x | StartsIn(w', x) ensures StartsIn(w, x) {
      var j :| j in w'.workers && AboutToStart(w'.workers[j].pc, x);
      assert AboutToStart(w.workers[j].pc, x);
    }
  }

  /** The set of cancel requests is not part of the invariant. */
  lemma CancellersKeepInv(w: World, cancellers: map<nat, Canceller>)
    requires Inv(w) && w.phase == Up
    ensures Inv(w.(cancellers := cancellers)) && Evolves(w, w.(cancellers := cancellers))
  {
    hide WorkerOk, RowsAudited, TaskOk, ValidSnapshot, SameVerdict, AboutToStart, Closed;
    var w' := w.(cancellers := cancellers);
    CancellersEvolve(w, cancellers);
    assert WorkersOk(w') by {
      forall j | j in w'.workers ensures WorkerOk(w'.workers[j], ViewOf(w', j)) {
        assert ViewOf(w', j) == ViewOf(w, j);
        assert WorkerOk(w.workers[j], ViewOf(w, j));
      }
    }
    AttemptsStay(w, w');
    TablesStay(w, w');
  }

  lemma CancellersEvolve(w: World, cancellers: map<nat, Canceller>)
    ensures Evolves(w, w.(cancellers := cancellers))
  {
    forall x | StartsIn(w.(cancellers := cancellers), x) ensures StartsIn(w, x) {
      var j :| j in w.workers && AboutToStart(w.workers[j].pc, x);
    }
  }

  lemma EvolvesTwice(a: World, b: World, c: World)
    requires Evolves(a, b) && Evolves(b, c) && b.tasks == c.tasks && b.workers == c.workers && b.audit == c.audit && b.issued == c.issued
    ensures Evolves(a, c)
  {
    forall x | StartsIn(c, x) ensures StartsIn(b, x) {
      var j :| j in c.workers && AboutToStart(c.workers[j].pc, x);
    }
  }

  lemma CancelKeepsInv(w: World, t: nat, x: CancelStep)
    requires Inv(w) && CancelEnabled(w, t, x)
    ensures Inv(DoCancel(w, t, x)) && Evolves(w, DoCancel(w, t, x))
  {
    hide WorkersOk, AttemptsOk, TasksOk, IdsOk, StoreOk, TaskMove, Evolves, ControlsOk, LaunchesOk, Flag;
    match x
    case LookUp(cid) => CancellersKeepInv(w, DoLookUp(w, t, cid).cancellers);
    case Set => CancelSetKeepsInv(w, t);
    case FlagStage =>
      var mid := Flag(w, w.cancellers[t].run);
      FlagIsMove(w, w.cancellers[t].run);
      MoveKeepsInv(w, mid, w.cancellers[t].run);
      FlagFrame(w, w.cancellers[t].run);
      CancellersKeepInv(mid, w.cancellers - {t});
      EvolvesTwice(w, mid, mid.(cancellers := w.cancellers - {t}));
  }

  lemma FlagFrame(w: World, id: string)
    ensures Flag(w, id) == w.(tasks := Flag(w, id).tasks)
  {
  }

  // ----- process death and startup -----

  lemma CrashKeepsInv(w: World)
    requires Inv(w)
    ensures Inv(DoCrash(w)) && Evolves(w, DoCrash(w))
  {
    hide RowsAudited, ValidSnapshot, PcOk, TaskOk, Closed;
    AttemptsStay(w, DoCrash(w));
  }

  lemma PhaseKeepsInv(w: World, phase: Phase)
    requires Inv(w) && w.phase != Up && phase != Up
    ensures Inv(w.(phase := phase)) && Evolves(w, w.(phase := phase))
  {
    hide RowsAudited, ValidSnapshot, PcOk, TaskOk, Closed;
    AttemptsStay(w, w.(phase := phase));
  }

  lemma RecoverRecordKeepsInv(w: World, id: string)
    requires Inv(w) && SystemEnabled(w, RecoverRecord(id))
    ensures Inv(DoRecoverRecord(w, id)) && Evolves(w, DoRecoverRecord(w, id))
  {
    hide RowsAudited, ValidSnapshot, PcOk, TaskOk, Closed, WorkerOk, AttemptOk, Settled, Get;
    var w' := DoRecoverRecord(w, id);
    StoreStays(w, w');
    AttemptsStay(w, w');
  }

  lemma RecoveredRows(run: CampaignRun, audit: map<string, AuditRecord>)
    requires ValidRun(run) && RowsAudited(run, audit)
    ensures RowsAudited(RecoveredRun(run), audit)
  {
    RecoveredRunValid(run);
  }

  lemma RecoverRunsStore(w: World)
    requires StoreOk(w)
    ensures StoreOk(w.(store := Recovered(w.store)))
  {
    hide RowsAudited, ValidRun, RecoveredRun;
    var store := Recovered(w.store);
    RecoveredKeepsSnapshot(w.store);
    forall c | Get(store, c).Some? ensures RowsAudited(Get(store, c).value, w.audit) {
      assert ValidRun(Get(w.store, c).value);
      RecoveredRows(Get(w.store, c).value, w.audit);
    }
  }

  lemma RecoveredAttempt(run: CampaignRun, slot: Slot, id: string)
    requires ValidRun(run)
    ensures CurrentAttempt(RecoveredRun(run), slot, id) <==> CurrentAttempt(run, slot, id)
    ensures RecoveredRun(run).superseded == run.superseded
  {
    RecoveredRunValid(run);
  }

  lemma RecoverRunsAttempts(w: World, w': World)
    requires StoreOk(w) && AttemptsOk(w) && IdsOk(w) && w' == w.(phase := Up, store := Recovered(w.store))
    requires Evolves(w, w')
    ensures AttemptsOk(w') && IdsOk(w')
  {
    hide RowsAudited, ValidRun, RecoveredRun, CurrentAttempt, Evolves, Settled, Accounted;
    RecoveredKeepsSnapshot(w.store);
    forall id | id in w.intents && Settled(w, id) ensures Settled(w', id) {
      SettledForever(w, w', id);
    }
    forall id | id in w'.intents ensures AttemptOk(w', id) {
      assert AttemptOk(w, id);
      var c := w.intents[id].campaign;
      if Get(w.store, c).Some? {
        assert ValidRun(Get(w.store, c).value);
        var run := Get(w.store, c).value;
        RecoveredAttempt(run, w.intents[id], id);
        AccountedStays(w, w', run, RecoveredRun(run), w.intents[id], id);
      }
    }
  }

  lemma QuietSystem(w: World, w': World)
    requires QuietWhenDown(w) && w.phase != Up && w' == w.(phase := Up, store := w'.store)
    ensures Evolves(w, w') && WorkersOk(w') && ControlsOk(w') && LaunchesOk(w') && TasksOk(w')
  {
  }

  lemma RecoverRunsKeepsInv(w: World)
    requires Inv(w) && SystemEnabled(w, SystemStep.RecoverRuns)
    ensures var w' := w.(phase := Up, store := Recovered(w.store)); Inv(w') && Evolves(w, w')
  {
    hide WorkersOk, ControlsOk, LaunchesOk, TasksOk, AttemptsOk, IdsOk, StoreOk, Evolves, Recovered;
    var w' := w.(phase := Up, store := Recovered(w.store));
    QuietSystem(w, w');
    RecoverRunsStore(w);
    assert w'.store == w.(store := Recovered(w.store)).store;
    StoreSame(w.(store := Recovered(w.store)), w');
    RecoverRunsAttempts(w, w');
  }

  lemma StoreSame(w: World, w': World)
    requires StoreOk(w) && w'.store == w.store && w'.audit == w.audit
    ensures StoreOk(w')
  {
  }

  lemma SystemKeepsInv(w: World, y: SystemStep)
    requires Inv(w) && SystemEnabled(w, y)
    ensures Inv(DoSystem(w, y)) && Evolves(w, DoSystem(w, y))
  {
    hide Inv, Evolves, AllTerminal;
    match y
    case Crash => CrashKeepsInv(w);
    case Boot => PhaseKeepsInv(w, RecoveringAudit);
    case RecoverRecord(id) => RecoverRecordKeepsInv(w, id);
    case LoadSnapshot => PhaseKeepsInv(w, RecoveringCampaigns);
    case RecoverRuns => RecoverRunsKeepsInv(w);
  }

  /** The invariant is inductive, and every step evolves the shared state monotonically. */
  lemma NextKeepsInv(w: World, a: Action)
    requires Inv(w) && Enabled(w, a)
    ensures Inv(Next(w, a)) && Evolves(w, Next(w, a))
  {
    hide Inv, Evolves, LaunchEnabled, AdmissionEnabled, LocalEnabled, CommitEnabled, ScenarioEnabled, CancelEnabled, SystemEnabled;
    match a
    case Launch(k, run, resume) => LaunchKeepsInv(w, k, run, resume);
    case Admission(k, a) => AdmissionKeepsInv(w, k, a);
    case Local(k, l) => LocalKeepsInv(w, k, l);
    case Commit(k, c, ok) => CommitStepKeepsInv(w, k, c, ok);
    case Scenario(id, s) => ScenarioKeepsInv(w, id, s);
    case Cancel(t, x) => CancelKeepsInv(w, t, x);
    case System(y) => SystemKeepsInv(w, y);
  }
}
