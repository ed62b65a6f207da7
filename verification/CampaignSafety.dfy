/** What durable campaign execution promises over whole runs: no stage is replayed, retries are safe,
    intent precedes admission, snapshots always load, workers do not interfere, cancels are not missed. */
module CampaignSafety {
  import opened Wrappers
  import opened Records
  import opened CampaignRunStore
  import opened CampaignExecution
  import opened ScenarioExecution
  import opened CampaignProtocol
  import opened CampaignInvariant
  import opened CampaignSteps

  // ----- whole runs -----

  lemma {:induction false} Reachable(ws: seq<World>, acts: seq<Action>, i: nat)
    requires Behaviour(ws, acts) && i < |ws|
    ensures Inv(ws[i])
  {
    hide Inv, Enabled, Next;
    if i == 0 { InitInv(); }
    else {
      Reachable(ws, acts, i - 1);
      NextKeepsInv(ws[i - 1], acts[i - 1]);
    }
  }

  lemma StepEvolves(ws: seq<World>, acts: seq<Action>, i: nat)
    requires Behaviour(ws, acts) && i < |acts|
    ensures Inv(ws[i]) && Inv(ws[i + 1]) && Evolves(ws[i], ws[i + 1])
  {
    hide Inv, Enabled, Next, Evolves;
    Reachable(ws, acts, i);
    NextKeepsInv(ws[i], acts[i]);
  }

  lemma VerdictTransitive(a: AuditRecord, b: AuditRecord, c: AuditRecord)
    requires SameVerdict(a, b) && SameVerdict(b, c)
    ensures SameVerdict(a, c)
  {
  }

  /** A terminal audit record's status, cleanup status and simulation mark never change again:
      not by feedback, not by a late commit, not across restarts. */
  lemma {:induction false} VerdictIsFinal(ws: seq<World>, acts: seq<Action>, i: nat, j: nat, id: string)
    requires Behaviour(ws, acts) && i <= j < |ws|
    requires id in ws[i].audit && Terminal(ws[i].audit[id].status)
    ensures id in ws[j].audit && SameVerdict(ws[i].audit[id], ws[j].audit[id])
  {
    hide Inv, Enabled, Next;
    if i < j {
      VerdictIsFinal(ws, acts, i, j - 1, id);
      StepEvolves(ws, acts, j - 1);
      VerdictTransitive(ws[i].audit[id], ws[j - 1].audit[id], ws[j].audit[id]);
    }
  }

  /** The stage a run id was committed for is fixed. */
  lemma {:induction false} IntentIsFinal(ws: seq<World>, acts: seq<Action>, i: nat, j: nat, id: string)
    requires Behaviour(ws, acts) && i <= j < |ws| && id in ws[i].intents
    ensures id in ws[j].intents && ws[j].intents[id] == ws[i].intents[id] && id in ws[j].issued
  {
    hide Inv, Enabled, Next, AuditKept, NewRecordsAppended, NewTasksStarted, NewStartsFresh;
    if i < j {
      IntentIsFinal(ws, acts, i, j - 1, id);
      StepEvolves(ws, acts, j - 1);
    } else {
      Reachable(ws, acts, j);
    }
    IntentIssued(ws[j], id);
  }

  lemma IntentIssued(w: World, id: string)
    requires Inv(w) && id in w.intents
    ensures id in w.issued
  {
  }

  // ----- no replay, safe retry -----

  predicate CompletedIn(w: World, id: string) {
    id in w.audit && w.audit[id].status == Completed
  }

  /** The step that makes scenario run `id` durable in the audit. */
  predicate Admits(a: Action, id: string) {
    a == Scenario(id, Append(true))
  }

  lemma AdmittingIsNotSettled(w: World, id: string)
    requires Inv(w) && ScenarioEnabled(w, id, Append(true))
    ensures !Settled(w, id) && id !in w.audit
  {
    hide WorkersOk, StoreOk, AttemptsOk, ControlsOk, LaunchesOk;
    assert TaskOk(w.tasks[id], Find(w.audit, id));
  }

  lemma SameStageSettles(w: World, a: string, b: string)
    requires Inv(w) && a in w.intents && b in w.intents && a != b && w.intents[a] == w.intents[b]
    ensures Settled(w, a) || Settled(w, b)
  {
    hide WorkersOk, StoreOk, TasksOk, ControlsOk, LaunchesOk, IdsOk, Settled;
  }

  /** Once any attempt at a stage is COMPLETED in the durable audit, no attempt at that stage is
      admitted again, whatever crashes, failed writes, cancels and resumes come in between. */
  lemma NoReplay(ws: seq<World>, acts: seq<Action>, i: nat, j: nat, a: string, b: string)
    requires Behaviour(ws, acts) && i <= j < |acts|
    requires a in ws[i].intents && CompletedIn(ws[i], a)
    requires b in ws[j].intents && ws[j].intents[b] == ws[i].intents[a]
    ensures !Admits(acts[j], b)
  {
    hide Inv, Settled;
    Reachable(ws, acts, j);
    VerdictIsFinal(ws, acts, i, j, a);
    IntentIsFinal(ws, acts, i, j, a);
    if Admits(acts[j], b) {
      AdmittingIsNotSettled(ws[j], b);
      SameStageSettles(ws[j], a, b);
      CompletedIsNotSettled(ws[j], a);
    }
  }

  lemma CompletedIsNotSettled(w: World, id: string)
    requires CompletedIn(w, id)
    ensures !Settled(w, id)
  {
  }

  /** Each stage has at most one COMPLETED attempt, also after its campaign run was pruned. */
  lemma AtMostOneCompleted(ws: seq<World>, acts: seq<Action>, i: nat, a: string, b: string)
    requires Behaviour(ws, acts) && i < |ws|
    requires a in ws[i].intents && b in ws[i].intents && ws[i].intents[a] == ws[i].intents[b]
    requires CompletedIn(ws[i], a) && CompletedIn(ws[i], b)
    ensures a == b
  {
    hide Inv, Settled;
    Reachable(ws, acts, i);
    CompletedIsNotSettled(ws[i], a);
    CompletedIsNotSettled(ws[i], b);
    if a != b { SameStageSettles(ws[i], a, b); }
  }

  lemma {:induction false} SettledIsFinal(ws: seq<World>, acts: seq<Action>, j: nat, m: nat, id: string)
    requires Behaviour(ws, acts) && j <= m < |ws| && id in ws[j].intents && Settled(ws[j], id)
    ensures Settled(ws[m], id)
  {
    hide Inv, Enabled, Next, Settled, Evolves;
    if j < m {
      SettledIsFinal(ws, acts, j, m - 1, id);
      IntentIsFinal(ws, acts, j, m - 1, id);
      StepEvolves(ws, acts, m - 1);
      SettledForever(ws[m - 1], ws[m], id);
    }
  }

  /** When an attempt is admitted, every other attempt at its stage was never admitted and never will
      be, or is terminal, simulated or cleaned up, and not completed; and that stays so forever. */
  lemma OthersAreSettled(ws: seq<World>, acts: seq<Action>, j: nat, m: nat, earlier: string, b: string)
    requires Behaviour(ws, acts) && j < |acts| && j <= m < |ws| && Admits(acts[j], b)
    requires earlier in ws[j].intents && b in ws[j].intents
    requires earlier != b && ws[j].intents[earlier] == ws[j].intents[b]
    ensures Settled(ws[m], earlier)
  {
    hide Inv, Settled;
    Reachable(ws, acts, j);
    AdmittingIsNotSettled(ws[j], b);
    SameStageSettles(ws[j], earlier, b);
    SettledIsFinal(ws, acts, j, m, earlier);
  }

  // ----- parts of the invariant -----

  lemma InvWorkers(w: World)
    requires Inv(w)
    ensures WorkersOk(w)
  {
  }

  lemma InvStore(w: World)
    requires Inv(w)
    ensures StoreOk(w)
  {
  }

  lemma InvAttempts(w: World)
    requires Inv(w)
    ensures AttemptsOk(w)
  {
  }

  /** An admitted attempt stays named by its campaign run, as current or archived attempt of its
      stage, for as long as the run is retained: across crashes, recoveries and resumes. */
  lemma AdmittedStaysRecorded(ws: seq<World>, acts: seq<Action>, m: nat, id: string)
    requires Behaviour(ws, acts) && m < |ws| && id in ws[m].intents && id in ws[m].audit
    requires Get(ws[m].store, ws[m].intents[id].campaign).Some?
    ensures var run := Get(ws[m].store, ws[m].intents[id].campaign).value;
            CurrentAttempt(run, ws[m].intents[id], id) || (Closed(ws[m].audit[id]) && Archived(run, id))
  {
    hide Inv, Enabled, Next;
    Reachable(ws, acts, m);
    InvAttempts(ws[m]);
    assert AttemptOk(ws[m], id);
  }

  // ----- snapshots -----

  /** Every committed campaign transaction leaves a snapshot that `validate` accepts, so a snapshot
      the system wrote itself never blocks startup. */
  lemma SnapshotNeverBlocksStartup(ws: seq<World>, acts: seq<Action>, i: nat)
    requires Behaviour(ws, acts) && i < |ws|
    ensures ValidSnapshot(ws[i].store)
    ensures ws[i].phase == RecoveringAudit && AllTerminal(ws[i].audit) ==> Enabled(ws[i], System(LoadSnapshot))
  {
    hide Inv, Next, ValidRun;
    Reachable(ws, acts, i);
    InvStore(ws[i]);
  }

  /** A stage the snapshot calls completed, and every stage of a completed campaign, has a COMPLETED audit. */
  lemma ProgressIsAudited(ws: seq<World>, acts: seq<Action>, i: nat, c: string, stage: nat)
    requires Behaviour(ws, acts) && i < |ws| && Get(ws[i].store, c).Some?
    requires var run := Get(ws[i].store, c).value;
             stage < |run.steps| && (run.status == Completed || (stage < |run.results| && run.results[stage].status == Completed))
    ensures var run := Get(ws[i].store, c).value;
            stage < |run.results| && CompletedIn(ws[i], run.results[stage].runId)
  {
    hide Inv, Next, Enabled;
    Reachable(ws, acts, i);
    InvStore(ws[i]);
    var run := Get(ws[i].store, c).value;
    assert ValidRun(run);
    assert RowsAudited(run, ws[i].audit);
  }

  // ----- workers do not interfere -----

  /** At most one worker holds a campaign run, so of concurrent resumes at most one is admitted. */
  lemma SingleWorker(ws: seq<World>, acts: seq<Action>, i: nat, j: nat, k: nat)
    requires Behaviour(ws, acts) && i < |ws| && j in ws[i].workers && k in ws[i].workers
    requires Owns(ws[i].workers[j].pc) && Owns(ws[i].workers[k].pc) && ws[i].workers[j].cid == ws[i].workers[k].cid
    ensures j == k
  {
    hide Inv, Next, Enabled;
    Reachable(ws, acts, i);
    InvWorkers(ws[i]);
    OneOwner(ws[i], j, k);
  }

  /** A worker that drives a run finds exactly its own copy in the store: "campaign run disappeared"
      is unreachable, and no `unwrap` or index of the worker can fail. */
  lemma WorkerNeverPanics(ws: seq<World>, acts: seq<Action>, i: nat, k: nat)
    requires Behaviour(ws, acts) && i < |ws| && k in ws[i].workers && Drives(ws[i].workers[k].pc)
    ensures Get(ws[i].store, ws[i].workers[k].cid) == Some(ws[i].workers[k].run)
    ensures ws[i].workers[k].pc.Planning? ==> MayPlan(ws[i].workers[k].run)
    ensures StageId(ws[i].workers[k].pc).Some? ==> OnStage(ws[i].workers[k].run)
  {
    hide Inv, Next, Enabled, WorkersOk, WorkerOk;
    Reachable(ws, acts, i);
    InvWorkers(ws[i]);
    WorkerIsOk(ws[i], k);
    DriverRun(ws[i].workers[k], ViewOf(ws[i], k));
  }

  lemma DriverRun(wk: Worker, v: View)
    requires WorkerOk(wk, v) && Drives(wk.pc)
    ensures v.stored == Some(wk.run)
    ensures wk.pc.Planning? ==> MayPlan(wk.run)
    ensures StageId(wk.pc).Some? ==> OnStage(wk.run)
  {
    hide FreshRun, ValidPlan;
  }

  predicate ActsFor(a: Action, k: nat) {
    match a
    case Admission(j, _) => j == k
    case Local(j, _) => j == k
    case Commit(j, _, _) => j == k
    case System(y) => y.Crash?
    case _ => false
  }

  /** All that a step not taken by worker k can do to it is set its cancel flag. */
  ghost predicate LeavesAlone(w: World, w': World, k: nat) {
    && k in w.workers && k in w'.workers && w'.workers[k] == w.workers[k].(cancelled := w'.workers[k].cancelled)
    && (w.workers[k].cancelled ==> w'.workers[k].cancelled)
  }

  lemma LocalLeaves(w: World, j: nat, l: LocalStep, k: nat)
    requires k in w.workers && j != k && LocalEnabled(w, j, l)
    ensures LeavesAlone(w, DoLocal(w, j, l), k)
  {
    hide LocalMove, LocalReady, LocalTask, StageId;
  }

  /** An admission step moves one worker, and never to a point where it awaits a stage. */
  ghost predicate MovesOff(w: World, w': World, k: nat) {
    && k in w.workers && w'.tasks == w.tasks && w'.cancellers == w.cancellers && w'.intents == w.intents && w'.audit == w.audit
    && k in w'.workers && w'.workers == w.workers[k := w'.workers[k]] && StageId(w'.workers[k].pc).None?
  }

  lemma SetMovesOff(w: World, base: World, k: nat, wk: Worker)
    requires k in w.workers && StageId(wk.pc).None?
    requires base.workers == w.workers && base.tasks == w.tasks && base.cancellers == w.cancellers
    requires base.intents == w.intents && base.audit == w.audit
    ensures MovesOff(w, SetWorker(base, k, wk), k)
  {
  }

  lemma ResumeMoves(w: World, k: nat, ok: bool)
    requires AdmissionEnabled(w, k, AdmissionStep.Resume(ok))
    ensures MovesOff(w, DoResume(w, k, ok), k)
  {
    hide PreparedResume, MovesOff;
    var wk := w.workers[k];
    var free := w.(consulting := None);
    SetMovesOff(w, free, k, wk.(pc := Leaving));
    match PreparedResume(w.store, wk.cid, wk.pc.seen)
    case Err(_) =>
    case Ok((next, run)) => SetMovesOff(w, free.(store := next), k, wk.(run := run, pc := Head));
  }

  lemma AdmissionMoves(w: World, k: nat, a: AdmissionStep)
    requires AdmissionEnabled(w, k, a)
    ensures MovesOff(w, DoAdmission(w, k, a), k)
  {
    hide MovesOff, DoResume, Inserted, LastRunId, Lookup;
    var wk := w.workers[k];
    match a
    case Register =>
      SetMovesOff(w, w, k, wk.(pc := Gone));
      SetMovesOff(w, w.(controls := w.controls[wk.cid := k]), k, wk.(pc := Admitting));
    case InsertRun(ok) =>
      SetMovesOff(w, w.(store := Inserted(w.store, wk.run)), k, wk.(pc := Head));
      SetMovesOff(w, w, k, wk.(pc := Leaving));
    case Consult =>
      SetMovesOff(w, w.(consulting := Some(k)), k, wk.(pc := Consulted(Lookup(w.audit, LastRunId(w.store, wk.cid)))));
    case Resume(ok) => ResumeMoves(w, k, ok);
    case Leave => SetMovesOff(w, w.(controls := w.controls - {wk.cid}), k, wk.(pc := Gone));
  }

  lemma AdmissionLeaves(w: World, j: nat, a: AdmissionStep, k: nat)
    requires k in w.workers && j != k && AdmissionEnabled(w, j, a)
    ensures LeavesAlone(w, DoAdmission(w, j, a), k)
  {
    hide AdmissionEnabled, DoAdmission;
    AdmissionMoves(w, j, a);
  }

  lemma CommitLeaves(w: World, j: nat, c: CommitStep, ok: bool, k: nat)
    requires k in w.workers && j != k && CommitEnabled(w, j, c)
    ensures LeavesAlone(w, DoCommit(w, j, c, ok), k)
  {
    hide Change, Onward, Revised, Get;
  }

  lemma TaskStepLeaves(w: World, id: string, s: ScenarioStep, k: nat)
    requires k in w.workers && ScenarioEnabled(w, id, s)
    ensures LeavesAlone(w, DoScenario(w, id, s), k)
  {
    hide QueuedRecord, SettledRecord, FeedbackRecord;
  }

  lemma CancelLeaves(w: World, t: nat, x: CancelStep, k: nat)
    requires k in w.workers && CancelEnabled(w, t, x)
    ensures LeavesAlone(w, DoCancel(w, t, x), k)
  {
  }

  lemma SystemLeaves(w: World, y: SystemStep, k: nat)
    requires k in w.workers && SystemEnabled(w, y) && !y.Crash?
    ensures LeavesAlone(w, DoSystem(w, y), k)
  {
    hide Recovered, ValidSnapshot, AllTerminal, InterruptedRecord;
  }

  lemma OthersLeaveWorker(w: World, a: Action, k: nat)
    requires Inv(w) && Enabled(w, a) && k in w.workers && !ActsFor(a, k)
    ensures LeavesAlone(w, Next(w, a), k)
  {
    hide LeavesAlone, Inv, LocalEnabled, AdmissionEnabled, CommitEnabled, ScenarioEnabled, CancelEnabled, SystemEnabled;
    match a
    case Launch(j, run, resume) => LaunchLeaves(w, j, run, resume, k) by { assert k in w.spawned by { InvWorkers(w); } }
    case Admission(j, a) => AdmissionLeaves(w, j, a, k);
    case Local(j, l) => LocalLeaves(w, j, l, k);
    case Commit(j, c, ok) => CommitLeaves(w, j, c, ok, k);
    case Scenario(id, s) => TaskStepLeaves(w, id, s, k);
    case Cancel(t, x) => CancelLeaves(w, t, x, k);
    case System(y) => SystemLeaves(w, y, k);
  }

  lemma LaunchLeaves(w: World, j: nat, run: CampaignRun, resume: bool, k: nat)
    requires k in w.workers && k in w.spawned && LaunchEnabled(w, j, run, resume)
    ensures LeavesAlone(w, DoLaunch(w, j, run, resume), k)
  {
  }

  /** Nothing but a worker's own steps and process death changes or prunes the run it drives. */
  lemma NonInterference(ws: seq<World>, acts: seq<Action>, i: nat, k: nat)
    requires Behaviour(ws, acts) && i < |acts| && k in ws[i].workers && Drives(ws[i].workers[k].pc)
    requires !ActsFor(acts[i], k)
    ensures Get(ws[i + 1].store, ws[i].workers[k].cid) == Get(ws[i].store, ws[i].workers[k].cid)
  {
    hide Inv, Next, Enabled;
    Reachable(ws, acts, i);
    Reachable(ws, acts, i + 1);
    WorkerNeverPanics(ws, acts, i, k);
    OthersLeaveWorker(ws[i], acts[i], k);
    WorkerNeverPanics(ws, acts, i + 1, k);
  }

  // ----- cancel and admission cannot miss each other -----

  /** Some cancel request is past `CampaignControl::cancel` and will flag this stage. */
  ghost predicate FlagPromised(w: World, id: string) {
    exists t | t in w.cancellers :: w.cancellers[t] == Committed(id)
  }

  /** The stage's cancel flag is set, or the stage has left the table of active runs, or a thread is
      committed to setting the flag. */
  ghost predicate CancelReaches(w: World, id: string) {
    (id in w.tasks && (w.tasks[id].cancel || !ListedTask(w.tasks[id]))) || FlagPromised(w, id)
  }

  ghost predicate CancelsOk(w: World) {
    forall k | k in w.workers && w.workers[k].cancelled && w.workers[k].pc.Awaiting? ::
      CancelReaches(w, w.workers[k].pc.id)
  }

  lemma ReachesKept(w: World, w': World, id: string)
    requires CancelReaches(w, id) && Admitted(Find(w.tasks, id))
    requires TaskKeepsCancel(Find(w.tasks, id), Find(w'.tasks, id))
    requires FlagPromised(w, id) ==> FlagPromised(w', id) || CancelReaches(w', id)
    ensures CancelReaches(w', id)
  {
  }

  lemma AwaitingTask(w: World, k: nat)
    requires WorkersOk(w) && k in w.workers && w.workers[k].pc.Awaiting?
    ensures Admitted(Find(w.tasks, w.workers[k].pc.id)) && w.workers[k].current == Some(w.workers[k].pc.id)
  {
    assert WorkerOk(w.workers[k], ViewOf(w, k));
  }

  /** Workers that await in the next state awaited before, and tasks and requests keep their cancels. */
  lemma CancelsFrame(w: World, w': World)
    requires WorkersOk(w) && CancelsOk(w) && w'.cancellers == w.cancellers
    requires forall id :: TaskKeepsCancel(Find(w.tasks, id), Find(w'.tasks, id))
    requires forall j | j in w'.workers && w'.workers[j].pc.Awaiting? && w'.workers[j].cancelled ::
               j in w.workers && w.workers[j] == w'.workers[j]
    ensures CancelsOk(w')
  {
    hide WorkersOk, CancelReaches, TaskKeepsCancel, Admitted;
    forall j | j in w'.workers && w'.workers[j].cancelled && w'.workers[j].pc.Awaiting?
      ensures CancelReaches(w', w'.workers[j].pc.id)
    {
      AwaitingTask(w, j);
      assert TaskKeepsCancel(Find(w.tasks, w.workers[j].pc.id), Find(w'.tasks, w.workers[j].pc.id));
      ReachesKept(w, w', w.workers[j].pc.id);
    }
  }

  lemma LaunchCancels(w: World, k: nat, run: CampaignRun, resume: bool)
    requires WorkersOk(w) && CancelsOk(w) && LaunchEnabled(w, k, run, resume)
    ensures CancelsOk(DoLaunch(w, k, run, resume))
  {
    hide WorkersOk, CancelsOk, FreshRun, ValidPlan;
    CancelsFrame(w, DoLaunch(w, k, run, resume));
  }

  lemma MovedOffCancels(w: World, w': World, k: nat)
    requires WorkersOk(w) && CancelsOk(w) && MovesOff(w, w', k)
    ensures CancelsOk(w')
  {
    hide WorkersOk, CancelsOk, CancelReaches;
    CancelsFrame(w, w');
  }

  lemma AdmissionCancels(w: World, k: nat, a: AdmissionStep)
    requires WorkersOk(w) && CancelsOk(w) && AdmissionEnabled(w, k, a)
    ensures CancelsOk(DoAdmission(w, k, a))
  {
    hide WorkersOk, CancelsOk, MovesOff, AdmissionEnabled;
    AdmissionMoves(w, k, a);
    MovedOffCancels(w, DoAdmission(w, k, a), k);
  }

  lemma CommitCancels(w: World, k: nat, c: CommitStep, ok: bool)
    requires WorkersOk(w) && CancelsOk(w) && CommitEnabled(w, k, c)
    ensures CancelsOk(DoCommit(w, k, c, ok))
  {
    hide WorkersOk, CancelsOk, Change, Revised, Get, MayPlan;
    CancelsFrame(w, DoCommit(w, k, c, ok));
  }

  lemma ScenarioCancels(w: World, id: string, s: ScenarioStep)
    requires WorkersOk(w) && CancelsOk(w) && TasksOk(w) && IdsOk(w) && ScenarioEnabled(w, id, s)
    ensures CancelsOk(DoScenario(w, id, s))
  {
    hide WorkersOk, CancelsOk, TasksOk, IdsOk, ScenarioEnabled, TaskKeepsCancel, TaskMove;
    var w' := DoScenario(w, id, s);
    ScenarioIsMove(w, id, s);
    forall other: string ensures TaskKeepsCancel(Find(w.tasks, other), Find(w'.tasks, other)) {
      MoveKeeps(w, w', id, other);
    }
    MoveWorld(w, w', id);
    CancelsFrame(w, w');
  }

  lemma MoveWorld(w: World, w': World, id: string)
    requires TaskMove(w, w', id)
    ensures w'.workers == w.workers && w'.cancellers == w.cancellers && w'.spawned == w.spawned
  {
    hide TaskGrows, RecordGrows, Touched, TaskOk;
  }

  lemma MoveKeeps(w: World, w': World, id: string, other: string)
    requires TasksOk(w) && TaskMove(w, w', id)
    ensures TaskKeepsCancel(Find(w.tasks, other), Find(w'.tasks, other))
    ensures TaskGrows(Find(w.tasks, other), Find(w'.tasks, other))
  {
    hide RecordGrows, TaskOk;
  }

  /** What a local step means for its own stage: it awaits a cancelled stage only after flagging it. */
  lemma LocalAwaits(wk: Worker, task: Option<Task>, record: Option<AuditRecord>, l: LocalStep)
    requires LocalReady(wk, task, l) && LocalMove(wk, task, record, l).pc.Awaiting? && LocalMove(wk, task, record, l).cancelled
    ensures l.Forward? && wk.pc.Forwarding? && LocalMove(wk, task, record, l).pc.id == wk.pc.id
  {
  }

  lemma LocalCancels(w: World, k: nat, l: LocalStep)
    requires WorkersOk(w) && CancelsOk(w) && LocalEnabled(w, k, l)
    ensures CancelsOk(DoLocal(w, k, l))
  {
    hide WorkersOk, LocalReady, LocalMove, CancelReaches;
    var w' := DoLocal(w, k, l);
    var wk := w.workers[k];
    forall j | j in w'.workers && w'.workers[j].cancelled && w'.workers[j].pc.Awaiting?
      ensures CancelReaches(w', w'.workers[j].pc.id)
    {
      if j == k {
        LocalAwaits(wk, FindAt(w.tasks, StageId(wk.pc)), FindAt(w.audit, StageId(wk.pc)), l);
        ForwardingTask(w, k);
        ForwardReaches(w, k);
      } else {
        AwaitingTask(w, j);
        LocalTaskKeeps(w, k, l, w.workers[j].pc.id);
        PromisesKept(w, w', w.workers[j].pc.id);
        ReachesKept(w, w', w.workers[j].pc.id);
      }
    }
  }

  lemma PromisesKept(w: World, w': World, id: string)
    requires w'.cancellers == w.cancellers
    ensures FlagPromised(w, id) ==> FlagPromised(w', id)
  {
  }

  lemma ForwardingTask(w: World, k: nat)
    requires WorkersOk(w) && k in w.workers && w.workers[k].pc.Forwarding?
    ensures Admitted(Find(w.tasks, w.workers[k].pc.id))
  {
    assert WorkerOk(w.workers[k], ViewOf(w, k));
  }

  lemma ForwardReaches(w: World, k: nat)
    requires LocalEnabled(w, k, Forward) && Admitted(Find(w.tasks, w.workers[k].pc.id))
    ensures CancelReaches(DoLocal(w, k, Forward), w.workers[k].pc.id)
  {
  }

  lemma LocalTaskGrows(wk: Worker, task: Option<Task>, l: LocalStep)
    requires LocalReady(wk, task, l)
    ensures TaskGrows(task, LocalTask(task, l))
  {
  }

  lemma LocalGrows(w: World, j: nat, l: LocalStep, id: string)
    requires LocalEnabled(w, j, l)
    ensures TaskGrows(Find(w.tasks, id), Find(DoLocal(w, j, l).tasks, id))
  {
    hide LocalMove, LocalReady, LocalTask, TaskGrows, StageId;
    LocalTaskGrows(w.workers[j], FindAt(w.tasks, StageId(w.workers[j].pc)), l);
    TaskUnchanged(Find(w.tasks, id));
  }

  lemma LocalTaskKeeps(w: World, k: nat, l: LocalStep, id: string)
    requires LocalEnabled(w, k, l)
    ensures TaskKeepsCancel(Find(w.tasks, id), Find(DoLocal(w, k, l).tasks, id))
  {
    hide LocalEnabled, DoLocal, TaskKeepsCancel, TaskStaysOut;
    LocalGrows(w, k, l, id);
  }

  lemma SetCancels(w: World, t: nat)
    requires WorkersOk(w) && CancelsOk(w) && CancelEnabled(w, t, CancelStep.Set)
    ensures CancelsOk(DoSet(w, t))
  {
    hide WorkersOk, CancelReaches;
    var w' := DoSet(w, t);
    var k := w.cancellers[t].worker;
    forall j | j in w'.workers && w'.workers[j].cancelled && w'.workers[j].pc.Awaiting?
      ensures CancelReaches(w', w'.workers[j].pc.id)
    {
      AwaitingTask(w, j);
      if j == k {
        SetPromises(w, t);
      } else {
        SetKeepsPromises(w, t, w.workers[j].pc.id);
        ReachesKept(w, w', w.workers[j].pc.id);
      }
    }
  }

  lemma SetPromises(w: World, t: nat)
    requires CancelEnabled(w, t, CancelStep.Set)
    requires var wk := w.workers[w.cancellers[t].worker]; wk.pc.Awaiting? && wk.current == Some(wk.pc.id)
    ensures CancelReaches(DoSet(w, t), w.workers[w.cancellers[t].worker].pc.id)
  {
    assert DoSet(w, t).cancellers[t] == Committed(w.workers[w.cancellers[t].worker].pc.id);
  }

  lemma SetKeepsPromises(w: World, t: nat, id: string)
    requires CancelEnabled(w, t, CancelStep.Set)
    ensures FlagPromised(w, id) ==> FlagPromised(DoSet(w, t), id)
    ensures TaskKeepsCancel(Find(w.tasks, id), Find(DoSet(w, t).tasks, id))
  {
    if FlagPromised(w, id) {
      var u :| u in w.cancellers && w.cancellers[u] == Committed(id);
      assert u in DoSet(w, t).cancellers && DoSet(w, t).cancellers[u] == Committed(id);
    }
  }

  lemma LookUpKeepsPromises(w: World, t: nat, cid: string, id: string)
    requires t !in w.cancellers
    ensures FlagPromised(w, id) ==> FlagPromised(DoLookUp(w, t, cid), id)
  {
    if FlagPromised(w, id) {
      var u :| u in w.cancellers && w.cancellers[u] == Committed(id);
      assert u in DoLookUp(w, t, cid).cancellers && DoLookUp(w, t, cid).cancellers[u] == Committed(id);
    }
  }

  lemma FlagKeepsReaches(w: World, t: nat, id: string)
    requires CancelEnabled(w, t, FlagStage) && CancelReaches(w, id) && Admitted(Find(w.tasks, id))
    ensures CancelReaches(DoFlagStage(w, t), id)
  {
    var w' := DoFlagStage(w, t);
    if FlagPromised(w, id) && w.cancellers[t] != Committed(id) {
      var u :| u in w.cancellers && w.cancellers[u] == Committed(id);
      assert u in w'.cancellers && w'.cancellers[u] == Committed(id);
    }
  }

  lemma CancelCancels(w: World, t: nat, x: CancelStep)
    requires WorkersOk(w) && CancelsOk(w) && CancelEnabled(w, t, x)
    ensures CancelsOk(DoCancel(w, t, x))
  {
    hide WorkersOk, CancelReaches;
    match x
    case Set => SetCancels(w, t);
    case LookUp(cid) =>
      var w' := DoLookUp(w, t, cid);
      forall j | j in w'.workers && w'.workers[j].cancelled && w'.workers[j].pc.Awaiting?
        ensures CancelReaches(w', w'.workers[j].pc.id)
      {
        AwaitingTask(w, j);
        LookUpKeepsPromises(w, t, cid, w.workers[j].pc.id);
        ReachesKept(w, w', w.workers[j].pc.id);
      }
    case FlagStage =>
      var w' := DoFlagStage(w, t);
      forall j | j in w'.workers && w'.workers[j].cancelled && w'.workers[j].pc.Awaiting?
        ensures CancelReaches(w', w'.workers[j].pc.id)
      {
        AwaitingTask(w, j);
        FlagKeepsReaches(w, t, w.workers[j].pc.id);
      }
  }

  lemma SystemCancels(w: World, y: SystemStep)
    requires QuietWhenDown(w) && SystemEnabled(w, y)
    ensures CancelsOk(DoSystem(w, y))
  {
    hide Recovered, ValidSnapshot, AllTerminal, InterruptedRecord;
  }

  lemma NextCancels(w: World, a: Action)
    requires Inv(w) && CancelsOk(w) && Enabled(w, a)
    ensures CancelsOk(Next(w, a))
  {
    hide CancelsOk, WorkersOk, StoreOk, TasksOk, IdsOk, AttemptsOk, ControlsOk, LaunchesOk, QuietWhenDown,
         LocalEnabled, AdmissionEnabled, CommitEnabled, ScenarioEnabled, CancelEnabled, SystemEnabled, LaunchEnabled;
    match a
    case Launch(k, run, resume) => LaunchCancels(w, k, run, resume);
    case Admission(k, a) => AdmissionCancels(w, k, a);
    case Local(k, l) => LocalCancels(w, k, l);
    case Commit(k, c, ok) => CommitCancels(w, k, c, ok);
    case Scenario(id, s) => ScenarioCancels(w, id, s);
    case Cancel(t, x) => CancelCancels(w, t, x);
    case System(y) => SystemCancels(w, y);
  }

  /** Whenever a worker awaits an admitted stage and its campaign is cancelled, the stage's cancel
      flag is set, or the stage is over, or some thread is committed to setting the flag. */
  lemma {:induction false} CancelIsNotMissed(ws: seq<World>, acts: seq<Action>, i: nat)
    requires Behaviour(ws, acts) && i < |ws|
    ensures CancelsOk(ws[i])
  {
    hide Inv, Enabled, Next, CancelReaches;
    if i > 0 {
      CancelIsNotMissed(ws, acts, i - 1);
      Reachable(ws, acts, i - 1);
      NextCancels(ws[i - 1], acts[i - 1]);
    }
  }

  // ----- after a cancel at most one more stage is admitted -----

  /** Cancelled, and past the admission of its last stage: it never plans another one. */
  ghost predicate LastStage(wk: Worker, task: Option<Task>) {
    && wk.cancelled
    && match wk.pc
       case AwaitingAdmission(_) => task.Some? && !task.value.pc.Appending?
       case Linking(_) => true
       case Forwarding(_) => true
       case Awaiting(_) => true
       case Unlinking(_, _) => true
       case Collecting(_, _) => true
       case Judging(_, _, _) => true
       case Folding(_, _, verdict) => verdict != Running
       case Leaving => true
       case Gone => true
       case _ => false
  }

  ghost predicate Spent(w: World, k: nat) {
    k in w.spawned && (k in w.workers ==> LastStage(w.workers[k], FindAt(w.tasks, StageId(w.workers[k].pc))))
  }

  lemma SpentLocal(wk: Worker, task: Option<Task>, record: Option<AuditRecord>, l: LocalStep)
    requires LocalReady(wk, task, l) && LastStage(wk, task)
    ensures LastStage(LocalMove(wk, task, record, l), LocalTask(task, l))
    ensures StageId(wk.pc).Some? && StageId(LocalMove(wk, task, record, l).pc) == StageId(wk.pc)
  {
  }

  lemma SpentOwnLocal(w: World, k: nat, l: LocalStep)
    requires Spent(w, k) && LocalEnabled(w, k, l)
    ensures Spent(DoLocal(w, k, l), k)
  {
    hide LastStage, LocalMove, LocalReady;
    var wk := w.workers[k];
    var task := FindAt(w.tasks, StageId(wk.pc));
    SpentLocal(wk, task, FindAt(w.audit, StageId(wk.pc)), l);
    assert FindAt(DoLocal(w, k, l).tasks, StageId(wk.pc)) == LocalTask(task, l);
  }

  lemma SpentOwnCommit(w: World, k: nat, c: CommitStep, ok: bool)
    requires Spent(w, k) && CommitEnabled(w, k, c)
    ensures Spent(DoCommit(w, k, c, ok), k)
  {
    hide Change, Revised, Get;
  }

  lemma SpentOwnAdmission(w: World, k: nat, a: AdmissionStep)
    requires Spent(w, k) && AdmissionEnabled(w, k, a)
    ensures Spent(DoAdmission(w, k, a), k)
  {
    hide PreparedResume, Inserted, LastRunId, Lookup;
  }

  /** The tasks a step of somebody else leaves behind, for the stage of worker k. */
  ghost predicate StageStaysOut(w: World, w': World, k: nat)
    requires k in w.workers
  {
    var stage := StageId(w.workers[k].pc);
    stage.Some? ==> TaskStaysOut(Find(w.tasks, stage.value), Find(w'.tasks, stage.value))
  }

  lemma SpentAlone(w: World, w': World, k: nat)
    requires Spent(w, k) && k in w.workers && LeavesAlone(w, w', k) && w.spawned <= w'.spawned
    requires w'.workers[k].cancelled && StageStaysOut(w, w', k)
    ensures Spent(w', k)
  {
  }

  // A spent worker stays spent, whoever steps.

  lemma FlagGrows(w: World, flagged: string, id: string)
    ensures TaskGrows(Find(w.tasks, id), Find(Flag(w, flagged).tasks, id))
  {
    hide TaskGrows;
    TaskUnchanged(Find(w.tasks, id));
    if id == flagged && id in w.tasks { FlaggedTask(w.tasks[id], None); }
  }

  lemma OthersGrow(w: World, a: Action, id: string)
    requires Inv(w) && Enabled(w, a) && a != System(Crash)
    ensures TaskGrows(Find(w.tasks, id), Find(Next(w, a).tasks, id))
  {
    hide WorkersOk, StoreOk, TasksOk, IdsOk, AttemptsOk, ControlsOk, LaunchesOk, QuietWhenDown, TaskMove,
         LocalEnabled, AdmissionEnabled, CommitEnabled, ScenarioEnabled, SystemEnabled, LaunchEnabled, MovesOff, TaskGrows;
    match a
    case Launch(k, run, resume) => SameTasks(w, Next(w, a), id);
    case Admission(k, a) => AdmissionTasks(w, k, a); SameTasks(w, DoAdmission(w, k, a), id);
    case Local(k, l) => LocalGrows(w, k, l, id);
    case Commit(k, c, ok) => CommitTasks(w, k, c, ok); SameTasks(w, DoCommit(w, k, c, ok), id);
    case Scenario(other, s) =>
      ScenarioIsMove(w, other, s);
      MoveKeeps(w, DoScenario(w, other, s), other, id);
    case Cancel(t, x) => CancelGrows(w, t, x, id);
    case System(y) => SystemTasks(w, y); SameTasks(w, DoSystem(w, y), id);
  }

  lemma SameTasks(w: World, w': World, id: string)
    requires w'.tasks == w.tasks
    ensures TaskGrows(Find(w.tasks, id), Find(w'.tasks, id))
  {
    hide TaskGrows;
    TaskUnchanged(Find(w.tasks, id));
  }

  lemma AdmissionTasks(w: World, k: nat, a: AdmissionStep)
    requires AdmissionEnabled(w, k, a)
    ensures DoAdmission(w, k, a).tasks == w.tasks
  {
    hide AdmissionEnabled, DoAdmission;
    AdmissionMoves(w, k, a);
  }

  lemma CommitTasks(w: World, k: nat, c: CommitStep, ok: bool)
    requires CommitEnabled(w, k, c)
    ensures DoCommit(w, k, c, ok).tasks == w.tasks
  {
    hide Change, Revised, Get, Onward;
  }

  lemma SystemTasks(w: World, y: SystemStep)
    requires SystemEnabled(w, y) && !y.Crash?
    ensures DoSystem(w, y).tasks == w.tasks
  {
    hide Recovered, ValidSnapshot, AllTerminal, InterruptedRecord;
  }

  lemma CancelGrows(w: World, t: nat, x: CancelStep, id: string)
    requires CancelEnabled(w, t, x)
    ensures TaskGrows(Find(w.tasks, id), Find(DoCancel(w, t, x).tasks, id))
  {
    hide TaskGrows;
    match x
    case LookUp(cid) => SameTasks(w, DoLookUp(w, t, cid), id);
    case Set => SameTasks(w, DoSet(w, t), id);
    case FlagStage => FlagGrows(w, w.cancellers[t].run, id);
  }

  /** A worker key appears only with its launch. */
  ghost predicate NobodyReturns(w: World, w': World) {
    w.spawned <= w'.spawned && forall k | k in w.spawned && k in w'.workers :: k in w.workers
  }

  lemma LocalReturns(w: World, j: nat, l: LocalStep)
    requires LocalEnabled(w, j, l)
    ensures NobodyReturns(w, DoLocal(w, j, l))
  {
    hide LocalMove, LocalReady, LocalTask, StageId;
  }

  lemma CommitReturns(w: World, j: nat, c: CommitStep, ok: bool)
    requires CommitEnabled(w, j, c)
    ensures NobodyReturns(w, DoCommit(w, j, c, ok))
  {
    hide Change, Revised, Get, Onward;
  }

  lemma AdmissionReturns(w: World, j: nat, a: AdmissionStep)
    requires AdmissionEnabled(w, j, a)
    ensures NobodyReturns(w, DoAdmission(w, j, a))
  {
    hide AdmissionEnabled;
    AdmissionMoves(w, j, a);
  }

  lemma SystemReturns(w: World, y: SystemStep)
    requires SystemEnabled(w, y)
    ensures NobodyReturns(w, DoSystem(w, y))
  {
    hide Recovered, ValidSnapshot, AllTerminal, InterruptedRecord;
  }

  lemma CancelReturns(w: World, t: nat, x: CancelStep)
    requires CancelEnabled(w, t, x)
    ensures NobodyReturns(w, DoCancel(w, t, x))
  {
  }

  lemma NextReturns(w: World, a: Action)
    requires Inv(w) && Enabled(w, a)
    ensures NobodyReturns(w, Next(w, a))
  {
    hide WorkersOk, StoreOk, TasksOk, IdsOk, AttemptsOk, ControlsOk, LaunchesOk, QuietWhenDown, TaskMove,
         LocalEnabled, AdmissionEnabled, CommitEnabled, ScenarioEnabled, SystemEnabled, CancelEnabled;
    match a
    case Launch(k, run, resume) =>
    case Admission(k, a) => AdmissionReturns(w, k, a);
    case Local(k, l) => LocalReturns(w, k, l);
    case Commit(k, c, ok) => CommitReturns(w, k, c, ok);
    case Scenario(id, s) => ScenarioIsMove(w, id, s); MoveWorld(w, DoScenario(w, id, s), id);
    case Cancel(t, x) => CancelReturns(w, t, x);
    case System(y) => SystemReturns(w, y);
  }

  lemma SpentOwn(w: World, a: Action, k: nat)
    requires Inv(w) && Enabled(w, a) && Spent(w, k) && ActsFor(a, k) && k in w.workers
    ensures Spent(Next(w, a), k)
  {
    hide Inv, LastStage, LocalEnabled, AdmissionEnabled, CommitEnabled;
    match a
    case Admission(j, a) => SpentOwnAdmission(w, k, a);
    case Local(j, l) => SpentOwnLocal(w, k, l);
    case Commit(j, c, ok) => SpentOwnCommit(w, k, c, ok);
    case System(y) => CrashedSpent(w, k);
  }

  lemma CrashedSpent(w: World, k: nat)
    requires Spent(w, k)
    ensures Spent(DoCrash(w), k)
  {
    hide LastStage;
  }

  lemma SpentStays(w: World, a: Action, k: nat)
    requires Inv(w) && Enabled(w, a) && Spent(w, k)
    ensures Spent(Next(w, a), k)
  {
    hide Inv, Enabled, Next, LastStage, TaskStaysOut;
    NextReturns(w, a);
    if k in w.workers {
      if ActsFor(a, k) {
        SpentOwn(w, a, k);
      } else {
        OthersLeaveWorker(w, a, k);
        if StageId(w.workers[k].pc).Some? { OthersGrow(w, a, StageId(w.workers[k].pc).value); }
        assert w.workers[k].cancelled by { SpentCancelled(w, k); }
        SpentAlone(w, Next(w, a), k);
      }
    }
  }

  lemma SpentCancelled(w: World, k: nat)
    requires Spent(w, k) && k in w.workers
    ensures w.workers[k].cancelled
  {
  }

  /** Worker k's scenario task `id` becomes durable in the audit. */
  predicate AdmitsFor(w: World, a: Action, k: nat, id: string) {
    Admits(a, id) && k in w.workers && w.workers[k].pc == AwaitingAdmission(id)
  }

  lemma AdmissionSpends(w: World, a: Action, k: nat, id: string)
    requires Inv(w) && Enabled(w, a) && AdmitsFor(w, a, k, id) && w.workers[k].cancelled
    ensures Spent(Next(w, a), k)
  {
    hide Inv, WorkersOk, WorkerOk, ViewOf, DoAppend;
    InvWorkers(w);
    WorkerIsOk(w, k);
    AppendedTask(w, id);
  }

  lemma AppendedTask(w: World, id: string)
    requires id in w.tasks
    ensures var w' := DoAppend(w, id, true);
            w'.workers == w.workers && w'.spawned == w.spawned && id in w'.tasks && !w'.tasks[id].pc.Appending?
  {
    hide QueuedRecord;
  }

  lemma SpentAdmitsNothing(w: World, a: Action, k: nat, id: string)
    requires Enabled(w, a) && Spent(w, k)
    ensures !AdmitsFor(w, a, k, id)
  {
  }

  lemma {:induction false} SpentForever(ws: seq<World>, acts: seq<Action>, i: nat, j: nat, k: nat)
    requires Behaviour(ws, acts) && i <= j < |ws| && Spent(ws[i], k)
    ensures Spent(ws[j], k)
  {
    hide Inv, Enabled, Next, Spent;
    if i < j {
      SpentForever(ws, acts, i, j - 1, k);
      Reachable(ws, acts, j - 1);
      SpentStays(ws[j - 1], acts[j - 1], k);
    }
  }

  /** Once a campaign is cancelled its worker admits at most one more stage: the one whose scenario
      task was already being started. */
  lemma AtMostOneMoreStage(ws: seq<World>, acts: seq<Action>, i: nat, j: nat, k: nat, a: string, b: string)
    requires Behaviour(ws, acts) && i < j < |acts|
    requires AdmitsFor(ws[i], acts[i], k, a) && ws[i].workers[k].cancelled
    ensures !AdmitsFor(ws[j], acts[j], k, b)
  {
    hide Inv, Next, Spent;
    Reachable(ws, acts, i);
    AdmissionSpends(ws[i], acts[i], k, a);
    SpentForever(ws, acts, i + 1, j, k);
    SpentAdmitsNothing(ws[j], acts[j], k, b);
  }

  // ----- intent before admission -----

  /** The task has not been admitted yet, or is not listed yet. */
  predicate Unobserved(w: World, id: string) {
    id in w.tasks && (w.tasks[id].pc.Appending? || w.tasks[id].pc.Enlisting?)
  }

  ghost predicate Awaited(w: World, id: string) {
    exists k | k in w.workers :: w.workers[k].pc == AwaitingAdmission(id)
  }

  /** A worker waits for every stage task that is being admitted. */
  ghost predicate AwaitedOk(w: World) {
    forall id | id in w.intents && Unobserved(w, id) :: Awaited(w, id)
  }

  predicate StartsTask(w: World, a: Action, id: string) {
    a.Local? && a.l.Start? && a.l.accepted && a.k in w.workers && w.workers[a.k].pc == Starting(id)
  }

  predicate StartsOutside(a: Action, id: string) {
    a.Scenario? && a.id == id && a.s.SpawnForeign?
  }

  lemma LocalStarts(w: World, k: nat, l: LocalStep, id: string)
    requires LocalEnabled(w, k, l) && id !in w.tasks && id in DoLocal(w, k, l).tasks
    ensures StartsTask(w, Local(k, l), id) && DoLocal(w, k, l).workers[k].pc == AwaitingAdmission(id)
  {
  }

  lemma SetTaskKeys(w: World, id: string, pc: TaskPc)
    requires id in w.tasks
    ensures SetTask(w, id, pc).tasks.Keys == w.tasks.Keys
  {
  }

  lemma ScenarioTasks(w: World, other: string, s: ScenarioStep)
    requires ScenarioEnabled(w, other, s) && !s.SpawnForeign?
    ensures DoScenario(w, other, s).tasks.Keys == w.tasks.Keys
  {
    hide QueuedRecord, SettledRecord, FeedbackRecord;
    forall v: World, pc | other in v.tasks { SetTaskKeys(v, other, pc); }
  }

  lemma ScenarioStarts(w: World, other: string, s: ScenarioStep, id: string)
    requires ScenarioEnabled(w, other, s) && id !in w.tasks && id in DoScenario(w, other, s).tasks
    ensures StartsOutside(Scenario(other, s), id) && id !in w.issued
  {
    hide DoAppend, DoSettle, DoFeedback, Flag;
    if !s.SpawnForeign? { ScenarioTasks(w, other, s); }
  }

  /** A scenario task comes from a worker's start or from outside all campaigns. */
  lemma TaskOrigin(w: World, a: Action, id: string)
    requires Inv(w) && Enabled(w, a) && id !in w.tasks && id in Next(w, a).tasks
    ensures StartsTask(w, a, id) || (StartsOutside(a, id) && id !in w.issued)
  {
    hide WorkersOk, StoreOk, TasksOk, IdsOk, AttemptsOk, ControlsOk, LaunchesOk, QuietWhenDown, StartsTask,
         LocalEnabled, AdmissionEnabled, CommitEnabled, ScenarioEnabled, SystemEnabled;
    match a
    case Launch(k, run, resume) =>
    case Admission(k, a) => AdmissionTasks(w, k, a);
    case Local(k, l) => LocalStarts(w, k, l, id);
    case Commit(k, c, ok) => CommitTasks(w, k, c, ok);
    case Scenario(other, s) => ScenarioStarts(w, other, s, id);
    case Cancel(t, x) => CancelStarts(w, t, x, id);
    case System(y) => if !y.Crash? { SystemTasks(w, y); }
  }

  lemma CancelStarts(w: World, t: nat, x: CancelStep, id: string)
    requires CancelEnabled(w, t, x)
    ensures id in DoCancel(w, t, x).tasks <==> id in w.tasks
  {
  }

  lemma CommitIntents(w: World, k: nat, c: CommitStep, ok: bool, id: string)
    requires CommitEnabled(w, k, c) && id in DoCommit(w, k, c, ok).intents
    ensures id in w.intents || id !in w.issued
  {
    hide Change, Revised, Get, Onward;
  }

  lemma LocalIntents(w: World, k: nat, l: LocalStep)
    requires LocalEnabled(w, k, l)
    ensures DoLocal(w, k, l).intents == w.intents
  {
    hide LocalMove, LocalReady, LocalTask, StageId;
  }

  lemma CancelIntents(w: World, t: nat, x: CancelStep)
    requires CancelEnabled(w, t, x)
    ensures DoCancel(w, t, x).intents == w.intents
  {
  }

  /** Only a stage transaction records an intent, under an id never used before. */
  lemma IntentOrigin(w: World, a: Action, id: string)
    requires Inv(w) && Enabled(w, a) && id in Next(w, a).intents
    ensures id in w.intents || id !in w.issued
  {
    hide WorkersOk, StoreOk, TasksOk, IdsOk, AttemptsOk, ControlsOk, LaunchesOk, QuietWhenDown,
         AdmissionEnabled, CommitEnabled, SystemEnabled, LocalEnabled, CancelEnabled, LocalMove, LocalReady, LocalTask, StageId,
         TaskMove, DoLocal, DoCancel, DoAdmission, DoCommit, DoSystem;
    match a
    case Admission(k, a) => AdmissionIntents(w, k, a);
    case Commit(k, c, ok) => CommitIntents(w, k, c, ok, id);
    case Scenario(other, s) => ScenarioIntents(w, other, s);
    case System(y) => SystemIntents(w, y);
    case Launch(k, run, resume) => hide LaunchEnabled;
    case Local(k, l) => LocalIntents(w, k, l);
    case Cancel(t, x) => CancelIntents(w, t, x);
  }

  lemma AdmissionIntents(w: World, k: nat, a: AdmissionStep)
    requires AdmissionEnabled(w, k, a)
    ensures DoAdmission(w, k, a).intents == w.intents
  {
    hide AdmissionEnabled, DoAdmission;
    AdmissionMoves(w, k, a);
  }

  lemma ScenarioIntents(w: World, id: string, s: ScenarioStep)
    requires TasksOk(w) && IdsOk(w) && ScenarioEnabled(w, id, s)
    ensures DoScenario(w, id, s).intents == w.intents
  {
    hide TasksOk, IdsOk, ScenarioEnabled, TaskGrows, RecordGrows, Touched, TaskOk;
    ScenarioIsMove(w, id, s);
  }

  lemma SystemIntents(w: World, y: SystemStep)
    requires SystemEnabled(w, y)
    ensures DoSystem(w, y).intents == w.intents
  {
    hide Recovered, ValidSnapshot, AllTerminal, InterruptedRecord;
  }

  /** The worker stays where it is until its task's admission can be observed. */
  lemma AwaitingWaits(w: World, a: Action, k: nat, id: string)
    requires Enabled(w, a) && a != System(Crash) && k in w.workers && w.workers[k].pc == AwaitingAdmission(id) && Unobserved(w, id)
    ensures !ActsFor(a, k)
  {
  }

  lemma TaskWasUnobserved(w: World, a: Action, id: string)
    requires Inv(w) && Enabled(w, a) && a != System(Crash) && id in w.tasks && Unobserved(Next(w, a), id)
    ensures Unobserved(w, id)
  {
    hide Inv, Enabled, Next, TaskKeepsCancel, TaskStaysOut;
    OthersGrow(w, a, id);
  }

  lemma NextAwaited(w: World, a: Action)
    requires Inv(w) && Enabled(w, a) && AwaitedOk(w)
    ensures AwaitedOk(Next(w, a))
  {
    hide Inv, Enabled, Next, StartsTask;
    if a != System(Crash) {
      forall id | id in Next(w, a).intents && Unobserved(Next(w, a), id) ensures Awaited(Next(w, a), id) {
        IntentOrigin(w, a, id);
        if id !in w.tasks {
          TaskOrigin(w, a, id);
          if StartsTask(w, a, id) { StartedIsAwaited(w, a, id); } else { OutsideIntents(w, a, id); IntentIsIssued(w, id); }
        } else {
          TaskWasUnobserved(w, a, id);
          TaskIsIssued(w, id);
          var k :| k in w.workers && w.workers[k].pc == AwaitingAdmission(id);
          AwaitingWaits(w, a, k, id);
          OthersLeaveWorker(w, a, k);
          assert Next(w, a).workers[k].pc == AwaitingAdmission(id);
        }
      }
    } else {
      CrashedAwaited(w);
    }
  }

  lemma OutsideIntents(w: World, a: Action, id: string)
    requires Inv(w) && Enabled(w, a) && StartsOutside(a, id)
    ensures Next(w, a).intents == w.intents
  {
    hide WorkersOk, StoreOk, TasksOk, IdsOk, AttemptsOk, ControlsOk, LaunchesOk, QuietWhenDown, ScenarioEnabled;
    ScenarioIntents(w, a.id, a.s);
  }

  lemma IntentIsIssued(w: World, id: string)
    requires Inv(w)
    ensures id in w.intents ==> id in w.issued
  {
    hide WorkersOk, StoreOk, TasksOk, AttemptsOk, ControlsOk, LaunchesOk, QuietWhenDown;
  }

  lemma TaskIsIssued(w: World, id: string)
    requires Inv(w) && id in w.tasks
    ensures id in w.issued
  {
    hide WorkersOk, StoreOk, IdsOk, AttemptsOk, ControlsOk, LaunchesOk, QuietWhenDown, TaskOk;
  }

  lemma StartedIsAwaited(w: World, a: Action, id: string)
    requires Enabled(w, a) && StartsTask(w, a, id)
    ensures Awaited(Next(w, a), id)
  {
    assert Next(w, a).workers[a.k].pc == AwaitingAdmission(id);
  }

  lemma CrashedAwaited(w: World)
    requires Enabled(w, System(Crash))
    ensures AwaitedOk(Next(w, System(Crash)))
  {
  }

  lemma {:induction false} AdmissionIsAwaited(ws: seq<World>, acts: seq<Action>, i: nat)
    requires Behaviour(ws, acts) && i < |ws|
    ensures AwaitedOk(ws[i])
  {
    hide Inv, Enabled, Next, Awaited;
    if i > 0 {
      AdmissionIsAwaited(ws, acts, i - 1);
      Reachable(ws, acts, i - 1);
      NextAwaited(ws[i - 1], acts[i - 1]);
    }
  }

  /** The run was started outside all campaigns before step j. */
  ghost predicate Outside(acts: seq<Action>, j: nat, id: string)
    requires j <= |acts|
  {
    exists i | 0 <= i < j :: StartsOutside(acts[i], id)
  }

  lemma {:induction false} TasksAreIntended(ws: seq<World>, acts: seq<Action>, i: nat, id: string)
    requires Behaviour(ws, acts) && i < |ws| && id in ws[i].tasks && !Outside(acts, i, id)
    ensures id in ws[i].intents
  {
    hide Inv, Enabled, Next, AuditKept, NewRecordsAppended, NewTasksStarted, NewStartsFresh;
    if i > 0 {
      StepEvolves(ws, acts, i - 1);
      if id in ws[i - 1].tasks {
        TasksAreIntended(ws, acts, i - 1, id);
      } else {
        TaskOrigin(ws[i - 1], acts[i - 1], id);
        assert !StartsOutside(acts[i - 1], id);
        InvWorkers(ws[i - 1]);
        StageOf(ws[i - 1], acts[i - 1].k, id);
      }
    }
  }

  /** When a scenario run that was not started outside all campaigns becomes durable in the audit, the
      snapshot on disk already names it as the running attempt of its stage, and its worker waits for it. */
  lemma IntentBeforeAdmission(ws: seq<World>, acts: seq<Action>, j: nat, id: string) returns (k: nat)
    requires Behaviour(ws, acts) && j < |acts| && Admits(acts[j], id) && !Outside(acts, j, id)
    ensures AdmitsFor(ws[j], acts[j], k, id)
    ensures id in ws[j].intents && ws[j].intents[id].campaign == ws[j].workers[k].cid
    ensures var run := Get(ws[j].store, ws[j].intents[id].campaign);
            && run.Some? && run.value.results != []
            && ws[j].intents[id].stage == |run.value.results| - 1
            && run.value.results[|run.value.results| - 1].runId == id
            && run.value.results[|run.value.results| - 1].status == Running
  {
    hide Inv, Next;
    Reachable(ws, acts, j);
    AdmissionIsAwaited(ws, acts, j);
    assert Unobserved(ws[j], id);
    TasksAreIntended(ws, acts, j, id);
    k :| k in ws[j].workers && ws[j].workers[k].pc == AwaitingAdmission(id);
    InvWorkers(ws[j]);
    StageOf(ws[j], k, id);
  }
}
