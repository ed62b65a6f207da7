/** Durable campaign execution as a transition system: detached workers, the scenario tasks they
    start, concurrent cancel requests, feedback, failed disk writes, process death and startup.

    One action is one step that other threads cannot see inside: one lock-protected section, or one
    committed store transaction (DurableStores proves that a transaction of the real stores is one).
    `ok` parameters are the disk: a write that fails changes nothing. */
module CampaignProtocol {
  import opened Wrappers
  import opened Records
  import opened CampaignRunStore
  import opened CampaignExecution
  import opened ScenarioExecution

  /** A stage of one campaign run. */
  datatype Slot = Slot(campaign: string, stage: nat)

  /** Where a worker task stands in `launch` and `execute`. */
  datatype Pc =
    | Spawned                                          // before taking the control entry
    | Admitting                                        // control entry held, admission not committed
    | Consulted(seen: Option<AuditRecord>)             // inside the resume transaction, audit read
    | Head                                             // top of the stage loop
    | StoppingIdle                                     // saw a cancel at the top of the loop
    | Planning                                         // saw no cancel, about to commit the intent
    | Pending(id: string)                              // intent durable
    | StoppingPending(id: string)                      // saw a cancel after the intent
    | Starting(id: string)                             // saw no cancel after the intent
    | AwaitingAdmission(id: string)                    // scenario task spawned
    | Linking(id: string)                              // admitted, about to call set_current
    | Forwarding(id: string)                           // must cancel the stage itself
    | Awaiting(id: string)                             // awaiting completion
    | Unlinking(id: string, done: bool)                // completed, about to clear current
    | Collecting(id: string, done: bool)               // about to read the stage audit
    | Judging(id: string, done: bool, result: StepResult)
    | Folding(id: string, result: StepResult, verdict: Status)
    | Finalizing                                       // every stage is done
    | Leaving                                          // about to remove the control entry
    | Gone

  datatype Worker = Worker(
    cid: string, run: CampaignRun, resume: bool, pc: Pc, cancelled: bool, current: Option<string>)

  datatype TaskPc =
    | Appending | Refused                // audit append pending, or failed
    | Enlisting                          // appended, not yet in the table of active runs
    | Executing
    | Settling(ok: bool)                 // terminal audit record committed, still in the table
    | Ended(ok: bool, listed: bool)      // `listed` stays true when the terminal commit failed

  datatype Task = Task(pc: TaskPc, mode: ExecutionMode, cancel: bool)

  /** A cancel request between its lock-protected sections. */
  datatype Canceller = Holding(worker: nat) | Committed(run: string)

  datatype Phase = Down | RecoveringAudit | RecoveringCampaigns | Up

  /** `store` and `audit` are the durable contents; `issued`, `spawned` and `intents` are history:
      ids ever handed out, worker tasks ever spawned, and the stage each run id was committed for. */
  datatype World = World(
    phase: Phase,
    store: Runs, audit: map<string, AuditRecord>,
    controls: map<string, nat>, workers: map<nat, Worker>, tasks: map<string, Task>,
    cancellers: map<nat, Canceller>, consulting: Option<nat>,
    issued: set<string>, spawned: set<nat>, intents: map<string, Slot>)

  datatype AdmissionStep = Register | InsertRun(ok: bool) | Consult | Resume(ok: bool) | Leave

  /** Worker steps that commit nothing. */
  datatype LocalStep =
    Check | Recheck | Start(accepted: bool, mode: ExecutionMode) | Observe | Link | Forward | Join | Unlink | Collect | Judge

  /** Worker steps that are one campaign-store transaction. */
  datatype CommitStep = StopIdle | Plan(id: string) | StopPending | Fold | Finalize

  datatype ScenarioStep =
    | SpawnForeign(mode: ExecutionMode)                // a run that no campaign asked for
    | Append(ok: bool) | Enlist | Settle(outcome: Settlement, ok: bool) | Delist
    | Feedback(m: Measurements, contained: bool)
    | Abort                                            // an operator cancels the scenario itself

  datatype CancelStep = LookUp(cid: string) | Set | FlagStage

  datatype SystemStep = Crash | Boot | RecoverRecord(id: string) | LoadSnapshot | RecoverRuns

  datatype Action =
    | Launch(k: nat, run: CampaignRun, resume: bool)
    | Admission(k: nat, a: AdmissionStep)
    | Local(k: nat, l: LocalStep)
    | Commit(k: nat, c: CommitStep, ok: bool)
    | Scenario(id: string, s: ScenarioStep)
    | Cancel(t: nat, x: CancelStep)
    | System(y: SystemStep)

  // ----- parts of a state -----

  function Init(): World {
    World(Down, [], map[], map[], map[], map[], map[], None, {}, {}, map[])
  }

  function SetWorker(w: World, k: nat, wk: Worker): World {
    w.(workers := w.workers[k := wk])
  }

  function Goto(w: World, k: nat, pc: Pc): World
    requires k in w.workers
  {
    SetWorker(w, k, w.workers[k].(pc := pc))
  }

  function Stored(w: World, k: nat): Option<CampaignRun>
    requires k in w.workers
  {
    Get(w.store, w.workers[k].cid)
  }

  function Find<K, V>(m: map<K, V>, k: K): Option<V> {
    if k in m then Some(m[k]) else None
  }

  /** The scenario run id a worker holds, from its intent to the fold of its result. */
  function StageId(pc: Pc): Option<string> {
    match pc
    case Pending(id) => Some(id)
    case StoppingPending(id) => Some(id)
    case Starting(id) => Some(id)
    case AwaitingAdmission(id) => Some(id)
    case Linking(id) => Some(id)
    case Forwarding(id) => Some(id)
    case Awaiting(id) => Some(id)
    case Unlinking(id, _) => Some(id)
    case Collecting(id, _) => Some(id)
    case Judging(id, _, _) => Some(id)
    case Folding(id, _, _) => Some(id)
    case _ => None
  }

  function FindAt<V>(m: map<string, V>, id: Option<string>): Option<V> {
    if id.Some? then Find(m, id.value) else None
  }

  predicate ListedTask(t: Task) {
    t.pc.Executing? || t.pc.Settling? || (t.pc.Ended? && t.pc.listed)
  }

  /** `ActiveRun::cancel` through the table of active runs. */
  function Flag(w: World, id: string): World {
    if id in w.tasks && ListedTask(w.tasks[id])
    then w.(tasks := w.tasks[id := w.tasks[id].(cancel := true)]) else w
  }

  function SetTask(w: World, id: string, pc: TaskPc): World
    requires id in w.tasks
  {
    w.(tasks := w.tasks[id := w.tasks[id].(pc := pc)])
  }

  predicate FreshRun(run: CampaignRun) {
    run.id != "" && run.status == Queued && run.results == [] && run.superseded == [] && run.resumeCount == 0
  }

  predicate At(w: World, k: nat) { w.phase == Up && k in w.workers }

  /** The stage whose intent the worker committed last. */
  predicate OnStage(run: CampaignRun) { 0 < |run.results| <= |run.steps| }

  predicate MayPlan(run: CampaignRun) { |run.results| < |run.steps| }

  predicate StoredHasStage(w: World, k: nat)
    requires k in w.workers
  {
    Stored(w, k).Some? ==> Stored(w, k).value.results != []
  }

  // ----- launch, admission and resume -----

  ghost predicate LaunchEnabled(w: World, k: nat, run: CampaignRun, resume: bool) {
    && w.phase == Up && k !in w.spawned
    && (!resume ==> run.id !in w.issued && FreshRun(run) && ValidPlan(run.steps))
  }

  function DoLaunch(w: World, k: nat, run: CampaignRun, resume: bool): World {
    SetWorker(w.(issued := if resume then w.issued else w.issued + {run.id}, spawned := w.spawned + {k}),
              k, Worker(run.id, run, resume, Spawned, false, None))
  }

  predicate AdmissionEnabled(w: World, k: nat, a: AdmissionStep) {
    && At(w, k)
    && var wk := w.workers[k];
       match a
       case Register => wk.pc == Spawned
       case InsertRun(_) => wk.pc == Admitting && !wk.resume && w.consulting.None?
       case Consult => wk.pc == Admitting && wk.resume && w.consulting.None?
       case Resume(_) => wk.pc.Consulted? && w.consulting == Some(k)
       case Leave => wk.pc == Leaving
  }

  function DoRegister(w: World, k: nat): World
    requires k in w.workers
  {
    if w.workers[k].cid in w.controls then Goto(w, k, Gone)
    else Goto(w.(controls := w.controls[w.workers[k].cid := k]), k, Admitting)
  }

  function DoInsert(w: World, k: nat, ok: bool): World
    requires k in w.workers
  {
    if ok then Goto(w.(store := Inserted(w.store, w.workers[k].run)), k, Head) else Goto(w, k, Leaving)
  }

  function DoConsult(w: World, k: nat): World
    requires k in w.workers
  {
    var seen := Lookup(w.audit, LastRunId(w.store, w.workers[k].cid));
    Goto(w.(consulting := Some(k)), k, Consulted(seen))
  }

  function DoResume(w: World, k: nat, ok: bool): World
    requires k in w.workers && w.workers[k].pc.Consulted?
  {
    var free := w.(consulting := None);
    match PreparedResume(w.store, w.workers[k].cid, w.workers[k].pc.seen)
    case Err(_) => Goto(free, k, Leaving)
    case Ok((next, run)) =>
      if ok then SetWorker(free.(store := next), k, w.workers[k].(run := run, pc := Head))
      else Goto(free, k, Leaving)
  }

  function DoLeave(w: World, k: nat): World
    requires k in w.workers
  {
    Goto(w.(controls := w.controls - {w.workers[k].cid}), k, Gone)
  }

  function DoAdmission(w: World, k: nat, a: AdmissionStep): World
    requires AdmissionEnabled(w, k, a)
  {
    match a
    case Register => DoRegister(w, k)
    case InsertRun(ok) => DoInsert(w, k, ok)
    case Consult => DoConsult(w, k)
    case Resume(ok) => DoResume(w, k, ok)
    case Leave => DoLeave(w, k)
  }

  // ----- worker steps without a transaction -----

  /** When a worker step can happen; `task` is the scenario task of the worker's stage. Conditions on
      `results` are what the source's `unwrap` and indexing need; WorkerNeverPanics shows they hold. */
  predicate LocalReady(wk: Worker, task: Option<Task>, l: LocalStep) {
    match l
    case Check => wk.pc == Head
    case Recheck => wk.pc.Pending?
    case Start(_, _) => wk.pc.Starting? && task.None?
    case Observe => wk.pc.AwaitingAdmission? && task.Some? && !task.value.pc.Appending? && !task.value.pc.Enlisting?
    case Link => wk.pc.Linking?
    case Forward => wk.pc.Forwarding?
    case Join => wk.pc.Awaiting? && task.Some? && task.value.pc.Ended?
    case Unlink => wk.pc.Unlinking?
    case Collect => wk.pc.Collecting? && OnStage(wk.run)
    case Judge => wk.pc.Judging?
  }

  /** The worker after the step; Start and Forward also touch the stage's scenario task. */
  function LocalMove(wk: Worker, task: Option<Task>, record: Option<AuditRecord>, l: LocalStep): Worker
    requires LocalReady(wk, task, l)
  {
    match l
    case Check =>
      wk.(pc := if |wk.run.results| >= |wk.run.steps| then Finalizing
                else if wk.cancelled then StoppingIdle else Planning)
    case Recheck => wk.(pc := if wk.cancelled then StoppingPending(wk.pc.id) else Starting(wk.pc.id))
    case Start(accepted, _) => wk.(pc := if accepted then AwaitingAdmission(wk.pc.id) else Collecting(wk.pc.id, false))
    case Observe => wk.(pc := if task.value.pc.Refused? then Collecting(wk.pc.id, false) else Linking(wk.pc.id))
    // `set_current(Some(id))`: the cancel flag is read in the section that publishes the stage.
    case Link => wk.(current := Some(wk.pc.id), pc := if wk.cancelled then Forwarding(wk.pc.id) else Awaiting(wk.pc.id))
    case Forward => wk.(pc := Awaiting(wk.pc.id))
    case Join => wk.(pc := Unlinking(wk.pc.id, task.value.pc.ok))
    case Unlink => wk.(current := None, pc := Collecting(wk.pc.id, wk.pc.done))
    case Collect =>
      wk.(pc := Judging(wk.pc.id, wk.pc.done, StageResult(wk.run.steps[|wk.run.results| - 1], wk.pc.id, record)))
    case Judge =>
      var last := |wk.run.results| == |wk.run.steps|;
      wk.(pc := Folding(wk.pc.id, wk.pc.result, AfterStage(wk.pc.done, wk.pc.result.status, wk.cancelled, last)))
  }

  /** The stage's scenario task after the step. */
  function LocalTask(task: Option<Task>, l: LocalStep): Option<Task> {
    match l
    case Start(true, mode) => Some(Task(Appending, mode, false))
    case Forward => if task.Some? && ListedTask(task.value) then Some(task.value.(cancel := true)) else task
    case _ => task
  }

  predicate LocalEnabled(w: World, k: nat, l: LocalStep) {
    At(w, k) && LocalReady(w.workers[k], FindAt(w.tasks, StageId(w.workers[k].pc)), l)
  }

  /** One worker replaced, together with the scenario task of its stage. */
  function Placed(w: World, k: nat, wk: Worker, stage: Option<string>, task: Option<Task>): World {
    var next := SetWorker(w, k, wk);
    if stage.Some? && task.Some? then next.(tasks := w.tasks[stage.value := task.value]) else next
  }

  function DoLocal(w: World, k: nat, l: LocalStep): World
    requires LocalEnabled(w, k, l)
  {
    var wk := w.workers[k];
    var stage := StageId(wk.pc);
    var task := FindAt(w.tasks, stage);
    Placed(w, k, LocalMove(wk, task, FindAt(w.audit, stage), l), stage, LocalTask(task, l))
  }

  // ----- worker transactions -----

  predicate CommitEnabled(w: World, k: nat, c: CommitStep) {
    && At(w, k) && w.consulting.None?
    && var pc := w.workers[k].pc;
       match c
       case StopIdle => pc == StoppingIdle
       case Plan(id) => pc == Planning && id !in w.issued && id != "" && MayPlan(w.workers[k].run)
       case StopPending => pc.StoppingPending? && StoredHasStage(w, k)
       case Fold => pc.Folding? && StoredHasStage(w, k)
       case Finalize => pc == Finalizing
  }

  /** The stored run after the transaction. */
  function Change(w: World, k: nat, c: CommitStep, stored: CampaignRun): CampaignRun
    requires CommitEnabled(w, k, c) && Stored(w, k) == Some(stored)
  {
    var wk := w.workers[k];
    match c
    case StopIdle => Stopped(stored)
    case Plan(id) => WithIntent(stored, PendingResult(wk.run.steps[|wk.run.results|], id))
    case StopPending => StoppedPending(stored)
    case Fold => Folded(stored, wk.pc.result, wk.pc.verdict)
    case Finalize => Finalized(stored)
  }

  /** Where the worker goes once the transaction is committed. */
  function Onward(pc: Pc, c: CommitStep): Pc {
    match c
    case Plan(id) => Pending(id)
    case Fold => if pc.Folding? && pc.verdict == Running then Head else Leaving
    case _ => Leaving
  }

  /** Drawing a scenario run id. */
  function Draw(w: World, c: CommitStep): World {
    if c.Plan? then w.(issued := w.issued + {c.id}) else w
  }

  /** A failed write, or a run that disappeared, sends the worker out without another change. */
  function DoCommit(w: World, k: nat, c: CommitStep, ok: bool): World
    requires CommitEnabled(w, k, c)
  {
    if !ok || Stored(w, k).None? then Goto(Draw(w, c), k, Leaving)
    else
      var run := Change(w, k, c, Stored(w, k).value);
      var wk := w.workers[k].(run := run, pc := Onward(w.workers[k].pc, c));
      var slot := Slot(wk.cid, |Stored(w, k).value.results|);
      SetWorker(Draw(w, c).(store := Revised(w.store, run),
                            intents := if c.Plan? then w.intents[c.id := slot] else w.intents), k, wk)
  }

  // ----- scenario tasks and feedback -----

  predicate ScenarioEnabled(w: World, id: string, s: ScenarioStep) {
    && w.phase == Up
    && match s
       case SpawnForeign(_) => id !in w.issued && id != ""
       case Append(_) => id in w.tasks && w.tasks[id].pc == Appending
       case Enlist => id in w.tasks && w.tasks[id].pc == Enlisting
       case Settle(_, _) => id in w.tasks && w.tasks[id].pc == Executing
       case Delist => id in w.tasks && w.tasks[id].pc.Settling?
       case Feedback(_, _) => id in w.audit && Terminal(w.audit[id].status)
       case Abort => true
  }

  function DoForeign(w: World, id: string, mode: ExecutionMode): World {
    w.(issued := w.issued + {id}, tasks := w.tasks[id := Task(Appending, mode, false)])
  }

  /** `AuditStore::append`: refuses a duplicate id, logs first, publishes second. */
  function DoAppend(w: World, id: string, ok: bool): World
    requires id in w.tasks
  {
    if ok && id !in w.audit
    then SetTask(w.(audit := w.audit[id := QueuedRecord(id, w.tasks[id].mode)]), id, Enlisting)
    else SetTask(w, id, Refused)
  }

  function DoSettle(w: World, id: string, outcome: Settlement, ok: bool): World
    requires id in w.tasks
  {
    if ok && id in w.audit
    then SetTask(w.(audit := w.audit[id := SettledRecord(w.audit[id], w.tasks[id].mode, outcome)]),
                 id, Settling(!outcome.failed))
    else SetTask(w, id, Ended(false, !ok))
  }

  function DoFeedback(w: World, id: string, m: Measurements, contained: bool): World
    requires id in w.audit
  {
    w.(audit := w.audit[id := FeedbackRecord(w.audit[id], m, contained)])
  }

  function DoScenario(w: World, id: string, s: ScenarioStep): World
    requires ScenarioEnabled(w, id, s)
  {
    match s
    case SpawnForeign(mode) => DoForeign(w, id, mode)
    case Append(ok) => DoAppend(w, id, ok)
    case Enlist => SetTask(w, id, Executing)
    case Settle(outcome, ok) => DoSettle(w, id, outcome, ok)
    case Delist => SetTask(w, id, Ended(w.tasks[id].pc.ok, false))
    case Feedback(m, contained) => DoFeedback(w, id, m, contained)
    case Abort => Flag(w, id)
  }

  // ----- cancel requests -----

  predicate CancelEnabled(w: World, t: nat, x: CancelStep) {
    && w.phase == Up
    && match x
       case LookUp(_) => t !in w.cancellers
       case Set => t in w.cancellers && w.cancellers[t].Holding? && w.cancellers[t].worker in w.workers
       case FlagStage => t in w.cancellers && w.cancellers[t].Committed?
  }

  function DoLookUp(w: World, t: nat, cid: string): World {
    if cid in w.controls then w.(cancellers := w.cancellers[t := Holding(w.controls[cid])]) else w
  }

  /** `CampaignControl::cancel`: sets the flag and reads the current stage in one section. */
  function DoSet(w: World, t: nat): World
    requires t in w.cancellers && w.cancellers[t].Holding? && w.cancellers[t].worker in w.workers
  {
    var k := w.cancellers[t].worker;
    var next := SetWorker(w, k, w.workers[k].(cancelled := true));
    match w.workers[k].current
    case None => next.(cancellers := w.cancellers - {t})
    case Some(id) => next.(cancellers := w.cancellers[t := Committed(id)])
  }

  function DoFlagStage(w: World, t: nat): World
    requires t in w.cancellers && w.cancellers[t].Committed?
  {
    Flag(w, w.cancellers[t].run).(cancellers := w.cancellers - {t})
  }

  function DoCancel(w: World, t: nat, x: CancelStep): World
    requires CancelEnabled(w, t, x)
  {
    match x
    case LookUp(cid) => DoLookUp(w, t, cid)
    case Set => DoSet(w, t)
    case FlagStage => DoFlagStage(w, t)
  }

  // ----- process death and startup -----

  ghost predicate AllTerminal(audit: map<string, AuditRecord>) {
    forall id | id in audit :: Terminal(audit[id].status)
  }

  /** Startup recovers the audit first; it loads only a snapshot that `validate` accepts. */
  ghost predicate SystemEnabled(w: World, y: SystemStep) {
    match y
    case Crash => w.phase != Down
    case Boot => w.phase == Down
    case RecoverRecord(id) => w.phase == RecoveringAudit && id in w.audit && !Terminal(w.audit[id].status)
    case LoadSnapshot => w.phase == RecoveringAudit && AllTerminal(w.audit) && ValidSnapshot(w.store)
    case RecoverRuns => w.phase == RecoveringCampaigns
  }

  /** Process death: only what is on disk, and history, survives. */
  function DoCrash(w: World): World {
    w.(phase := Down, controls := map[], workers := map[], tasks := map[], cancellers := map[], consulting := None)
  }

  function DoRecoverRecord(w: World, id: string): World
    requires id in w.audit
  {
    w.(audit := w.audit[id := InterruptedRecord(w.audit[id])])
  }

  function DoSystem(w: World, y: SystemStep): World
    requires SystemEnabled(w, y)
  {
    match y
    case Crash => DoCrash(w)
    case Boot => w.(phase := RecoveringAudit)
    case RecoverRecord(id) => DoRecoverRecord(w, id)
    case LoadSnapshot => w.(phase := RecoveringCampaigns)
    case RecoverRuns => w.(phase := Up, store := Recovered(w.store))
  }

  // ----- the transition system -----

  ghost predicate Enabled(w: World, a: Action) {
    match a
    case Launch(k, run, resume) => LaunchEnabled(w, k, run, resume)
    case Admission(k, a) => AdmissionEnabled(w, k, a)
    case Local(k, l) => LocalEnabled(w, k, l)
    case Commit(k, c, _) => CommitEnabled(w, k, c)
    case Scenario(id, s) => ScenarioEnabled(w, id, s)
    case Cancel(t, x) => CancelEnabled(w, t, x)
    case System(y) => SystemEnabled(w, y)
  }

  ghost function Next(w: World, a: Action): World
    requires Enabled(w, a)
  {
    match a
    case Launch(k, run, resume) => DoLaunch(w, k, run, resume)
    case Admission(k, a) => DoAdmission(w, k, a)
    case Local(k, l) => DoLocal(w, k, l)
    case Commit(k, c, ok) => DoCommit(w, k, c, ok)
    case Scenario(id, s) => DoScenario(w, id, s)
    case Cancel(t, x) => DoCancel(w, t, x)
    case System(y) => DoSystem(w, y)
  }

  /** A run of the system from first start: any interleaving, any failures, any number of restarts. */
  ghost predicate Behaviour(ws: seq<World>, acts: seq<Action>) {
    && |ws| == |acts| + 1
    && ws[0] == Init()
    && forall i | 0 <= i < |acts| :: Enabled(ws[i], acts[i]) && ws[i + 1] == Next(ws[i], acts[i])
  }
}
