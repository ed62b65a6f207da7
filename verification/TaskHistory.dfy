/** The scenario tasks over whole runs: how a task is born, which steps set its cancel flag, and where it goes. */
module TaskHistory {
  import opened Wrappers
  import opened Records
  import opened ScenarioExecution
  import opened CampaignProtocol
  import opened CampaignInvariant
  import opened CampaignSteps
  import CampaignSafety
  import AuditHistory

  /** The step spawns task `id`: a worker starts its stage, or somebody outside all campaigns starts a run. */
  predicate Spawns(w: World, a: Action, id: string, mode: ExecutionMode) {
    match a
    case Local(k, l) => l == Start(true, mode) && k in w.workers && w.workers[k].pc == Starting(id)
    case Scenario(x, s) => x == id && s == SpawnForeign(mode)
    case _ => false
  }

  /** The step asks for the cancellation of run `id`: the worker that saw the flag when it published the stage, the
      cancel request that found the stage published, or an operator. */
  predicate AsksToCancel(w: World, a: Action, id: string) {
    match a
    case Local(k, l) => l == Forward && k in w.workers && w.workers[k].pc == Forwarding(id)
    case Cancel(t, x) => x == FlagStage && t in w.cancellers && w.cancellers[t] == Committed(id)
    case Scenario(x, s) => x == id && s == Abort
    case _ => false
  }

  /** In the table of active runs: admitted and listed, and not removed again. */
  predicate InTable(t: Task) {
    match t.pc
    case Executing => true
    case Settling(_) => true
    case Ended(_, listed) => listed
    case _ => false
  }

  /** Where the task's own step takes it. */
  ghost predicate Advances(w: World, id: string, s: ScenarioStep, t: Task, t': Task) {
    match s
    case Append(ok) => t.pc == Appending && t'.pc == (if ok && id !in w.audit then Enlisting else Refused)
    case Enlist => t.pc == Enlisting && t'.pc == Executing
    case Settle(outcome, ok) =>
      t.pc == Executing && t'.pc == (if ok && id in w.audit then Settling(!outcome.failed) else Ended(false, !ok))
    case Delist => t.pc.Settling? && t'.pc == Ended(t.pc.ok, false)
    case _ => t'.pc == t.pc
  }

  /** What a step makes of task `id`. */
  ghost predicate Becomes(w: World, a: Action, id: string, t': Task) {
    if exists mode :: Spawns(w, a, id, mode) then
      id !in w.tasks && t'.pc == Appending && Spawns(w, a, id, t'.mode) && !t'.cancel
    else
      && id in w.tasks
      && var t := w.tasks[id];
         && t'.mode == t.mode && (t'.cancel <==> t.cancel || (AsksToCancel(w, a, id) && InTable(t)))
         && (if a.Scenario? && a.id == id then Advances(w, id, a.s, t, t') else t'.pc == t.pc)
  }

  lemma StartBecomes(w: World, k: nat, l: LocalStep, id: string)
    requires LocalEnabled(w, k, l) && l.Start? && id in DoLocal(w, k, l).tasks
    ensures Becomes(w, Local(k, l), id, DoLocal(w, k, l).tasks[id])
  {
    hide LocalMove;
    if l.accepted && w.workers[k].pc == Starting(id) { assert Spawns(w, Local(k, l), id, l.mode); }
  }

  /** A task that no step moves; `asked` tells whether the step asks for its cancellation. */
  lemma AskedBecomes(w: World, a: Action, id: string, asked: bool, t': Task)
    requires id in w.tasks && t' == w.tasks[id].(cancel := w.tasks[id].cancel || (asked && InTable(w.tasks[id])))
    requires asked <==> AsksToCancel(w, a, id)
    requires forall mode :: !Spawns(w, a, id, mode)
    requires a.Scenario? && a.id == id ==> a.s == Abort
    ensures Becomes(w, a, id, t')
  {
    hide InTable, AsksToCancel, Spawns;
  }

  lemma FlaggedTask(w: World, x: string, id: string)
    ensures Flag(w, x).tasks.Keys == w.tasks.Keys
    ensures id in w.tasks ==>
              Flag(w, x).tasks[id] == w.tasks[id].(cancel := w.tasks[id].cancel || (x == id && InTable(w.tasks[id])))
  {
  }

  lemma ForwardedTask(w: World, k: nat, l: LocalStep, id: string)
    requires LocalEnabled(w, k, l) && !l.Start?
    ensures DoLocal(w, k, l).tasks.Keys == w.tasks.Keys
    ensures id in w.tasks ==> var asked := l == Forward && w.workers[k].pc == Forwarding(id);
              DoLocal(w, k, l).tasks[id] == w.tasks[id].(cancel := w.tasks[id].cancel || (asked && InTable(w.tasks[id])))
  {
    hide LocalMove;
  }

  lemma ForwardBecomes(w: World, k: nat, l: LocalStep, id: string)
    requires LocalEnabled(w, k, l) && !l.Start? && id in DoLocal(w, k, l).tasks
    ensures Becomes(w, Local(k, l), id, DoLocal(w, k, l).tasks[id])
  {
    hide LocalReady, DoLocal, InTable, Becomes;
    ForwardedTask(w, k, l, id);
    AskedBecomes(w, Local(k, l), id, l == Forward && w.workers[k].pc == Forwarding(id), DoLocal(w, k, l).tasks[id]);
  }

  lemma CancelledTask(w: World, t: nat, x: CancelStep, id: string)
    requires CancelEnabled(w, t, x)
    ensures DoCancel(w, t, x).tasks.Keys == w.tasks.Keys
    ensures id in w.tasks ==> var asked := x == FlagStage && w.cancellers[t] == Committed(id);
              DoCancel(w, t, x).tasks[id] == w.tasks[id].(cancel := w.tasks[id].cancel || (asked && InTable(w.tasks[id])))
  {
    hide Flag, InTable;
    if x.FlagStage? { FlaggedTask(w, w.cancellers[t].run, id); }
  }

  lemma FlagBecomes(w: World, t: nat, x: CancelStep, id: string)
    requires CancelEnabled(w, t, x) && id in DoCancel(w, t, x).tasks
    ensures Becomes(w, Cancel(t, x), id, DoCancel(w, t, x).tasks[id])
  {
    hide DoCancel, InTable, Becomes;
    CancelledTask(w, t, x, id);
    AskedBecomes(w, Cancel(t, x), id, x == FlagStage && w.cancellers[t] == Committed(id), DoCancel(w, t, x).tasks[id]);
  }

  lemma UntouchedBecomes(w: World, a: Action, id: string)
    requires Enabled(w, a) && Next(w, a).tasks == w.tasks && id in w.tasks && !a.Local? && !a.Cancel?
    requires a.Scenario? ==> a.id != id || a.s.Feedback?
    ensures Becomes(w, a, id, Next(w, a).tasks[id])
  {
    hide Enabled, Next;
  }

  lemma OtherBecomes(w: World, x: string, s: ScenarioStep, id: string)
    requires Inv(w) && ScenarioEnabled(w, x, s) && x != id && id in DoScenario(w, x, s).tasks
    ensures Becomes(w, Scenario(x, s), id, DoScenario(w, x, s).tasks[id])
  {
    hide ScenarioEnabled, DoScenario, WorkersOk, StoreOk, AttemptsOk, ControlsOk, LaunchesOk, QuietWhenDown, TasksOk, IdsOk,
         TaskGrows, RecordGrows, TaskOk;
    ScenarioIsMove(w, x, s);
  }

  lemma NotSpawned(w: World, id: string, s: ScenarioStep, mode: ExecutionMode)
    requires !s.SpawnForeign?
    ensures !Spawns(w, Scenario(id, s), id, mode)
  {
  }

  lemma MovedBecomes(w: World, id: string, s: ScenarioStep, pc: TaskPc, t': Task)
    requires id in w.tasks && t' == w.tasks[id].(pc := pc) && !s.SpawnForeign? && !s.Abort?
    requires Advances(w, id, s, w.tasks[id], t')
    ensures Becomes(w, Scenario(id, s), id, t')
  {
    hide Advances, InTable;
    forall mode ensures !Spawns(w, Scenario(id, s), id, mode) { NotSpawned(w, id, s, mode); }
  }

  lemma AppendBecomes(w: World, id: string, ok: bool)
    requires ScenarioEnabled(w, id, Append(ok))
    ensures id in DoAppend(w, id, ok).tasks && Becomes(w, Scenario(id, Append(ok)), id, DoAppend(w, id, ok).tasks[id])
  {
    hide QueuedRecord, Becomes;
    MovedBecomes(w, id, Append(ok), DoAppend(w, id, ok).tasks[id].pc, DoAppend(w, id, ok).tasks[id]);
  }

  lemma SettleBecomes(w: World, id: string, outcome: Settlement, ok: bool)
    requires ScenarioEnabled(w, id, Settle(outcome, ok))
    ensures id in DoSettle(w, id, outcome, ok).tasks
    ensures Becomes(w, Scenario(id, Settle(outcome, ok)), id, DoSettle(w, id, outcome, ok).tasks[id])
  {
    hide SettledRecord, Becomes;
    MovedBecomes(w, id, Settle(outcome, ok), DoSettle(w, id, outcome, ok).tasks[id].pc, DoSettle(w, id, outcome, ok).tasks[id]);
  }

  lemma ForeignBecomes(w: World, id: string, mode: ExecutionMode)
    requires id !in w.tasks
    ensures id in DoForeign(w, id, mode).tasks
    ensures Becomes(w, Scenario(id, SpawnForeign(mode)), id, DoForeign(w, id, mode).tasks[id])
  {
    assert Spawns(w, Scenario(id, SpawnForeign(mode)), id, mode);
  }

  lemma AbortBecomes(w: World, id: string)
    requires id in Flag(w, id).tasks
    ensures Becomes(w, Scenario(id, Abort), id, Flag(w, id).tasks[id])
  {
    hide Flag, InTable, Becomes;
    FlaggedTask(w, id, id);
    AskedBecomes(w, Scenario(id, Abort), id, true, Flag(w, id).tasks[id]);
  }

  lemma FeedbackBecomes(w: World, id: string, m: Measurements, contained: bool)
    requires id in w.audit && id in DoFeedback(w, id, m, contained).tasks
    ensures Becomes(w, Scenario(id, Feedback(m, contained)), id, DoFeedback(w, id, m, contained).tasks[id])
  {
    hide FeedbackRecord, Becomes;
    MovedBecomes(w, id, Feedback(m, contained), w.tasks[id].pc, w.tasks[id]);
  }

  lemma OwnBecomes(w: World, id: string, s: ScenarioStep)
    requires ScenarioEnabled(w, id, s) && (s.SpawnForeign? ==> id !in w.tasks) && id in DoScenario(w, id, s).tasks
    ensures Becomes(w, Scenario(id, s), id, DoScenario(w, id, s).tasks[id])
  {
    hide Becomes, DoAppend, DoSettle, DoForeign, DoFeedback, Flag;
    match s
    case SpawnForeign(mode) => ForeignBecomes(w, id, mode);
    case Append(ok) => AppendBecomes(w, id, ok);
    case Settle(outcome, ok) => SettleBecomes(w, id, outcome, ok);
    case Feedback(m, contained) => FeedbackBecomes(w, id, m, contained);
    case Abort => AbortBecomes(w, id);
    case Enlist => MovedBecomes(w, id, s, Executing, SetTask(w, id, Executing).tasks[id]);
    case Delist => MovedBecomes(w, id, s, Ended(w.tasks[id].pc.ok, false), SetTask(w, id, Ended(w.tasks[id].pc.ok, false)).tasks[id]);
  }

  lemma IssuedFirst(w: World, id: string, s: ScenarioStep)
    requires Inv(w) && ScenarioEnabled(w, id, s)
    ensures s.SpawnForeign? ==> id !in w.tasks
  {
    hide WorkersOk, StoreOk, AttemptsOk, ControlsOk, LaunchesOk, QuietWhenDown, IdsOk, TaskOk;
  }

  lemma StepBecomes(w: World, a: Action, id: string)
    requires Inv(w) && Enabled(w, a) && id in Next(w, a).tasks
    ensures Becomes(w, a, id, Next(w, a).tasks[id])
  {
    hide WorkersOk, StoreOk, AttemptsOk, ControlsOk, LaunchesOk, QuietWhenDown, Becomes,
         CommitEnabled, AdmissionEnabled, LocalEnabled, ScenarioEnabled, CancelEnabled, SystemEnabled, LaunchEnabled,
         DoCommit, DoAdmission, DoLocal, DoScenario, DoCancel, DoSystem;
    match a
    case Launch(k, run, resume) => UntouchedBecomes(w, a, id);
    case Admission(k, x) => CampaignSafety.AdmissionTasks(w, k, x); UntouchedBecomes(w, a, id);
    case Commit(k, c, ok) => CampaignSafety.CommitTasks(w, k, c, ok); UntouchedBecomes(w, a, id);
    case Local(k, l) => if l.Start? { StartBecomes(w, k, l, id); } else { ForwardBecomes(w, k, l, id); }
    case Scenario(x, s) => if x != id { OtherBecomes(w, x, s, id); } else { IssuedFirst(w, id, s); OwnBecomes(w, id, s); }
    case Cancel(t, x) => FlagBecomes(w, t, x, id);
    case System(y) =>
      if y.Crash? { AuditHistory.CrashedTasks(w); }
      else { CampaignSafety.SystemTasks(w, y); UntouchedBecomes(w, a, id); }
  }

  /** In every run of the system a scenario task is born in the mode it was asked for, its cancel flag is set exactly
      when a request reaches it in the table of active runs and is never taken back, and nothing but its own steps
      moves it on. */
  lemma TaskChanges(ws: seq<World>, acts: seq<Action>, i: nat, id: string)
    requires Behaviour(ws, acts) && i < |acts| && id in ws[i + 1].tasks
    ensures Becomes(ws[i], acts[i], id, ws[i + 1].tasks[id])
  {
    hide Inv, Enabled, Next, Becomes;
    CampaignSafety.Reachable(ws, acts, i);
    StepBecomes(ws[i], acts[i], id);
  }
}
