/** The cross-store invariant of durable campaign execution and the facts that follow from it
    in one state. CampaignSteps proves that every action keeps it. */
module CampaignInvariant {
  import opened Wrappers
  import opened Records
  import opened CampaignRunStore
  import opened CampaignExecution
  import opened CampaignProtocol

  // ----- attempts that can never complete -----

  predicate AboutToStart(pc: Pc, id: string) {
    pc == Pending(id) || pc == Starting(id)
  }

  ghost predicate StartsIn(w: World, id: string) {
    exists k | k in w.workers :: AboutToStart(w.workers[k].pc, id)
  }

  /** Never admitted, and nobody is left who could admit it. */
  ghost predicate Retired(w: World, id: string) {
    && id !in w.audit
    && (id in w.tasks ==> w.tasks[id].pc.Refused?)
    && !StartsIn(w, id)
  }

  /** Admitted, over, cleaned up or simulated, and not completed. */
  predicate Closed(record: AuditRecord) {
    SafeToRetry(record) && record.status != Completed
  }

  ghost predicate Settled(w: World, id: string) {
    Retired(w, id) || (id in w.audit && Closed(w.audit[id]))
  }

  // ----- what a worker sees -----

  /** Everything outside the worker that its part of the invariant speaks about. */
  datatype View = View(
    owned: bool, stored: Option<CampaignRun>, task: Option<Task>, record: Option<AuditRecord>,
    slot: Option<Slot>, locked: bool, last: Option<AuditRecord>, untouched: bool)

  ghost predicate NoIntentFor(intents: map<string, Slot>, cid: string) {
    forall id | id in intents :: intents[id].campaign != cid
  }

  ghost function ViewOf(w: World, k: nat): View
    requires k in w.workers
  {
    var wk := w.workers[k];
    View(Find(w.controls, wk.cid) == Some(k), Get(w.store, wk.cid),
         FindAt(w.tasks, StageId(wk.pc)), FindAt(w.audit, StageId(wk.pc)), FindAt(w.intents, StageId(wk.pc)),
         w.consulting == Some(k), Lookup(w.audit, LastRunId(w.store, wk.cid)), NoIntentFor(w.intents, wk.cid))
  }

  /** Holds the control entry of its campaign run. */
  predicate Owns(pc: Pc) { !pc.Spawned? && !pc.Gone? }

  /** Between a committed admission and the end of `execute`. */
  predicate Drives(pc: Pc) {
    Owns(pc) && !pc.Admitting? && !pc.Consulted? && !pc.Leaving?
  }

  ghost predicate IdleOk(wk: Worker, v: View) {
    v.stored == Some(wk.run) && wk.run.id == wk.cid && ValidRun(wk.run) && IdleRun(wk.run)
  }

  ghost predicate StageOk(wk: Worker, v: View, id: string) {
    && v.stored == Some(wk.run) && wk.run.id == wk.cid && ValidRun(wk.run) && StageRun(wk.run, id)
    && v.slot == Some(Slot(wk.cid, |wk.run.results| - 1))
  }

  predicate Admitted(task: Option<Task>) {
    task.Some? && (task.value.pc.Executing? || task.value.pc.Settling? || task.value.pc.Ended?)
  }

  /** A result built for the stage in flight; COMPLETED only with the audit's word for it. */
  ghost predicate ResultOk(wk: Worker, v: View, id: string, result: StepResult) {
    && OnStage(wk.run) && MatchesStep(result, wk.run.steps[|wk.run.results| - 1])
    && result.runId == id
    && (result.status == Completed ==> v.record.Some? && v.record.value.status == Completed)
  }

  /** The audit read inside a resume transaction still stands, once it was terminal. */
  ghost predicate ConsultOk(seen: Option<AuditRecord>, last: Option<AuditRecord>) {
    seen.Some? && Terminal(seen.value.status) ==> last.Some? && SameVerdict(seen.value, last.value)
  }

  ghost predicate PcOk(wk: Worker, v: View) {
    match wk.pc
    case Spawned => !wk.resume ==> FreshOk(wk, v)
    case Admitting => !wk.resume ==> FreshOk(wk, v)
    case Consulted(seen) => wk.resume && ConsultOk(seen, v.last)
    case Head => IdleOk(wk, v)
    case StoppingIdle => IdleOk(wk, v)
    case Planning => IdleOk(wk, v) && |wk.run.results| < |wk.run.steps|
    case Finalizing => IdleOk(wk, v) && |wk.run.results| == |wk.run.steps|
    case Pending(id) => StageOk(wk, v, id) && v.task.None? && v.record.None?
    case StoppingPending(id) => StageOk(wk, v, id) && v.task.None? && v.record.None?
    case Starting(id) => StageOk(wk, v, id) && v.task.None? && v.record.None?
    case AwaitingAdmission(id) => StageOk(wk, v, id) && v.task.Some?
    case Linking(id) => StageOk(wk, v, id) && Admitted(v.task)
    case Forwarding(id) => StageOk(wk, v, id) && Admitted(v.task)
    case Awaiting(id) => StageOk(wk, v, id) && Admitted(v.task)
    case Unlinking(id, _) => StageOk(wk, v, id)
    case Collecting(id, _) => StageOk(wk, v, id)
    case Judging(id, _, result) => StageOk(wk, v, id) && ResultOk(wk, v, id, result)
    case Folding(id, result, verdict) =>
      StageOk(wk, v, id) && ResultOk(wk, v, id, result) && SoundVerdict(wk.run, result, verdict)
    case Leaving => true
    case Gone => true
  }

  /** A new campaign run that is not in the store yet. */
  ghost predicate FreshOk(wk: Worker, v: View) {
    && v.stored.None? && v.untouched
    && wk.run.id == wk.cid && FreshRun(wk.run) && ValidPlan(wk.run.steps)
  }

  ghost predicate WorkerOk(wk: Worker, v: View) {
    && (Owns(wk.pc) ==> v.owned)
    && (wk.pc.Consulted? <==> v.locked)
    && (if wk.pc.Forwarding? || wk.pc.Awaiting? || wk.pc.Unlinking?
        then wk.current == StageId(wk.pc) else wk.current.None?)
    && PcOk(wk, v)
  }

  // ----- the invariant -----

  ghost predicate WorkersOk(w: World) {
    && (forall k | k in w.workers :: WorkerOk(w.workers[k], ViewOf(w, k)))
    && (forall k | k in w.workers :: k in w.spawned)
    && (w.consulting.Some? ==> w.consulting.value in w.workers)
  }

  ghost predicate ControlsOk(w: World) {
    forall c | c in w.controls ::
      w.controls[c] in w.workers && w.workers[w.controls[c]].cid == c && Owns(w.workers[w.controls[c]].pc)
  }

  /** No two workers were launched for the same new campaign run. */
  ghost predicate LaunchesOk(w: World) {
    && (forall k | k in w.workers && !w.workers[k].resume :: w.workers[k].cid in w.issued)
    && (forall j, k | j in w.workers && k in w.workers && j != k && !w.workers[j].resume && !w.workers[k].resume ::
          w.workers[j].cid != w.workers[k].cid)
  }

  predicate TaskOk(t: Task, record: Option<AuditRecord>) {
    match t.pc
    case Appending => record.None?
    case Refused => true
    case Enlisting => record.Some? && record.value.status == Queued
    case Executing => record.Some? && record.value.status == Queued
    case Settling(_) => record.Some?
    case Ended(_, _) => true
  }

  ghost predicate TasksOk(w: World) {
    forall id | id in w.tasks :: id in w.issued && TaskOk(w.tasks[id], Find(w.audit, id))
  }

  ghost predicate IdsOk(w: World) {
    && "" !in w.issued
    && (forall id | id in w.audit :: id in w.issued && w.audit[id].runId == id)
    && (forall id | id in w.intents :: id in w.issued && w.intents[id].campaign in w.issued)
    && (forall c | Get(w.store, c).Some? :: c in w.issued)
  }

  /** A stage the snapshot calls completed has a completed audit record. */
  ghost predicate RowsAudited(run: CampaignRun, audit: map<string, AuditRecord>) {
    forall i | 0 <= i < |run.results| && run.results[i].status == Completed ::
      run.results[i].runId in audit && audit[run.results[i].runId].status == Completed
  }

  ghost predicate StoreOk(w: World) {
    && ValidSnapshot(w.store)
    && forall c | Get(w.store, c).Some? :: RowsAudited(Get(w.store, c).value, w.audit)
  }

  predicate CurrentAttempt(run: CampaignRun, slot: Slot, id: string) {
    slot.stage < |run.results| && run.results[slot.stage].runId == id
  }

  ghost predicate Archived(run: CampaignRun, id: string) {
    exists i | 0 <= i < |run.superseded| :: run.superseded[i].runId == id
  }

  /** An attempt is its stage's current one, or retired, or closed and kept in the archive. */
  ghost predicate Accounted(w: World, run: CampaignRun, slot: Slot, id: string) {
    CurrentAttempt(run, slot, id) || Retired(w, id) || (id in w.audit && Closed(w.audit[id]) && Archived(run, id))
  }

  /** Every attempt of a retained campaign run is accounted for. */
  ghost predicate AttemptOk(w: World, id: string)
    requires id in w.intents
  {
    var run := Get(w.store, w.intents[id].campaign);
    run.Some? ==> Accounted(w, run.value, w.intents[id], id)
  }

  ghost predicate AttemptsOk(w: World) {
    && (forall id | id in w.intents :: AttemptOk(w, id))
    && (forall a, b | a in w.intents && b in w.intents && a != b && w.intents[a] == w.intents[b] ::
          Settled(w, a) || Settled(w, b))
  }

  ghost predicate QuietWhenDown(w: World) {
    w.phase != Up ==> w.controls == map[] && w.workers == map[] && w.tasks == map[] &&
                      w.cancellers == map[] && w.consulting.None?
  }

  ghost predicate Inv(w: World) {
    && WorkersOk(w) && ControlsOk(w) && LaunchesOk(w) && TasksOk(w)
    && IdsOk(w) && StoreOk(w) && AttemptsOk(w) && QuietWhenDown(w)
  }

  lemma InitInv()
    ensures Inv(Init())
  {
  }

  // ----- consequences in one state -----

  lemma OneOwner(w: World, j: nat, k: nat)
    requires WorkersOk(w) && j in w.workers && k in w.workers
    requires Owns(w.workers[j].pc) && Owns(w.workers[k].pc) && w.workers[j].cid == w.workers[k].cid
    ensures j == k
  {
    assert WorkerOk(w.workers[j], ViewOf(w, j)) && WorkerOk(w.workers[k], ViewOf(w, k));
  }

  lemma OwnersDiffer(w: World, j: nat, k: nat)
    requires WorkersOk(w) && j in w.workers && k in w.workers && j != k
    requires Owns(w.workers[j].pc) && Owns(w.workers[k].pc)
    ensures w.workers[j].cid != w.workers[k].cid
  {
    if w.workers[j].cid == w.workers[k].cid { OneOwner(w, j, k); }
  }

  lemma StageOf(w: World, k: nat, id: string)
    requires WorkersOk(w) && k in w.workers && StageId(w.workers[k].pc) == Some(id)
    ensures StageOk(w.workers[k], ViewOf(w, k), id)
    ensures id in w.intents && w.intents[id].campaign == w.workers[k].cid
  {
    assert WorkerOk(w.workers[k], ViewOf(w, k));
  }

  lemma StagesDiffer(w: World, j: nat, k: nat, id: string)
    requires WorkersOk(w) && j in w.workers && k in w.workers && j != k
    requires StageId(w.workers[k].pc) == Some(id)
    ensures StageId(w.workers[j].pc) != Some(id)
  {
    StageOf(w, k, id);
    if StageId(w.workers[j].pc) == Some(id) {
      StageOf(w, j, id);
      OwnersDiffer(w, j, k);
    }
  }
}
