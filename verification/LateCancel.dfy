/** A cancel can come after the stage left the table of active runs and before its worker noticed:
    a whole run of the system in which the stage's flag is then never set. */
module LateCancel {
  import opened Wrappers
  import opened Records
  import opened CampaignRunStore
  import opened CampaignExecution
  import opened ScenarioExecution
  import opened CampaignProtocol
  import opened CampaignInvariant
  import CampaignSafety

  ghost predicate ReachedBy(ws: seq<World>, acts: seq<Action>, w: World) {
    Behaviour(ws, acts) && ws[|acts|] == w
  }

  ghost predicate Reached(w: World) {
    exists ws, acts :: ReachedBy(ws, acts, w)
  }

  lemma StartReached()
    ensures Reached(Init())
  {
    assert ReachedBy([Init()], [], Init());
  }

  lemma StepReached(w: World, a: Action)
    requires Reached(w) && Enabled(w, a)
    ensures Reached(Next(w, a))
  {
    hide Enabled, Next;
    var ws, acts :| ReachedBy(ws, acts, w);
    assert ReachedBy(ws + [Next(w, a)], acts + [a], Next(w, a));
  }

  // ----- a campaign of one stage -----

  const STEP := Step(1, "latency")
  const PLANNED := CampaignRun("campaign", "", [STEP], Queued, [], [], 0)
  const STAGED := WithIntent(PLANNED, PendingResult(STEP, "stage"))
  const OUTCOME := Settlement(Completed, true, true, false, None)

  /** The campaign's worker has launched; `flags` are the cancel requests in progress. */
  function Alone(run: CampaignRun, pc: Pc, cancelled: bool, current: Option<string>, flags: map<nat, Canceller>,
                 tasks: map<string, Task>, audit: map<string, AuditRecord>): World {
    World(Up, [run], audit, map["campaign" := 0], map[0 := Worker("campaign", run, false, pc, cancelled, current)],
          tasks, flags, None, {"campaign"} + (if run == STAGED then {"stage"} else {}), {0},
          if run == STAGED then map["stage" := Slot("campaign", 0)] else map[])
  }

  function Staged(pc: Pc, task: TaskPc, audit: map<string, AuditRecord>): World {
    Alone(STAGED, pc, false, None, map[], map["stage" := Task(task, SimulatedMode, false)], audit)
  }

  const QUEUED := map["stage" := QueuedRecord("stage", SimulatedMode)]
  const SETTLED := map["stage" := SettledRecord(QUEUED["stage"], SimulatedMode, OUTCOME)]

  function Waiting(task: TaskPc, cancelled: bool, flags: map<nat, Canceller>, audit: map<string, AuditRecord>): World {
    Alone(STAGED, Awaiting("stage"), cancelled, Some("stage"), flags, map["stage" := Task(task, SimulatedMode, false)], audit)
  }

  lemma Started()
    ensures Reached(Init().(phase := Up))
  {
    hide Reached;
    var booting := Init().(phase := RecoveringAudit);
    StartReached();
    StepReached(Init(), System(Boot));
    StepReached(booting, System(LoadSnapshot));
    StepReached(booting.(phase := RecoveringCampaigns), System(RecoverRuns));
    assert Recovered([]) == [];
  }

  /** A store of one unfinished run keeps it. */
  lemma OnlyRunKept(before: CampaignRun, run: CampaignRun)
    requires run.id == before.id && !Finished(run)
    ensures Inserted([], run) == [run] && Revised([before], run) == [run]
  {
    assert [] + [run] == [run];
    assert Put([before], run) == [run];
    assert DropFinished([run], Excess([run])) == [run] + DropFinished([run][1..], Excess([run]));
  }

  /** The worker before its admission is committed. */
  function Entering(pc: Pc, controls: map<string, nat>): World {
    World(Up, [], map[], controls, map[0 := Worker("campaign", PLANNED, false, pc, false, None)],
          map[], map[], None, {"campaign"}, {0}, map[])
  }

  lemma Spawned()
    ensures Reached(Entering(Pc.Spawned, map[]))
  {
    hide Reached;
    Started();
    var w := Init().(phase := Up);
    StepReached(w, Launch(0, PLANNED, false));
    assert DoLaunch(w, 0, PLANNED, false) == Entering(Pc.Spawned, map[]);
  }

  lemma Launched()
    ensures Reached(Alone(PLANNED, Head, false, None, map[], map[], map[]))
  {
    hide Reached, Inserted;
    Spawned();
    var spawned, admitting := Entering(Pc.Spawned, map[]), Entering(Admitting, map["campaign" := 0]);
    StepReached(spawned, Admission(0, Register));
    assert DoRegister(spawned, 0) == admitting;
    StepReached(admitting, Admission(0, InsertRun(true)));
    OnlyRunKept(PLANNED, PLANNED);
    assert DoInsert(admitting, 0, true) == Alone(PLANNED, Head, false, None, map[], map[], map[]);
  }

  lemma Checked()
    ensures Reached(Alone(PLANNED, Planning, false, None, map[], map[], map[]))
  {
    hide Reached;
    Launched();
    var head := Alone(PLANNED, Head, false, None, map[], map[], map[]);
    StepReached(head, Local(0, Check));
    assert DoLocal(head, 0, Check) == Alone(PLANNED, Planning, false, None, map[], map[], map[]);
  }

  lemma Planned()
    ensures Reached(Alone(STAGED, Pending("stage"), false, None, map[], map[], map[]))
  {
    hide Reached, Revised;
    Checked();
    var planning := Alone(PLANNED, Planning, false, None, map[], map[], map[]);
    StepReached(planning, Commit(0, Plan("stage"), true));
    OnlyRunKept(PLANNED, STAGED);
    assert DoCommit(planning, 0, Plan("stage"), true) == Alone(STAGED, Pending("stage"), false, None, map[], map[], map[]);
  }

  lemma Rechecked()
    ensures Reached(Alone(STAGED, Starting("stage"), false, None, map[], map[], map[]))
  {
    hide Reached;
    Planned();
    var pending := Alone(STAGED, Pending("stage"), false, None, map[], map[], map[]);
    StepReached(pending, Local(0, Recheck));
    assert DoLocal(pending, 0, Recheck) == Alone(STAGED, Starting("stage"), false, None, map[], map[], map[]);
  }

  lemma StageStarted()
    ensures Reached(Staged(AwaitingAdmission("stage"), Appending, map[]))
  {
    hide Reached;
    Rechecked();
    var starting := Alone(STAGED, Starting("stage"), false, None, map[], map[], map[]);
    StepReached(starting, Local(0, Start(true, SimulatedMode)));
    assert DoLocal(starting, 0, Start(true, SimulatedMode)) == Staged(AwaitingAdmission("stage"), Appending, map[]);
  }

  lemma StageAdmitted()
    ensures Reached(Staged(AwaitingAdmission("stage"), Executing, QUEUED))
  {
    hide Reached;
    StageStarted();
    var appending := Staged(AwaitingAdmission("stage"), Appending, map[]);
    StepReached(appending, Scenario("stage", Append(true)));
    var enlisting := Staged(AwaitingAdmission("stage"), Enlisting, QUEUED);
    assert DoAppend(appending, "stage", true) == enlisting;
    StepReached(enlisting, Scenario("stage", Enlist));
    assert SetTask(enlisting, "stage", Executing) == Staged(AwaitingAdmission("stage"), Executing, QUEUED);
  }

  lemma Observed()
    ensures Reached(Staged(Linking("stage"), Executing, QUEUED))
  {
    hide Reached;
    StageAdmitted();
    var admitted := Staged(AwaitingAdmission("stage"), Executing, QUEUED);
    StepReached(admitted, Local(0, Observe));
    assert DoLocal(admitted, 0, Observe) == Staged(Linking("stage"), Executing, QUEUED);
  }

  lemma Linked()
    ensures Reached(Waiting(Executing, false, map[], QUEUED))
  {
    hide Reached;
    Observed();
    var linking := Staged(Linking("stage"), Executing, QUEUED);
    StepReached(linking, Local(0, Link));
    assert DoLocal(linking, 0, Link) == Waiting(Executing, false, map[], QUEUED);
  }

  lemma Over()
    ensures Reached(Waiting(Ended(true, false), false, map[], SETTLED))
  {
    hide Reached;
    Linked();
    var executing := Waiting(Executing, false, map[], QUEUED);
    StepReached(executing, Scenario("stage", Settle(OUTCOME, true)));
    var settling := Waiting(Settling(true), false, map[], SETTLED);
    assert DoSettle(executing, "stage", OUTCOME, true) == settling;
    StepReached(settling, Scenario("stage", Delist));
    assert SetTask(settling, "stage", Ended(true, false)) == Waiting(Ended(true, false), false, map[], SETTLED);
  }

  lemma Requested()
    ensures Reached(Waiting(Ended(true, false), false, map[0 := Holding(0)], SETTLED))
  {
    hide Reached;
    Over();
    var over := Waiting(Ended(true, false), false, map[], SETTLED);
    StepReached(over, Cancel(0, LookUp("campaign")));
    assert DoLookUp(over, 0, "campaign") == Waiting(Ended(true, false), false, map[0 := Holding(0)], SETTLED);
  }

  lemma SetStep(audit: map<string, AuditRecord>)
    ensures var w := Waiting(Ended(true, false), false, map[0 := Holding(0)], audit);
            && CancelEnabled(w, 0, CancelStep.Set)
            && DoSet(w, 0) == Waiting(Ended(true, false), true, map[0 := Committed("stage")], audit)
  {
  }

  lemma Promised()
    ensures Reached(Waiting(Ended(true, false), true, map[0 := Committed("stage")], SETTLED))
  {
    hide Reached, Waiting, DoSet, CancelEnabled;
    Requested();
    SetStep(SETTLED);
    StepReached(Waiting(Ended(true, false), false, map[0 := Holding(0)], SETTLED), Cancel(0, CancelStep.Set));
  }

  lemma Unflagged()
    ensures Reached(Waiting(Ended(true, false), true, map[], SETTLED))
  {
    hide Reached;
    Promised();
    var committed := Waiting(Ended(true, false), true, map[0 := Committed("stage")], SETTLED);
    StepReached(committed, Cancel(0, FlagStage));
    assert DoFlagStage(committed, 0) == Waiting(Ended(true, false), true, map[], SETTLED);
  }

  /** The campaign is cancelled and its worker awaits the stage, yet the stage's flag is unset and
      nobody is left to set it. */
  ghost predicate NeverFlagged(w: World, k: nat, id: string) {
    && k in w.workers && w.workers[k].cancelled && w.workers[k].pc == Awaiting(id)
    && id in w.tasks && !w.tasks[id].cancel && !CampaignSafety.FlagPromised(w, id)
  }

  /** Some run of the system ends in such a state: the stage was over before the request came. */
  lemma CancelCanComeTooLate()
    ensures exists ws: seq<World>, acts: seq<Action> :: Behaviour(ws, acts) && NeverFlagged(ws[|acts|], 0, "stage")
  {
    hide Enabled, Next;
    Unflagged();
    var w := Waiting(Ended(true, false), true, map[], SETTLED);
    var ws, acts :| ReachedBy(ws, acts, w);
    assert Behaviour(ws, acts) && ws[|acts|] == w;
    assert NeverFlagged(w, 0, "stage");
  }

  /** The stage's flag is set, or a request in progress would set it with its next step. */
  ghost predicate FlagCanCome(w: World, id: string)
    requires id in w.tasks
  {
    w.tasks[id].cancel ||
    exists t | t in w.cancellers && w.cancellers[t] == Committed(id) :: DoFlagStage(w, t).tasks[id].cancel
  }

  /** Exactly when a cancel still reaches the stage its worker awaits: when the flag is set already, or the
      stage is still listed in the table of active runs. */
  lemma CancelComesExactlyWhenListed(ws: seq<World>, acts: seq<Action>, i: nat, k: nat, id: string)
    requires Behaviour(ws, acts) && i < |ws|
    requires k in ws[i].workers && ws[i].workers[k].cancelled && ws[i].workers[k].pc == Awaiting(id)
    ensures id in ws[i].tasks
    ensures FlagCanCome(ws[i], id) <==> ws[i].tasks[id].cancel || ListedTask(ws[i].tasks[id])
    ensures ListedTask(ws[i].tasks[id]) <==> !(ws[i].tasks[id].pc.Ended? && !ws[i].tasks[id].pc.listed)
  {
    hide Enabled, Next, Inv, WorkersOk;
    CampaignSafety.CancelIsNotMissed(ws, acts, i);
    CampaignSafety.Reachable(ws, acts, i);
    CampaignSafety.InvWorkers(ws[i]);
    CampaignSafety.AwaitingTask(ws[i], k);
    var w := ws[i];
    assert CampaignSafety.CancelReaches(w, id);
    if ListedTask(w.tasks[id]) && !w.tasks[id].cancel {
      var t :| t in w.cancellers && w.cancellers[t] == Committed(id);
      assert DoFlagStage(w, t).tasks[id].cancel;
    }
  }

  /** So a flag that nobody sets belongs to a stage whose execution has ended. */
  lemma NeverFlaggedIsOver(ws: seq<World>, acts: seq<Action>, i: nat, k: nat, id: string)
    requires Behaviour(ws, acts) && i < |ws| && NeverFlagged(ws[i], k, id)
    ensures ws[i].tasks[id].pc.Ended? && !ws[i].tasks[id].pc.listed
  {
    hide Enabled, Next, Inv, WorkersOk;
    CancelComesExactlyWhenListed(ws, acts, i, k, id);
  }
}
