# Asmodeus: verified models of the control plane and the runner

Asmodeus runs synthetic breach-and-attack scenarios: a control plane admits signed scenarios, dispatches them
to runners, keeps a signed audit, and drives multi-stage campaigns and recurring schedules over it. This
project models its stateful core in Dafny and proves what that core promises over every run.

* **Durable campaign execution** (`CampaignRunStore`, `CampaignExecution`, `ScenarioExecution`,
  `CampaignProtocol`, `CampaignInvariant`, `CampaignSteps`, `CampaignSafety`, `AuditHistory`, `TaskHistory`, `CampaignVerdicts`,
  `CampaignProgress`, `LateCancel`). The store and the resume decision
  are imperative and proved against functions; the same functions are the transactions of a transition system of
  detached workers, scenario tasks, cancel requests, feedback, failed writes, process death and startup. One
  inductive invariant ties the campaign snapshot, the audit, the worker-control table and every worker's
  program counter together; the theorems follow from it and from how steps evolve the history.
* **Durable stores** (`DurableStores`, `Persistent`, `AuditStore`, `RunControl`). Why one update of a snapshot
  store, or one revision appended to the audit log, is one atomic durable step of the systems above.
* **Runner registry** (`RunnerRegistry`, `RegistryStore`, `RegistryProtocol`, `RegistrySafety`, `RegistryHistory`). Configuration
  changes run twice, on a persisted clone and on live data, while epoch-tagged probes report at any time.
* **Runner and dispatch** (`RunnerEvents`, `RunnerService`, `RunnerProtocol`, `RunnerHistory`, `Dispatch`,
  `TruthfulCompletion`). The single-slot executor, the fold of its event stream, and both end to end.
* **Network scope** (`ByteOrder`, `NetScope`, `NetChaos`, `NetChaosSession`). Two CIDR parsers, the gate, the
  armed rule and the kernel-side verdict denote the same addresses: the blocks of section 3 of RFC 5737 and the
  loopback block of section 3.2.1.3 of RFC 1122, in the notation of section 3.1 of RFC 4632.
* **Schedules and manifests** (`Scheduler`, `SchedulerProtocol`, `SchedulerSafety`, `Manifest`).

In every transition system one action is one lock-protected section or one committed transaction, so every
interleaving of the threads is a sequence of actions. A write either fails and changes nothing or replaces the
file. `Behaviour` starts at first start-up; scenario and campaign run ids are never reused (128 random bits and a
counter, `crates/asmodeus-control-plane/src/state.rs:135-143`).

Facts worth knowing that the proofs brought out:

* A runner can make the audit say COMPLETED without a Completed event and without a confirmed cleanup, by sending
  a terminal event of another kind whose state reads "Completed" (`Dispatch.DishonestRunnerCompletes`).
  `Dispatch.TruthfulExactlyWhen` shows that this is the only way: COMPLETED is true exactly when no such event
  concludes the stream behind lease and cancel ticks that held. The modelled runner never sends one
  (`TruthfulCompletion.CompletionIsTruthful`).
* A cancel that arrives when the scenario has just left the table of active runs sets no flag, because there is
  nothing left to cancel: `LateCancel.CancelCanComeTooLate` is a run of the system that ends so, and
  `LateCancel.CancelComesExactlyWhenListed` gives the exact condition, the look-up that guards the cancel.
* A worker that could not create its sandbox sends a Rejected event but leaves its state "Validated", so the slot
  stays busy until the worker is gone.
* The code reads an injection error as CANCELLED, TIMED_OUT or CONTROL_LOST when its text happens to contain that
  word. A latency_spike manifest may name an interface "CANCELLED"; the chaos session refuses it
  (`RunnerProtocol.UnluckySpecIsRefused`), and the run is reported CANCELLED though nobody cancelled it
  (`RunnerProtocol.UnluckyErrorReportsCancel`).
  `RunnerProtocol.StopsAreReported` gives, over every run, the exact condition under which the reported cause held.
* An audit record in state CANCELLING is not terminal while a campaign run in any state but QUEUED and RUNNING is
  (`Records.Terminal`, `Records.RunTerminal`).

## Model

| member | source | states |
|---|---|---|
| CampaignSafety.NoReplay | crates/asmodeus-control-plane/src/campaign_execution.rs:71-119 | over every interleaving, crash, failed write and resume: once an attempt at a stage is COMPLETED in the audit, no attempt at that stage is admitted again |
| CampaignSafety.AtMostOneCompleted | crates/asmodeus-control-plane/src/campaign_execution.rs:214-313 | a stage never has two COMPLETED attempts, also after its campaign run was pruned |
| AuditHistory.SafeRetry | crates/asmodeus-control-plane/src/campaign_execution.rs:80-117 | over every run: when an attempt is admitted, every other attempt at its stage was not admitted and never will be, or its record is terminal, not COMPLETED, and the scenario was admitted in simulated mode, or its terminal commit reported a simulation or a confirmed cleanup |
| AuditHistory.SimulatedExactly | crates/asmodeus-control-plane/src/execution.rs:132-135 | a record is marked as simulated exactly when its scenario was admitted in simulated mode or its terminal commit said so |
| AuditHistory.VerdictFrom | crates/asmodeus-control-plane/src/execution.rs:264-289 | a terminal record has the status and the cleanup status of its one terminal commit, or those of startup recovery |
| AuditHistory.RecordChanges | crates/asmodeus-control-plane/src/execution.rs:113-135 | in every run a record changes only by admission, terminal commit, feedback and startup recovery, and each changes exactly its fields |
| CampaignSafety.OthersAreSettled | crates/asmodeus-control-plane/src/campaign_execution.rs:80-117 | when an attempt is admitted, every other attempt at its stage is settled, and stays so |
| CampaignSafety.SettledIsFinal | crates/asmodeus-control-plane/src/campaign_execution.rs:241-248 | an attempt that is retired or closed is so in every later state |
| CampaignSafety.VerdictIsFinal | crates/asmodeus-control-plane/src/runs_http.rs:123-185 | a terminal audit record's status, cleanup status and simulation mark never change again, feedback and restarts included |
| CampaignSafety.IntentIsFinal | crates/asmodeus-control-plane/src/campaign_execution.rs:224-240 | the stage a scenario run id was drawn for is fixed forever |
| CampaignSafety.IntentBeforeAdmission | crates/asmodeus-control-plane/src/campaign_execution.rs:224-259 | when a scenario run not started outside all campaigns becomes durable in the audit, the snapshot on disk already names it as the running attempt of its stage, and its worker waits for it |
| CampaignSafety.TasksAreIntended | crates/asmodeus-control-plane/src/campaign_execution.rs:224-259 | every scenario task in flight has a durable intent, unless it was started outside all campaigns |
| CampaignSafety.AdmissionIsAwaited | crates/asmodeus-control-plane/src/execution.rs:147-160 | a stage task that is being admitted has a worker waiting for exactly it |
| CampaignSafety.AdmittedStaysRecorded | crates/asmodeus-control-plane/src/campaign_run.rs:195-215 | an admitted attempt stays its stage's current result, or closed and archived, for as long as its campaign run is retained |
| CampaignSafety.SnapshotNeverBlocksStartup | crates/asmodeus-control-plane/src/state.rs:92-111 | every committed transaction leaves a snapshot that validation accepts, so a self-written snapshot never blocks startup |
| CampaignSafety.ProgressIsAudited | crates/asmodeus-control-plane/src/campaign_execution.rs:273-313 | a stage the snapshot calls completed, and every stage of a completed campaign, has a COMPLETED audit record |
| CampaignSafety.SingleWorker | crates/asmodeus-control-plane/src/campaign_execution.rs:135-149 | at most one worker holds a campaign run, so concurrent resumes admit at most one |
| CampaignSafety.WorkerNeverPanics | crates/asmodeus-control-plane/src/campaign_execution.rs:49-68 | a driving worker finds exactly its own copy in the store: "campaign run disappeared" is unreachable and no index or unwrap fails |
| CampaignProgress.WorkerIsNeverStuck | crates/asmodeus-control-plane/src/campaign_execution.rs:214-313 | in every reachable state a worker can take its next step with any outcome of the write, or waits for the resume transaction in progress or for its own scenario task |
| CampaignProgress.LockIsReleasable | crates/asmodeus-control-plane/src/campaign_execution.rs:152-162 | a resume transaction in progress is held by a worker that can commit or drop it |
| CampaignProgress.TaskIsNeverStuck | crates/asmodeus-control-plane/src/execution.rs:113-302 | in every reachable state a scenario task goes on with every outcome until it has ended or was refused |
| CampaignProgress.StartupIsNeverStuck | crates/asmodeus-control-plane/src/state.rs:73-128 | startup always has a step left: a record to recover, or a snapshot that validation accepts |
| CampaignProgress.RequestsAreFree | crates/asmodeus-control-plane/src/campaign_execution.rs:122-133 | while the process is up, any valid plan under a fresh id may be launched, any id resumed, anything cancelled |
| CampaignSafety.NonInterference | crates/asmodeus-control-plane/src/campaign_run.rs:160-175 | no step of anybody else changes or prunes the run an active worker drives |
| CampaignSafety.CancelIsNotMissed | crates/asmodeus-control-plane/src/run_control.rs:41-60 | whenever a cancelled campaign's worker awaits a stage, the stage's cancel flag is set, or a thread is committed to setting it, or the stage has left the table |
| LateCancel.CancelCanComeTooLate | crates/asmodeus-control-plane/src/campaign_execution.rs:196-212 | the third case is real: a whole run that ends with a cancelled, still awaiting worker, the stage's flag unset and no request left to set it |
| LateCancel.CancelComesExactlyWhenListed | crates/asmodeus-control-plane/src/campaign_execution.rs:196-212 | over every run: the flag of an awaited stage of a cancelled campaign is set, or a request in progress sets it with its next step, exactly when it is set already or the stage is still in the table |
| LateCancel.NeverFlaggedIsOver | crates/asmodeus-control-plane/src/campaign_execution.rs:196-212 | a stage whose flag is unset with no request left to set it has ended and left the table |
| CampaignSafety.AtMostOneMoreStage | crates/asmodeus-control-plane/src/campaign_execution.rs:220-272 | a cancelled worker admits at most one more stage |
| CampaignSafety.Reachable | crates/asmodeus-control-plane/src/campaign_execution.rs:122-313 | the cross-store invariant holds in every reachable state |
| CampaignSteps.NextKeepsInv | crates/asmodeus-control-plane/src/campaign_execution.rs:122-313 | every action of every thread keeps the invariant and only evolves the history |
| CampaignSteps.LocalKeepsInv | crates/asmodeus-control-plane/src/campaign_execution.rs:220-306 | the worker's steps between transactions keep it |
| CampaignSteps.CommitKeepsInv | crates/asmodeus-control-plane/src/campaign_execution.rs:236-312 | cancel, intent, fold and completion transactions keep it |
| CampaignVerdicts.StageVerdict | crates/asmodeus-control-plane/src/campaign_execution.rs:273-310 | over every run: the committed result of a stage is the audit record read at its end, and the campaign is RUNNING, COMPLETED, INTERRUPTED, CANCELLED or FAILED exactly as task outcome, record, cancel flag and remaining stages say; the worker goes on exactly when it is RUNNING |
| CampaignVerdicts.CommitStoresExactly | crates/asmodeus-control-plane/src/campaign_execution.rs:220-312 | over every run: what each committed worker transaction stores, field by field |
| CampaignVerdicts.CommitIsDecided | crates/asmodeus-control-plane/src/campaign_execution.rs:220-249 | over every run: a campaign is stopped only after its worker saw the cancel flag with a stage left to run, a stage is planned only after it saw none, and the campaign is completed exactly when no stage was left |
| CampaignVerdicts.StartIsRechecked | crates/asmodeus-control-plane/src/campaign_execution.rs:238-259 | a scenario is started only after the flag was read again, unset, behind the durable intent |
| CampaignVerdicts.FailedCommitChangesNothing | crates/asmodeus-control-plane/src/campaign_execution.rs:49-68 | a failed write changes neither store, audit nor tasks; the worker leaves |
| CampaignVerdicts.AdmissionsExactly | crates/asmodeus-control-plane/src/campaign_execution.rs:135-192 | in every run a second launch of an active campaign gives up, a failed write admits and resumes nothing, and leaving frees the control entry |
| CampaignVerdicts.RequestsExactly | crates/asmodeus-control-plane/src/campaign_execution.rs:196-212 | a cancel request sets the flag of the very worker the control entry named and goes on to the stage exactly if one was published |
| TaskHistory.TaskChanges | crates/asmodeus-control-plane/src/execution.rs:113-160 | over every run: a scenario task is born in the mode it was asked for, its cancel flag is set exactly when a request reaches it in the table of active runs and is never taken back, and only its own steps move it on |
| CampaignVerdicts.TaskEndedBy | crates/asmodeus-control-plane/src/execution.rs:250-318 | a scenario task succeeded exactly when its terminal commit was written and its execution did not fail |
| CampaignSteps.ResumeKeepsInv | crates/asmodeus-control-plane/src/campaign_execution.rs:71-119 | an accepted resume, with the audit read inside its transaction, keeps it |
| CampaignSteps.ScenarioKeepsInv | crates/asmodeus-control-plane/src/execution.rs:147-294 | admission, execution, terminal commit and feedback of scenario tasks keep it |
| CampaignSteps.CancelKeepsInv | crates/asmodeus-control-plane/src/campaign_execution.rs:196-212 | the sections of a cancel request keep it |
| CampaignSteps.SystemKeepsInv | crates/asmodeus-control-plane/src/main.rs:59-69 | process death, audit recovery, snapshot load and campaign recovery keep it |
| CampaignSteps.SettledForever | crates/asmodeus-control-plane/src/campaign_execution.rs:241-248 | one step cannot revive a settled attempt |
| CampaignExecution.ResumeNeverReplays | crates/asmodeus-control-plane/src/campaign_execution.rs:80-118 | an accepted resume continues behind a prefix of completed stages; only an unfinished attempt the audit does not call COMPLETED moves to the archive |
| CampaignExecution.PreparedResumeKeepsSnapshot | crates/asmodeus-control-plane/src/campaign_execution.rs:71-119 | a resume is refused exactly for its reasons; an accepted one keeps the snapshot valid, touches one run and blocks a second resume |
| CampaignExecution.PrepareResume | crates/asmodeus-control-plane/src/campaign_execution.rs:71-119 | over store and audit: accepts exactly the runs that are INTERRUPTED or CANCELLED and whose last attempt is done, proved over, or stopped before admission; says why it refuses, and then leaves the store as it was |
| CampaignExecution.ResumesExactly | crates/asmodeus-control-plane/src/campaign_execution.rs:71-119 | the same of the transaction, with the resumed run field by field |
| CampaignExecution.ReviewAttempt | crates/asmodeus-control-plane/src/campaign_execution.rs:80-117 | the decision on an unfinished attempt, with the result taken over when the audit says COMPLETED |
| CampaignExecution.AfterStageIsSound | crates/asmodeus-control-plane/src/campaign_execution.rs:289-302 | the campaign goes on, or completes, only behind a completed stage, and never goes on once cancelled |
| CampaignExecution.AfterStageExactly | crates/asmodeus-control-plane/src/campaign_execution.rs:289-302 | exactly when the campaign is RUNNING, COMPLETED, INTERRUPTED, CANCELLED and FAILED after a stage |
| CampaignExecution.IntentKeepsRun | crates/asmodeus-control-plane/src/campaign_execution.rs:224-240 | recording the intent keeps the run valid with that stage in flight |
| CampaignExecution.FoldKeepsRun | crates/asmodeus-control-plane/src/campaign_execution.rs:303-310 | folding a stage result keeps the run valid, and idle if it goes on |
| CampaignRunStore.Store.Validate | crates/asmodeus-control-plane/src/campaign_run.rs:81-124 | accepts exactly the snapshots of this version with distinct ids, ordered plans, matching progress and completed prefixes |
| CampaignRunStore.Store.Prune | crates/asmodeus-control-plane/src/campaign_run.rs:160-175 | the counting retain drops the oldest excess finished runs |
| CampaignRunStore.Store.Insert | crates/asmodeus-control-plane/src/campaign_run.rs:155-158 | push and prune |
| CampaignRunStore.Store.Update | crates/asmodeus-control-plane/src/campaign_execution.rs:54-66 | one revision of one run, then retention |
| CampaignRunStore.Store.RecoverInterrupted | crates/asmodeus-control-plane/src/campaign_run.rs:179-193 | every run in flight and its running stage become INTERRUPTED, and are counted |
| CampaignRunStore.Store.BeginResume | crates/asmodeus-control-plane/src/campaign_run.rs:198-215 | requeues exactly the stored runs that are INTERRUPTED or CANCELLED, or refuses and changes nothing |
| CampaignRunStore.RecoveredExactly | crates/asmodeus-control-plane/src/campaign_run.rs:177-193 | recovery turns exactly QUEUED and RUNNING runs, with their running stage, INTERRUPTED |
| CampaignRunStore.RetentionKeepsNewestFinished | crates/asmodeus-control-plane/src/campaign_run.rs:160-175 | retention keeps every unfinished run in order and exactly the newest 200 finished ones, or all if there are fewer |
| CampaignRunStore.RetentionExactly | crates/asmodeus-control-plane/src/campaign_run.rs:160-175 | a run is kept exactly if it is neither COMPLETED nor FAILED, or fewer than 200 such runs stand behind it |
| CampaignRunStore.InsertedKeepsSnapshot | crates/asmodeus-control-plane/src/campaign_run.rs:155-175 | inserting a valid new run keeps the snapshot valid |
| CampaignRunStore.RevisedKeepsSnapshot | crates/asmodeus-control-plane/src/campaign_execution.rs:49-68 | a valid revision keeps the snapshot valid and every unfinished other run in place |
| CampaignRunStore.RecoveredKeepsSnapshot | crates/asmodeus-control-plane/src/campaign_run.rs:177-193 | recovery leaves a valid snapshot without runs in flight |
| CampaignRunStore.RequeuedRunValid | crates/asmodeus-control-plane/src/campaign_run.rs:198-215 | resume archives at most the unfinished attempt; completed stages stay a prefix |
| CampaignRunStore.BegunResumeKeepsSnapshot | crates/asmodeus-control-plane/src/campaign_run.rs:198-215 | an accepted resume touches one run and refuses the next until the run stops again |
| ScenarioExecution.FeedbackKeepsVerdict | crates/asmodeus-control-plane/src/runs_http.rs:150-182 | feedback changes nothing a retry decision looks at |
| ScenarioExecution.SettledRetry | crates/asmodeus-control-plane/src/execution.rs:250-271 | a settled record permits a retry exactly when it is terminal and simulated or cleaned up |
| DurableStores.StepRefinesAtomicStore | crates/asmodeus-control-plane/src/persistent.rs:34-78 | each step of the real store leaves the durable value alone or applies one writer's whole update |
| DurableStores.MemoryNeverHoldsUncommitted | crates/asmodeus-control-plane/src/persistent.rs:34-78 | memory is the committed updates in order, or one rename behind them while the renamer holds the lock; a restart loads all of them |
| DurableStores.HistoryOnlyGrows | crates/asmodeus-control-plane/src/persistent.rs:34-78 | committed updates are never lost or reordered, across restarts |
| DurableStores.AcknowledgedIsDurable | crates/asmodeus-control-plane/src/persistent.rs:68-74 | an update its caller saw succeed is in the durable history exactly once |
| DurableStores.RefusedIsVoid | crates/asmodeus-control-plane/src/persistent.rs:68-71 | an update its caller saw fail never takes effect |
| DurableStores.RunInv | crates/asmodeus-control-plane/src/persistent.rs:34-78 | the store invariant over every interleaving of writers and crashes |
| DurableStores.UpdateIsNeverStuck | crates/asmodeus-control-plane/src/persistent.rs:34-78 | the holder of the update lock can go on whether or not its write succeeds, a waiting update once the lock is free, and a new one may begin at any time |
| Persistent.Store.Update | crates/asmodeus-control-plane/src/persistent.rs:34-78 | clone, change, write, publish: all or nothing in memory and file; an unchanged value needs no write |
| Persistent.Store.Load | crates/asmodeus-control-plane/src/persistent.rs:17-28 | loads the file, or the default when there is none |
| Persistent.UpdateIsUninterruptedWriter | crates/asmodeus-control-plane/src/persistent.rs:40-74 | the class's update is one writer of the transition system run without interruption |
| AuditStore.FromJsonl | crates/asmodeus-telemetry/src/audit.rs:251-272 | reading the log keeps the last revision of each run where its first one stood |
| AuditStore.ReplayIsLastRevision | crates/asmodeus-telemetry/src/audit.rs:251-272 | a restart sees the last revision logged for a run |
| AuditStore.Store.Append | crates/asmodeus-control-plane/src/audit_store.rs:88-106 | admits a run id once; duplicates and failed writes change neither log nor memory |
| AuditStore.Store.Update | crates/asmodeus-control-plane/src/audit_store.rs:109-134 | revises one run against its latest revision; memory always is the log's replay |
| AuditStore.Store.RecoverIncomplete | crates/asmodeus-control-plane/src/audit_store.rs:38-57 | logs and publishes one INTERRUPTED revision per record in flight, in order, up to the first failed write |
| AuditStore.RecoveredTrailIsTerminal | crates/asmodeus-control-plane/src/audit_store.rs:38-57 | after recovery nothing is in flight, and an interrupted run may be retried exactly when it was simulated |
| AuditStore.PublishedIsMapUpdate | crates/asmodeus-telemetry/src/audit.rs:163-187 | one commit of the audit store is one map update of the campaign protocol |
| RunControl.CampaignControl.Cancel | crates/asmodeus-control-plane/src/run_control.rs:46-51 | raises the flag and reports the active stage in one section |
| RunControl.CampaignControl.SetCurrent | crates/asmodeus-control-plane/src/run_control.rs:53-59 | publishes the stage and tells whether the worker must cancel it |
| RunControl.ActiveRun.Cancel | crates/asmodeus-control-plane/src/run_control.rs:21-24 | raises a scenario's cancel flag for good |
| RunControl.CancelMeetsAdmission | crates/asmodeus-control-plane/src/run_control.rs:41-60 | in either order exactly one of requester and worker is told to cancel the stage |
| RunnerRegistry.ChangeCommutes | crates/asmodeus-control-plane/src/registry.rs:198-221 | a change has the same configuration effect on the persisted clone and on live data whose health moved on |
| RunnerRegistry.RegistryData.Register | crates/asmodeus-control-plane/src/registry.rs:89-115 | keeps health for the same endpoint, resets it for a new one, keeps maintenance, renews the token |
| RunnerRegistry.RegistryData.SetDraining | crates/asmodeus-control-plane/src/registry.rs:117-128 | drains or resumes once, with a new token; resume leaves health unknown |
| RunnerRegistry.RegistryData.BeginProbe | crates/asmodeus-control-plane/src/registry.rs:252-260 | renews the token and hands it out with the record |
| RunnerRegistry.RegistryData.UpdateHeartbeat | crates/asmodeus-control-plane/src/registry.rs:299-328 | accepts only the probe whose token is current; a draining runner stays draining |
| RunnerRegistry.RegistryData.MarkUnresponsive | crates/asmodeus-control-plane/src/registry.rs:330-343 | the same gate for a failed probe |
| RunnerRegistry.RegistryData.FindForTarget | crates/asmodeus-control-plane/src/registry.rs:279-293 | an exact id routes to that runner if it is active, or nowhere; otherwise the answer is the least id among the active runners that carry the tag up to ASCII case, or among all active ones for a blank target, and there is none only if no such runner exists |
| RunnerRegistry.ChangeExactly | crates/asmodeus-control-plane/src/registry.rs:89-128 | what registration, drain, resume and removal file, field by field, and under which token |
| RunnerRegistry.RepliesExactly | crates/asmodeus-control-plane/src/registry.rs:228-252 | a caller is told the record as it is filed after the change, and whether there was one |
| RunnerRegistry.ResultExactly | crates/asmodeus-control-plane/src/registry.rs:299-343 | what a probe result with the current token writes, field by field, and that any other writes nothing |
| RunnerRegistry.RoutingIsUnique | crates/asmodeus-control-plane/src/registry.rs:279-293 | the answer does not depend on the order of the table |
| RegistryStore.Validate | crates/asmodeus-control-plane/src/registry_store.rs:78-97 | accepts exactly the snapshots of this version with usable endpoints and trimmed, nonempty, distinct ids |
| RegistryStore.Project | crates/asmodeus-control-plane/src/registry_store.rs:54-76 | collects and sorts the configurations |
| RegistryStore.RestartKeepsConfig | crates/asmodeus-control-plane/src/registry_store.rs:54-138 | writing and restoring keeps configuration, drain state and the runner-required flag, and nothing else |
| RegistryStore.RestoredExactly | crates/asmodeus-control-plane/src/registry_store.rs:106-138 | a restored runner has its configuration and no health |
| RegistryStore.SnapshotRoundTrip | crates/asmodeus-control-plane/src/registry_store.rs:54-138 | restoring and writing gives an ordered snapshot back |
| RegistryStore.SnapshotIsCanonical | crates/asmodeus-control-plane/src/registry.rs:212-217 | comparing snapshots decides whether the configuration changed |
| RegistryStore.WrittenIsValid | crates/asmodeus-control-plane/src/registry_store.rs:78-104 | the stored form is valid exactly when the configuration is |
| RegistryStore.Registry.Update | crates/asmodeus-control-plane/src/registry.rs:204-224 | the two-pass update: refused only by a failed write of a changed configuration; afterwards the file is the projection of the live data |
| RegistrySafety.FileIsConfiguration | crates/asmodeus-control-plane/src/registry.rs:198-250 | under any interleaving of writers, probes, heartbeats and failed writes, with no writer between write and publication the file is the projection of the live registry |
| RegistrySafety.FirstBootIsDefault | crates/asmodeus-control-plane/src/registry.rs:164-196 | the first start writes and serves the environment's default runner alone, with unknown health, and nothing comes up if the file cannot be written |
| RegistrySafety.RestartLosesOnlyHealth | crates/asmodeus-control-plane/src/registry.rs:164-196 | death at any point and restart lose only health; the self-written snapshot is accepted |
| RegistryHistory.RefusedExactlyWhen | crates/asmodeus-control-plane/src/registry.rs:204-226 | over every run: a change is refused exactly if it alters the configuration and its write fails, a refusal changes nothing, and a change that alters nothing is never written |
| RegistryHistory.AnswersAreTrue | crates/asmodeus-control-plane/src/registry.rs:204-226 | a success was answered exactly where the change was published on the live registry, a refusal exactly where its write failed |
| RegistryHistory.WriterIsNeverStuck | crates/asmodeus-control-plane/src/registry.rs:204-226 | in every reachable state the holder of the writer lock can go on whether or not its write succeeds, and a waiting writer once the lock is free |
| RegistryHistory.RequestsAreFree | crates/asmodeus-control-plane/src/registry.rs:228-262 | any valid registration, drain and removal may be asked for, and any registered runner probed with any result |
| RegistrySafety.RunnerRequiredIsSticky | crates/asmodeus-control-plane/src/registry.rs:83-85 | once a runner was durably registered, runners stay required, across removals and restarts |
| RegistrySafety.StatusIsProvenance | crates/asmodeus-control-plane/src/registry.rs:89-128 | status is Draining if the configuration drains, else Active exactly when the latest accepted probe result since creation, move, resume or restart was healthy |
| RegistrySafety.AcceptedProbeIsCurrent | crates/asmodeus-control-plane/src/registry.rs:66-72 | an accepted result speaks about the current endpoint and maintenance state, and no other pending probe of that runner can be accepted |
| RegistrySafety.SupersededForever | crates/asmodeus-control-plane/src/registry.rs:299-343 | a superseded probe result changes nothing, now or later |
| RegistrySafety.NewTokenSupersedes | crates/asmodeus-control-plane/src/registry.rs:252-260 | each probe, registration, drain decision and removal supersedes earlier probes |
| RegistrySafety.NextKeepsInv | crates/asmodeus-control-plane/src/registry.rs:131-344 | every action keeps the registry invariant |
| RunnerService.RunWorker | crates/asmodeus-runner/src/service.rs:117-304 | a worker with a sandbox always cleans up, reports once and last; one without rejects |
| RunnerService.Service.Execute | crates/asmodeus-runner/src/service.rs:309-357 | refuses exactly while the slot's run is not terminal |
| RunnerService.Service.Heartbeat | crates/asmodeus-runner/src/service.rs:358-379 | extends the lease of the named run only |
| RunnerService.Service.Cancel | crates/asmodeus-runner/src/service.rs:380-395 | cancels the named run only |
| RunnerService.Service.Finish | crates/asmodeus-runner/src/service.rs:342-355 | frees the slot only if this worker still holds it |
| RunnerService.TerminalEventIsHonest | crates/asmodeus-runner/src/service.rs:274-302 | Completed exactly for a clean success, cleanup confirmed exactly when nothing was left, and no other event names COMPLETED |
| RunnerService.ReasonsAreRecognized | crates/asmodeus-runner/src/service.rs:284-294 | the three stop reasons survive the trip through the error text |
| RunnerProtocol.AtMostOneLive | crates/asmodeus-runner/src/service.rs:321-338 | under any interleaving at most one worker is in a non-terminal state, and it holds the slot |
| RunnerProtocol.LateFinishKeepsNewerRun | crates/asmodeus-runner/src/service.rs:348-354 | a late finish never clears a newer run's slot |
| RunnerProtocol.OnlyTheNamedRun | crates/asmodeus-runner/src/service.rs:358-395 | cancels and heartbeats reach only the named run in the slot |
| RunnerProtocol.TerminalOnceAndLast | crates/asmodeus-runner/src/service.rs:158-303 | a finished worker sent exactly one terminal event, last; an unfinished one none |
| RunnerProtocol.ReportsAreTrue | crates/asmodeus-runner/src/service.rs:274-303 | a confirmed cleanup means the sandbox is gone, Completed always confirms it, and a leftover sandbox is reported |
| RunnerService.NamesCauseExactlyWhen | crates/asmodeus-runner/src/service.rs:274-302 | with a clean cleanup, a reported CANCELLED, TIMED_OUT or CONTROL_LOST names a cause that held, exactly unless the injection broke with a text holding one of the words without its cause |
| RunnerProtocol.StopsAreReported | crates/asmodeus-runner/src/service.rs:130-153 | over every run and every cleaned-up event it sent: a stop is reported by its most urgent cause, cancel before deadline before lost lease, the reported cause held exactly unless an injection error was misread, and report and detail are those of the ending |
| RunnerHistory.ReportTells | crates/asmodeus-runner/src/service.rs:207-285 | over every run: a worker's event tells how its injection ended and what the two cleanups after it came to, a failed removal of the sandbox outweighing a failed cleanup of the injection, and either outweighing the result |
| RunnerHistory.WorkerIsNeverStuck | crates/asmodeus-runner/src/service.rs:117-285 | a worker goes on with every outcome of sandbox, injection and cleanups, completes only while no check fails, and is stopped exactly where one does |
| RunnerHistory.HealthFollowsCleanup | crates/asmodeus-runner/src/service.rs:330-352 | the runner shows itself healthy exactly if the worker that left last did not panic and its last event confirmed the cleanup |
| RunnerHistory.RequestsExactly | crates/asmodeus-runner/src/service.rs:309-402 | in every run an execution is refused exactly while the slot's run has not reached a terminal state, and a cancel or heartbeat changes the named slot holder alone |
| RunnerProtocol.PastIsThatMoment | crates/asmodeus-runner/src/service.rs:131-140 | the causes recorded at the end of the injection are those of that moment: cancelled or closed, timed out, three seconds without a heartbeat |
| RunnerProtocol.UnluckySpecIsRefused | crates/asmodeus-runner/src/netchaos.rs:67-73 | a spec in the permitted network whose interface is named CANCELLED is refused, with the error text of the next row |
| RunnerProtocol.UnluckyErrorReportsCancel | crates/asmodeus-runner/src/service.rs:284-294 | a whole run of that spec, never cancelled, within its deadline and its lease, that reports CANCELLED because its error says so |
| Dispatch.DispatchControlled | crates/asmodeus-control-plane/src/dispatch.rs:100-150 | the first input that is not quiet decides the result, and what it decides is read off that input; a terminal outcome carries the event field by field |
| Dispatch.FoldDecides | crates/asmodeus-control-plane/src/dispatch.rs:100-150 | the same of the fold, on every input sequence |
| Dispatch.TerminalNeedsTerminalEvent | crates/asmodeus-control-plane/src/dispatch.rs:113-130 | a terminal outcome is one terminal event of this run id behind an unbroken stream |
| Dispatch.BelievedExactlyWhen | crates/asmodeus-control-plane/src/dispatch.rs:111-148 | a concluding event is believed exactly when lease and cancels before it held |
| Dispatch.CompletedExactlyWhen | crates/asmodeus-control-plane/src/execution.rs:215-271 | exactly when the audit of a runner execution is COMPLETED |
| Dispatch.AuditSaysWhatWasBelieved | crates/asmodeus-control-plane/src/execution.rs:215-289 | every field of the audit of a runner execution is read off the believed event; without one it is FAILED with cleanup UNCONFIRMED; it is marked as simulated exactly when the believed event says so |
| Dispatch.SettlesExactly | crates/asmodeus-control-plane/src/execution.rs:215-247 | what an execution is settled as, field by field from the dispatch's answer, in both modes |
| Dispatch.SucceedsExactly | crates/asmodeus-control-plane/src/execution.rs:216-247 | on every input stream, an execution on a runner succeeds exactly if an event was believed that is no rejection and no completion without a confirmed cleanup |
| Dispatch.BrokenOffIsFailed | crates/asmodeus-control-plane/src/execution.rs:215-248 | early end, foreign id, rejection, deadline, and a lease or cancel that fails before the stream concludes are all FAILED, whatever is sent afterwards |
| Dispatch.TruthfulExactlyWhen | crates/asmodeus-control-plane/src/execution.rs:215-271 | the audit's COMPLETED is true, with a Completed event that confirmed its cleanup, exactly when no believed concluding event of another kind has a state that reads COMPLETED |
| Dispatch.HonestCompletionIsTruthful | crates/asmodeus-control-plane/src/execution.rs:250-271 | when the concluding event is honest, COMPLETED implies a believed Completed event with confirmed cleanup, and SUCCESS |
| Dispatch.DishonestRunnerCompletes | crates/asmodeus-control-plane/src/dispatch.rs:116-126 | the concrete event with which the COMPLETED is not true and the cleanup is not confirmed |
| TruthfulCompletion.CompletionIsTruthful | crates/asmodeus-control-plane/src/execution.rs:162-271 | end to end: an audit COMPLETED in runner mode implies a Completed event of that run after its sandbox was removed |
| NetScope.ScopeIsExact | crates/asmodeus-dsl/src/lib.rs:83-102 | the gate accepts a string exactly when it parses and every address it denotes is reserved |
| NetScope.ParseIpv4Cidr | crates/asmodeus-dsl/src/lib.rs:55-81 | the octet-filling parser computes the meaning of every string |
| NetScope.ReadsExactlyBlocks | crates/asmodeus-dsl/src/lib.rs:55-81 | exactly the strings of four numerals up to 255 with dots, a slash and a numeral up to 32 are read, as the masked network |
| NetScope.WordMaskBits | crates/asmodeus-dsl/src/lib.rs:74-80 | the mask has exactly the bits of the prefix |
| NetScope.ReservedExactly | crates/asmodeus-dsl/src/lib.rs:46-51 | exactly 127.x.x.x, 192.0.2.x, 198.51.100.x and 203.0.113.x are reserved |
| NetScope.WrittenIsParsed | crates/asmodeus-dsl/src/lib.rs:55-81 | the canonical text of every block parses to exactly that block |
| NetScope.BlocksAreDisjoint | crates/asmodeus-dsl/src/lib.rs:46-51 | a reserved address lies in exactly one of the four blocks, any other in none |
| NetScope.BlocksDoNotMerge | crates/asmodeus-dsl/src/lib.rs:46-51 | no two of the four blocks are halves of a larger one: a block and its sibling that are both reserved lie within one of the four |
| NetChaos.ParseCidrBe | crates/asmodeus-runner/src/aya_backend.rs:241-263 | the second parser accepts the same strings with the same block in network order |
| NetChaos.ArmedRuleMatches | crates/asmodeus-netchaos-ebpf/src/lib.rs:57-62 | the armed rule matches a network-order destination exactly when its address is in the CIDR |
| NetChaos.DropsExactly | crates/asmodeus-netchaos-ebpf/src/main.rs:67-95 | exactly which frames an armed spec drops; one percent of loss is ten draws in a thousand |
| NetChaos.ValidatesExactly | crates/asmodeus-runner/src/netchaos.rs:67-113 | exactly which specs validate, and which check names the error |
| NetChaos.DropsOnlyReserved | crates/asmodeus-runner/src/netchaos.rs:67-99 | a validated spec yields a rule that drops only packets to reserved addresses |
| NetChaos.ZeroedDropsNothing | crates/asmodeus-runner/src/aya_backend.rs:194-197 | a zeroed or missing rule drops nothing |
| ByteOrder.ToBeMatches | crates/asmodeus-netchaos-ebpf/src/lib.rs:34-45 | masking and comparing commute with the change of byte order, on both kinds of machine |
| ByteOrder.LoadIsToBe | crates/asmodeus-netchaos-ebpf/src/main.rs:81-83 | loading an address from the frame natively is putting it in network order |
| NetChaosSession.Start | crates/asmodeus-runner/src/netchaos.rs:236-250 | nothing is installed for a spec that does not validate |
| NetChaosSession.Session.Revert | crates/asmodeus-runner/src/netchaos.rs:257-277 | removes what the session installed, once |
| NetChaosSession.SimBackend.Apply | crates/asmodeus-runner/src/netchaos.rs:193-207 | records one rule under a fresh token |
| NetChaosSession.SimBackend.Revert | crates/asmodeus-runner/src/netchaos.rs:209-220 | removes the rule; an unknown handle is an error and changes nothing |
| NetChaosSession.OverlappingSessions | crates/asmodeus-runner/src/netchaos.rs:227-277 | overlapping sessions leave behind exactly what was there before |
| Scheduler.ScheduleCatalog.ClaimDue | crates/asmodeus-control-plane/src/scheduler.rs:469-486 | claims exactly the enabled, idle jobs whose interval has passed and returns them in id order |
| Scheduler.ScheduleCatalog.Apply | crates/asmodeus-control-plane/src/scheduler.rs:304-332 | one outcome for a still-current job, with a bounded history |
| Scheduler.OutcomeExactly | crates/asmodeus-control-plane/src/scheduler.rs:304-332 | what an outcome writes, field by field, and when it writes nothing |
| Scheduler.ScheduleCatalog.RecoverInterrupted | crates/asmodeus-control-plane/src/scheduler.rs:488-494 | running jobs become INTERRUPTED |
| Scheduler.RecoveryExactly | crates/asmodeus-control-plane/src/scheduler.rs:488-494 | exactly those, and nothing else changes |
| Scheduler.ScheduleCatalog.RecordFeedback | crates/asmodeus-control-plane/src/scheduler.rs:496-564 | the feedback loop over the table |
| Scheduler.Judge | crates/asmodeus-control-plane/src/scheduler.rs:527-547 | baseline, drift and alert decision of the latest run |
| Scheduler.Listen | crates/asmodeus-control-plane/src/scheduler.rs:501-547 | nothing new, attached to an old run, or judged |
| Scheduler.HeardExactly | crates/asmodeus-control-plane/src/scheduler.rs:501-547 | what feedback makes of a job, field by field: drift from one and a half times the baseline on, the first positive time to detect as baseline |
| Scheduler.FlushOutcomes | crates/asmodeus-control-plane/src/scheduler.rs:335-359 | outcomes leave in order, each exactly when its commit succeeded |
| SchedulerSafety.FlushesAreSteps | crates/asmodeus-control-plane/src/scheduler.rs:335-359 | what it commits is what the protocol's flush steps commit, each with the audit record of its own run |
| SchedulerSafety.OutcomeHearsItsRecord | crates/asmodeus-control-plane/src/scheduler.rs:340-352 | an outcome never enters the history without the feedback the audit has for its run by then |
| SchedulerSafety.ClaimsExactlyDue | crates/asmodeus-control-plane/src/scheduler.rs:469-486 | in every run a claim takes exactly the jobs that have to run: never a disabled or running one, always an enabled idle one whose interval has passed |
| SchedulerSafety.StepsExactly | crates/asmodeus-control-plane/src/scheduler.rs:170-200 | what operators, executions and a restart change in every run, and that they change nothing else |
| SchedulerSafety.SchedulerIsNeverStuck | crates/asmodeus-control-plane/src/scheduler.rs:335-460 | a claimed job can be skipped or executed with any outcome, a pending outcome committed or not, and with neither left the due jobs claimed |
| SchedulerSafety.ClaimsAreSpaced | crates/asmodeus-control-plane/src/scheduler.rs:469-486 | claims of one job generation are an interval apart, up to saturation, with an outcome or recovery between |
| SchedulerSafety.OneSamplePerClaim | crates/asmodeus-control-plane/src/scheduler.rs:304-359 | at most one history sample per claim, however many writes failed |
| SchedulerSafety.CommittedOutcomeIsSampled | crates/asmodeus-control-plane/src/scheduler.rs:304-359 | exactly one sample once a non-SKIPPED outcome commits for a still-current job; a failed write keeps the outcome |
| SchedulerSafety.FeedbackIsExact | crates/asmodeus-control-plane/src/scheduler.rs:496-547 | in every run a step that hears feedback changes each job exactly so |
| SchedulerSafety.FeedbackIsIdempotent | crates/asmodeus-control-plane/src/scheduler.rs:496-564 | hearing the same feedback again changes nothing |
| SchedulerSafety.RunsReachable | crates/asmodeus-control-plane/src/scheduler.rs:304-359 | in every reachable state a run belongs to at most one job, in the table and among the outcomes still to commit |
| SchedulerSafety.FeedbackOrderIsInvisible | crates/asmodeus-control-plane/src/scheduler.rs:500-509 | in every reachable state, hearing feedback, alone or with an outcome's commit, gives the same state for every order of the hash table |
| SchedulerSafety.OldFeedbackStaysOld | crates/asmodeus-control-plane/src/scheduler.rs:522-526 | in every run: feedback leaves a job whose latest run is another one as it was but for what was observed in one sample; on a run that is no job's latest it adds no alert |
| SchedulerSafety.AlertsExactlyOnEntry | crates/asmodeus-control-plane/src/scheduler.rs:535-562 | in every run: a step that hears feedback adds an alert exactly when a job enters the degraded state or a new miss by it, for one job at most and with the next number; every other step leaves the alerts alone |
| SchedulerSafety.RingIsLastEntries | crates/asmodeus-control-plane/src/scheduler.rs:547-562 | in every run the retained alerts are the last 200 of all that entries raised, in order, and the counter counts them all |
| SchedulerSafety.BaselineIsWriteOnce | crates/asmodeus-control-plane/src/scheduler.rs:527-530 | a job generation's baseline is written once |
| SchedulerSafety.RingIsContiguous | crates/asmodeus-control-plane/src/scheduler.rs:547-562 | the retained alerts are the last min(200, n), numbered without a gap; histories hold at most 50 |
| SchedulerSafety.NextKeepsInv | crates/asmodeus-control-plane/src/scheduler.rs:363-459 | every action keeps the scheduler invariant |
| Manifest.ReadsExactlyLayouts | crates/asmodeus-dsl/src/manifest.rs:413-485 | the reader accepts exactly the well-formed layouts from column 0, every line once and in order, and returns their entries |
| Manifest.LineIsExactly | crates/asmodeus-dsl/src/manifest.rs:417-424 | a line counts exactly if its first character that is no white space exists and is no '#'; its indentation is the length of what precedes it |
| Manifest.PairIsExactly | crates/asmodeus-dsl/src/manifest.rs:447-456 | a pair is split at its first colon, white space around key and rest dropped |
| Manifest.ErrorsAreTrue | crates/asmodeus-dsl/src/manifest.rs:427-482 | whatever error the reader gives is true of the lines: out of place, without a colon, a key twice at one indentation, or no line at all |
| Manifest.AcceptedIsLayout | crates/asmodeus-dsl/src/manifest.rs:436-485 | whatever it accepts flattens back to the very lines it read |
| Manifest.LayoutIsAccepted | crates/asmodeus-dsl/src/manifest.rs:436-485 | every well-formed layout is read as its entries |
| Manifest.ParentIsNearestShallower | crates/asmodeus-dsl/src/manifest.rs:465-472 | a line's parent is the nearest preceding line of smaller indentation |
| Manifest.PrintedTreeReadsBack | crates/asmodeus-dsl/src/manifest.rs:413-485 | a tree is found again whatever increasing indents it is laid out with |
| Manifest.PrintedTextReadsBack | crates/asmodeus-dsl/src/manifest.rs:413-485 | printing a well-formed layout as text and reading it gives its entries back |
| Manifest.LayoutReads | crates/asmodeus-dsl/src/manifest.rs:436-485 | every tree of printable keys and scalars, distinct keys and no empty object has a well-formed layout that reads as it |
| Manifest.PrintedEntriesReadBack | crates/asmodeus-dsl/src/manifest.rs:413-485 | print such a tree as text, read the text, and the same tree comes back |
| Manifest.ReturnsExactlyPrintable | crates/asmodeus-dsl/src/manifest.rs:413-485 | the trees the reader can return are exactly the nonempty printable ones |
| Manifest.ParseYaml | crates/asmodeus-dsl/src/manifest.rs:413-434 | collects the significant lines and reads them from index 0 |
| Manifest.ParseYamlMap | crates/asmodeus-dsl/src/manifest.rs:436-485 | the loop with a shared index terminates and computes the reading |

## Left out

- Manifest.ParseYaml: a scalar keeps its trimmed text; how it reads as a number, boolean, null or quoted string, and the typed manifest built from the JSON value, are not modelled.
- Manifest.ReadsExactlyLayouts: entries keep their line order, where the JSON map of the code may reorder them.
- Scheduler.Judge: the drift ratio is compared exactly as a fraction, where the code divides 32-bit floats.
- RunnerService.RunWorker: the injection itself, its polling and the CPU budget appear only through their result; RunnerProtocol adds the checks.
- Dispatch.DispatchControlled: state names are upper-cased for ASCII letters only, which decides every comparison with COMPLETED; the displayed status of an active run is not carried, and connecting counts as a stream error.
- NetChaosSession.SimBackend.Apply: tokens are unbounded numbers, where the code's counter wraps after 2^64 rules.
- Running without a state directory or audit log: then nothing survives a restart; the models keep both files.
- Signatures, timestamps and the descriptive text of records and requests; what a verified signature rules out is not used.
- What makes a URL a usable endpoint: the parameter `usable` of the registry models.
- Roles, HTTP handlers, webhooks, TLS, reports, metrics aggregates and exports.
- The eBPF backend's loading, attaching and memory limits; interface names matter only through validation.
- Catalog look-ups, path scope and the other manifest validation rules.
- Liveness: in every reachable state a worker, task, writer or scheduler can move; no theorem says that it eventually does.
- Loss of a directory entry after a rename, and several processes writing one file.
