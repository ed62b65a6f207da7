/** The runner's single-slot executor (crates/asmodeus-runner/src/service.rs): admission into the slot, the
    worker with its checks and its mandatory cleanup, cancel and lease. Times are milliseconds. */
module RunnerService {
  import opened Wrappers
  import opened RunnerEvents

  const LEASE: nat := 3000

  /** The states in which a run gives up its slot to the next one. */
  const ENDED := {"COMPLETED", "CANCELLED", "TIMED_OUT", "CONTROL_LOST", "FAILED", "CLEANUP_FAILED", "REJECTED"}

  predicate TerminalState(state: string) {
    || state == "COMPLETED" || state == "CANCELLED" || state == "TIMED_OUT" || state == "CONTROL_LOST"
    || state == "FAILED" || state == "CLEANUP_FAILED" || state == "REJECTED"
  }

  /** Why the worker has to stop, most urgent reason first. */
  function StopReason(cancelled: bool, closed: bool, elapsed: nat, timeout: nat, sinceBeat: nat): Option<string> {
    if cancelled || closed then Some("CANCELLED")
    else if elapsed >= timeout then Some("TIMED_OUT")
    else if sinceBeat >= LEASE then Some("CONTROL_LOST")
    else None
  }

  /** How a stop reason reads once it has passed through the injection error type. */
  function ReasonText(reason: string): string { "io error: " + reason }

  function Classified(detail: string): (Kind, string) {
    if Contains(detail, "CANCELLED") then (Cancelled, "CANCELLED")
    else if Contains(detail, "TIMED_OUT") then (TimedOut, "TIMED_OUT")
    else if Contains(detail, "CONTROL_LOST") then (Failed, "CONTROL_LOST")
    else (Failed, "FAILED")
  }

  function StateEvent(id: string, state: string): RunnerEvent {
    RunnerEvent(StateChanged, state, id, "", false, false, NOTHING)
  }

  function RejectedEvent(id: string, detail: string): RunnerEvent {
    RunnerEvent(Rejected, "REJECTED", id, detail, false, false, NOTHING)
  }

  /** A cleanup that failed outweighs whatever the injection did. */
  function TerminalEvent(id: string, result: Result<Report, string>, cleanupError: Option<string>, simulated: bool): RunnerEvent {
    match cleanupError
    case Some(error) => RunnerEvent(Failed, "CLEANUP_FAILED", id, error, false, simulated, NOTHING)
    case None =>
      match result
      case Ok(report) => RunnerEvent(Completed, "COMPLETED", id, "", true, simulated, report)
      case Err(detail) => RunnerEvent(Classified(detail).0, Classified(detail).1, id, detail, true, simulated, NOTHING)
  }

  /** Completed means clean and successful, cleanup is confirmed exactly when nothing was left behind, and
      no other event names the state COMPLETED. */
  lemma TerminalEventIsHonest(id: string, result: Result<Report, string>, cleanupError: Option<string>, simulated: bool)
    ensures var e := TerminalEvent(id, result, cleanupError, simulated);
            && Ends(e.kind) && e.kind != Rejected && e.runId == id && TerminalState(e.state)
            && (e.kind == Completed <==> cleanupError.None? && result.Ok?)
            && (e.cleanupConfirmed <==> cleanupError.None?)
            && (Upper(e.state) == "COMPLETED" <==> e.kind == Completed)
            && e.simulated == simulated
            && (match cleanupError
                case Some(error) => e.kind == Failed && e.state == "CLEANUP_FAILED" && e.detail == error && e.report == Report(0, 0)
                case None =>
                  match result
                  case Ok(report) => e.detail == "" && e.report == report
                  case Err(detail) => e.detail == detail && e.report == Report(0, 0))
  {
    hide Upper, Contains;
    var e := TerminalEvent(id, result, cleanupError, simulated);
    assert Upper("COMPLETED") == "COMPLETED";
    assert e.state != "COMPLETED" ==> |e.state| != 9 || e.state[0] != 'C' || e.state[1] != 'O';
  }

  lemma NoSubstring(s: string, part: string)
    requires |part| >= 2 && forall i | 0 <= i < |s| - 1 :: !(s[i] == part[0] && s[i + 1] == part[1])
    ensures !Contains(s, part)
  {
    forall i | 0 <= i <= |s| ensures !(part <= s[i..]) {
      if part <= s[i..] { PairAt(s, part, i); }
    }
  }

  lemma PairAt(s: string, part: string, i: nat)
    requires |part| >= 2 && i <= |s| && part <= s[i..]
    ensures i + 1 < |s| && s[i] == part[0] && s[i + 1] == part[1]
  {
    assert s[i..][0] == part[0] && s[i..][1] == part[1];
  }

  /** The three stop reasons survive the trip through the error text. */
  lemma ReasonsAreRecognized()
    ensures Classified(ReasonText("CANCELLED")) == (Cancelled, "CANCELLED")
    ensures Classified(ReasonText("TIMED_OUT")) == (TimedOut, "TIMED_OUT")
    ensures Classified(ReasonText("CONTROL_LOST")) == (Failed, "CONTROL_LOST")
  {
    hide Contains, ReasonText;
    ReasonContained("CANCELLED");
    ReasonContained("TIMED_OUT");
    ReasonContained("CONTROL_LOST");
    TimeoutNamesNothingElse();
    LossNamesNothingElse();
  }

  lemma TimeoutNamesNothingElse()
    ensures !Contains(ReasonText("TIMED_OUT"), "CANCELLED")
  {
    hide Contains;
    NoSubstring(ReasonText("TIMED_OUT"), "CANCELLED");
  }

  lemma LossNamesNothingElse()
    ensures !Contains(ReasonText("CONTROL_LOST"), "CANCELLED") && !Contains(ReasonText("CONTROL_LOST"), "TIMED_OUT")
  {
    hide Contains;
    NoSubstring(ReasonText("CONTROL_LOST"), "CANCELLED");
    NoSubstring(ReasonText("CONTROL_LOST"), "TIMED_OUT");
  }

  lemma ReasonContained(reason: string)
    ensures Contains(ReasonText(reason), reason)
  {
    assert ReasonText(reason)[10..] == reason;
  }

  // ----- when a report names a cause that held -----

  /** Which stop conditions hold at one moment. */
  datatype Causes = Causes(cancelled: bool, expired: bool, lost: bool)

  function Urgent(c: Causes): Option<string> {
    if c.cancelled then Some("CANCELLED")
    else if c.expired then Some("TIMED_OUT")
    else if c.lost then Some("CONTROL_LOST")
    else None
  }

  /** How the injection phase ended, and what held at that moment. */
  datatype Ending = Done(report: Report) | Stopped | Broke(detail: string)

  datatype Past = Past(ending: Ending, causes: Causes)

  /** A check stopped the injection only for a cause, and nothing completes against one. */
  predicate PastOk(p: Past) {
    match p.ending
    case Done(_) => Urgent(p.causes).None?
    case Stopped => Urgent(p.causes).Some?
    case Broke(_) => true
  }

  function ResultOf(p: Past): Result<Report, string>
    requires PastOk(p)
  {
    match p.ending
    case Done(report) => Ok(report)
    case Stopped => Err(ReasonText(Urgent(p.causes).value))
    case Broke(detail) => Err(detail)
  }

  /** A reported stop names a cause that held when the injection ended. */
  predicate NamesCause(state: string, c: Causes) {
    && (state == "CANCELLED" ==> c.cancelled)
    && (state == "TIMED_OUT" ==> c.expired)
    && (state == "CONTROL_LOST" ==> c.lost)
  }

  /** The text of an injection error holds a stop word, no more urgent one, and that cause did not hold. */
  predicate Misread(detail: string, c: Causes) {
    if Contains(detail, "CANCELLED") then !c.cancelled
    else if Contains(detail, "TIMED_OUT") then !c.expired
    else Contains(detail, "CONTROL_LOST") && !c.lost
  }

  /** Exactly when the report after a clean cleanup names a cause that held: unless the injection broke with a
      text that is misread. A stop by a check is always reported by its most urgent cause. */
  lemma NamesCauseExactlyWhen(id: string, p: Past, simulated: bool)
    requires PastOk(p)
    ensures var e := TerminalEvent(id, ResultOf(p), None, simulated);
            && (NamesCause(e.state, p.causes) <==> !(p.ending.Broke? && Misread(p.ending.detail, p.causes)))
            && (p.ending.Stopped? ==> Some(e.state) == Urgent(p.causes))
            && (e.kind == Cancelled <==> e.state == "CANCELLED") && (e.kind == TimedOut <==> e.state == "TIMED_OUT")
  {
    hide Contains, ReasonText;
    ReasonsAreRecognized();
  }

  // ----- the objects -----

  class Active {
    const id: string
    var state: string
    var cancelled: bool
    var heartbeat: nat

    constructor (id: string, now: nat)
      ensures this.id == id && state == "Queued" && !cancelled && heartbeat == now
    {
      this.id, state, cancelled, heartbeat := id, "Queued", false, now;
    }
  }

  /** What the outside world does to one execution. */
  datatype Surroundings = Surroundings(
    sandbox: Option<string>, result: Result<Report, string>, innerCleanup: Option<string>,
    sandboxCleanup: Option<string>, simulated: bool)

  function CleanupError(env: Surroundings): Option<string> {
    if env.sandboxCleanup.Some? then env.sandboxCleanup else env.innerCleanup
  }

  /** The events of a worker whose sandbox was created, up to the terminal one. */
  function Announced(id: string): seq<RunnerEvent> {
    [StateEvent(id, "Validated"), StateEvent(id, "Armed"), StateEvent(id, "Injecting"), StateEvent(id, "Cleanup")]
  }

  /** A worker that got its sandbox always goes through cleanup and then reports once, last; only then is
      its state terminal. A worker without a sandbox rejects, and leaves its state "Validated". */
  method RunWorker(active: Active, env: Surroundings) returns (sent: seq<RunnerEvent>, cleaned: bool)
    modifies active`state
    ensures env.sandbox.Some? ==>
              sent == [StateEvent(active.id, "Validated"), RejectedEvent(active.id, env.sandbox.value)]
              && !cleaned && active.state == "Validated"
    ensures env.sandbox.None? ==>
              var e := TerminalEvent(active.id, env.result, CleanupError(env), env.simulated);
              sent == Announced(active.id) + [e] && cleaned == e.cleanupConfirmed && active.state == e.state
    ensures env.sandbox.None? ==>
              && |sent| == 5 && sent[0].state == "Validated" && sent[1].state == "Armed" && sent[2].state == "Injecting"
              && sent[3].state == "Cleanup" && cleaned == (env.sandboxCleanup.None? && env.innerCleanup.None?)
              && sent[4].simulated == env.simulated
              && (!cleaned ==> sent[4].state == "CLEANUP_FAILED")
              && (!cleaned ==> sent[4].detail == if env.sandboxCleanup.Some? then env.sandboxCleanup.value else env.innerCleanup.value)
  {
    hide Classified;
    active.state := "Validated";
    sent := [StateEvent(active.id, "Validated")];
    if env.sandbox.Some? {
      sent := sent + [RejectedEvent(active.id, env.sandbox.value)];
      return sent, false;
    }
    active.state := "Armed";
    sent := sent + [StateEvent(active.id, "Armed")];
    active.state := "Injecting";
    sent := sent + [StateEvent(active.id, "Injecting")];
    var cleanupError := env.innerCleanup;
    active.state := "Cleanup";
    sent := sent + [StateEvent(active.id, "Cleanup")];
    if env.sandboxCleanup.Some? { cleanupError := env.sandboxCleanup; }
    cleaned := cleanupError.None?;
    var terminal := TerminalEvent(active.id, env.result, cleanupError, env.simulated);
    active.state := terminal.state;
    sent := sent + [terminal];
  }

  class Service {
    var active: Active?
    var healthy: bool

    constructor ()
      ensures active == null && healthy
    {
      active, healthy := null, true;
    }

    /** Refuses while the slot's run is not terminal; a terminal run's slot may be taken over. */
    method Execute(id: string, now: nat) returns (run: Active?)
      modifies this`active
      ensures run == null <==> old(active) != null && !TerminalState(old(active.state))
      ensures old(active) == null ==> run != null
      ensures old(active) != null ==> (run != null <==> old(active.state) in ENDED)
      ensures run == null ==> active == old(active)
      ensures run != null ==> fresh(run) && active == run && run.id == id && run.state == "Queued" && !run.cancelled && run.heartbeat == now
    {
      if active != null && !TerminalState(active.state) { return null; }
      run := new Active(id, now);
      active := run;
    }

    /** Extends the lease of the run it names, if that run holds the slot. */
    method Heartbeat(id: string, now: nat) returns (state: string, activeId: string)
      modifies active
      ensures active != null ==> active.heartbeat == (if active.id == id then now else old(active.heartbeat))
      ensures active != null ==> active.state == old(active.state) && active.cancelled == old(active.cancelled)
      ensures if active == null then state == "Idle" && activeId == "" else state == active.state && activeId == active.id
    {
      if active == null { return "Idle", ""; }
      if active.id == id { active.heartbeat := now; }
      return active.state, active.id;
    }

    method Cancel(id: string) returns (accepted: bool)
      modifies active
      ensures accepted <==> active != null && active.id == id
      ensures active != null ==> active.cancelled == (accepted || old(active.cancelled))
      ensures active != null ==> active.state == old(active.state) && active.heartbeat == old(active.heartbeat)
    {
      accepted := active != null && active.id == id;
      if accepted { active.cancelled := true; }
    }

    /** A finishing worker frees the slot only if it still holds it. */
    method Finish(execution: Active, cleaned: bool)
      modifies this
      ensures healthy == cleaned && active == if old(active) == execution then null else old(active)
    {
      healthy := cleaned;
      if active == execution { active := null; }
    }
  }
}
