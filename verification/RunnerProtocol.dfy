/** The runner under concurrency: executions competing for the slot, cancels, lease heartbeats, dropped
    streams, workers in every phase and late finishes. Run ids are globally fresh. `sent` is what a worker
    handed to the stream, in order; a closed stream delivers a prefix of it. */
module RunnerProtocol {
  import opened Wrappers
  import opened RunnerEvents
  import opened RunnerService
  import NetChaos
  import NetScope

  datatype Files = Absent | Present | Removed

  datatype Pc =
    | New | Validated | Armed | Injecting | Working
    | Ended(result: Result<Report, string>, inner: Option<string>)
    | Reverting(result: Result<Report, string>, inner: Option<string>)      // "Cleanup" announced
    | Concluding(result: Result<Report, string>, error: Option<string>)     // sandbox removal attempted
    | Reporting(event: RunnerEvent)                                         // state is terminal
    | Returned(cleaned: bool)
    | Released

  /** `past` is history: how the injection ended and which stop conditions held then. */
  datatype Run = Run(
    id: string, state: string, cancelled: bool, closed: bool, started: nat, beat: nat, timeout: nat,
    simulated: bool, pc: Pc, files: Files, panicked: bool, sent: seq<RunnerEvent>, past: Option<Past>)

  datatype World = World(slot: Option<nat>, runs: map<nat, Run>, healthy: bool, now: nat)

  datatype Move =
    | Announce                                   // Validated, Armed, Injecting or Cleanup
    | CreateSandbox(error: Option<string>)
    | Begin
    | End(ending: Ending, inner: Option<string>)
    | RemoveSandbox(error: Option<string>)
    | Conclude
    | Report
    | Panic

  datatype Action =
    | Execute(t: nat, id: string, timeout: nat, simulated: bool)
    | Advance(t: nat, move: Move)
    | Drop(t: nat)
    | Cancel(id: string)
    | Beat(id: string)
    | Release(t: nat)
    | Pass(ms: nat)

  // ----- one worker -----

  function Since(earlier: nat, now: nat): nat { if now < earlier then 0 else now - earlier }

  function Stopping(r: Run, now: nat): Option<string> {
    StopReason(r.cancelled, r.closed, Since(r.started, now), r.timeout, Since(r.beat, now))
  }

  function CausesOf(r: Run, now: nat): Causes {
    Causes(r.cancelled || r.closed, Since(r.started, now) >= r.timeout, Since(r.beat, now) >= LEASE)
  }

  predicate CanMove(r: Run, move: Move, now: nat) {
    match move
    case Announce => r.pc.New? || r.pc.Armed? || r.pc.Injecting? || r.pc.Ended?
    case CreateSandbox(_) => r.pc.Validated?
    case Begin => r.pc.Working?
    case End(ending, _) =>
      && r.pc.Working?
      && (ending.Done? ==> Stopping(r, now).None?)
      && (ending.Stopped? ==> Stopping(r, now).Some?)
    case RemoveSandbox(_) => r.pc.Reverting?
    case Conclude => r.pc.Concluding?
    case Report => r.pc.Reporting?
    case Panic => !r.pc.Returned? && !r.pc.Released?
  }

  function Announcing(r: Run, state: string, pc: Pc): Run {
    r.(state := state, sent := r.sent + [StateEvent(r.id, state)], pc := pc)
  }

  function Moved(r: Run, move: Move, now: nat): Run
    requires CanMove(r, move, now)
  {
    match move
    case Announce =>
      if r.pc.New? then Announcing(r, "Validated", Pc.Validated)
      else if r.pc.Armed? then Announcing(r, "Armed", Pc.Injecting)
      else if r.pc.Injecting? then Announcing(r, "Injecting", Working)
      else Announcing(r, "Cleanup", Reverting(r.pc.result, r.pc.inner))
    case CreateSandbox(error) =>
      if error.Some? then r.(sent := r.sent + [RejectedEvent(r.id, error.value)], pc := Returned(false))
      else r.(files := Present, pc := Armed)
    case Begin => r
    case End(ending, inner) =>
      var past := Past(ending, CausesOf(r, now));
      r.(pc := Ended(ResultOf(past), inner), past := Some(past))
    case RemoveSandbox(error) =>
      r.(files := if error.None? then Removed else Present,
         pc := Concluding(r.pc.result, if error.Some? then error else r.pc.inner))
    case Conclude =>
      var e := TerminalEvent(r.id, r.pc.result, r.pc.error, r.simulated);
      r.(state := e.state, pc := Reporting(e))
    case Report => r.(sent := r.sent + [r.pc.event], pc := Returned(r.pc.event.cleanupConfirmed))
    case Panic => r.(pc := Returned(false), panicked := true)
  }

  // ----- the service -----

  predicate Busy(w: World) {
    w.slot.Some? && w.slot.value in w.runs && !TerminalState(w.runs[w.slot.value].state)
  }

  ghost predicate Enabled(w: World, a: Action) {
    match a
    case Execute(t, id, _, _) => t !in w.runs && forall u | u in w.runs :: w.runs[u].id != id
    case Advance(t, move) => t in w.runs && CanMove(w.runs[t], move, w.now)
    case Drop(t) => t in w.runs
    case Cancel(_) => true
    case Beat(_) => true
    case Release(t) => t in w.runs && w.runs[t].pc.Returned?
    case Pass(_) => true
  }

  function SetRun(w: World, t: nat, r: Run): World { w.(runs := w.runs[t := r]) }

  /** The run in the slot, if it is the one named. */
  predicate Named(w: World, id: string) {
    w.slot.Some? && w.slot.value in w.runs && w.runs[w.slot.value].id == id
  }

  ghost function Next(w: World, a: Action): World
    requires Enabled(w, a)
  {
    match a
    case Execute(t, id, timeout, simulated) =>
      if Busy(w) then w
      else SetRun(w, t, Run(id, "Queued", false, false, w.now, w.now, timeout, simulated, New, Absent, false, [], None)).(slot := Some(t))
    case Advance(t, move) => SetRun(w, t, Moved(w.runs[t], move, w.now))
    case Drop(t) => SetRun(w, t, w.runs[t].(closed := true))
    case Cancel(id) => if Named(w, id) then SetRun(w, w.slot.value, w.runs[w.slot.value].(cancelled := true)) else w
    case Beat(id) => if Named(w, id) then SetRun(w, w.slot.value, w.runs[w.slot.value].(beat := w.now)) else w
    case Release(t) =>
      SetRun(w, t, w.runs[t].(pc := Released))
      .(healthy := w.runs[t].pc.cleaned, slot := if w.slot == Some(t) then None else w.slot)
    case Pass(ms) => w.(now := w.now + ms)
  }

  ghost predicate Behaviour(ws: seq<World>, acts: seq<Action>) {
    && |ws| == |acts| + 1
    && ws[0].slot.None? && ws[0].runs == map[]
    && forall i | 0 <= i < |acts| :: Enabled(ws[i], acts[i]) && ws[i + 1] == Next(ws[i], acts[i])
  }

  // ----- the invariant -----

  predicate Announces(r: Run, n: nat) {
    n <= 4 && r.sent == Announced(r.id)[..n]
  }

  /** How a worker that is through with everything can have reported. */
  predicate Reported(r: Run) {
    if r.panicked then exists n | 0 <= n <= 4 :: Announces(r, n)
    else
      || (|r.sent| == 2 && Announced(r.id)[..1] == r.sent[..1] && r.sent[1] == RejectedEvent(r.id, r.sent[1].detail)
          && r.files == Absent)
      || (|r.sent| == 5 && Announced(r.id) == r.sent[..4] && TerminalOk(r, r.sent[4]))
  }

  /** The terminal event tells the truth about the sandbox and the outcome. */
  predicate TerminalOk(r: Run, e: RunnerEvent) {
    && Ends(e.kind) && e.kind != Rejected && e.runId == r.id && r.state == e.state && TerminalState(e.state)
    && (e.cleanupConfirmed ==> r.files == Removed)
    && (e.kind == Completed ==> e.cleanupConfirmed)
    && (Upper(e.state) == "COMPLETED" <==> e.kind == Completed)
    && e.simulated == r.simulated
    && (!e.cleanupConfirmed ==> e.kind == Failed && e.state == "CLEANUP_FAILED")
  }

  predicate RunOk(r: Run) {
    PhaseOk(r) && (!r.pc.Reporting? && !r.pc.Returned? && !r.pc.Released? ==> !TerminalState(r.state))
  }

  predicate PhaseOk(r: Run) {
    match r.pc
    case New => Announces(r, 0) && r.state == "Queued" && r.files == Absent && !r.panicked
    case Validated => Announces(r, 1) && r.state == "Validated" && r.files == Absent && !r.panicked
    case Armed => Announces(r, 1) && r.files == Present && !r.panicked
    case Injecting => Announces(r, 2) && r.files == Present && !r.panicked
    case Working => Announces(r, 3) && r.files == Present && !r.panicked
    case Ended(_, _) => Announces(r, 3) && r.files == Present && !r.panicked
    case Reverting(_, _) => Announces(r, 4) && r.files == Present && !r.panicked
    case Concluding(_, error) => Announces(r, 4) && (error.None? ==> r.files == Removed) && !r.panicked
    case Reporting(e) => Announces(r, 4) && TerminalOk(r, e) && !r.panicked
    case Returned(cleaned) => Reported(r) && (cleaned ==> r.files == Removed)
    case Released => Reported(r)
  }

  /** Neither in a terminal state nor gone. */
  predicate Live(r: Run) { !TerminalState(r.state) && !r.pc.Released? }

  ghost predicate SlotOk(w: World) {
    && (w.slot.Some? ==> w.slot.value in w.runs && !w.runs[w.slot.value].pc.Released?)
    && (forall t | t in w.runs && Live(w.runs[t]) :: w.slot == Some(t))
    && (forall t, u | t in w.runs && u in w.runs && t != u :: w.runs[t].id != w.runs[u].id)
  }

  ghost predicate ServiceInv(w: World) {
    SlotOk(w) && forall t | t in w.runs :: RunOk(w.runs[t])
  }

  lemma AnnouncedNext(r: Run, n: nat, state: string, pc: Pc)
    requires n < 4 && Announces(r, n) && Announced(r.id)[n] == StateEvent(r.id, state)
    ensures Announces(Announcing(r, state, pc), n + 1)
  {
    assert Announced(r.id)[..n + 1] == Announced(r.id)[..n] + [Announced(r.id)[n]];
  }

  lemma AnnouncedStates(id: string)
    ensures Announced(id) == [StateEvent(id, "Validated"), StateEvent(id, "Armed"), StateEvent(id, "Injecting"), StateEvent(id, "Cleanup")]
  {
  }

  lemma MoveKeepsRun(r: Run, move: Move, now: nat)
    requires RunOk(r) && CanMove(r, move, now)
    ensures RunOk(Moved(r, move, now))
  {
    hide TerminalState, Upper, TerminalEvent, StopReason;
    match move
    case Announce => AnnounceKeepsRun(r, now);
    case Conclude => ConcludeKeepsRun(r, now);
    case Report => ReportKeepsRun(r, now);
    case Panic => PanicKeepsRun(r, now);
    case _ => hide Upper, ResultOf;
  }

  lemma ConcludeKeepsRun(r: Run, now: nat)
    requires RunOk(r) && CanMove(r, Conclude, now)
    ensures RunOk(Moved(r, Conclude, now))
  {
    hide TerminalState, Upper, TerminalEvent;
    TerminalEventIsHonest(r.id, r.pc.result, r.pc.error, r.simulated);
  }

  lemma ReportKeepsRun(r: Run, now: nat)
    requires RunOk(r) && CanMove(r, Move.Report, now)
    ensures RunOk(Moved(r, Move.Report, now))
  {
    hide TerminalState, Upper;
  }

  lemma PanicKeepsRun(r: Run, now: nat)
    requires RunOk(r) && CanMove(r, Panic, now)
    ensures RunOk(Moved(r, Panic, now))
  {
    hide Upper, TerminalState, Announced;
    var n := |r.sent|;
    var r' := Moved(r, Panic, now);
    assert Announces(r', if r.pc.New? then 0 else if r.pc.Validated? || r.pc.Armed? then 1 else if r.pc.Injecting? then 2
                         else if r.pc.Working? || r.pc.Ended? then 3 else 4);
  }

  lemma AnnounceKeepsRun(r: Run, now: nat)
    requires RunOk(r) && CanMove(r, Announce, now)
    ensures RunOk(Moved(r, Announce, now))
  {
    hide Announces, Announcing, TerminalState, TerminalOk, Reported;
    if r.pc.New? { AnnouncingKeepsRun(r, 0, "Validated", Pc.Validated); }
    else if r.pc.Armed? { AnnouncingKeepsRun(r, 1, "Armed", Pc.Injecting); }
    else if r.pc.Injecting? { AnnouncingKeepsRun(r, 2, "Injecting", Working); }
    else { AnnouncingKeepsRun(r, 3, "Cleanup", Reverting(r.pc.result, r.pc.inner)); }
  }

  lemma AnnouncingKeepsRun(r: Run, n: nat, state: string, pc: Pc)
    requires n < 4 && Announces(r, n) && !r.panicked && r.files == (if n == 0 then Absent else Present)
    requires match n case 0 => pc.Validated? && state == "Validated" case 1 => pc.Injecting? && state == "Armed"
                    case 2 => pc.Working? && state == "Injecting" case _ => pc.Reverting? && state == "Cleanup"
    ensures RunOk(Announcing(r, state, pc))
  {
    hide Announces, Announced, TerminalOk, Reported;
    AnnouncedStates(r.id);
    AnnouncedNext(r, n, state, pc);
  }

  /** A run that was terminal or gone stays so; nothing revives it. */
  lemma MoveStaysDown(r: Run, move: Move, now: nat)
    requires RunOk(r) && CanMove(r, move, now)
    ensures Moved(r, move, now).id == r.id && (Live(Moved(r, move, now)) ==> Live(r))
    ensures Moved(r, move, now).pc.Released? <==> r.pc.Released?
  {
    hide Upper, TerminalEvent, StopReason, Reported, Announces, TerminalState, ResultOf, StateEvent, RejectedEvent, TerminalOk;
  }

  lemma SetKeepsInv(w: World, t: nat, r: Run)
    requires ServiceInv(w) && t in w.runs && RunOk(r) && r.id == w.runs[t].id
    requires (Live(r) ==> Live(w.runs[t])) && r.pc.Released? == w.runs[t].pc.Released?
    ensures ServiceInv(SetRun(w, t, r))
  {
    hide RunOk, TerminalState;
  }

  lemma ExecuteKeepsInv(w: World, t: nat, id: string, timeout: nat, simulated: bool)
    requires ServiceInv(w) && Enabled(w, Execute(t, id, timeout, simulated))
    ensures ServiceInv(Next(w, Execute(t, id, timeout, simulated)))
  {
    hide RunOk, TerminalState;
    NewRunOk(id, w.now, timeout, simulated);
  }

  lemma ReleaseKeepsInv(w: World, t: nat)
    requires ServiceInv(w) && Enabled(w, Release(t))
    ensures ServiceInv(Next(w, Release(t)))
  {
    hide RunOk, TerminalState;
    ReleaseKeepsRun(w.runs[t]);
  }

  lemma NextKeepsInv(w: World, a: Action)
    requires ServiceInv(w) && Enabled(w, a)
    ensures ServiceInv(Next(w, a))
  {
    hide RunOk, TerminalState, Moved, CanMove;
    match a
    case Advance(t, move) =>
      hide ServiceInv;
      assert RunOk(w.runs[t]) by { RunIsOk(w, t); }
      MoveKeepsRun(w.runs[t], move, w.now);
      MoveStaysDown(w.runs[t], move, w.now);
      SetKeepsInv(w, t, Moved(w.runs[t], move, w.now));
    case Execute(t, id, timeout, simulated) => ExecuteKeepsInv(w, t, id, timeout, simulated);
    case Drop(t) => FlagKeepsInv(w, t, w.runs[t].(closed := true));
    case Cancel(id) => if Named(w, id) { FlagKeepsInv(w, w.slot.value, w.runs[w.slot.value].(cancelled := true)); }
    case Beat(id) => if Named(w, id) { FlagKeepsInv(w, w.slot.value, w.runs[w.slot.value].(beat := w.now)); }
    case Release(t) => ReleaseKeepsInv(w, t);
    case Pass(ms) =>
  }

  lemma RunIsOk(w: World, t: nat)
    requires ServiceInv(w) && t in w.runs
    ensures RunOk(w.runs[t])
  {
  }

  lemma FlagKeepsInv(w: World, t: nat, r: Run)
    requires ServiceInv(w) && t in w.runs && r == w.runs[t].(closed := r.closed, cancelled := r.cancelled, beat := r.beat)
    ensures ServiceInv(SetRun(w, t, r))
  {
    hide RunOk, TerminalState, ServiceInv;
    RunIsOk(w, t);
    FlagKeepsRun(w.runs[t], r);
    SetKeepsInv(w, t, r);
  }

  lemma NewRunOk(id: string, now: nat, timeout: nat, simulated: bool)
    ensures RunOk(Run(id, "Queued", false, false, now, now, timeout, simulated, New, Absent, false, [], None))
  {
  }

  lemma FlagKeepsRun(r: Run, r': Run)
    requires RunOk(r) && r' == r.(closed := r'.closed, cancelled := r'.cancelled, beat := r'.beat)
    ensures RunOk(r')
  {
    hide Upper, TerminalState, Announced;
    if Reported(r) && r.panicked {
      var n :| 0 <= n <= 4 && Announces(r, n);
      assert Announces(r', n);
    }
  }

  lemma ReleaseKeepsRun(r: Run)
    requires RunOk(r) && r.pc.Returned?
    ensures RunOk(r.(pc := Released))
  {
    hide Upper, TerminalState, Announced;
    if r.panicked {
      var n :| 0 <= n <= 4 && Announces(r, n);
      assert Announces(r.(pc := Released), n);
    }
  }

  lemma {:induction false} Reachable(ws: seq<World>, acts: seq<Action>, i: nat)
    requires Behaviour(ws, acts) && i < |ws|
    ensures ServiceInv(ws[i])
  {
    hide Enabled, Next, RunOk;
    if i > 0 {
      hide ServiceInv;
      Reachable(ws, acts, i - 1);
      NextKeepsInv(ws[i - 1], acts[i - 1]);
    }
  }

  // ----- what the runner promises -----

  /** At most one worker is in a non-terminal state, and it holds the slot. */
  lemma AtMostOneLive(ws: seq<World>, acts: seq<Action>, i: nat, t: nat, u: nat)
    requires Behaviour(ws, acts) && i < |ws| && t in ws[i].runs && u in ws[i].runs
    requires Live(ws[i].runs[t]) && Live(ws[i].runs[u])
    ensures t == u && ws[i].slot == Some(t)
  {
    hide Enabled, Next, RunOk;
    Reachable(ws, acts, i);
  }

  /** A worker that finishes late leaves a newer run's slot and state alone. */
  lemma LateFinishKeepsNewerRun(ws: seq<World>, acts: seq<Action>, i: nat, t: nat, newer: nat)
    requires Behaviour(ws, acts) && i < |acts| && acts[i] == Release(t)
    requires ws[i].slot == Some(newer) && newer != t
    ensures newer in ws[i].runs && ws[i + 1].slot == Some(newer) && ws[i + 1].runs[newer] == ws[i].runs[newer]
  {
    hide RunOk;
    Reachable(ws, acts, i);
  }

  /** A cancel or heartbeat reaches only the run it names, and only while that run holds the slot. */
  lemma OnlyTheNamedRun(ws: seq<World>, acts: seq<Action>, i: nat, id: string, t: nat)
    requires Behaviour(ws, acts) && i < |acts| && (acts[i] == Cancel(id) || acts[i] == Beat(id)) && t in ws[i].runs
    ensures t in ws[i + 1].runs && (ws[i].runs[t].id != id || ws[i].slot != Some(t) ==> ws[i + 1].runs[t] == ws[i].runs[t])
    ensures ws[i].runs[t].id == id && ws[i].slot == Some(t) && acts[i] == Cancel(id) ==> ws[i + 1].runs[t].cancelled
  {
  }

  predicate Finished(r: Run) { (r.pc.Returned? || r.pc.Released?) && !r.panicked }

  /** The terminal event is sent once and last: a finished worker sent exactly one, an unfinished one none. */
  lemma TerminalOnceAndLast(ws: seq<World>, acts: seq<Action>, i: nat, t: nat)
    requires Behaviour(ws, acts) && i < |ws| && t in ws[i].runs
    ensures var r := ws[i].runs[t];
            && (forall n | 0 <= n < |r.sent| - 1 :: !Ends(r.sent[n].kind))
            && (Finished(r) <==> r.sent != [] && Ends(r.sent[|r.sent| - 1].kind))
            && (forall n | 0 <= n < |r.sent| :: r.sent[n].runId == r.id)
  {
    hide Enabled, Next;
    Reachable(ws, acts, i);
    SentShape(ws[i].runs[t]);
  }

  lemma SentShape(r: Run)
    requires RunOk(r)
    ensures forall n | 0 <= n < |r.sent| - 1 :: !Ends(r.sent[n].kind)
    ensures Finished(r) <==> r.sent != [] && Ends(r.sent[|r.sent| - 1].kind)
    ensures forall n | 0 <= n < |r.sent| :: r.sent[n].runId == r.id
  {
    hide Upper, TerminalState;
    if Finished(r) && |r.sent| == 5 {
      assert forall n | 0 <= n < 4 :: r.sent[n] == r.sent[..4][n];
    }
    if Finished(r) && |r.sent| == 2 {
      assert r.sent[0] == r.sent[..1][0];
    }
  }

  /** Whoever reports a confirmed cleanup has removed the sandbox, and a Completed event always confirms it.
      A finished worker leaves its sandbox behind only if it reported an unconfirmed cleanup. */
  lemma ReportsAreTrue(ws: seq<World>, acts: seq<Action>, i: nat, t: nat, n: nat)
    requires Behaviour(ws, acts) && i < |ws| && t in ws[i].runs && n < |ws[i].runs[t].sent|
    ensures var r := ws[i].runs[t]; var e := r.sent[n];
            && (e.cleanupConfirmed ==> r.files == Removed)
            && (e.kind == Completed ==> e.cleanupConfirmed)
            && (Ends(e.kind) && Upper(e.state) == "COMPLETED" ==> e.kind == Completed)
            && (Ends(e.kind) && e.kind != Rejected ==> e.simulated == r.simulated)
            && (Ends(e.kind) && e.kind != Rejected && !e.cleanupConfirmed ==> e.kind == Failed && e.state == "CLEANUP_FAILED")
    ensures var r := ws[i].runs[t];
            Finished(r) && r.files == Present ==> !r.sent[|r.sent| - 1].cleanupConfirmed
  {
    hide Enabled, Next;
    Reachable(ws, acts, i);
    SentShape(ws[i].runs[t]);
    TrueEvent(ws[i].runs[t], n);
  }

  lemma TrueEvent(r: Run, n: nat)
    requires RunOk(r) && n < |r.sent|
    ensures r.sent[n].cleanupConfirmed ==> r.files == Removed
    ensures r.sent[n].kind == Completed ==> r.sent[n].cleanupConfirmed
    ensures Ends(r.sent[n].kind) && Upper(r.sent[n].state) == "COMPLETED" ==> r.sent[n].kind == Completed
    ensures Ends(r.sent[n].kind) && r.sent[n].kind != Rejected ==> r.sent[n].simulated == r.simulated
    ensures Ends(r.sent[n].kind) && r.sent[n].kind != Rejected && !r.sent[n].cleanupConfirmed ==>
              r.sent[n].kind == Failed && r.sent[n].state == "CLEANUP_FAILED"
    ensures Finished(r) && r.files == Present ==> r.sent != [] && !r.sent[|r.sent| - 1].cleanupConfirmed
  {
    hide Upper, TerminalState;
    if Finished(r) && |r.sent| == 5 {
      assert forall m | 0 <= m < 4 :: r.sent[m] == r.sent[..4][m];
    }
    if Finished(r) && |r.sent| == 2 {
      assert r.sent[0] == r.sent[..1][0];
    }
  }

  // ----- stops and what is reported of them -----

  /** The event tells of the run's recorded past after a clean cleanup. */
  predicate Tells(r: Run, e: RunnerEvent) {
    r.past.Some? && PastOk(r.past.value) && e == TerminalEvent(r.id, ResultOf(r.past.value), None, r.simulated)
  }

  predicate Carries(r: Run, result: Result<Report, string>) {
    r.past.Some? && PastOk(r.past.value) && result == ResultOf(r.past.value)
  }

  /** The outcome on its way to the terminal event is the recorded one, and so is every event that confirms cleanup. */
  predicate HistoryOk(r: Run) {
    && (forall n | 0 <= n < |r.sent| && r.sent[n].cleanupConfirmed :: Tells(r, r.sent[n]))
    && match r.pc
       case Ended(result, _) => Carries(r, result)
       case Reverting(result, _) => Carries(r, result)
       case Concluding(result, _) => Carries(r, result)
       case Reporting(e) => e.cleanupConfirmed ==> Tells(r, e)
       case _ => true
  }

  lemma NothingConfirmedYet(r: Run)
    requires RunOk(r) && r.pc.Working?
    ensures forall n | 0 <= n < |r.sent| :: !r.sent[n].cleanupConfirmed
  {
    hide TerminalState;
  }

  lemma MoveKeepsHistory(r: Run, move: Move, now: nat)
    requires RunOk(r) && HistoryOk(r) && CanMove(r, move, now)
    ensures HistoryOk(Moved(r, move, now))
  {
    hide RunOk, TerminalState, Contains, ReasonText, Classified;
    match move
    case Announce => AnnounceKeepsHistory(r, now);
    case End(ending, inner) => EndKeepsHistory(r, ending, inner, now);
    case Report =>
    case CreateSandbox(_) =>
    case _ => hide Tells;
  }

  lemma AnnounceKeepsHistory(r: Run, now: nat)
    requires HistoryOk(r) && CanMove(r, Announce, now)
    ensures HistoryOk(Moved(r, Announce, now))
  {
    hide Tells, Carries, Announcing;
    if r.pc.Ended? { AnnouncingKeepsHistory(r, "Cleanup", Reverting(r.pc.result, r.pc.inner)); }
    else if r.pc.New? { AnnouncingKeepsHistory(r, "Validated", Pc.Validated); }
    else if r.pc.Armed? { AnnouncingKeepsHistory(r, "Armed", Pc.Injecting); }
    else { AnnouncingKeepsHistory(r, "Injecting", Working); }
  }

  lemma AnnouncingKeepsHistory(r: Run, state: string, pc: Pc)
    requires HistoryOk(r) && (pc.Validated? || pc.Injecting? || pc.Working? || (pc.Reverting? && Carries(r, pc.result)))
    ensures HistoryOk(Announcing(r, state, pc))
  {
    hide PastOk, ResultOf, TerminalEvent;
  }

  lemma EndKeepsHistory(r: Run, ending: Ending, inner: Option<string>, now: nat)
    requires RunOk(r) && CanMove(r, End(ending, inner), now)
    ensures HistoryOk(Moved(r, End(ending, inner), now))
  {
    hide RunOk, TerminalState, Tells, ResultOf;
    NothingConfirmedYet(r);
  }

  ghost predicate HistoriesOk(w: World) {
    forall t | t in w.runs :: HistoryOk(w.runs[t])
  }

  lemma NextKeepsHistories(w: World, a: Action)
    requires ServiceInv(w) && HistoriesOk(w) && Enabled(w, a)
    ensures HistoriesOk(Next(w, a))
  {
    hide RunOk, TerminalState, Moved, CanMove, Tells, Carries;
    match a
    case Advance(t, move) => MoveKeepsHistory(w.runs[t], move, w.now);
    case Execute(t, id, timeout, simulated) =>
    case Drop(t) => SameHistory(w.runs[t], w.runs[t].(closed := true));
    case Cancel(id) => if Named(w, id) { SameHistory(w.runs[w.slot.value], w.runs[w.slot.value].(cancelled := true)); }
    case Beat(id) => if Named(w, id) { SameHistory(w.runs[w.slot.value], w.runs[w.slot.value].(beat := w.now)); }
    case Release(t) => SameHistory(w.runs[t], w.runs[t].(pc := Released));
    case Pass(ms) =>
  }

  lemma SameHistory(r: Run, r': Run)
    requires HistoryOk(r) && (r'.pc == r.pc || r'.pc == Released)
    requires r' == r.(closed := r'.closed, cancelled := r'.cancelled, beat := r'.beat, pc := r'.pc)
    ensures HistoryOk(r')
  {
    hide TerminalEvent, ResultOf, PastOk;
    assert forall e :: Tells(r, e) ==> Tells(r', e);
  }

  lemma {:induction false} HistoriesReachable(ws: seq<World>, acts: seq<Action>, i: nat)
    requires Behaviour(ws, acts) && i < |ws|
    ensures HistoriesOk(ws[i])
  {
    hide Enabled, Next, HistoryOk, ServiceInv;
    if i > 0 {
      HistoriesReachable(ws, acts, i - 1);
      Reachable(ws, acts, i - 1);
      NextKeepsHistories(ws[i - 1], acts[i - 1]);
    }
  }

  /** Over every run: the event of a run whose cleanup succeeded names a cause that held when its injection
      ended, exactly unless the injection broke with a text that holds a stop word whose cause did not hold.
      A stop by a check is always reported, by its most urgent cause: a cancel or dropped stream before the
      deadline before the lost lease. */
  lemma StopsAreReported(ws: seq<World>, acts: seq<Action>, i: nat, t: nat, n: nat)
    requires Behaviour(ws, acts) && i < |ws| && t in ws[i].runs
    requires n < |ws[i].runs[t].sent| && ws[i].runs[t].sent[n].cleanupConfirmed
    ensures var r := ws[i].runs[t]; var e := r.sent[n];
            && r.past.Some?
            && (NamesCause(e.state, r.past.value.causes) <==>
                  !(r.past.value.ending.Broke? && Misread(r.past.value.ending.detail, r.past.value.causes)))
            && (r.past.value.ending.Stopped? ==> Some(e.state) == Urgent(r.past.value.causes))
            && (r.past.value.ending.Done? ==> e.kind == Completed && Urgent(r.past.value.causes).None?)
            && (e.kind == Cancelled <==> e.state == "CANCELLED") && (e.kind == TimedOut <==> e.state == "TIMED_OUT")
            && (match r.past.value.ending
                case Done(report) => e.report == report && e.detail == ""
                case Stopped => e.report == NOTHING && e.detail == "io error: " + e.state
                case Broke(detail) => e.report == NOTHING && e.detail == detail)
  {
    hide Enabled, Next, Behaviour, Contains, ReasonText, Misread, NamesCause, Classified;
    HistoriesReachable(ws, acts, i);
    var r := ws[i].runs[t];
    assert HistoryOk(r);
    NamesCauseExactlyWhen(r.id, r.past.value, r.simulated);
    ReportedDetail(r.id, r.past.value, r.simulated);
  }

  lemma ReportedDetail(id: string, p: Past, simulated: bool)
    requires PastOk(p)
    ensures var e := TerminalEvent(id, ResultOf(p), None, simulated);
            match p.ending
            case Done(report) => e.report == report && e.detail == ""
            case Stopped => e.report == NOTHING && Urgent(p.causes).Some? && e.detail == "io error: " + Urgent(p.causes).value
            case Broke(detail) => e.report == NOTHING && e.detail == detail
  {
    hide Classified;
  }

  /** The recorded causes are those of the moment the injection ended. */
  lemma PastIsThatMoment(ws: seq<World>, acts: seq<Action>, i: nat, t: nat)
    requires Behaviour(ws, acts) && i < |acts| && acts[i].Advance? && acts[i].t == t && acts[i].move.End?
    ensures t in ws[i].runs && t in ws[i + 1].runs
    ensures var r, now := ws[i].runs[t], ws[i].now;
            ws[i + 1].runs[t].past == Some(Past(acts[i].move.ending, Causes(
              r.cancelled || r.closed, r.timeout == 0 || now >= r.started + r.timeout, now >= r.beat + 3000)))
  {
  }

  // ----- a run that is misread -----

  /** The error of a latency_spike run whose manifest names the interface "CANCELLED". The manifest is
      accepted, as the name is nonempty and short enough; the chaos session then refuses it. */
  const UNLUCKY := RefusedIface("CANCELLED")

  /** How the worker wraps the session's refusal of an interface. */
  function RefusedIface(iface: string): string { ReasonText("interface out of scope: " + iface) }

  lemma UnluckyHasNoMarker()
    ensures !Contains("CANCELLED", "test") && !Contains("CANCELLED", "chaos")
    ensures !Contains("CANCELLED", "veth") && !Contains("CANCELLED", "dummy")
  {
    hide Contains;
    NoSubstring("CANCELLED", "test");
    NoSubstring("CANCELLED", "chaos");
    NoSubstring("CANCELLED", "veth");
    NoSubstring("CANCELLED", "dummy");
  }

  lemma UnluckyIfaceIsRefused()
    ensures !NetChaos.IfaceInScope("CANCELLED")
  {
    hide Contains;
    UnluckyHasNoMarker();
    assert "CANCELLED"[0] != 'l';
  }

  lemma UnluckySpecIsRefused(spec: NetChaos.NetChaosSpec)
    requires spec.iface == "CANCELLED" && NetScope.NetTargetInScope(spec.targetCidr)
    ensures NetChaos.Validate(spec) == Err(NetChaos.IfaceOutOfScope)
    ensures UNLUCKY == RefusedIface(spec.iface)
  {
    hide NetScope.NetTargetInScope, NetChaos.IfaceInScope, RefusedIface;
    UnluckyIfaceIsRefused();
  }

  /** The run the schedule below produces, at its end. */
  function UnluckyEvent(simulated: bool): RunnerEvent {
    RunnerEvent(Cancelled, "CANCELLED", "run-1", UNLUCKY, true, simulated, NOTHING)
  }

  /** One more step of a behaviour. */
  lemma Extended(ws: seq<World>, acts: seq<Action>, a: Action) returns (ws': seq<World>, acts': seq<Action>)
    requires Behaviour(ws, acts) && Enabled(ws[|acts|], a)
    ensures Behaviour(ws', acts') && |acts'| == |acts| + 1 && |ws'| == |acts'| + 1 && ws'[|acts'|] == Next(ws[|acts|], a)
  {
    hide Enabled, Next;
    ws', acts' := ws + [Next(ws[|acts|], a)], acts + [a];
    forall i | 0 <= i < |acts'| ensures Enabled(ws'[i], acts'[i]) && ws'[i + 1] == Next(ws'[i], acts'[i]) {
      if i < |acts| { assert ws'[i] == ws[i] && ws'[i + 1] == ws[i + 1] && acts'[i] == acts[i]; }
    }
  }

  /** The only run of the world moves. */
  function Alone(r: Run): World { World(Some(0), map[0 := r], true, 0) }

  lemma MovedAlone(ws: seq<World>, acts: seq<Action>, r: Run, move: Move) returns (ws': seq<World>, acts': seq<Action>)
    requires Behaviour(ws, acts) && ws[|acts|] == Alone(r) && CanMove(r, move, 0)
    ensures Behaviour(ws', acts') && ws'[|acts'|] == Alone(Moved(r, move, 0))
  {
    hide Behaviour, Moved, CanMove;
    ws', acts' := Extended(ws, acts, Advance(0, move));
    assert map[0 := r][0 := Moved(r, move, 0)] == map[0 := Moved(r, move, 0)];
  }

  lemma UnluckyIsMisread(c: Causes)
    requires !c.cancelled
    ensures Misread(UNLUCKY, c) && Classified(UNLUCKY) == (Cancelled, "CANCELLED")
  {
    assert UNLUCKY[34..] == "CANCELLED";
    assert Contains(UNLUCKY, "CANCELLED");
  }

  lemma Admitted(simulated: bool) returns (ws: seq<World>, acts: seq<Action>, r: Run)
    ensures Behaviour(ws, acts) && ws[|acts|] == Alone(r)
    ensures r == Run("run-1", "Queued", false, false, 0, 0, 60000, simulated, New, Absent, false, [], None)
  {
    hide Behaviour;
    ws, acts := NothingYet();
    r := Run("run-1", "Queued", false, false, 0, 0, 60000, simulated, New, Absent, false, [], None);
    ws, acts := Extended(ws, acts, Execute(0, "run-1", 60000, simulated));
    assert ws[|acts|] == Alone(r);
  }

  lemma NothingYet() returns (ws: seq<World>, acts: seq<Action>)
    ensures Behaviour(ws, acts) && |acts| == 0 && ws[0] == World(None, map[], true, 0)
  {
    ws, acts := [World(None, map[], true, 0)], [];
  }

  lemma Worked(simulated: bool) returns (ws: seq<World>, acts: seq<Action>, r: Run)
    ensures Behaviour(ws, acts) && ws[|acts|] == Alone(r)
    ensures r == Run("run-1", "Injecting", false, false, 0, 0, 60000, simulated, Working, Present, false, Announced("run-1")[..3], None)
  {
    hide Behaviour;
    ws, acts, r := Admitted(simulated);
    ws, acts := MovedAlone(ws, acts, r, Announce);
    r := Moved(r, Announce, 0);
    ws, acts := MovedAlone(ws, acts, r, CreateSandbox(None));
    r := Moved(r, CreateSandbox(None), 0);
    ws, acts := MovedAlone(ws, acts, r, Announce);
    r := Moved(r, Announce, 0);
    ws, acts := MovedAlone(ws, acts, r, Announce);
    r := Moved(r, Announce, 0);
    assert r.sent == Announced("run-1")[..3];
  }

  /** Nobody cancelled and the stream is open, yet the run reports CANCELLED: with the simulator as with
      the kernel backend. */
  lemma UnluckyErrorReportsCancel(simulated: bool) returns (ws: seq<World>, acts: seq<Action>)
    ensures Behaviour(ws, acts) && 0 in ws[|acts|].runs
    ensures var r := ws[|acts|].runs[0];
            && !r.cancelled && !r.closed && r.sent == Announced("run-1") + [UnluckyEvent(simulated)]
            && r.past.Some? && r.past.value.ending == Broke(UNLUCKY) && Urgent(r.past.value.causes).None?
            && !NamesCause(UnluckyEvent(simulated).state, r.past.value.causes)
  {
    hide Behaviour, Contains, Classified;
    var r;
    ws, acts, r := Worked(simulated);
    UnluckyIsMisread(Causes(false, false, false));
    ws, acts := MovedAlone(ws, acts, r, End(Broke(UNLUCKY), None));
    r := Moved(r, End(Broke(UNLUCKY), None), 0);
    ws, acts := MovedAlone(ws, acts, r, Announce);
    r := Moved(r, Announce, 0);
    ws, acts := MovedAlone(ws, acts, r, RemoveSandbox(None));
    r := Moved(r, RemoveSandbox(None), 0);
    ws, acts := MovedAlone(ws, acts, r, Conclude);
    r := Moved(r, Conclude, 0);
    ws, acts := MovedAlone(ws, acts, r, Move.Report);
    r := Moved(r, Move.Report, 0);
    assert r.sent == Announced("run-1") + [UnluckyEvent(simulated)];
  }
}
