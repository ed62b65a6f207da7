/** What leads a worker of the runner to its report, over whole runs: the ending of the injection, the two cleanup
    errors, and the health the runner shows afterwards; and what each request changes. */
module RunnerHistory {
  import opened Wrappers
  import opened RunnerEvents
  import opened RunnerService
  import opened RunnerProtocol

  // ----- the last move of a worker -----

  /** Requests and the clock touch nothing else of a run. */
  predicate SamePhase(a: Run, b: Run) { b == a.(cancelled := b.cancelled, closed := b.closed, beat := b.beat) }

  lemma OthersKeepPhase(w: World, a: Action, t: nat)
    requires Enabled(w, a) && t in Next(w, a).runs && !(a.Advance? && a.t == t) && a != Release(t)
    ensures Next(w, a).runs[t].pc.New? || (t in w.runs && SamePhase(w.runs[t], Next(w, a).runs[t]))
  {
    hide Moved, CanMove, TerminalState;
  }

  ghost predicate MovedAt(ws: seq<World>, acts: seq<Action>, j: nat, t: nat, after: Run)
    requires j < |ws| && j < |acts|
  {
    && acts[j].Advance? && acts[j].t == t && t in ws[j].runs && CanMove(ws[j].runs[t], acts[j].move, ws[j].now)
    && SamePhase(Moved(ws[j].runs[t], acts[j].move, ws[j].now), after)
  }

  lemma AdvanceMoves(w: World, a: Action)
    requires Enabled(w, a) && a.Advance?
    ensures a.t in w.runs && CanMove(w.runs[a.t], a.move, w.now)
    ensures a.t in Next(w, a).runs && Next(w, a).runs[a.t] == Moved(w.runs[a.t], a.move, w.now)
  {
    hide Moved, CanMove;
  }

  lemma ReleaseReleases(w: World, t: nat)
    requires Enabled(w, Release(t))
    ensures t in Next(w, Release(t)).runs && Next(w, Release(t)).runs[t].pc.Released?
  {
  }

  /** A run stands where its worker's last move left it. */
  lemma {:induction false} LastMove(ws: seq<World>, acts: seq<Action>, i: nat, t: nat) returns (j: nat)
    requires Behaviour(ws, acts) && i < |ws| && t in ws[i].runs && !ws[i].runs[t].pc.New? && !ws[i].runs[t].pc.Released?
    ensures j < i && MovedAt(ws, acts, j, t, ws[i].runs[t])
  {
    hide Enabled, Next, Moved, CanMove;
    if i == 0 { assert false; }
    else {
      j := i - 1;
      if acts[j].Advance? && acts[j].t == t {
        AdvanceMoves(ws[j], acts[j]);
      } else {
        if acts[j] == Release(t) { ReleaseReleases(ws[j], t); }
        OthersKeepPhase(ws[j], acts[j], t);
        j := LastMove(ws, acts, j, t);
      }
    }
  }

  // ----- the report -----

  lemma IntoReporting(r: Run, move: Move, now: nat)
    requires CanMove(r, move, now) && Moved(r, move, now).pc.Reporting?
    ensures move == Conclude && r.pc.Concluding?
    ensures Moved(r, move, now).pc.event == TerminalEvent(r.id, r.pc.result, r.pc.error, r.simulated)
    ensures Moved(r, move, now).id == r.id && Moved(r, move, now).simulated == r.simulated
  {
    hide TerminalEvent, ResultOf, CausesOf;
  }

  lemma IntoConcluding(r: Run, move: Move, now: nat)
    requires CanMove(r, move, now) && Moved(r, move, now).pc.Concluding?
    ensures move.RemoveSandbox? && r.pc.Reverting?
    ensures var pc := Moved(r, move, now).pc;
            pc.result == r.pc.result && pc.error == if move.error.Some? then move.error else r.pc.inner
    ensures Moved(r, move, now).id == r.id && Moved(r, move, now).simulated == r.simulated
  {
    hide TerminalEvent, ResultOf, CausesOf;
  }

  lemma IntoReverting(r: Run, move: Move, now: nat)
    requires CanMove(r, move, now) && Moved(r, move, now).pc.Reverting?
    ensures move == Announce && r.pc.Ended? && r.pc.result == Moved(r, move, now).pc.result && r.pc.inner == Moved(r, move, now).pc.inner
    ensures Moved(r, move, now).id == r.id && Moved(r, move, now).simulated == r.simulated
  {
    hide TerminalEvent, ResultOf, CausesOf;
  }

  lemma IntoEnded(r: Run, move: Move, now: nat)
    requires CanMove(r, move, now) && Moved(r, move, now).pc.Ended?
    ensures move.End? && Moved(r, move, now).pc.inner == move.inner
    ensures ResultTells(Moved(r, move, now).pc.result, move.ending)
    ensures Moved(r, move, now).id == r.id && Moved(r, move, now).simulated == r.simulated
  {
    hide TerminalEvent, ResultOf, PastOk, ResultTells;
    if move.End? { EndedResult(r, move.ending, now); }
  }

  lemma EndedResult(r: Run, ending: Ending, now: nat)
    requires CanMove(r, End(ending, None), now)
    ensures PastOk(Past(ending, CausesOf(r, now)))
    ensures ResultTells(ResultOf(Past(ending, CausesOf(r, now))), ending)
  {
    hide ReasonText, ResultOf, ResultTells;
    assert PastOk(Past(ending, CausesOf(r, now)));
    ResultMeans(Past(ending, CausesOf(r, now)));
  }

  /** The event of a worker with a sandbox, from what happened to it: a failed removal of the sandbox outweighs a
      failed cleanup of the injection, and either outweighs how the injection ended. */
  ghost predicate Recounts(e: RunnerEvent, id: string, simulated: bool, ending: Ending, inner: Option<string>, error: Option<string>) {
    && e.runId == id && e.simulated == simulated && (e.cleanupConfirmed <==> inner.None? && error.None?)
    && (error.Some? || inner.Some? ==>
          && e.kind == Failed && e.state == "CLEANUP_FAILED" && e.report == Report.Report(0, 0)
          && e.detail == if error.Some? then error.value else inner.value)
    && (e.cleanupConfirmed ==>
          && (e.kind == Completed <==> ending.Done?)
          && match ending
             case Done(report) => e.report == report && e.detail == ""
             case Broke(detail) => e.report == Report.Report(0, 0) && e.detail == detail
             case Stopped => e.report == Report.Report(0, 0))
  }

  ghost predicate ResultTells(result: Result<Report, string>, ending: Ending) {
    match ending
    case Done(report) => result == Ok(report)
    case Broke(detail) => result == Err(detail)
    case Stopped => result.Err?
  }

  lemma ResultMeans(past: Past)
    requires PastOk(past)
    ensures ResultTells(ResultOf(past), past.ending)
  {
    hide ReasonText, Urgent;
  }

  lemma EventTells(id: string, simulated: bool, result: Result<Report, string>, ending: Ending, inner: Option<string>, error: Option<string>)
    requires ResultTells(result, ending)
    ensures Recounts(TerminalEvent(id, result, if error.Some? then error else inner, simulated), id, simulated, ending, inner, error)
  {
    hide TerminalEvent, Upper, TerminalState, Ends;
    TerminalEventIsHonest(id, result, if error.Some? then error else inner, simulated);
  }

  /** In every run of the runner, the event a worker reports tells how its injection ended at an earlier step and
      what the two cleanups after it came to. */
  lemma ReportTells(ws: seq<World>, acts: seq<Action>, i: nat, t: nat) returns (a: nat, b: nat)
    requires Behaviour(ws, acts) && i < |acts| && acts[i] == Advance(t, Move.Report)
    ensures a < b < i && acts[a].Advance? && acts[a].t == t && acts[a].move.End?
    ensures acts[b].Advance? && acts[b].t == t && acts[b].move.RemoveSandbox?
    ensures t in ws[i].runs && t in ws[i + 1].runs
    ensures var (r, r') := (ws[i].runs[t], ws[i + 1].runs[t]);
            && r'.sent != [] && r'.sent[..|r'.sent| - 1] == r.sent && r'.id == r.id
            && Recounts(r'.sent[|r'.sent| - 1], r.id, r.simulated, acts[a].move.ending, acts[a].move.inner, acts[b].move.error)
  {
    hide Enabled, Next, Moved, CanMove, TerminalEvent, ResultTells, Recounts;
    AdvanceMoves(ws[i], acts[i]);
    var r := ws[i].runs[t];
    ReportIs(r, ws[i].now);
    var d := LastMove(ws, acts, i, t);
    IntoReporting(ws[d].runs[t], acts[d].move, ws[d].now);
    b := LastMove(ws, acts, d, t);
    IntoConcluding(ws[b].runs[t], acts[b].move, ws[b].now);
    var c := LastMove(ws, acts, b, t);
    IntoReverting(ws[c].runs[t], acts[c].move, ws[c].now);
    a := LastMove(ws, acts, c, t);
    IntoEnded(ws[a].runs[t], acts[a].move, ws[a].now);
    EventTells(r.id, r.simulated, ws[c].runs[t].pc.result, acts[a].move.ending, acts[a].move.inner, acts[b].move.error);
  }

  lemma ReportIs(r: Run, now: nat)
    requires CanMove(r, Move.Report, now)
    ensures r.pc.Reporting?
    ensures Moved(r, Move.Report, now) == r.(sent := r.sent + [r.pc.event], pc := Returned(r.pc.event.cleanupConfirmed))
  {
  }

  // ----- the runner's health -----

  lemma IntoReturned(r: Run, move: Move, now: nat)
    requires RunOk(r) && CanMove(r, move, now) && Moved(r, move, now).pc.Returned?
    ensures var r' := Moved(r, move, now);
            r'.pc.cleaned <==> !r'.panicked && r'.sent != [] && r'.sent[|r'.sent| - 1].cleanupConfirmed
  {
    hide TerminalOk, TerminalEvent, ResultOf, Announces, Reported;
  }

  /** After a worker is gone the runner shows itself healthy exactly if that worker did not panic and the last event
      it sent confirmed the cleanup. */
  lemma HealthFollowsCleanup(ws: seq<World>, acts: seq<Action>, i: nat, t: nat)
    requires Behaviour(ws, acts) && i < |acts| && acts[i] == Release(t)
    ensures t in ws[i + 1].runs
    ensures var r := ws[i + 1].runs[t];
            ws[i + 1].healthy <==> !r.panicked && r.sent != [] && r.sent[|r.sent| - 1].cleanupConfirmed
  {
    hide Moved, RunOk, CanMove, ServiceInv;
    var j := LastMove(ws, acts, i, t);
    Reachable(ws, acts, j);
    RunIsOk(ws[j], t);
    IntoReturned(ws[j].runs[t], acts[j].move, ws[j].now);
  }

  // ----- requests -----

  /** An execution is refused exactly while the slot's run has not reached a terminal state; a cancel and a heartbeat
      reach the named slot holder alone; and nothing else is changed. */
  lemma RequestsExactly(ws: seq<World>, acts: seq<Action>, i: nat)
    requires Behaviour(ws, acts) && i < |acts|
    ensures var (w, w') := (ws[i], ws[i + 1]);
            var holder := if w.slot.Some? && w.slot.value in w.runs then Some(w.runs[w.slot.value]) else None;
            match acts[i]
            case Execute(t, id, timeout, simulated) =>
              if holder.Some? && holder.value.state !in ENDED then w' == w
              else w' == w.(slot := Some(t), runs := w.runs[t :=
                     Run(id, "Queued", false, false, w.now, w.now, timeout, simulated, New, Absent, false, [], None)])
            case Cancel(id) =>
              w' == if holder.Some? && holder.value.id == id
                    then w.(runs := w.runs[w.slot.value := holder.value.(cancelled := true)]) else w
            case Beat(id) =>
              w' == if holder.Some? && holder.value.id == id
                    then w.(runs := w.runs[w.slot.value := holder.value.(beat := w.now)]) else w
            case Drop(t) => t in w.runs && w' == w.(runs := w.runs[t := w.runs[t].(closed := true)])
            case Pass(ms) => w' == w.(now := w.now + ms)
            case Advance(t, _) => w' == w.(runs := w'.runs) && t in w'.runs && w'.runs == w.runs[t := w'.runs[t]]
            case Release(t) =>
              && t in w.runs && w' == w.(runs := w.runs[t := w.runs[t].(pc := Released)], slot := w'.slot, healthy := w'.healthy)
              && w'.slot == if w.slot == Some(t) then None else w.slot
  {
    hide Moved, CanMove;
  }

  // ----- nothing gets stuck -----

  /** A worker is never stuck: it goes on with every outcome of its sandbox, its injection and its cleanups, it may panic
      until it is done, and it completes or stops as its checks find no reason or one. */
  lemma WorkerIsNeverStuck(w: World, t: nat)
    requires t in w.runs
    ensures var (pc, reason) := (w.runs[t].pc, Stopping(w.runs[t], w.now));
            && (pc.New? || pc.Armed? || pc.Injecting? || pc.Ended? ==> Enabled(w, Advance(t, Announce)))
            && (pc.Validated? ==> forall error :: Enabled(w, Advance(t, CreateSandbox(error))))
            && (pc.Working? ==>
                  && (forall detail, inner :: Enabled(w, Advance(t, End(Broke(detail), inner))))
                  && (forall report, inner :: Enabled(w, Advance(t, End(Done(report), inner))) <==> reason.None?)
                  && (forall inner :: Enabled(w, Advance(t, End(Stopped, inner))) <==> reason.Some?))
            && (pc.Reverting? ==> forall error :: Enabled(w, Advance(t, RemoveSandbox(error))))
            && (pc.Concluding? ==> Enabled(w, Advance(t, Conclude)))
            && (pc.Reporting? ==> Enabled(w, Advance(t, Move.Report)))
            && (pc.Returned? ==> Enabled(w, Release(t)))
            && (!pc.Returned? && !pc.Released? ==> Enabled(w, Advance(t, Panic)))
    ensures var r := w.runs[t];
            Stopping(r, w.now).Some? <==>
              r.cancelled || r.closed || r.timeout == 0 || w.now >= r.started + r.timeout || w.now >= r.beat + 3000
  {
  }
}
