/** Folding a runner's event stream into an outcome, and the outcome into the terminal audit commit
    (crates/asmodeus-control-plane/src/dispatch.rs, execution.rs). */
module Dispatch {
  import opened Wrappers
  import R = Records
  import opened RunnerEvents
  import opened ScenarioExecution

  datatype CancelReply = CancelAccepted | CancelNotFound | CancelFailed

  /** What the dispatch loop waits for next. `cancelRequested`, `beatDue` and the replies are what the tick
      finds when it asks; the reply of a request that is not sent is not looked at. */
  datatype Input =
    | Message(event: RunnerEvent)
    | EndOfStream
    | StreamError
    | Tick(cancelRequested: bool, reply: CancelReply, beatDue: bool, beatAnswered: bool)
    | DeadlinePassed

  datatype Outcome = Outcome(
    finalState: string, report: Report, completed: bool, terminal: bool, simulated: bool,
    cleanupConfirmed: bool, detail: string, rejected: Option<string>)

  datatype DispatchError = RunIdMismatch | StreamFailed | CancelUnconfirmed | LeaseLost | DeadlineExceeded

  const NO_OUTCOME := Outcome("", NOTHING, false, false, false, false, "", None)

  // ----- the specification of the loop -----

  function TerminalOutcome(e: RunnerEvent): Outcome {
    Outcome(Upper(e.state), e.report, e.kind == Completed, true, e.simulated, e.cleanupConfirmed, e.detail,
            if e.kind == Rejected then Some(e.detail) else None)
  }

  function TickFails(t: Input, sent: bool): Option<DispatchError>
    requires t.Tick?
  {
    if t.cancelRequested && !sent && t.reply == CancelFailed then Some(CancelUnconfirmed)
    else if t.beatDue && !t.beatAnswered then Some(LeaseLost)
    else None
  }

  function TickSent(t: Input, sent: bool): bool
    requires t.Tick?
  {
    sent || (t.cancelRequested && t.reply == CancelAccepted)
  }

  /** The first input that ends the loop decides; if none does, the outer deadline will. */
  function Folded(runId: string, inputs: seq<Input>, state: string, sent: bool): Result<Outcome, DispatchError> {
    if inputs == [] then Err(DeadlineExceeded)
    else
      match inputs[0]
      case Message(e) =>
        if e.runId != runId then Err(RunIdMismatch)
        else if Ends(e.kind) then Ok(TerminalOutcome(e))
        else Folded(runId, inputs[1..], Upper(e.state), sent)
      case EndOfStream => Ok(NO_OUTCOME.(finalState := state))
      case StreamError => Err(StreamFailed)
      case DeadlinePassed => Err(DeadlineExceeded)
      case Tick(_, _, _, _) =>
        match TickFails(inputs[0], sent)
        case Some(e) => Err(e)
        case None => Folded(runId, inputs[1..], state, TickSent(inputs[0], sent))
  }

  /** The dispatch loop: `item` and `tick` branches in the order the select resolves them. */
  method DispatchControlled(runId: string, inputs: seq<Input>) returns (r: Result<Outcome, DispatchError>)
    ensures r == Folded(runId, inputs, "", false)
    ensures forall n: nat | EndsAt(runId, inputs, n) :: Decided(runId, inputs, n, r)
    ensures (forall n: nat :: !EndsAt(runId, inputs, n)) ==> r == Err(DeadlineExceeded)
  {
    FoldDecides(runId, inputs);
    hide EndsAt, Decided;
    var outcome := NO_OUTCOME;
    var cancelSent := false;
    var i := 0;
    while i < |inputs|
      invariant i <= |inputs|
      invariant outcome == NO_OUTCOME.(finalState := outcome.finalState)
      invariant Folded(runId, inputs, "", false) == Folded(runId, inputs[i..], outcome.finalState, cancelSent)
    {
      var input := inputs[i];
      assert inputs[i..][1..] == inputs[i + 1..];
      i := i + 1;
      match input
      case Message(e) =>
        if e.runId != runId { return Err(RunIdMismatch); }
        outcome := outcome.(finalState := Upper(e.state));
        if Ends(e.kind) {
          outcome := outcome.(terminal := true, simulated := e.simulated, completed := e.kind == Completed,
                              cleanupConfirmed := e.cleanupConfirmed, report := e.report, detail := e.detail);
          if e.kind == Rejected { outcome := outcome.(rejected := Some(e.detail)); }
          return Ok(outcome);
        }
      case EndOfStream => return Ok(outcome);
      case StreamError => return Err(StreamFailed);
      case DeadlinePassed => return Err(DeadlineExceeded);
      case Tick(cancelRequested, reply, beatDue, beatAnswered) =>
        if cancelRequested && !cancelSent {
          match reply
          case CancelAccepted => cancelSent := true;
          case CancelNotFound =>
          case CancelFailed => return Err(CancelUnconfirmed);
        }
        if beatDue && !beatAnswered { return Err(LeaseLost); }
    }
    r := Err(DeadlineExceeded);
  }

  // ----- what the fold believes -----

  /** The stream's first terminal event, all of it for this run and nothing broken before it. */
  predicate Concludes(runId: string, inputs: seq<Input>, n: nat) {
    && n < |inputs| && inputs[n].Message? && inputs[n].event.runId == runId && Ends(inputs[n].event.kind)
    && forall i | 0 <= i < n ::
         inputs[i].Tick? || (inputs[i].Message? && inputs[i].event.runId == runId && !Ends(inputs[i].event.kind))
  }

  /** A terminal outcome is exactly one terminal event of this run id: nothing an end of stream, a foreign
      id, a failed lease, an unconfirmed cancel or a deadline can produce. */
  lemma {:induction false} TerminalNeedsTerminalEvent(runId: string, inputs: seq<Input>, state: string, sent: bool)
      returns (n: nat)
    requires Folded(runId, inputs, state, sent).Ok? && Folded(runId, inputs, state, sent).value.terminal
    ensures Concludes(runId, inputs, n)
    ensures Folded(runId, inputs, state, sent).value == TerminalOutcome(inputs[n].event)
  {
    n := 0;
    if inputs[0].Tick? {
      var m := TerminalNeedsTerminalEvent(runId, inputs[1..], state, TickSent(inputs[0], sent));
      n := m + 1;
      Shifted(runId, inputs, m);
    } else if inputs[0].Message? && !Ends(inputs[0].event.kind) {
      var m := TerminalNeedsTerminalEvent(runId, inputs[1..], Upper(inputs[0].event.state), sent);
      n := m + 1;
      Shifted(runId, inputs, m);
    }
  }

  lemma Shifted(runId: string, inputs: seq<Input>, m: nat)
    requires inputs != [] && Concludes(runId, inputs[1..], m)
    requires inputs[0].Tick? || (inputs[0].Message? && inputs[0].event.runId == runId && !Ends(inputs[0].event.kind))
    ensures Concludes(runId, inputs, m + 1) && inputs[m + 1] == inputs[1..][m]
  {
    forall i | 0 < i < m + 1
      ensures inputs[i].Tick? || (inputs[i].Message? && inputs[i].event.runId == runId && !Ends(inputs[i].event.kind))
    {
      assert inputs[i] == inputs[1..][i - 1];
    }
  }

  predicate SentBefore(inputs: seq<Input>, i: nat) {
    exists j | 0 <= j < i && j < |inputs| :: inputs[j].Tick? && inputs[j].cancelRequested && inputs[j].reply == CancelAccepted
  }

  predicate TickHolds(inputs: seq<Input>, i: nat, sent: bool)
    requires i < |inputs|
  {
    inputs[i].Tick? ==>
      && (inputs[i].beatDue ==> inputs[i].beatAnswered)
      && (inputs[i].cancelRequested && inputs[i].reply == CancelFailed ==> sent || SentBefore(inputs, i))
  }

  /** No lease heartbeat went unanswered, and no cancel failed before one was accepted. */
  predicate TicksHold(inputs: seq<Input>, n: nat, sent: bool)
    requires n <= |inputs|
  {
    forall i | 0 <= i < n :: TickHolds(inputs, i, sent)
  }

  lemma SentShift(inputs: seq<Input>, i: nat)
    requires 0 < i < |inputs|
    ensures SentBefore(inputs, i) <==>
            SentBefore(inputs[1..], i - 1) || (inputs[0].Tick? && inputs[0].cancelRequested && inputs[0].reply == CancelAccepted)
  {
    if j :| 0 <= j < i && j < |inputs| && inputs[j].Tick? && inputs[j].cancelRequested && inputs[j].reply == CancelAccepted {
      if j > 0 { assert inputs[1..][j - 1] == inputs[j]; }
    }
    if j :| 0 <= j < i - 1 && j < |inputs[1..]| && inputs[1..][j].Tick? && inputs[1..][j].cancelRequested
            && inputs[1..][j].reply == CancelAccepted {
      assert inputs[j + 1] == inputs[1..][j];
    }
  }

  lemma TicksShift(inputs: seq<Input>, n: nat, sent: bool)
    requires 0 < n <= |inputs| && (inputs[0].Tick? || inputs[0].Message?)
    ensures var after := if inputs[0].Tick? then TickSent(inputs[0], sent) else sent;
            TicksHold(inputs, n, sent) <==> TickHolds(inputs, 0, sent) && TicksHold(inputs[1..], n - 1, after)
  {
    hide SentBefore;
    var after := if inputs[0].Tick? then TickSent(inputs[0], sent) else sent;
    forall i | 0 < i < n ensures TickHolds(inputs, i, sent) <==> TickHolds(inputs[1..], i - 1, after) {
      SentShift(inputs, i);
    }
    if TicksHold(inputs, n, sent) {
      forall i | 0 <= i < n - 1 ensures TickHolds(inputs[1..], i, after) { assert TickHolds(inputs, i + 1, sent); }
    }
    if TickHolds(inputs, 0, sent) && TicksHold(inputs[1..], n - 1, after) {
      forall i | 0 <= i < n ensures TickHolds(inputs, i, sent) { if i > 0 { assert TickHolds(inputs[1..], i - 1, after); } }
    }
  }

  /** A concluding event is believed exactly when the lease and the cancels before it held. */
  lemma {:induction false} BelievedExactlyWhen(runId: string, inputs: seq<Input>, state: string, sent: bool, n: nat)
    requires Concludes(runId, inputs, n)
    ensures Folded(runId, inputs, state, sent) == Ok(TerminalOutcome(inputs[n].event)) <==> TicksHold(inputs, n, sent)
  {
    hide TicksHold, SentBefore;
    if n == 0 {
      assert TicksHold(inputs, 0, sent) by { NoTicks(inputs, sent); }
    } else {
      ConcludesTail(runId, inputs, n);
      TicksShift(inputs, n, sent);
      if inputs[0].Message? {
        BelievedExactlyWhen(runId, inputs[1..], Upper(inputs[0].event.state), sent, n - 1);
      } else {
        NotSentAtFirst(inputs);
        BelievedExactlyWhen(runId, inputs[1..], state, TickSent(inputs[0], sent), n - 1);
      }
    }
  }

  lemma NoTicks(inputs: seq<Input>, sent: bool)
    ensures TicksHold(inputs, 0, sent)
  {
  }

  lemma NotSentAtFirst(inputs: seq<Input>)
    ensures !SentBefore(inputs, 0)
  {
  }

  lemma ConcludesTail(runId: string, inputs: seq<Input>, n: nat)
    requires n > 0 && Concludes(runId, inputs, n)
    ensures Concludes(runId, inputs[1..], n - 1) && inputs[1..][n - 1] == inputs[n]
  {
    forall i | 0 <= i < n - 1
      ensures inputs[1..][i].Tick? || (inputs[1..][i].Message? && inputs[1..][i].event.runId == runId && !Ends(inputs[1..][i].event.kind))
    {
      assert inputs[1..][i] == inputs[i + 1];
    }
  }

  // ----- which input decides, and what it decides -----

  /** Input i does not end the loop: a tick whose lease and cancel hold, or an event of this run that ends nothing. */
  predicate Quiet(runId: string, inputs: seq<Input>, i: nat)
    requires i < |inputs|
  {
    match inputs[i]
    case Message(e) => e.runId == runId && (e.kind == Unspecified || e.kind == StateChanged)
    case Tick(_, _, _, _) => TickHolds(inputs, i, false)
    case _ => false
  }

  /** Input n is the first that ends the loop. */
  predicate EndsAt(runId: string, inputs: seq<Input>, n: nat) {
    n < |inputs| && !Quiet(runId, inputs, n) && forall i | 0 <= i < n :: Quiet(runId, inputs, i)
  }

  /** The outcome carries exactly what the terminal event says. */
  predicate Carries(out: Outcome, e: RunnerEvent) {
    && out.terminal && out.finalState == Upper(e.state) && out.detail == e.detail && out.report == e.report
    && out.simulated == e.simulated && out.cleanupConfirmed == e.cleanupConfirmed
    && (out.completed <==> e.kind == Completed)
    && (if e.kind == Rejected then out.rejected == Some(e.detail) else out.rejected.None?)
  }

  /** The state last reported before input n, or `state` if none was. */
  function StateBefore(inputs: seq<Input>, n: nat, state: string): string
    requires n <= |inputs|
  {
    if n == 0 then state
    else if inputs[n - 1].Message? then Upper(inputs[n - 1].event.state)
    else StateBefore(inputs, n - 1, state)
  }

  lemma {:induction false} StateShift(inputs: seq<Input>, n: nat, state: string)
    requires 0 < n <= |inputs|
    ensures StateBefore(inputs, n, state) ==
            StateBefore(inputs[1..], n - 1, if inputs[0].Message? then Upper(inputs[0].event.state) else state)
  {
    hide Upper;
    if n > 1 && !inputs[n - 1].Message? { StateShift(inputs, n - 1, state); }
  }

  /** What the loop returns when input n ends it, given that the inputs before it were quiet. */
  ghost predicate Decided(runId: string, inputs: seq<Input>, n: nat, r: Result<Outcome, DispatchError>)
    requires n < |inputs|
  {
    match inputs[n]
    case Message(e) =>
      if e.runId != runId then r == Err(RunIdMismatch)
      else e.kind != Unspecified && e.kind != StateChanged && r.Ok? && Carries(r.value, e)
    case EndOfStream =>
      r.Ok? && !r.value.terminal && !r.value.completed && !r.value.simulated && !r.value.cleanupConfirmed && r.value.rejected.None?
      && r.value.detail == "" && r.value.report == Report(0, 0) && r.value.finalState == StateBefore(inputs, n, "")
    case StreamError => r == Err(StreamFailed)
    case DeadlinePassed => r == Err(DeadlineExceeded)
    case Tick(cancelRequested, reply, beatDue, beatAnswered) =>
      if cancelRequested && reply == CancelFailed && !SentBefore(inputs, n) then r == Err(CancelUnconfirmed)
      else r == Err(LeaseLost) && beatDue && !beatAnswered
  }

  /** As Decided and EndsAt, once a state was reported, and cancels were accepted or not, before the first input. */
  ghost predicate DecidedFrom(runId: string, inputs: seq<Input>, n: nat, state: string, sent: bool,
                              r: Result<Outcome, DispatchError>)
    requires n < |inputs|
  {
    match inputs[n]
    case Message(e) => if e.runId != runId then r == Err(RunIdMismatch) else r.Ok? && Carries(r.value, e)
    case EndOfStream => r == Ok(NO_OUTCOME.(finalState := StateBefore(inputs, n, state)))
    case StreamError => r == Err(StreamFailed)
    case DeadlinePassed => r == Err(DeadlineExceeded)
    case Tick(cancelRequested, reply, beatDue, beatAnswered) =>
      r == Err(if cancelRequested && reply == CancelFailed && !sent && !SentBefore(inputs, n) then CancelUnconfirmed else LeaseLost)
  }

  predicate QuietFrom(runId: string, inputs: seq<Input>, i: nat, sent: bool)
    requires i < |inputs|
  {
    match inputs[i]
    case Message(e) => e.runId == runId && !Ends(e.kind)
    case Tick(_, _, _, _) => TickHolds(inputs, i, sent)
    case _ => false
  }

  predicate EndsFrom(runId: string, inputs: seq<Input>, n: nat, sent: bool) {
    n < |inputs| && !QuietFrom(runId, inputs, n, sent) && forall i | 0 <= i < n :: QuietFrom(runId, inputs, i, sent)
  }

  lemma QuietShift(runId: string, inputs: seq<Input>, i: nat, sent: bool)
    requires 0 < i < |inputs| && (inputs[0].Tick? || inputs[0].Message?)
    ensures var after := if inputs[0].Tick? then TickSent(inputs[0], sent) else sent;
            QuietFrom(runId, inputs, i, sent) <==> QuietFrom(runId, inputs[1..], i - 1, after)
  {
    hide SentBefore;
    SentShift(inputs, i);
  }

  lemma EndsShift(runId: string, inputs: seq<Input>, n: nat, sent: bool)
    requires EndsFrom(runId, inputs, n, sent) && n > 0
    ensures var after := if inputs[0].Tick? then TickSent(inputs[0], sent) else sent;
            EndsFrom(runId, inputs[1..], n - 1, after) && inputs[1..][n - 1] == inputs[n]
  {
    hide QuietFrom;
    assert QuietFrom(runId, inputs, 0, sent);
    QuietIsTickOrMessage(runId, inputs, 0, sent);
    forall i | 0 < i <= n { QuietShift(runId, inputs, i, sent); }
    var after := if inputs[0].Tick? then TickSent(inputs[0], sent) else sent;
    forall i | 0 <= i < n - 1 ensures QuietFrom(runId, inputs[1..], i, after) { assert QuietFrom(runId, inputs, i + 1, sent); }
  }

  lemma QuietIsTickOrMessage(runId: string, inputs: seq<Input>, i: nat, sent: bool)
    requires i < |inputs| && QuietFrom(runId, inputs, i, sent)
    ensures inputs[i].Tick? || inputs[i].Message?
  {
  }

  lemma FirstEnds(runId: string, inputs: seq<Input>, state: string, sent: bool)
    requires EndsFrom(runId, inputs, 0, sent)
    ensures DecidedFrom(runId, inputs, 0, state, sent, Folded(runId, inputs, state, sent))
  {
    NotSentAtFirst(inputs);
  }

  lemma FirstQuiet(runId: string, inputs: seq<Input>, state: string, sent: bool)
    requires inputs != [] && QuietFrom(runId, inputs, 0, sent)
    ensures Folded(runId, inputs, state, sent) ==
            if inputs[0].Tick? then Folded(runId, inputs[1..], state, TickSent(inputs[0], sent))
            else Folded(runId, inputs[1..], Upper(inputs[0].event.state), sent)
  {
    NotSentAtFirst(inputs);
  }

  lemma {:induction false} FoldDecidesFrom(runId: string, inputs: seq<Input>, state: string, sent: bool, n: nat)
    requires EndsFrom(runId, inputs, n, sent)
    ensures DecidedFrom(runId, inputs, n, state, sent, Folded(runId, inputs, state, sent))
  {
    hide QuietFrom, SentBefore, Folded, Carries, StateBefore;
    if n == 0 {
      FirstEnds(runId, inputs, state, sent);
    } else {
      EndsShift(runId, inputs, n, sent);
      assert QuietFrom(runId, inputs, 0, sent);
      QuietIsTickOrMessage(runId, inputs, 0, sent);
      FirstQuiet(runId, inputs, state, sent);
      SentShift(inputs, n);
      StateShift(inputs, n, state);
      if inputs[0].Tick? { FoldDecidesFrom(runId, inputs[1..], state, TickSent(inputs[0], sent), n - 1); }
      else { FoldDecidesFrom(runId, inputs[1..], Upper(inputs[0].event.state), sent, n - 1); }
    }
  }

  lemma {:induction false} NothingEndsFrom(runId: string, inputs: seq<Input>, state: string, sent: bool)
    requires forall i | 0 <= i < |inputs| :: QuietFrom(runId, inputs, i, sent)
    ensures Folded(runId, inputs, state, sent) == Err(DeadlineExceeded)
  {
    if inputs != [] {
      hide QuietFrom, SentBefore, Folded;
      assert QuietFrom(runId, inputs, 0, sent);
      QuietIsTickOrMessage(runId, inputs, 0, sent);
      FirstQuiet(runId, inputs, state, sent);
      var after := if inputs[0].Tick? then TickSent(inputs[0], sent) else sent;
      forall i | 0 <= i < |inputs[1..]| ensures QuietFrom(runId, inputs[1..], i, after) { QuietShift(runId, inputs, i + 1, sent); }
      NothingEndsFrom(runId, inputs[1..], if inputs[0].Tick? then state else Upper(inputs[0].event.state), after);
    }
  }

  lemma QuietIs(runId: string, inputs: seq<Input>, i: nat)
    requires i < |inputs|
    ensures Quiet(runId, inputs, i) <==> QuietFrom(runId, inputs, i, false)
  {
    hide SentBefore;
  }

  lemma DecidedIs(runId: string, inputs: seq<Input>, n: nat, r: Result<Outcome, DispatchError>)
    requires n < |inputs| && !QuietFrom(runId, inputs, n, false) && DecidedFrom(runId, inputs, n, "", false, r)
    ensures Decided(runId, inputs, n, r)
  {
    hide SentBefore;
  }

  /** What the dispatch loop returns on every input: the first input that is not quiet decides, and what it
      decides is read off that input alone; if all are quiet the deadline decides. */
  lemma FoldDecides(runId: string, inputs: seq<Input>)
    ensures forall n: nat | EndsAt(runId, inputs, n) :: Decided(runId, inputs, n, Folded(runId, inputs, "", false))
    ensures (forall n: nat :: !EndsAt(runId, inputs, n)) ==> Folded(runId, inputs, "", false) == Err(DeadlineExceeded)
  {
    hide Quiet, QuietFrom, Decided, DecidedFrom, Folded;
    forall i | 0 <= i < |inputs| { QuietIs(runId, inputs, i); }
    forall n: nat | EndsAt(runId, inputs, n)
      ensures Decided(runId, inputs, n, Folded(runId, inputs, "", false))
    {
      FoldDecidesFrom(runId, inputs, "", false, n);
      DecidedIs(runId, inputs, n, Folded(runId, inputs, "", false));
    }
    if forall n: nat :: !EndsAt(runId, inputs, n) {
      AllQuiet(runId, inputs, |inputs|);
      NothingEndsFrom(runId, inputs, "", false);
    }
  }

  lemma {:induction false} AllQuiet(runId: string, inputs: seq<Input>, n: nat)
    requires n <= |inputs| && forall m: nat :: !EndsAt(runId, inputs, m)
    ensures forall i | 0 <= i < n :: Quiet(runId, inputs, i)
  {
    hide Quiet;
    if n > 0 {
      AllQuiet(runId, inputs, n - 1);
      assert !EndsAt(runId, inputs, n - 1);
    }
  }

  // ----- the terminal audit commit -----

  function StatusOf(state: string): R.Status {
    if state == "QUEUED" then R.Queued
    else if state == "RUNNING" then R.Running
    else if state == "COMPLETED" then R.Status.Completed
    else if state == "FAILED" then R.Status.Failed
    else if state == "CANCELLED" then R.Status.Cancelled
    else if state == "INTERRUPTED" then R.Interrupted
    else R.OtherStatus(state)
  }

  function Detail(detail: string): Option<string> {
    if detail == "" then None else Some(detail)
  }

  /** The run failed although the dispatch returned an outcome. */
  predicate Incomplete(mode: R.ExecutionMode, out: Outcome) {
    out.rejected.Some? || !out.terminal || (mode == R.RunnerMode && out.completed && !out.cleanupConfirmed)
  }

  function Settled(mode: R.ExecutionMode, r: Result<Outcome, DispatchError>, message: string): Settlement {
    match r
    case Err(_) => Settlement(R.Status.Failed, false, mode == R.SimulatedMode, true, Detail(message))
    case Ok(out) =>
      Settlement(if Incomplete(mode, out) then R.Status.Failed else StatusOf(out.finalState),
                 out.cleanupConfirmed, out.simulated, Incomplete(mode, out), Detail(out.detail))
  }

  /** What the audit says after a runner execution. */
  function Audited(queued: R.AuditRecord, runId: string, inputs: seq<Input>, message: string): R.AuditRecord {
    SettledRecord(queued, R.RunnerMode, Settled(R.RunnerMode, Folded(runId, inputs, "", false), message))
  }

  /** The event that makes the audit say COMPLETED. */
  predicate Convincing(e: RunnerEvent) {
    Ends(e.kind) && e.kind != Rejected && Upper(e.state) == "COMPLETED" && (e.kind == Completed ==> e.cleanupConfirmed)
  }

  /** The stream concluded, while the lease and the cancels held, with a convincing event. */
  predicate CompletesAt(runId: string, inputs: seq<Input>, n: nat) {
    Concludes(runId, inputs, n) && TicksHold(inputs, n, false) && Convincing(inputs[n].event)
  }

  /** Exactly when the audit of a runner execution is COMPLETED: the stream concluded, while the lease and
      the cancels held, with an event that names the state COMPLETED, is no rejection, and, if it is of kind
      Completed, confirms cleanup. */
  lemma CompletedExactlyWhen(queued: R.AuditRecord, runId: string, inputs: seq<Input>, message: string)
    ensures Audited(queued, runId, inputs, message).status == R.Status.Completed <==>
            exists n: nat :: CompletesAt(runId, inputs, n)
  {
    hide TicksHold, Convincing, TerminalOutcome;
    var r := Folded(runId, inputs, "", false);
    if r.Ok? && r.value.terminal {
      var n := TerminalNeedsTerminalEvent(runId, inputs, "", false);
      ConcludingEnds(runId, inputs, n);
      CompletedOutcome(inputs[n].event, message);
      BelievedExactlyWhen(runId, inputs, "", false, n);
      if Convincing(inputs[n].event) { assert CompletesAt(runId, inputs, n); }
    }
    if n: nat :| CompletesAt(runId, inputs, n) {
      ConcludingEnds(runId, inputs, n);
      CompletedOutcome(inputs[n].event, message);
      BelievedExactlyWhen(runId, inputs, "", false, n);
    }
  }

  lemma ConcludingEnds(runId: string, inputs: seq<Input>, n: nat)
    requires Concludes(runId, inputs, n)
    ensures n < |inputs| && inputs[n].Message? && Ends(inputs[n].event.kind) && inputs[n].event.runId == runId
  {
  }

  lemma CompletedOutcome(e: RunnerEvent, message: string)
    requires Ends(e.kind)
    ensures Settled(R.RunnerMode, Ok(TerminalOutcome(e)), message).status == R.Status.Completed <==> Convincing(e)
  {
  }

  /** An early end of stream, a foreign id, a rejection, a failed lease or cancel and a deadline are FAILED,
      whatever the runner sends after it. */
  lemma BrokenOffIsFailed(queued: R.AuditRecord, runId: string, inputs: seq<Input>, message: string)
    requires forall n: nat :: Concludes(runId, inputs, n) && TicksHold(inputs, n, false) ==> inputs[n].event.kind == Rejected
    ensures Audited(queued, runId, inputs, message).status == R.Status.Failed
  {
    hide TicksHold;
    var r := Folded(runId, inputs, "", false);
    if r.Ok? && r.value.terminal {
      var n := TerminalNeedsTerminalEvent(runId, inputs, "", false);
      BelievedExactlyWhen(runId, inputs, "", false, n);
    }
  }

  /** Honest events: of all terminal events only a Completed one names the state COMPLETED. */
  predicate Honest(e: RunnerEvent) {
    Ends(e.kind) && e.kind != Rejected && Upper(e.state) == "COMPLETED" ==> e.kind == Completed
  }

  /** The name a status has in the audit. */
  function NameOf(status: R.Status): string {
    match status
    case Queued => "QUEUED"
    case Running => "RUNNING"
    case Completed => "COMPLETED"
    case Failed => "FAILED"
    case Cancelled => "CANCELLED"
    case Interrupted => "INTERRUPTED"
    case OtherStatus(name) => name
  }

  lemma StatusNamed(state: string)
    ensures NameOf(StatusOf(state)) == state
  {
  }

  /** The control plane believes this event: it concludes the stream, and lease and cancels held before it. */
  predicate BelievedAt(runId: string, inputs: seq<Input>, n: nat) {
    Concludes(runId, inputs, n) && TicksHold(inputs, n, false)
  }

  /** The execution failed for the control plane although the runner concluded it. */
  predicate Refuses(e: RunnerEvent) {
    e.kind == Rejected || (e.kind == Completed && !e.cleanupConfirmed)
  }

  /** What the audit of a runner execution says of the believed event, field by field. */
  ghost predicate AuditsEvent(queued: R.AuditRecord, record: R.AuditRecord, e: RunnerEvent) {
    && (if Refuses(e) then record.status == R.Status.Failed else NameOf(record.status) == Upper(e.state))
    && record.cleanup == (if e.cleanupConfirmed then R.CleanupSuccess else R.CleanupUnconfirmed)
    && (queued.evidence.Some? ==>
          && record.evidence.Some? && record.evidence.value.cleanupConfirmed == e.cleanupConfirmed
          && record.evidence.value.mode == (if e.simulated then R.SimulatedMode else queued.evidence.value.mode)
          && record.evidence.value.failureReason == (if e.detail == "" then None else Some(e.detail)))
  }

  /** What it says when no event was believed. */
  ghost predicate AuditsNothing(queued: R.AuditRecord, record: R.AuditRecord) {
    && record.status == R.Status.Failed && record.cleanup == R.CleanupUnconfirmed
    && (queued.evidence.Some? ==>
          record.evidence.Some? && !record.evidence.value.cleanupConfirmed && record.evidence.value.mode == queued.evidence.value.mode)
  }

  lemma EventAudited(queued: R.AuditRecord, e: RunnerEvent, message: string)
    requires Ends(e.kind)
    ensures AuditsEvent(queued, SettledRecord(queued, R.RunnerMode, Settled(R.RunnerMode, Ok(TerminalOutcome(e)), message)), e)
  {
    hide Upper;
    StatusNamed(Upper(e.state));
  }

  lemma NothingAudited(queued: R.AuditRecord, r: Result<Outcome, DispatchError>, message: string)
    requires r.Ok? ==> r.value == NO_OUTCOME.(finalState := r.value.finalState)
    ensures AuditsNothing(queued, SettledRecord(queued, R.RunnerMode, Settled(R.RunnerMode, r, message)))
  {
    hide StatusOf;
  }

  lemma {:induction false} NotTerminalIsNothing(runId: string, inputs: seq<Input>, state: string, sent: bool)
    requires Folded(runId, inputs, state, sent).Ok? && !Folded(runId, inputs, state, sent).value.terminal
    ensures var out := Folded(runId, inputs, state, sent).value; out == NO_OUTCOME.(finalState := out.finalState)
  {
    if inputs[0].Tick? { NotTerminalIsNothing(runId, inputs[1..], state, TickSent(inputs[0], sent)); }
    else if inputs[0].Message? { NotTerminalIsNothing(runId, inputs[1..], Upper(inputs[0].event.state), sent); }
  }

  /** What an execution is settled as, read off the dispatch's answer field by field. */
  lemma SettlesExactly(mode: R.ExecutionMode, r: Result<Outcome, DispatchError>, message: string)
    ensures var s := Settled(mode, r, message);
            && (s.failed <==> r.Err? || r.value.rejected.Some? || !r.value.terminal
                              || (mode == R.RunnerMode && r.value.completed && !r.value.cleanupConfirmed))
            && (if s.failed then s.status == R.Status.Failed else NameOf(s.status) == r.value.finalState)
            && (s.cleaned <==> r.Ok? && r.value.cleanupConfirmed)
            && (s.simulated <==> if r.Ok? then r.value.simulated else mode == R.SimulatedMode)
            && var text := if r.Ok? then r.value.detail else message;
               s.detail == if text == "" then None else Some(text)
  {
    hide StatusOf, NameOf;
    if r.Ok? { StatusNamed(r.value.finalState); }
  }

  /** An execution on a runner succeeds exactly if some event was believed that is no rejection and no completion without
      a confirmed cleanup. */
  lemma SucceedsExactly(runId: string, inputs: seq<Input>, message: string)
    ensures !Settled(R.RunnerMode, Folded(runId, inputs, "", false), message).failed <==>
              exists n: nat :: BelievedAt(runId, inputs, n) && !Refuses(inputs[n].event)
  {
    hide TicksHold, TerminalOutcome, Settled;
    var r := Folded(runId, inputs, "", false);
    SettlesExactly(R.RunnerMode, r, message);
    if r.Ok? && r.value.terminal {
      var m := TerminalNeedsTerminalEvent(runId, inputs, "", false);
      BelievedExactlyWhen(runId, inputs, "", false, m);
      assert BelievedAt(runId, inputs, m);
      OutcomeRefuses(inputs[m].event);
      forall n: nat | BelievedAt(runId, inputs, n) ensures n == m { ConcludesOnce(runId, inputs, n, m); }
    } else {
      forall n: nat ensures !BelievedAt(runId, inputs, n) { NobodyBelieved(runId, inputs, n); }
    }
  }

  lemma OutcomeRefuses(e: RunnerEvent)
    ensures var out := TerminalOutcome(e);
            Refuses(e) <==> out.rejected.Some? || !out.terminal || (out.completed && !out.cleanupConfirmed)
  {
  }

  /** The audit of a runner execution is read off the believed event, and without one it is FAILED with its cleanup
      unconfirmed. So it is marked as simulated exactly when the believed event says so. */
  lemma AuditSaysWhatWasBelieved(queued: R.AuditRecord, runId: string, inputs: seq<Input>, message: string)
    ensures forall n: nat | BelievedAt(runId, inputs, n) :: AuditsEvent(queued, Audited(queued, runId, inputs, message), inputs[n].event)
    ensures (forall n: nat :: !BelievedAt(runId, inputs, n)) ==> AuditsNothing(queued, Audited(queued, runId, inputs, message))
    ensures queued.evidence.Some? && queued.evidence.value.mode == R.RunnerMode ==>
              (R.Simulated(Audited(queued, runId, inputs, message)) <==>
                 exists n: nat :: BelievedAt(runId, inputs, n) && inputs[n].event.simulated)
  {
    hide TicksHold, TerminalOutcome, Settled, AuditsEvent, AuditsNothing, SettledRecord;
    var r := Folded(runId, inputs, "", false);
    forall n: nat | BelievedAt(runId, inputs, n)
      ensures AuditsEvent(queued, Audited(queued, runId, inputs, message), inputs[n].event)
    {
      BelievedExactlyWhen(runId, inputs, "", false, n);
      EventAudited(queued, inputs[n].event, message);
      EventMark(queued, Audited(queued, runId, inputs, message), inputs[n].event);
    }
    if r.Ok? && r.value.terminal {
      var m := TerminalNeedsTerminalEvent(runId, inputs, "", false);
      BelievedExactlyWhen(runId, inputs, "", false, m);
      assert BelievedAt(runId, inputs, m);
      EventMark(queued, Audited(queued, runId, inputs, message), inputs[m].event);
      forall n: nat | BelievedAt(runId, inputs, n) ensures n == m { ConcludesOnce(runId, inputs, n, m); }
    } else {
      if r.Ok? { NotTerminalIsNothing(runId, inputs, "", false); }
      NothingAudited(queued, r, message);
      NothingMark(queued, Audited(queued, runId, inputs, message));
      forall n: nat ensures !BelievedAt(runId, inputs, n) { NobodyBelieved(runId, inputs, n); }
    }
  }

  lemma NobodyBelieved(runId: string, inputs: seq<Input>, n: nat)
    requires !(Folded(runId, inputs, "", false).Ok? && Folded(runId, inputs, "", false).value.terminal)
    ensures !BelievedAt(runId, inputs, n)
  {
    hide TicksHold, Folded;
    if BelievedAt(runId, inputs, n) { BelievedExactlyWhen(runId, inputs, "", false, n); }
  }

  lemma EventMark(queued: R.AuditRecord, record: R.AuditRecord, e: RunnerEvent)
    requires AuditsEvent(queued, record, e)
    ensures queued.evidence.Some? && queued.evidence.value.mode == R.RunnerMode ==> (R.Simulated(record) <==> e.simulated)
  {
    hide Upper;
  }

  lemma NothingMark(queued: R.AuditRecord, record: R.AuditRecord)
    requires AuditsNothing(queued, record)
    ensures queued.evidence.Some? && queued.evidence.value.mode == R.RunnerMode ==> !R.Simulated(record)
  {
  }

  /** What a COMPLETED audit should mean: the runner ended the stream with a Completed event for this run that
      confirms its cleanup, and the audit says SUCCESS. */
  ghost predicate Truthful(queued: R.AuditRecord, runId: string, inputs: seq<Input>, message: string) {
    var record := Audited(queued, runId, inputs, message);
    record.status == R.Status.Completed ==>
      && record.cleanup == R.CleanupSuccess
      && exists n: nat :: TrulyCompletesAt(runId, inputs, n)
  }

  predicate TrulyCompletesAt(runId: string, inputs: seq<Input>, n: nat) {
    CompletesAt(runId, inputs, n) && inputs[n].event.kind == Completed && inputs[n].event.cleanupConfirmed
  }

  /** The stream is believed and its concluding event, though of kind Cancelled, Failed or TimedOut, calls its
      state COMPLETED. */
  predicate MisledAt(runId: string, inputs: seq<Input>, n: nat) {
    && Concludes(runId, inputs, n) && TicksHold(inputs, n, false)
    && inputs[n].event.kind != Completed && inputs[n].event.kind != Rejected
    && Upper(inputs[n].event.state) == "COMPLETED"
  }

  /** A stream concludes at most once. */
  lemma ConcludesOnce(runId: string, inputs: seq<Input>, m: nat, n: nat)
    requires Concludes(runId, inputs, m) && Concludes(runId, inputs, n)
    ensures m == n
  {
  }

  /** What the audit's cleanup status rests on, at a convincing event. */
  lemma CleanupAt(queued: R.AuditRecord, runId: string, inputs: seq<Input>, message: string, n: nat)
    requires CompletesAt(runId, inputs, n)
    ensures Audited(queued, runId, inputs, message).cleanup ==
            if inputs[n].event.cleanupConfirmed then R.CleanupSuccess else R.CleanupUnconfirmed
  {
    hide TicksHold, Upper;
    BelievedExactlyWhen(runId, inputs, "", false, n);
  }

  /** Exactly when the fold of a stream is truthful: its believed concluding event does not call a run
      COMPLETED that it does not report as completed. Nothing before or after that event matters. */
  lemma TruthfulExactlyWhen(queued: R.AuditRecord, runId: string, inputs: seq<Input>, message: string)
    ensures Truthful(queued, runId, inputs, message) <==> !exists n: nat :: MisledAt(runId, inputs, n)
  {
    hide Audited, TicksHold, Upper;
    CompletedExactlyWhen(queued, runId, inputs, message);
    if n: nat :| MisledAt(runId, inputs, n) {
      assert CompletesAt(runId, inputs, n);
      forall m: nat | CompletesAt(runId, inputs, m) ensures m == n { ConcludesOnce(runId, inputs, m, n); }
    } else if n: nat :| CompletesAt(runId, inputs, n) {
      assert !MisledAt(runId, inputs, n);
      assert TrulyCompletesAt(runId, inputs, n);
      CleanupAt(queued, runId, inputs, message, n);
    }
  }

  /** With a runner whose concluding event is honest, a COMPLETED audit means that the runner sent a Completed
      event for this run with its cleanup confirmed, and the audit says SUCCESS. */
  lemma HonestCompletionIsTruthful(queued: R.AuditRecord, runId: string, inputs: seq<Input>, message: string) returns (n: nat)
    requires forall i: nat :: Concludes(runId, inputs, i) ==> Honest(inputs[i].event)
    requires Audited(queued, runId, inputs, message).status == R.Status.Completed
    ensures TrulyCompletesAt(runId, inputs, n)
    ensures Audited(queued, runId, inputs, message).cleanup == R.CleanupSuccess
  {
    hide Audited, TicksHold, Upper;
    forall i: nat ensures !MisledAt(runId, inputs, i) {
      if Concludes(runId, inputs, i) { assert Honest(inputs[i].event); }
    }
    TruthfulExactlyWhen(queued, runId, inputs, message);
    n :| TrulyCompletesAt(runId, inputs, n);
  }

  /** A misled stream: a Failed event that calls its state "Completed" makes the audit COMPLETED although no
      Completed event was sent and no cleanup was confirmed. */
  lemma DishonestRunnerCompletes(queued: R.AuditRecord, message: string)
    ensures var lie := RunnerEvent(Failed, "Completed", "run-1", "", false, false, NOTHING);
            var record := Audited(queued, "run-1", [Message(lie)], message);
            && MisledAt("run-1", [Message(lie)], 0) && !Truthful(queued, "run-1", [Message(lie)], message)
            && record.status == R.Status.Completed && record.cleanup == R.CleanupUnconfirmed
  {
    hide Upper, Audited;
    var lie := RunnerEvent(Failed, "Completed", "run-1", "", false, false, NOTHING);
    assert Upper("Completed") == "COMPLETED";
    assert MisledAt("run-1", [Message(lie)], 0);
    assert CompletesAt("run-1", [Message(lie)], 0);
    TruthfulExactlyWhen(queued, "run-1", [Message(lie)], message);
    CompletedExactlyWhen(queued, "run-1", [Message(lie)], message);
    CleanupAt(queued, "run-1", [Message(lie)], message, 0);
  }
}
