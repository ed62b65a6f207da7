/** Runner, stream and control plane together. */
module TruthfulCompletion {
  import R = Records
  import opened RunnerEvents
  import RunnerProtocol
  import Dispatch

  /** The dispatch loop hears nothing but what the worker sent; the stream may break off anywhere. */
  predicate Hears(run: RunnerProtocol.Run, inputs: seq<Dispatch.Input>) {
    forall i | 0 <= i < |inputs| && inputs[i].Message? :: inputs[i].event in run.sent
  }

  /** End to end, over every interleaving of the runner and every broken, late or cancelled stream: when the
      audit of a runner execution says COMPLETED, the runner sent a Completed event for that run id after it
      removed the run's sandbox, and the audit's cleanup status is SUCCESS. */
  lemma CompletionIsTruthful(
      ws: seq<RunnerProtocol.World>, acts: seq<RunnerProtocol.Action>, i: nat, t: nat,
      queued: R.AuditRecord, inputs: seq<Dispatch.Input>, message: string)
    requires RunnerProtocol.Behaviour(ws, acts) && i < |ws| && t in ws[i].runs
    requires Hears(ws[i].runs[t], inputs)
    requires Dispatch.Audited(queued, ws[i].runs[t].id, inputs, message).status == R.Status.Completed
    ensures exists e | e in ws[i].runs[t].sent :: e.kind == Completed && e.runId == ws[i].runs[t].id && e.cleanupConfirmed
    ensures ws[i].runs[t].files == RunnerProtocol.Removed
    ensures Dispatch.Audited(queued, ws[i].runs[t].id, inputs, message).cleanup == R.CleanupSuccess
  {
    hide RunnerProtocol.Enabled, RunnerProtocol.Next, RunnerProtocol.Behaviour, Dispatch.Audited, Upper;
    var run := ws[i].runs[t];
    forall j: nat | Dispatch.Concludes(run.id, inputs, j) ensures Dispatch.Honest(inputs[j].event) {
      var n :| 0 <= n < |run.sent| && run.sent[n] == inputs[j].event;
      RunnerProtocol.ReportsAreTrue(ws, acts, i, t, n);
    }
    var m := Dispatch.HonestCompletionIsTruthful(queued, run.id, inputs, message);
    var n :| 0 <= n < |run.sent| && run.sent[n] == inputs[m].event;
    RunnerProtocol.ReportsAreTrue(ws, acts, i, t, n);
  }
}
