/** What a runner tells the control plane (crates/asmodeus-proto/proto/asmodeus.proto), and the strings
    both sides compare. */
module RunnerEvents {
  datatype Kind = Unspecified | StateChanged | Completed | Rejected | Cancelled | Failed | TimedOut

  datatype Report = Report(filesCreated: nat, bytesWritten: nat)

  const NOTHING := Report(0, 0)

  datatype RunnerEvent = RunnerEvent(
    kind: Kind, state: string, runId: string, detail: string, cleanupConfirmed: bool, simulated: bool, report: Report)

  predicate Ends(kind: Kind) { kind != Unspecified && kind != StateChanged }

  function Upper(s: string): (r: string)
    ensures |r| == |s|
    ensures forall i | 0 <= i < |s| :: r[i] == if 'a' <= s[i] <= 'z' then s[i] - 'a' + 'A' else s[i]
  {
    if s == [] then [] else [if 'a' <= s[0] <= 'z' then s[0] - 'a' + 'A' else s[0]] + Upper(s[1..])
  }

  /** `str::contains`. */
  predicate Contains(s: string, part: string) {
    exists i | 0 <= i <= |s| :: part <= s[i..]
  }
}
