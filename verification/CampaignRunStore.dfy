/** The durable list of campaign runs (crates/asmodeus-control-plane/src/campaign_run.rs):
    what each in-place operation of the store computes, and what it keeps. */
module CampaignRunStore {
  import opened Wrappers
  import opened Records

  const MAX_TERMINAL_RUNS: nat := 200

  type Runs = seq<CampaignRun>

  datatype ResumeError = NotFound | NotResumable(why: Status) | CleanupUnknown | AuditUnavailable

  // ----- lookup -----

  /** Position of the first run with this id, or |runs|. */
  function IndexOf(runs: Runs, id: string): (i: nat)
    ensures i <= |runs|
    ensures i < |runs| ==> runs[i].id == id
    ensures forall j | 0 <= j < i :: runs[j].id != id
  {
    if runs == [] then 0 else if runs[0].id == id then 0 else 1 + IndexOf(runs[1..], id)
  }

  function Get(runs: Runs, id: string): Option<CampaignRun> {
    var i := IndexOf(runs, id);
    if i < |runs| then Some(runs[i]) else None
  }

  /** Overwrite the run that `get_mut` would hand out. */
  function Put(runs: Runs, run: CampaignRun): Runs {
    var i := IndexOf(runs, run.id);
    if i < |runs| then runs[i := run] else runs
  }

  ghost predicate DistinctIds(runs: Runs) {
    forall i, j | 0 <= i < j < |runs| :: runs[i].id != runs[j].id
  }

  // ----- validity -----

  ghost predicate ValidPlan(steps: seq<Step>) {
    && steps != []
    && (forall i | 0 <= i < |steps| :: steps[i].order != 0 && steps[i].scenarioId != "")
    && (forall i | 0 < i < |steps| :: steps[i - 1].order < steps[i].order)
  }

  predicate MatchesStep(result: StepResult, step: Step) {
    result.stepOrder == step.order && result.scenarioId == step.scenarioId
  }

  ghost predicate AllCompleted(results: seq<StepResult>) {
    forall i | 0 <= i < |results| :: results[i].status == Completed
  }

  ghost predicate ValidProgress(run: CampaignRun) {
    && |run.results| <= |run.steps|
    && (forall i | 0 <= i < |run.results| :: MatchesStep(run.results[i], run.steps[i]))
    && (forall i | 0 <= i < |run.results| - 1 :: run.results[i].status == Completed)
  }

  ghost predicate ValidRun(run: CampaignRun) {
    && run.id != ""
    && !run.status.OtherStatus?
    && ValidPlan(run.steps)
    && ValidProgress(run)
    && (run.status == Completed ==> |run.results| == |run.steps| && AllCompleted(run.results))
  }

  /** What `validate` accepts. */
  ghost predicate ValidSnapshot(runs: Runs) {
    && DistinctIds(runs)
    && forall i | 0 <= i < |runs| :: ValidRun(runs[i])
  }

  /** The same, on the data itself: what a snapshot on disk has to look like to be loaded. */
  ghost predicate Loads(runs: Runs) {
    && (forall i, j | 0 <= i < |runs| && 0 <= j < |runs| && i != j :: runs[i].id != runs[j].id)
    && forall i | 0 <= i < |runs| :: LoadsRun(runs[i])
  }

  ghost predicate LoadsRun(run: CampaignRun) {
    var n, m := |run.steps|, |run.results|;
    && run.id != "" && run.status in {Queued, Running, Completed, Failed, Cancelled, Interrupted}
    && 0 < n && m <= n
    && (forall i | 0 <= i < n :: run.steps[i].order > 0 && run.steps[i].scenarioId != "")
    && (forall i | 0 <= i < n - 1 :: run.steps[i].order < run.steps[i + 1].order)
    && (forall i | 0 <= i < m :: run.results[i].stepOrder == run.steps[i].order && run.results[i].scenarioId == run.steps[i].scenarioId)
    && (forall i | 0 <= i < m && (i < m - 1 || run.status == Completed) :: run.results[i].status == Completed)
    && (run.status == Completed ==> m == n)
  }

  lemma LoadsRunIs(run: CampaignRun)
    ensures LoadsRun(run) <==> ValidRun(run)
  {
    if LoadsRun(run) {
      forall i | 0 < i < |run.steps| ensures run.steps[i - 1].order < run.steps[i].order { assert run.steps[i - 1].order < run.steps[i - 1 + 1].order; }
    }
    if ValidRun(run) {
      forall i | 0 <= i < |run.steps| - 1 ensures run.steps[i].order < run.steps[i + 1].order { assert run.steps[i + 1 - 1].order < run.steps[i + 1].order; }
    }
  }

  lemma LoadsIs(runs: Runs)
    ensures Loads(runs) <==> ValidSnapshot(runs)
  {
    hide LoadsRun, ValidRun;
    forall i | 0 <= i < |runs| { LoadsRunIs(runs[i]); }
  }

  // ----- retention -----

  /** Statuses that retention may drop; INTERRUPTED and CANCELLED runs stay resumable. */
  predicate Finished(run: CampaignRun) {
    run.status == Completed || run.status == Failed
  }

  function FinishedRuns(runs: Runs): (kept: Runs)
    ensures |kept| <= |runs|
  {
    if runs == [] then []
    else if Finished(runs[0]) then [runs[0]] + FinishedRuns(runs[1..])
    else FinishedRuns(runs[1..])
  }

  function UnfinishedRuns(runs: Runs): Runs {
    if runs == [] then []
    else if Finished(runs[0]) then UnfinishedRuns(runs[1..])
    else [runs[0]] + UnfinishedRuns(runs[1..])
  }

  /** Drop the first `excess` finished runs, keeping every other run in place. */
  function DropFinished(runs: Runs, excess: nat): Runs {
    if runs == [] then []
    else if excess > 0 && Finished(runs[0]) then DropFinished(runs[1..], excess - 1)
    else [runs[0]] + DropFinished(runs[1..], excess)
  }

  function Excess(runs: Runs): nat {
    var n := |FinishedRuns(runs)|;
    if n > MAX_TERMINAL_RUNS then n - MAX_TERMINAL_RUNS else 0
  }

  function Pruned(runs: Runs): Runs {
    DropFinished(runs, Excess(runs))
  }

  function Inserted(runs: Runs, run: CampaignRun): Runs {
    Pruned(runs + [run])
  }

  /** The committed effect of the worker's `update`: one run overwritten, then retention. */
  function Revised(runs: Runs, run: CampaignRun): Runs {
    Pruned(Put(runs, run))
  }

  // ----- startup recovery and resume -----

  function RecoveredRun(run: CampaignRun): CampaignRun {
    if RunTerminal(run.status) then run
    else
      var n := |run.results|;
      var results :=
        if n > 0 && run.results[n - 1].status == Running
        then run.results[n - 1 := run.results[n - 1].(status := Interrupted)]
        else run.results;
      run.(results := results, status := Interrupted)
  }

  function Recovered(runs: Runs): (r: Runs)
    ensures |r| == |runs|
    ensures forall i | 0 <= i < |runs| :: r[i] == RecoveredRun(runs[i])
  {
    seq(|runs|, i requires 0 <= i < |runs| => RecoveredRun(runs[i]))
  }

  /** Runs that a restart finds queued or running. */
  function InFlight(runs: Runs): nat {
    if runs == [] then 0 else (if RunTerminal(runs[0].status) then 0 else 1) + InFlight(runs[1..])
  }

  predicate Resumable(status: Status) {
    status == Interrupted || status == Cancelled
  }

  /** The last stage attempt, when it did not complete. */
  predicate HasUnfinishedAttempt(run: CampaignRun) {
    run.results != [] && run.results[|run.results| - 1].status != Completed
  }

  /** `begin_resume` on one run. The counter is a 32-bit unsigned integer. */
  function RequeuedRun(run: CampaignRun): CampaignRun {
    var n := |run.results|;
    var archived :=
      if HasUnfinishedAttempt(run)
      then run.(results := run.results[..n - 1], superseded := run.superseded + [run.results[n - 1]])
      else run;
    archived.(status := Queued, resumeCount := (run.resumeCount + 1) % 0x1_0000_0000)
  }

  function BegunResume(runs: Runs, id: string): (r: Result<(Runs, CampaignRun), ResumeError>)
  {
    match Get(runs, id)
    case None => Err(NotFound)
    case Some(run) =>
      if !Resumable(run.status) then Err(NotResumable(run.status))
      else
        var next := RequeuedRun(run);
        Ok((Put(runs, next), next))
  }

  // ----- lemmas: lookup -----

  lemma GetPut(runs: Runs, run: CampaignRun, id: string)
    ensures Get(Put(runs, run), id) ==
            if id == run.id && Get(runs, id).Some? then Some(run) else Get(runs, id)
  {
    var i, j := IndexOf(runs, run.id), IndexOf(runs, id);
    if i < |runs| {
      var next := Put(runs, run);
      var m := IndexOf(next, id);
      assert forall x | 0 <= x < |runs| :: next[x].id == runs[x].id;
      assert m == j;
    }
  }

  lemma GetIs(runs: Runs, i: nat)
    requires DistinctIds(runs) && i < |runs|
    ensures Get(runs, runs[i].id) == Some(runs[i])
  {
    var m := IndexOf(runs, runs[i].id);
    assert m == i;
  }

  lemma GetAppend(runs: Runs, run: CampaignRun, id: string)
    ensures Get(runs + [run], id) ==
            if Get(runs, id).Some? then Get(runs, id)
            else if id == run.id then Some(run) else None
  {
    var m, j := IndexOf(runs + [run], id), IndexOf(runs, id);
    if j < |runs| { assert (runs + [run])[j] == runs[j]; assert m == j; }
    else {
      assert forall x | 0 <= x < |runs| :: (runs + [run])[x].id != id;
      assert (runs + [run])[|runs|] == run;
    }
  }

  // ----- lemmas: retention -----

  /** DropFinished is a subsequence: each survivor comes from a later-or-equal place. */
  lemma {:induction false} DropFinishedFrom(runs: Runs, excess: nat, i: nat) returns (j: nat)
    requires i < |DropFinished(runs, excess)|
    ensures i <= j < |runs| && DropFinished(runs, excess)[i] == runs[j]
  {
    if excess > 0 && Finished(runs[0]) {
      var k := DropFinishedFrom(runs[1..], excess - 1, i);
      j := k + 1;
    } else if i == 0 {
      j := 0;
    } else {
      var k := DropFinishedFrom(runs[1..], excess, i - 1);
      j := k + 1;
    }
  }

  lemma {:induction false} DropFinishedDistinct(runs: Runs, excess: nat)
    requires DistinctIds(runs)
    ensures DistinctIds(DropFinished(runs, excess))
  {
    if runs != [] {
      var rest := runs[1..];
      assert DistinctIds(rest) by {
        assert forall i | 0 <= i < |rest| :: rest[i] == runs[i + 1];
      }
      if excess > 0 && Finished(runs[0]) {
        DropFinishedDistinct(rest, excess - 1);
      } else {
        DropFinishedDistinct(rest, excess);
        var tail := DropFinished(rest, excess);
        forall i | 0 <= i < |tail| ensures tail[i].id != runs[0].id {
          var j := DropFinishedFrom(rest, excess, i);
          assert rest[j] == runs[j + 1];
        }
      }
    }
  }

  /** With distinct ids, retention either leaves a run as it is or removes a finished one. */
  lemma {:induction false} GetDropFinished(runs: Runs, excess: nat, id: string)
    requires DistinctIds(runs)
    ensures var after := Get(DropFinished(runs, excess), id);
            after == Get(runs, id) ||
            (after == None && Get(runs, id).Some? && Finished(Get(runs, id).value))
  {
    var kept := DropFinished(runs, excess);
    var m, i := IndexOf(kept, id), IndexOf(runs, id);
    if m < |kept| {
      var j := DropFinishedFrom(runs, excess, m);
      GetIs(runs, j);
    } else if i < |runs| && !Finished(runs[i]) {
      UnfinishedSurvives(runs, excess, i);
    }
  }

  lemma {:induction false} UnfinishedSurvives(runs: Runs, excess: nat, i: nat)
    requires i < |runs| && !Finished(runs[i])
    ensures runs[i] in DropFinished(runs, excess)
  {
    if i > 0 {
      assert runs[1..][i - 1] == runs[i];
      UnfinishedSurvives(runs[1..], if excess > 0 && Finished(runs[0]) then excess - 1 else excess, i - 1);
    }
  }

  lemma {:induction false} DropFinishedKeepsNewest(runs: Runs, excess: nat)
    requires excess <= |FinishedRuns(runs)|
    ensures FinishedRuns(DropFinished(runs, excess)) == FinishedRuns(runs)[excess..]
    ensures UnfinishedRuns(DropFinished(runs, excess)) == UnfinishedRuns(runs)
  {
    if runs != [] {
      var rest := runs[1..];
      if excess > 0 && Finished(runs[0]) {
        DropFinishedKeepsNewest(rest, excess - 1);
      } else {
        DropFinishedKeepsNewest(rest, excess);
        var kept := DropFinished(runs, excess);
        assert kept[1..] == DropFinished(rest, excess);
        assert kept[0] == runs[0];
      }
    }
  }

  /** Retention keeps every unfinished run in order and exactly the newest 200 finished ones. */
  lemma RetentionKeepsNewestFinished(runs: Runs)
    ensures UnfinishedRuns(Pruned(runs)) == UnfinishedRuns(runs)
    ensures FinishedRuns(Pruned(runs)) == FinishedRuns(runs)[Excess(runs)..]
    ensures |FinishedRuns(Pruned(runs))| == if |FinishedRuns(runs)| < 200 then |FinishedRuns(runs)| else 200
  {
    DropFinishedKeepsNewest(runs, Excess(runs));
  }

  /** The positions behind i whose run is COMPLETED or FAILED. */
  ghost function FinishedBehind(runs: Runs, i: nat): set<nat>
    requires i < |runs|
  {
    set j: nat | i < j < |runs| && (runs[j].status == Completed || runs[j].status == Failed)
  }

  /** Exactly which runs retention keeps: those that are neither COMPLETED nor FAILED, and those with fewer than
      200 COMPLETED or FAILED runs behind them. The kept runs stay in order. */
  lemma RetentionExactly(runs: Runs, i: nat)
    requires DistinctIds(runs) && i < |runs|
    ensures runs[i] in Pruned(runs) <==>
            (runs[i].status != Completed && runs[i].status != Failed) || |FinishedBehind(runs, i)| < 200
  {
    KeptExactly(runs, Excess(runs), i);
    FinishedCount(runs, i);
    FinishedTail(runs, i);
  }

  lemma {:induction false} KeptExactly(runs: Runs, excess: nat, i: nat)
    requires DistinctIds(runs) && i < |runs| && excess <= |FinishedRuns(runs)|
    ensures runs[i] in DropFinished(runs, excess) <==>
            !Finished(runs[i]) || |FinishedRuns(runs[i..])| <= |FinishedRuns(runs)| - excess
    decreases |runs|, 1
  {
    var rest := runs[1..];
    if i == 0 {
      assert runs[0..] == runs;
      if excess > 0 && Finished(runs[0]) { DroppedIsGone(runs, excess - 1); }
    } else {
      assert rest[i - 1] == runs[i] && rest[i - 1..] == runs[i..];
      assert runs[0] != runs[i];
      FinishedTail(rest, i - 1);
      if excess > 0 && Finished(runs[0]) {
        KeptExactly(rest, excess - 1, i - 1);
      } else {
        KeptRest(runs, excess, i);
      }
    }
  }

  lemma DroppedIsGone(runs: Runs, excess: nat)
    requires DistinctIds(runs) && runs != []
    ensures runs[0] !in DropFinished(runs[1..], excess)
  {
    var kept := DropFinished(runs[1..], excess);
    forall m | 0 <= m < |kept| ensures kept[m] != runs[0] {
      var j := DropFinishedFrom(runs[1..], excess, m);
      assert runs[1..][j] == runs[j + 1];
    }
  }

  lemma {:induction false} KeptRest(runs: Runs, excess: nat, i: nat)
    requires DistinctIds(runs) && 0 < i < |runs| && excess <= |FinishedRuns(runs)| && !(excess > 0 && Finished(runs[0]))
    ensures runs[i] in DropFinished(runs, excess) <==>
            !Finished(runs[i]) || |FinishedRuns(runs[i..])| <= |FinishedRuns(runs)| - excess
    decreases |runs|, 0
  {
    var rest := runs[1..];
    assert rest[i - 1] == runs[i] && rest[i - 1..] == runs[i..] && runs[0] != runs[i];
    FinishedTail(rest, i - 1);
    KeptExactly(rest, excess, i - 1);
    assert runs[i] in DropFinished(runs, excess) <==> runs[i] in DropFinished(rest, excess);
  }

  lemma {:induction false} FinishedTail(runs: Runs, i: nat)
    requires i <= |runs|
    ensures |FinishedRuns(runs[i..])| <= |FinishedRuns(runs)|
  {
    if i > 0 {
      FinishedTail(runs[1..], i - 1);
      assert runs[1..][i - 1..] == runs[i..];
    } else {
      assert runs[0..] == runs;
    }
  }

  lemma {:induction false} FinishedCount(runs: Runs, i: nat)
    requires i < |runs|
    ensures |FinishedRuns(runs[i..])| == |FinishedBehind(runs, i)| + if Finished(runs[i]) then 1 else 0
    decreases |runs| - i
  {
    hide FinishedRuns;
    FinishedHead(runs, i);
    if i + 1 < |runs| {
      FinishedCount(runs, i + 1);
      NewerNext(runs, i);
    } else {
      NoneNewer(runs);
    }
  }

  lemma FinishedHead(runs: Runs, i: nat)
    requires i < |runs|
    ensures |FinishedRuns(runs[i..])| == |FinishedRuns(runs[i + 1..])| + if Finished(runs[i]) then 1 else 0
  {
    assert runs[i..][1..] == runs[i + 1..];
  }

  lemma NoneNewer(runs: Runs)
    requires runs != []
    ensures FinishedBehind(runs, |runs| - 1) == {} && FinishedRuns(runs[|runs|..]) == []
  {
    assert runs[|runs|..] == [];
    NothingFinished();
  }

  lemma NothingFinished()
    ensures FinishedRuns([]) == []
  {
  }

  lemma NewerNext(runs: Runs, i: nat)
    requires i + 1 < |runs|
    ensures |FinishedBehind(runs, i)| == |FinishedBehind(runs, i + 1)| + if Finished(runs[i + 1]) then 1 else 0
  {
    assert FinishedBehind(runs, i) == FinishedBehind(runs, i + 1) + if Finished(runs[i + 1]) then {i + 1} else {};
  }

  lemma DropFinishedValid(runs: Runs, excess: nat)
    requires ValidSnapshot(runs)
    ensures ValidSnapshot(DropFinished(runs, excess))
  {
    DropFinishedDistinct(runs, excess);
    var kept := DropFinished(runs, excess);
    forall i | 0 <= i < |kept| ensures ValidRun(kept[i]) {
      var j := DropFinishedFrom(runs, excess, i);
    }
  }

  // ----- lemmas: whole transactions -----

  /** Every run except `id` is left alone, or was finished and is dropped. */
  ghost predicate OthersKept(before: Runs, after: Runs, id: string) {
    forall d | d != id ::
      Get(after, d) == Get(before, d) ||
      (Get(after, d) == None && Get(before, d).Some? && Finished(Get(before, d).value))
  }

  /** A committed worker update: valid again, nobody else's run changed, the worker's own
      run is what it wrote, unless it just finished and was dropped at once. */
  lemma RevisedKeepsSnapshot(runs: Runs, run: CampaignRun)
    requires ValidSnapshot(runs) && ValidRun(run) && Get(runs, run.id).Some?
    ensures ValidSnapshot(Revised(runs, run))
    ensures OthersKept(runs, Revised(runs, run), run.id)
    ensures Get(Revised(runs, run), run.id) == Some(run) ||
            (Finished(run) && Get(Revised(runs, run), run.id) == None)
  {
    var put := Put(runs, run);
    PutValid(runs, run);
    DropFinishedValid(put, Excess(put));
    forall d ensures Get(put, d) == if d == run.id then Some(run) else Get(runs, d) {
      GetPut(runs, run, d);
    }
    forall d | d != run.id
      ensures Get(Revised(runs, run), d) == Get(runs, d) ||
              (Get(Revised(runs, run), d) == None && Get(runs, d).Some? && Finished(Get(runs, d).value))
    {
      GetDropFinished(put, Excess(put), d);
    }
    GetDropFinished(put, Excess(put), run.id);
  }

  lemma PutValid(runs: Runs, run: CampaignRun)
    requires ValidSnapshot(runs) && ValidRun(run) && Get(runs, run.id).Some?
    ensures ValidSnapshot(Put(runs, run))
  {
    var put := Put(runs, run);
    assert forall i | 0 <= i < |runs| :: put[i].id == runs[i].id;
  }

  lemma InsertedKeepsSnapshot(runs: Runs, run: CampaignRun)
    requires ValidSnapshot(runs) && ValidRun(run) && !Finished(run) && Get(runs, run.id) == None
    ensures ValidSnapshot(Inserted(runs, run))
    ensures OthersKept(runs, Inserted(runs, run), run.id)
    ensures Get(Inserted(runs, run), run.id) == Some(run)
  {
    var longer := runs + [run];
    assert ValidSnapshot(longer) by {
      forall i | 0 <= i < |runs| ensures runs[i].id != run.id { GetIs(runs, i); }
    }
    DropFinishedValid(longer, Excess(longer));
    forall d ensures Get(longer, d) == if d == run.id then Some(run) else Get(runs, d) {
      GetAppend(runs, run, d);
    }
    forall d | d != run.id
      ensures Get(Inserted(runs, run), d) == Get(runs, d) ||
              (Get(Inserted(runs, run), d) == None && Get(runs, d).Some? && Finished(Get(runs, d).value))
    {
      GetDropFinished(longer, Excess(longer), d);
    }
    GetDropFinished(longer, Excess(longer), run.id);
  }

  lemma RecoveredRunValid(run: CampaignRun)
    requires ValidRun(run)
    ensures ValidRun(RecoveredRun(run))
    ensures RunTerminal(RecoveredRun(run).status)
    ensures |RecoveredRun(run).results| == |run.results|
    ensures forall i | 0 <= i < |run.results| :: RecoveredRun(run).results[i].runId == run.results[i].runId
    ensures forall i | 0 <= i < |run.results| ::
              RecoveredRun(run).results[i].status == Completed ==> run.results[i].status == Completed
  {
  }

  /** Startup recovery leaves a valid snapshot in which no run is still in flight. */
  lemma RecoveredKeepsSnapshot(runs: Runs)
    requires ValidSnapshot(runs)
    ensures ValidSnapshot(Recovered(runs))
    ensures forall d :: Get(Recovered(runs), d) ==
                        if Get(runs, d).Some? then Some(RecoveredRun(Get(runs, d).value)) else None
    ensures forall i | 0 <= i < |runs| :: RunTerminal(Recovered(runs)[i].status)
  {
    forall i | 0 <= i < |runs| ensures ValidRun(Recovered(runs)[i]) && Recovered(runs)[i].id == runs[i].id {
      RecoveredRunValid(runs[i]);
    }
    forall d ensures Get(Recovered(runs), d) ==
                     if Get(runs, d).Some? then Some(RecoveredRun(Get(runs, d).value)) else None
    {
      var m, j := IndexOf(Recovered(runs), d), IndexOf(runs, d);
      assert m == j;
    }
  }

  /** Startup recovery, run by run: a QUEUED or RUNNING run becomes INTERRUPTED, with its running stage; every
      other run, and everything else about it, stays. */
  lemma RecoveredExactly(runs: Runs, i: nat)
    requires i < |runs|
    ensures var a, b, n := runs[i], Recovered(runs)[i], |runs[i].results|;
            if a.status != Queued && a.status != Running then b == a
            else
              && b == a.(status := Interrupted, results := b.results) && |b.results| == n
              && (forall j | 0 <= j < n :: b.results[j] == a.results[j].(status := b.results[j].status))
              && forall j | 0 <= j < n :: b.results[j].status ==
                   if j == n - 1 && a.results[j].status == Running then Interrupted else a.results[j].status
  {
  }

  /** The positions from i on whose run is QUEUED or RUNNING. */
  ghost function InFlightFrom(runs: Runs, i: nat): set<nat>
    requires i <= |runs|
  {
    set j: nat | i <= j < |runs| && (runs[j].status == Queued || runs[j].status == Running)
  }

  /** The number recovery reports is the number of runs that were QUEUED or RUNNING. */
  lemma {:induction false} InFlightCounts(runs: Runs, i: nat)
    requires i <= |runs|
    ensures InFlight(runs[i..]) == |InFlightFrom(runs, i)|
    decreases |runs| - i
  {
    if i == |runs| {
      NobodyInFlight(runs);
    } else {
      assert runs[i..][1..] == runs[i + 1..];
      InFlightCounts(runs, i + 1);
      assert InFlightFrom(runs, i) == InFlightFrom(runs, i + 1) + if RunTerminal(runs[i].status) then {} else {i};
    }
  }

  lemma NobodyInFlight(runs: Runs)
    ensures InFlightFrom(runs, |runs|) == {} && InFlight(runs[|runs|..]) == 0
  {
  }

  /** Resume archives at most the unfinished attempt: completed stages are a prefix that is never repeated. */
  lemma RequeuedRunValid(run: CampaignRun)
    requires ValidRun(run) && Resumable(run.status)
    ensures ValidRun(RequeuedRun(run))
    ensures AllCompleted(RequeuedRun(run).results)
    ensures RequeuedRun(run).results <= run.results
    ensures |run.results| <= |RequeuedRun(run).results| + 1
    ensures RequeuedRun(run).superseded == run.superseded + run.results[|RequeuedRun(run).results|..]
  {
  }

  /** An accepted resume changes only its own run, validly, and refuses the next resume until the run stops again. */
  lemma BegunResumeKeepsSnapshot(runs: Runs, id: string)
    requires ValidSnapshot(runs)
    ensures match BegunResume(runs, id)
            case Err(_) => Get(runs, id).None? || !Resumable(Get(runs, id).value.status)
            case Ok((next, run)) =>
              && ValidSnapshot(next) && Get(next, id) == Some(run)
              && BegunResume(next, id) == Err(NotResumable(Queued))
              && forall d | d != id :: Get(next, d) == Get(runs, d)
  {
    match Get(runs, id)
    case None =>
    case Some(run) =>
      if Resumable(run.status) {
        RequeuedRunValid(run);
        PutValid(runs, RequeuedRun(run));
        forall d { GetPut(runs, RequeuedRun(run), d); }
      }
  }

  /** A stopped run put back in the queue: its unfinished attempt, if there is one, moves to the archive. */
  ghost predicate IsRequeued(before: CampaignRun, after: CampaignRun) {
    var n := |before.results|;
    && after.id == before.id && after.request == before.request && after.steps == before.steps
    && after.status == Queued && after.resumeCount == (before.resumeCount + 1) % 4294967296
    && (if n > 0 && before.results[n - 1].status != Completed
        then after.results == before.results[..n - 1] && after.superseded == before.superseded + [before.results[n - 1]]
        else after.results == before.results && after.superseded == before.superseded)
  }

  /** `begin_resume` accepts exactly the stored runs that are INTERRUPTED or CANCELLED. */
  lemma ResumesExactlyStopped(runs: Runs, id: string)
    ensures var i := IndexOf(runs, id);
            match BegunResume(runs, id)
            case Err(e) =>
              if i == |runs| then e == NotFound
              else e == NotResumable(runs[i].status) && runs[i].status != Interrupted && runs[i].status != Cancelled
            case Ok((next, run)) =>
              && i < |runs| && (runs[i].status == Interrupted || runs[i].status == Cancelled)
              && IsRequeued(runs[i], run) && next == runs[i := run]
  {
  }

  // ----- the store itself -----

  datatype SnapshotError =
    UnsupportedVersion | InvalidSnapshot | InvalidPlan | InvalidProgress | IncompleteMarkedCompleted

  const SNAPSHOT_VERSION: nat := 1

  class Store {
    var version: nat
    var runs: Runs

    constructor ()
      ensures version == SNAPSHOT_VERSION && runs == []
    {
      version, runs := SNAPSHOT_VERSION, [];
    }

    method ValidatePlan(steps: seq<Step>) returns (ok: bool)
      ensures ok <==> steps == [] || ValidPlan(steps)
    {
      for i := 0 to |steps|
        invariant forall j | 0 <= j < i :: steps[j].order != 0 && steps[j].scenarioId != ""
        invariant forall j | 0 < j < i :: steps[j - 1].order < steps[j].order
      {
        if steps[i].order == 0 || steps[i].scenarioId == "" || (i > 0 && steps[i - 1].order >= steps[i].order) {
          return false;
        }
      }
      ok := true;
    }

    method ValidateProgress(run: CampaignRun) returns (ok: bool)
      requires |run.results| <= |run.steps|
      ensures ok <==> ValidProgress(run)
    {
      for i := 0 to |run.results|
        invariant forall j | 0 <= j < i :: MatchesStep(run.results[j], run.steps[j])
        invariant forall j | 0 <= j < i && j < |run.results| - 1 :: run.results[j].status == Completed
      {
        var result := run.results[i];
        if !MatchesStep(result, run.steps[i]) || (i + 1 < |run.results| && result.status != Completed) {
          return false;
        }
      }
      ok := true;
    }

    method AnyNotCompleted(results: seq<StepResult>) returns (any: bool)
      ensures any <==> !AllCompleted(results)
    {
      for i := 0 to |results|
        invariant forall j | 0 <= j < i :: results[j].status == Completed
      {
        if results[i].status != Completed { return true; }
      }
      any := false;
    }

    /** Accepts exactly the valid snapshots of this version. */
    method Validate() returns (error: Option<SnapshotError>)
      ensures error.None? <==> version == SNAPSHOT_VERSION && ValidSnapshot(runs)
      ensures error.None? <==> version == 1 && Loads(runs)
    {
      LoadsIs(runs);
      hide Loads;
      if version != SNAPSHOT_VERSION { return Some(UnsupportedVersion); }
      var ids: set<string> := {};
      for i := 0 to |runs|
        invariant ids == set j | 0 <= j < i :: runs[j].id
        invariant forall j, k | 0 <= j < k < i :: runs[j].id != runs[k].id
        invariant forall j | 0 <= j < i :: ValidRun(runs[j])
      {
        var run := runs[i];
        if run.id == "" || run.id in ids || run.steps == [] || |run.results| > |run.steps| || run.status.OtherStatus? {
          return Some(InvalidSnapshot);
        }
        ids := ids + {run.id};
        var plan := ValidatePlan(run.steps);
        if !plan { return Some(InvalidPlan); }
        var progress := ValidateProgress(run);
        if !progress { return Some(InvalidProgress); }
        if run.status == Completed {
          var any := AnyNotCompleted(run.results);
          if |run.results| != |run.steps| || any { return Some(IncompleteMarkedCompleted); }
        }
      }
      error := None;
    }

    method Prune()
      modifies this`runs
      ensures runs == Pruned(old(runs))
    {
      var terminal := 0;
      for i := 0 to |runs|
        invariant terminal + |FinishedRuns(runs[i..])| == |FinishedRuns(runs)|
      {
        assert runs[i..][1..] == runs[i + 1..];
        if Finished(runs[i]) { terminal := terminal + 1; }
      }
      var excess: nat := if terminal > MAX_TERMINAL_RUNS then terminal - MAX_TERMINAL_RUNS else 0;
      var kept: Runs := [];
      for i := 0 to |runs|
        invariant kept + DropFinished(runs[i..], excess) == Pruned(runs)
      {
        assert runs[i..][1..] == runs[i + 1..];
        ghost var before := DropFinished(runs[i..], excess);
        if excess > 0 && Finished(runs[i]) {
          excess := excess - 1;
        } else {
          assert before == [runs[i]] + DropFinished(runs[i + 1..], excess);
          kept := kept + [runs[i]];
        }
      }
      assert runs[|runs|..] == [];
      runs := kept;
    }

    method Insert(run: CampaignRun)
      modifies this`runs
      ensures runs == Inserted(old(runs), run)
    {
      runs := runs + [run];
      Prune();
    }

    /** `get_mut` followed by the worker's change and retention, as one transaction. */
    method Update(run: CampaignRun) returns (found: bool)
      modifies this`runs
      ensures found == Get(old(runs), run.id).Some?
      ensures runs == if found then Revised(old(runs), run) else old(runs)
    {
      var i := IndexOf(runs, run.id);
      found := i < |runs|;
      if found {
        runs := runs[i := run];
        Prune();
      }
    }

    method MarkInterrupted(run: CampaignRun) returns (marked: CampaignRun)
      requires !RunTerminal(run.status)
      ensures marked == RecoveredRun(run)
    {
      marked := run;
      var n := |run.results|;
      if n > 0 && run.results[n - 1].status == Running {
        marked := marked.(results := run.results[n - 1 := run.results[n - 1].(status := Interrupted)]);
      }
      marked := marked.(status := Interrupted);
    }

    method RecoverInterrupted() returns (recovered: nat)
      modifies this`runs
      ensures runs == Recovered(old(runs))
      ensures recovered == InFlight(old(runs)) == |InFlightFrom(old(runs), 0)|
    {
      InFlightCounts(runs, 0);
      assert runs[0..] == runs;
      recovered := 0;
      var before := runs;
      for i := 0 to |before|
        invariant |runs| == |before|
        invariant forall j | 0 <= j < i :: runs[j] == RecoveredRun(before[j])
        invariant forall j | i <= j < |before| :: runs[j] == before[j]
        invariant recovered + InFlight(before[i..]) == InFlight(before)
      {
        assert before[i..][1..] == before[i + 1..];
        if !RunTerminal(runs[i].status) {
          var marked := MarkInterrupted(runs[i]);
          runs := runs[i := marked];
          recovered := recovered + 1;
        }
      }
      assert runs == Recovered(before);
    }

    method BeginResume(id: string) returns (r: Result<CampaignRun, ResumeError>)
      modifies this`runs
      ensures match BegunResume(old(runs), id)
              case Ok((next, run)) => r == Ok(run) && runs == next
              case Err(e) => r == Err(e) && runs == old(runs)
      ensures var i := IndexOf(old(runs), id);
              && (r == Err(NotFound) <==> i == |old(runs)|)
              && (r.Ok? <==> i < |old(runs)| && (old(runs)[i].status == Interrupted || old(runs)[i].status == Cancelled))
              && (r.Ok? ==> IsRequeued(old(runs)[i], r.value) && runs == old(runs)[i := r.value])
              && (r.Err? ==> runs == old(runs) && (r == Err(NotFound) || r == Err(NotResumable(old(runs)[i].status))))
    {
      ResumesExactlyStopped(runs, id);
      var i := IndexOf(runs, id);
      if i == |runs| { return Err(NotFound); }
      var run := runs[i];
      if run.status != Interrupted && run.status != Cancelled { return Err(NotResumable(run.status)); }
      if run.results != [] && run.results[|run.results| - 1].status != Completed {
        var attempt := run.results[|run.results| - 1];
        run := run.(results := run.results[..|run.results| - 1], superseded := run.superseded + [attempt]);
      }
      run := run.(status := Queued);
      run := run.(resumeCount := (run.resumeCount + 1) % 0x1_0000_0000);
      runs := runs[i := run];
      r := Ok(run);
    }
  }
}
