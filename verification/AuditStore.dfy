/** The audit store: an append-only log of signed revisions and the records published in memory.
    Each commit appends to the log first and publishes second. Loading the log keeps the last revision
    of every run id, in order of first appearance. */
module AuditStore {
  import opened Wrappers
  import opened Records
  import opened ScenarioExecution

  type Trail = seq<AuditRecord>

  predicate Holds(trail: Trail, id: string) {
    exists i | 0 <= i < |trail| :: trail[i].runId == id
  }

  /** The position of a run's record, or the length of the trail. */
  function Position(trail: Trail, id: string): (i: nat)
    ensures i <= |trail|
    ensures i < |trail| ==> trail[i].runId == id
    ensures forall j | 0 <= j < i :: trail[j].runId != id
    ensures i < |trail| <==> Holds(trail, id)
  {
    if trail == [] then 0
    else if trail[0].runId == id then 0
    else
      var rest := Position(trail[1..], id);
      assert Holds(trail[1..], id) ==> Holds(trail, id);
      assert forall j | 0 < j < |trail| :: trail[j] == trail[1..][j - 1];
      1 + rest
  }

  function Find(trail: Trail, id: string): Option<AuditRecord> {
    var i := Position(trail, id);
    if i < |trail| then Some(trail[i]) else None
  }

  /** Publishing a revision: in place for a known run, at the end for a new one. */
  function Published(trail: Trail, record: AuditRecord): Trail {
    var i := Position(trail, record.runId);
    if i < |trail| then trail[i := record] else trail + [record]
  }

  function Replayed(log: seq<AuditRecord>): Trail {
    if log == [] then [] else Published(Replayed(log[..|log| - 1]), log[|log| - 1])
  }

  ghost predicate UniqueRuns(trail: Trail) {
    forall i, j | 0 <= i < j < |trail| :: trail[i].runId != trail[j].runId
  }

  /** The trail as the map from run ids to records that CampaignProtocol works on. */
  function AsMap(trail: Trail): map<string, AuditRecord> {
    map r | r in trail :: r.runId := Find(trail, r.runId).value
  }

  lemma PositionIs(trail: Trail, i: nat)
    requires UniqueRuns(trail) && i < |trail|
    ensures Position(trail, trail[i].runId) == i
  {
  }

  lemma PublishedUnique(trail: Trail, record: AuditRecord)
    requires UniqueRuns(trail)
    ensures UniqueRuns(Published(trail, record))
  {
  }

  lemma {:induction false} ReplayedUnique(log: seq<AuditRecord>)
    ensures UniqueRuns(Replayed(log))
  {
    if log != [] {
      ReplayedUnique(log[..|log| - 1]);
      PublishedUnique(Replayed(log[..|log| - 1]), log[|log| - 1]);
    }
  }

  lemma ReplayedAppend(log: seq<AuditRecord>, record: AuditRecord)
    ensures Replayed(log + [record]) == Published(Replayed(log), record)
  {
    assert (log + [record])[..|log|] == log;
  }

  lemma AsMapFinds(trail: Trail, id: string)
    ensures (id in AsMap(trail)) == Find(trail, id).Some?
    ensures id in AsMap(trail) ==> AsMap(trail)[id] == Find(trail, id).value
  {
    if id in AsMap(trail) {
      var r :| r in trail && r.runId == id;
      var n :| 0 <= n < |trail| && trail[n] == r;
      assert Holds(trail, id);
    }
    if Find(trail, id).Some? {
      assert trail[Position(trail, id)] in trail;
    }
  }

  lemma FindPublished(trail: Trail, record: AuditRecord, id: string)
    ensures Find(Published(trail, record), id) == if id == record.runId then Some(record) else Find(trail, id)
  {
    var i := Position(trail, record.runId);
    var next := Published(trail, record);
    var m, j := Position(trail, id), Position(next, id);
    if id == record.runId {
      assert next[i] == record;
      assert Holds(next, id);
    } else {
      if m < |trail| { assert next[m] == trail[m]; assert Holds(next, id); }
      if j < |next| { assert j != i; assert next[j] == trail[j]; assert Holds(trail, id); }
    }
  }

  /** One commit of the store is one map update of the protocol. */
  lemma PublishedIsMapUpdate(trail: Trail, record: AuditRecord)
    ensures AsMap(Published(trail, record)) == AsMap(trail)[record.runId := record]
  {
    forall id
      ensures (id in AsMap(Published(trail, record))) == (id in AsMap(trail)[record.runId := record])
      ensures id in AsMap(Published(trail, record)) ==>
                AsMap(Published(trail, record))[id] == AsMap(trail)[record.runId := record][id]
    {
      AsMapFinds(trail, id);
      AsMapFinds(Published(trail, record), id);
      FindPublished(trail, record, id);
    }
  }

  /** The last revision logged for a run is the one a restart sees. */
  lemma {:induction false} ReplayIsLastRevision(log: seq<AuditRecord>, n: nat)
    requires n < |log| && forall i | n < i < |log| :: log[i].runId != log[n].runId
    ensures Find(Replayed(log), log[n].runId) == Some(log[n])
  {
    var last := |log| - 1;
    FindPublished(Replayed(log[..last]), log[last], log[n].runId);
    if n < last { ReplayIsLastRevision(log[..last], n); }
  }

  lemma SameRunPosition(a: Trail, b: Trail, id: string)
    requires |a| == |b| && forall i | 0 <= i < |a| :: a[i].runId == b[i].runId
    ensures Position(a, id) == Position(b, id)
  {
    var i, j := Position(a, id), Position(b, id);
    if i < |a| { assert b[i].runId == id; assert Holds(b, id); }
    if j < |b| { assert a[j].runId == id; assert Holds(a, id); }
  }

  lemma PushedPosition(trail: Trail, record: AuditRecord, id: string)
    requires !Holds(trail, record.runId)
    ensures Position(trail + [record], id) ==
            if id == record.runId then |trail| else if Holds(trail, id) then Position(trail, id) else |trail| + 1
  {
    var next := trail + [record];
    var i, j := Position(trail, id), Position(next, id);
    if id == record.runId { assert next[|trail|].runId == id; assert Holds(next, id); }
    if i < |trail| { assert next[i].runId == id; assert Holds(next, id); }
    if j < |trail| { assert trail[j].runId == id; assert Holds(trail, id); }
  }

  /** The index the loader keeps while it reads the log. */
  ghost predicate Indexes(positions: map<string, nat>, trail: Trail) {
    && (forall id :: id in positions <==> Holds(trail, id))
    && forall id | id in positions :: positions[id] == Position(trail, id)
  }

  lemma RevisedIndex(positions: map<string, nat>, trail: Trail, record: AuditRecord)
    requires Indexes(positions, trail) && record.runId in positions
    ensures Published(trail, record) == trail[positions[record.runId] := record]
    ensures Indexes(positions, Published(trail, record))
  {
    hide Position, Holds;
    var next := Published(trail, record);
    forall id ensures Position(next, id) == Position(trail, id) { SameRunPosition(trail, next, id); }
    forall id ensures Holds(next, id) == Holds(trail, id) { SameRunHolds(trail, next, id); }
  }

  lemma SameRunHolds(a: Trail, b: Trail, id: string)
    requires |a| == |b| && Position(a, id) == Position(b, id)
    ensures Holds(a, id) == Holds(b, id)
  {
  }

  lemma PushedIndex(positions: map<string, nat>, trail: Trail, record: AuditRecord)
    requires Indexes(positions, trail) && record.runId !in positions
    ensures Published(trail, record) == trail + [record]
    ensures Indexes(positions[record.runId := |trail|], Published(trail, record))
  {
    hide Position, Holds;
    var next := trail + [record];
    forall id ensures Holds(next, id) == (id == record.runId || Holds(trail, id)) {
      PushedPosition(trail, record, id);
    }
    forall id { PushedPosition(trail, record, id); }
  }

  /** `AuditTrail::from_jsonl`: a later revision replaces the earlier one where it stands. */
  method FromJsonl(log: seq<AuditRecord>) returns (trail: Trail)
    ensures trail == Replayed(log)
  {
    trail := [];
    var positions: map<string, nat> := map[];
    assert log[..0] == [] && Indexes(positions, trail);
    hide Position, Holds, Published, Indexes;
    for i := 0 to |log|
      invariant trail == Replayed(log[..i]) && Indexes(positions, trail)
    {
      var record := log[i];
      assert log[..i + 1][..i] == log[..i];
      if record.runId in positions {
        RevisedIndex(positions, trail, record);
        IndexInRange(positions, trail, record.runId);
        trail := trail[positions[record.runId] := record];
      } else {
        PushedIndex(positions, trail, record);
        positions := positions[record.runId := |trail|];
        trail := trail + [record];
      }
    }
    assert log[..|log|] == log;
  }

  lemma IndexInRange(positions: map<string, nat>, trail: Trail, id: string)
    requires Indexes(positions, trail) && id in positions
    ensures positions[id] < |trail|
  {
  }

  // ----- startup recovery -----

  /** The revisions startup logs, one for each record still in flight, in order. */
  function Interruptions(trail: Trail): seq<AuditRecord> {
    if trail == [] then []
    else
      var n := |trail| - 1;
      Interruptions(trail[..n]) + if Terminal(trail[n].status) then [] else [InterruptedRecord(trail[n])]
  }

  function RecoveredRecord(record: AuditRecord): AuditRecord {
    if Terminal(record.status) then record else InterruptedRecord(record)
  }

  function RecoveredTrail(trail: Trail): (r: Trail) {
    seq(|trail|, i requires 0 <= i < |trail| => RecoveredRecord(trail[i]))
  }

  lemma {:induction false} InterruptionsPrefix(trail: Trail, i: nat)
    requires i <= |trail|
    ensures Interruptions(trail[..i]) <= Interruptions(trail)
  {
    if i < |trail| {
      InterruptionsPrefix(trail[..|trail| - 1], i);
      assert trail[..|trail| - 1][..i] == trail[..i];
    } else {
      assert trail[..i] == trail;
    }
  }

  lemma InterruptionsStep(trail: Trail, i: nat)
    requires i < |trail|
    ensures Interruptions(trail[..i + 1]) ==
            Interruptions(trail[..i]) + if Terminal(trail[i].status) then [] else [InterruptedRecord(trail[i])]
  {
    assert trail[..i + 1][..i] == trail[..i];
  }

  /** The trail after the first i records have been looked at. */
  function PartlyRecovered(trail: Trail, i: nat): Trail
    requires i <= |trail|
  {
    RecoveredTrail(trail[..i]) + trail[i..]
  }

  lemma PartlyRecoveredEnds(trail: Trail)
    ensures PartlyRecovered(trail, 0) == trail && PartlyRecovered(trail, |trail|) == RecoveredTrail(trail)
  {
    assert trail[..|trail|] == trail;
  }

  lemma FinishedIsKept(trail: Trail, i: nat)
    requires i < |trail| && Terminal(trail[i].status)
    ensures PartlyRecovered(trail, i + 1) == PartlyRecovered(trail, i)
    ensures Interruptions(trail[..i + 1]) == Interruptions(trail[..i])
  {
    InterruptionsStep(trail, i);
  }

  /** The revision of a record in flight is the next one to log; what was logged before stays a prefix. */
  lemma InterruptionLogged(trail: Trail, i: nat, start: seq<AuditRecord>)
    requires i < |trail| && !Terminal(trail[i].status)
    ensures var done := Interruptions(trail[..i]);
            && |done| < |Interruptions(trail)| && Interruptions(trail)[..|done|] == done
            && |Interruptions(trail[..i + 1])| == |done| + 1
            && start + Interruptions(trail[..i + 1]) == (start + done) + [InterruptedRecord(trail[i])]
  {
    hide Interruptions;
    InterruptionsStep(trail, i);
    InterruptionsPrefix(trail, i);
    InterruptionsPrefix(trail, i + 1);
  }

  lemma PublishedInterruption(trail: Trail, i: nat)
    requires UniqueRuns(trail) && i < |trail| && !Terminal(trail[i].status)
    ensures Published(PartlyRecovered(trail, i), InterruptedRecord(trail[i])) == PartlyRecovered(trail, i + 1)
  {
    hide UniqueRuns, Position;
    SameRunPosition(PartlyRecovered(trail, i), trail, trail[i].runId);
    PositionIs(trail, i);
  }

  // ----- the store -----

  datatype AuditError = DuplicateRun | RunIdChanged | NotPersisted | Rejected

  class Store {
    var log: seq<AuditRecord>
    var trail: Trail

    /** What is published is exactly what the log replays to. */
    ghost predicate Valid()
      reads this
    {
      trail == Replayed(log)
    }

    constructor Load(onDisk: seq<AuditRecord>)
      ensures Valid() && log == onDisk
    {
      var loaded := FromJsonl(onDisk);
      log, trail := onDisk, loaded;
    }

    method Publish(record: AuditRecord)
      requires Valid()
      modifies this
      ensures Valid() && log == old(log) + [record] && trail == Published(old(trail), record)
    {
      ReplayedAppend(log, record);
      log := log + [record];
      trail := Published(trail, record);
    }

    /** Admits a run id once: a duplicate or a failed write changes neither log nor memory. */
    method Append(record: AuditRecord, writable: bool) returns (r: Result<(), AuditError>)
      requires Valid()
      modifies this
      ensures Valid()
      ensures r.Ok? <==> !Holds(old(trail), record.runId) && writable
      ensures Holds(old(trail), record.runId) <==> r == Err(DuplicateRun)
      ensures r.Ok? ==> log == old(log) + [record] && trail == old(trail) + [record]
      ensures r.Err? ==> log == old(log) && trail == old(trail)
    {
      if Position(trail, record.runId) < |trail| { return Err(DuplicateRun); }
      if !writable { return Err(NotPersisted); }
      Publish(record);
      r := Ok(());
    }

    /** Revises the latest published revision of one run; only that run's record changes. */
    method Update(id: string, change: AuditRecord -> Result<AuditRecord, AuditError>, writable: bool)
      returns (r: Result<Option<AuditRecord>, AuditError>)
      requires Valid()
      modifies this
      ensures Valid()
      ensures match Find(old(trail), id)
              case None => r == Ok(None)
              case Some(before) =>
                match change(before)
                case Err(e) => r == Err(e)
                case Ok(after) => r == if after.runId != id then Err(RunIdChanged)
                                       else if !writable then Err(NotPersisted) else Ok(Some(after))
      ensures r.Ok? && r.value.Some? ==> log == old(log) + [r.value.value] && Find(trail, id) == r.value
      ensures r.Err? || r.value.None? ==> log == old(log) && trail == old(trail)
      ensures forall other | other != id :: Find(trail, other) == Find(old(trail), other)
    {
      var i := Position(trail, id);
      if i == |trail| { return Ok(None); }
      match change(trail[i])
      case Err(e) => return Err(e);
      case Ok(after) =>
        if after.runId != id { return Err(RunIdChanged); }
        if !writable { return Err(NotPersisted); }
        ghost var before := trail;
        Publish(after);
        forall other { FindPublished(before, after, other); }
        r := Ok(Some(after));
    }

    /** Logs and publishes an INTERRUPTED revision for every record still in flight, in order. A failed
        write stops after the revisions already logged; startup then fails and retries from the log. */
    method RecoverIncomplete(writable: nat) returns (ok: bool)
      requires Valid()
      modifies this
      ensures Valid()
      ensures ok <==> |Interruptions(old(trail))| <= writable
      ensures ok ==> log == old(log) + Interruptions(old(trail)) && trail == RecoveredTrail(old(trail))
      ensures !ok ==> log == old(log) + Interruptions(old(trail))[..writable]
    {
      assert Interruptions([]) == [];
      ReplayedUnique(log);
      hide *;
      var records := trail;
      var written := 0;
      PartlyRecoveredEnds(records);
      assert records[..0] == [];
      ghost var start := log;
      for i := 0 to |records|
        invariant Valid() && written <= writable
        invariant trail == PartlyRecovered(records, i)
        invariant log == start + Interruptions(records[..i])
        invariant written == |Interruptions(records[..i])|
      {
        if !Terminal(records[i].status) {
          InterruptionLogged(records, i, start);
          if written == writable { return false; }
          PublishedInterruption(records, i);
          Publish(InterruptedRecord(records[i]));
          written := written + 1;
        } else {
          FinishedIsKept(records, i);
        }
      }
      assert records[..|records|] == records;
      ok := true;
    }
  }

  /** After a complete recovery nothing is in flight and finished records are untouched; an interrupted
      run may be retried exactly when it was simulated. */
  lemma RecoveredTrailIsTerminal(trail: Trail, id: string)
    requires UniqueRuns(trail)
    ensures match Find(trail, id)
            case None => Find(RecoveredTrail(trail), id).None?
            case Some(before) =>
              && Find(RecoveredTrail(trail), id) == Some(RecoveredRecord(before))
              && Terminal(RecoveredRecord(before).status)
              && (!Terminal(before.status) ==> (SafeToRetry(RecoveredRecord(before)) <==> Simulated(before)))
  {
    hide Position, UniqueRuns;
    SameRunPosition(RecoveredTrail(trail), trail, id);
  }
}
