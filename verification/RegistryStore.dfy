/** The durable form of the registry (crates/asmodeus-control-plane/src/registry_store.rs): a versioned
    list of runner configurations in id order, without health. What makes a URL a usable endpoint is
    left to the parameter `usable`. */
module RegistryStore {
  import opened Wrappers
  import opened Text
  import opened RunnerRegistry

  datatype Entry = Entry(id: string, config: RunnerConfig)

  datatype Snapshot = Snapshot(version: nat, requireRunner: bool, runners: seq<Entry>)

  predicate ValidIdentity(usable: string -> bool, id: string, endpoint: string) {
    usable(endpoint) && id != "" && Trim(id) == id
  }

  ghost predicate ValidSnapshot(usable: string -> bool, s: Snapshot) {
    && s.version == 1
    && (!s.requireRunner ==> s.runners == [])
    && (forall i | 0 <= i < |s.runners| :: ValidIdentity(usable, s.runners[i].id, s.runners[i].config.endpoint))
    && (forall i, j | 0 <= i < j < |s.runners| :: s.runners[i].id != s.runners[j].id)
  }

  /** The same, on the data itself: what a registry file has to look like to be loaded. */
  ghost predicate Loads(usable: string -> bool, s: Snapshot) {
    && s.version == 1 && (s.runners != [] ==> s.requireRunner)
    && (forall i | 0 <= i < |s.runners| ::
          var e := s.runners[i]; usable(e.config.endpoint) && e.id != "" && !White(e.id[0]) && !White(e.id[|e.id| - 1]))
    && forall i, j | 0 <= i < |s.runners| && 0 <= j < |s.runners| && i != j :: s.runners[i].id != s.runners[j].id
  }

  /** A string is its own trim exactly when no white space stands at either end. */
  lemma TrimmedExactly(s: string)
    ensures Trim(s) == s <==> s == "" || (!White(s[0]) && !White(s[|s| - 1]))
  {
    hide White;
    if s != "" && Trim(s) == s { assert TrimStart(s) == s; }
  }

  lemma LoadsIs(usable: string -> bool, s: Snapshot)
    ensures Loads(usable, s) <==> ValidSnapshot(usable, s)
  {
    hide White, Trim;
    forall i | 0 <= i < |s.runners| { TrimmedExactly(s.runners[i].id); }
  }

  ghost predicate ValidConfig(usable: string -> bool, c: Config) {
    && (!c.requireRunner ==> c.runners == map[])
    && forall id | id in c.runners :: ValidIdentity(usable, id, c.runners[id].endpoint)
  }

  ghost function Listed(d: Data, ids: seq<string>): (entries: seq<Entry>)
    requires forall id | id in ids :: id in d.runners
    ensures |entries| == |ids|
    ensures forall i | 0 <= i < |ids| :: ids[i] in d.runners && entries[i] == Entry(ids[i], ConfigOfRecord(d.runners[ids[i]].record))
  {
    if ids == [] then []
    else
      assert forall id | id in ids[1..] :: id in ids;
      [Entry(ids[0], ConfigOfRecord(d.runners[ids[0]].record))] + Listed(d, ids[1..])
  }

  /** `RegistrySnapshot::from_data`: the projection, in id order. */
  ghost function FromData(d: Data): Snapshot {
    Snapshot(1, d.requireRunner, Listed(d, SortedIds(d.runners.Keys)))
  }

  function Restored(e: Entry): RunnerRecord {
    RunnerRecord(e.id, e.config.name, e.config.endpoint, e.config.tags,
                 if e.config.draining then Draining else Unresponsive, None, 0, "", e.config.registeredAt)
  }

  /** A restart keeps the configuration of a runner and knows nothing of its health. */
  lemma RestoredExactly(e: Entry)
    ensures var r := Restored(e);
            && r.id == e.id && r.name == e.config.name && r.endpoint == e.config.endpoint && r.tags == e.config.tags
            && r.registeredAt == e.config.registeredAt && (r.status == Draining <==> e.config.draining) && r.status != Active
            && r.lastHeartbeat.None? && r.cpu == 0 && r.version == ""
  {
  }

  function RestoredRunners(entries: seq<Entry>, epoch: nat): map<string, Registered> {
    if entries == [] then map[]
    else
      var n := |entries| - 1;
      RestoredRunners(entries[..n], epoch)[entries[n].id := Registered(Restored(entries[n]), epoch)]
  }

  /** `RegistrySnapshot::into_data`: health unknown, maintenance kept, and tokens no probe holds. */
  function IntoData(s: Snapshot, epoch: nat): Data {
    Data(RestoredRunners(s.runners, epoch), s.requireRunner, epoch + 1)
  }

  /** Accepts exactly the valid snapshots. */
  method Validate(usable: string -> bool, s: Snapshot) returns (ok: bool)
    ensures ok <==> ValidSnapshot(usable, s)
    ensures ok <==> Loads(usable, s)
  {
    LoadsIs(usable, s);
    hide ValidIdentity, Loads;
    if s.version != 1 || (!s.requireRunner && s.runners != []) { return false; }
    var ids: set<string> := {};
    for i := 0 to |s.runners|
      invariant ids == set j | 0 <= j < i :: s.runners[j].id
      invariant forall j | 0 <= j < i :: ValidIdentity(usable, s.runners[j].id, s.runners[j].config.endpoint)
      invariant forall j, k | 0 <= j < k < i :: s.runners[j].id != s.runners[k].id
    {
      var runner := s.runners[i];
      if !ValidIdentity(usable, runner.id, runner.config.endpoint) || runner.id in ids { return false; }
      ids := ids + {runner.id};
    }
    ok := true;
  }

  // ----- the projection and its inverse -----

  ghost predicate UniqueIds(entries: seq<Entry>) {
    forall i, j | 0 <= i < j < |entries| :: entries[i].id != entries[j].id
  }

  lemma {:induction false} RestoredKeys(entries: seq<Entry>, epoch: nat, id: string)
    ensures id in RestoredRunners(entries, epoch) <==> exists i :: 0 <= i < |entries| && entries[i].id == id
  {
    if entries != [] {
      var n := |entries| - 1;
      RestoredKeys(entries[..n], epoch, id);
      if i :| 0 <= i < n && entries[..n][i].id == id { assert entries[i].id == id; }
      if i :| 0 <= i < |entries| && entries[i].id == id && i < n { assert entries[..n][i].id == id; }
    }
  }

  lemma {:induction false} RestoredAt(entries: seq<Entry>, epoch: nat, i: nat)
    requires UniqueIds(entries) && i < |entries|
    ensures entries[i].id in RestoredRunners(entries, epoch)
    ensures RestoredRunners(entries, epoch)[entries[i].id] == Registered(Restored(entries[i]), epoch)
  {
    if i < |entries| - 1 { RestoredAt(entries[..|entries| - 1], epoch, i); }
  }

  lemma {:induction false} RestoredKeyed(entries: seq<Entry>, epoch: nat)
    ensures forall id | id in RestoredRunners(entries, epoch) ::
              RestoredRunners(entries, epoch)[id].record.id == id && RestoredRunners(entries, epoch)[id].epoch == epoch
              && RestoredRunners(entries, epoch)[id].record.status != Active
  {
    if entries != [] { RestoredKeyed(entries[..|entries| - 1], epoch); }
  }

  lemma FromDataUnique(d: Data)
    ensures UniqueIds(FromData(d).runners)
  {
    var ids := SortedIds(d.runners.Keys);
    forall i, j | 0 <= i < j < |ids| ensures ids[i] != ids[j] { LessIrreflexive(ids[i]); }
  }

  /** Every registration is listed, and nothing else is. */
  lemma ListedOnce(d: Data, id: string)
    ensures id in d.runners <==> exists i :: 0 <= i < |FromData(d).runners| && FromData(d).runners[i].id == id
    ensures forall i | 0 <= i < |FromData(d).runners| && FromData(d).runners[i].id == id ::
              id in d.runners && FromData(d).runners[i] == Entry(id, ConfigOfRecord(d.runners[id].record))
  {
    hide SortedIds, ConfigOfRecord;
    var ids := SortedIds(d.runners.Keys);
    if id in d.runners {
      assert id in ids;
      var i :| 0 <= i < |ids| && ids[i] == id;
      assert FromData(d).runners[i].id == id;
    }
  }

  lemma BackAt(d: Data, epoch: nat, id: string)
    ensures var back := IntoData(FromData(d), epoch);
            && (id in back.runners <==> id in d.runners)
            && (id in d.runners ==>
                  back.runners[id] == Registered(Restored(Entry(id, ConfigOfRecord(d.runners[id].record))), epoch))
  {
    hide FromData, UniqueIds;
    ListedOnce(d, id);
    FromDataUnique(d);
    RestoredKeys(FromData(d).runners, epoch, id);
    if id in d.runners {
      var i :| 0 <= i < |FromData(d).runners| && FromData(d).runners[i].id == id;
      RestoredAt(FromData(d).runners, epoch, i);
    }
  }

  /** A restart keeps the configuration and the sticky runner-required flag, and nothing else: every
      runner starts out unprobed, drained if it was drained and unresponsive otherwise. */
  lemma RestartKeepsConfig(d: Data, epoch: nat)
    ensures ConfigOf(IntoData(FromData(d), epoch)) == ConfigOf(d)
    ensures forall id | id in IntoData(FromData(d), epoch).runners ::
              id in d.runners &&
              IntoData(FromData(d), epoch).runners[id].record == Restored(Entry(id, ConfigOfRecord(d.runners[id].record)))
    ensures Keyed(IntoData(FromData(d), epoch))
  {
    hide FromData, IntoData, ConfigOf, Keyed, Restored, ConfigOfRecord;
    var back := IntoData(FromData(d), epoch);
    forall id
      ensures id in back.runners <==> id in d.runners
      ensures id in d.runners ==> back.runners[id] == Registered(Restored(Entry(id, ConfigOfRecord(d.runners[id].record))), epoch)
    {
      BackAt(d, epoch, id);
    }
    FromDataHead(d);
    IntoDataHead(FromData(d), epoch);
    SameConfig(d, back, epoch);
  }

  lemma IntoDataHead(s: Snapshot, epoch: nat)
    ensures IntoData(s, epoch).requireRunner == s.requireRunner && IntoData(s, epoch).nextEpoch == epoch + 1
  {
  }

  lemma SameConfig(d: Data, back: Data, epoch: nat)
    requires back.requireRunner == d.requireRunner && back.nextEpoch == epoch + 1
    requires forall id :: id in back.runners <==> id in d.runners
    requires forall id | id in d.runners ::
               back.runners[id] == Registered(Restored(Entry(id, ConfigOfRecord(d.runners[id].record))), epoch)
    ensures ConfigOf(back) == ConfigOf(d) && Keyed(back)
  {
    assert ConfigOf(back).runners == ConfigOf(d).runners;
  }

  lemma SameListing(a: Data, b: Data)
    requires ConfigOf(a) == ConfigOf(b)
    ensures FromData(a) == FromData(b)
  {
    hide SortedIds, ConfigOfRecord;
    assert a.runners.Keys == ConfigOf(a).runners.Keys == ConfigOf(b).runners.Keys == b.runners.Keys;
    var ids := SortedIds(a.runners.Keys);
    forall i | 0 <= i < |ids| ensures FromData(a).runners[i] == FromData(b).runners[i] {
      assert ConfigOf(a).runners[ids[i]] == ConfigOf(b).runners[ids[i]];
    }
    assert FromData(a).runners == FromData(b).runners;
  }

  /** The stored form is canonical: it is a function of the configuration, and an injective one. Comparing
      snapshots before and after a change therefore decides whether the configuration changed. */
  lemma SnapshotIsCanonical(a: Data, b: Data)
    ensures FromData(a) == FromData(b) <==> ConfigOf(a) == ConfigOf(b)
  {
    hide FromData, ConfigOf, IntoData;
    if FromData(a) == FromData(b) {
      RestartKeepsConfig(a, 0);
      RestartKeepsConfig(b, 0);
    }
    if ConfigOf(a) == ConfigOf(b) { SameListing(a, b); }
  }

  ghost function IdsOf(entries: seq<Entry>): (ids: seq<string>)
    ensures |ids| == |entries| && forall i | 0 <= i < |ids| :: ids[i] == entries[i].id
  {
    if entries == [] then [] else [entries[0].id] + IdsOf(entries[1..])
  }

  ghost predicate InIdOrder(entries: seq<Entry>) {
    forall i, j | 0 <= i < j < |entries| :: Less(entries[i].id, entries[j].id)
  }

  lemma OrderedIds(entries: seq<Entry>, epoch: nat)
    requires InIdOrder(entries)
    ensures IdsOf(entries) == SortedIds(RestoredRunners(entries, epoch).Keys) && UniqueIds(entries)
  {
    hide RestoredRunners, SortedIds;
    var ids := IdsOf(entries);
    forall x ensures x in ids <==> x in RestoredRunners(entries, epoch) {
      RestoredKeys(entries, epoch, x);
      if i :| 0 <= i < |entries| && entries[i].id == x { assert ids[i] == x; }
    }
    AscendingUnique(ids, SortedIds(RestoredRunners(entries, epoch).Keys));
    forall i, j | 0 <= i < j < |entries| ensures entries[i].id != entries[j].id { LessIrreflexive(entries[i].id); }
  }

  /** Reading a snapshot in id order and writing it back gives it back. */
  lemma SnapshotRoundTrip(s: Snapshot, epoch: nat)
    requires s.version == 1 && InIdOrder(s.runners)
    ensures FromData(IntoData(s, epoch)) == s
  {
    hide FromData, IntoData, InIdOrder;
    var d := IntoData(s, epoch);
    SameLength(s, epoch);
    forall i | 0 <= i < |s.runners| ensures FromData(d).runners[i] == s.runners[i] {
      SameEntryAt(s, epoch, i);
    }
    assert FromData(d).runners == s.runners;
    FromDataHead(d);
    IntoDataHead(s, epoch);
  }

  lemma SameLength(s: Snapshot, epoch: nat)
    requires InIdOrder(s.runners)
    ensures |FromData(IntoData(s, epoch)).runners| == |s.runners|
  {
    hide RestoredRunners, SortedIds, InIdOrder, UniqueIds;
    OrderedIds(s.runners, epoch);
  }

  lemma SameEntryAt(s: Snapshot, epoch: nat, i: nat)
    requires InIdOrder(s.runners) && i < |s.runners| == |FromData(IntoData(s, epoch)).runners|
    ensures FromData(IntoData(s, epoch)).runners[i] == s.runners[i]
  {
    hide RestoredRunners, SortedIds, InIdOrder, UniqueIds;
    OrderedIds(s.runners, epoch);
    RestoredAt(s.runners, epoch, i);
  }

  /** What the system writes it can read: the stored form is valid exactly when the configuration is. */
  lemma WrittenIsValid(usable: string -> bool, d: Data)
    ensures ValidSnapshot(usable, FromData(d)) <==> ValidConfig(usable, ConfigOf(d))
  {
    hide ValidIdentity, FromData;
    var s, c := FromData(d), ConfigOf(d);
    FromDataUnique(d);
    FromDataHead(d);
    assert c.runners.Keys == d.runners.Keys;
    if ValidSnapshot(usable, s) {
      forall id | id in c.runners ensures ValidIdentity(usable, id, c.runners[id].endpoint) { ListedOnce(d, id); }
    }
    if ValidConfig(usable, c) {
      forall i | 0 <= i < |s.runners| ensures ValidIdentity(usable, s.runners[i].id, s.runners[i].config.endpoint) {
        ListedOnce(d, s.runners[i].id);
        assert c.runners[s.runners[i].id] == s.runners[i].config;
      }
    }
  }

  lemma FromDataHead(d: Data)
    ensures FromData(d).version == 1 && FromData(d).requireRunner == d.requireRunner
    ensures FromData(d).runners == [] <==> d.runners == map[]
  {
    if d.runners == map[] { assert d.runners.Keys == {}; }
    if FromData(d).runners == [] { assert |d.runners.Keys| == 0; }
  }

  // ----- the registry with its file -----

  method Project(d: Data) returns (s: Snapshot)
    ensures s == FromData(d)
  {
    hide SortedIds, ConfigOfRecord;
    var ids := SortIds(d.runners.Keys);
    ghost var all := Listed(d, ids);
    var runners: seq<Entry> := [];
    for i := 0 to |ids|
      invariant runners == all[..i]
    {
      runners := runners + [Entry(ids[i], ConfigOfRecord(d.runners[ids[i]].record))];
    }
    s := Snapshot(1, d.requireRunner, runners);
  }

  /** The live registry and its file; no file when persistence is off. */
  class Registry {
    const data: RegistryData
    var file: Option<Snapshot>

    constructor (d: Data, file: Option<Snapshot>)
      ensures fresh(data) && data.Value() == d && this.file == file
    {
      data := new RegistryData.Copy(d);
      this.file := file;
    }

    /** The change runs on a clone, is persisted if it changed the configuration, and then runs again
        on the live data. Only a failed write refuses it, and then nothing moved. */
    method Update(change: Change, writable: bool) returns (reply: Option<Reply>)
      requires Keyed(data.Value()) && (file.Some? ==> file.value == FromData(data.Value()))
      modifies this, data
      ensures reply.None? <==> old(file).Some? && !writable &&
                               ConfigOf(Applied(old(data.Value()), change)) != ConfigOf(old(data.Value()))
      ensures reply.None? ==> data.Value() == old(data.Value()) && file == old(file)
      ensures reply.Some? ==> data.Value() == Applied(old(data.Value()), change)
                              && reply.value == ReplyTo(old(data.Value()), change)
      ensures Keyed(data.Value()) && file.Some? == old(file).Some?
      ensures file.Some? ==> file.value == FromData(data.Value())
    {
      hide Applied, ReplyTo, FromData, ConfigOf, Keyed;
      ChangeCommutes(data.Value(), change);
      SnapshotIsCanonical(data.Value(), Applied(data.Value(), change));
      var next := new RegistryData.Copy(data.Value());
      var before := Project(next.Value());
      var _ := next.Apply(change);
      var after := Project(next.Value());
      if file.Some? && before != after {
        if !writable { return None; }
        file := Some(after);
      }
      var live := data.Apply(change);
      reply := Some(live);
    }
  }
}
