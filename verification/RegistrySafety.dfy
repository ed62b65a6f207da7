/** What the registry promises over whole runs: the file is the configuration, a restart loses only
    health, status is a function of the probe history, and superseded probes change nothing. */
module RegistrySafety {
  import opened Wrappers
  import opened RunnerRegistry
  import opened RegistryStore
  import opened RegistryProtocol

  // ----- every action keeps the invariant -----

  lemma BootKeepsInv(w: World, default: Option<RunnerRecord>, ok: bool)
    requires RegistryInv(w) && Enabled(w, Boot(default, ok))
    ensures RegistryInv(DoBoot(w, default, ok))
  {
    hide FromData, IntoData, ConfigOf, Keyed, Denotes, Configured, Applied, ValidSnapshot, ValidConfig;
    var e := w.live.nextEpoch;
    match w.file
    case Some(s) =>
      BootedConfig(s, Durable(w), e);
    case None =>
      var d := Seeded(default, e);
      FromDataDenotes(d);
      WrittenIsValid(w.usable, d);
      BootedConfig(FromData(d), ConfigOf(d), e + 1);
  }

  lemma AskKeepsInv(w: World, k: nat, change: Change)
    requires RegistryInv(w) && Enabled(w, Ask(k, change))
    ensures RegistryInv(Next(w, Ask(k, change)))
  {
    hide ConfigOf, Keyed, Denotes, Configured, Acceptable, ValidConfig, StatusOk, ProbeOk;
  }

  lemma CloneKeepsInv(w: World, k: nat)
    requires RegistryInv(w) && Enabled(w, Clone(k))
    ensures RegistryInv(Next(w, Clone(k)))
  {
    hide FromData, ConfigOf, Keyed, Denotes, Configured, Applied, Acceptable, ValidConfig, StatusOk, ProbeOk;
    var change := w.writers[k].change;
    FromDataDenotes(w.live);
    FromDataDenotes(Applied(w.live, change));
    ChangeCommutes(w.live, change);
  }

  lemma PersistKeepsInv(w: World, k: nat, ok: bool)
    requires RegistryInv(w) && Enabled(w, Persist(k, ok))
    ensures RegistryInv(DoPersist(w, k, ok))
  {
    hide ProbesOk, StatusOk, FilesOk, WritersOk, ConfigOf, Keyed, Denotes, Configured, DoPersist;
    var w' := DoPersist(w, k, ok);
    PersistFrame(w, k, ok);
    PersistFiles(w, k, ok);
    PersistWriters(w, k, ok);
    ProbesStay(w, w');
  }

  lemma PersistFrame(w: World, k: nat, ok: bool)
    requires Enabled(w, Persist(k, ok))
    ensures var w' := DoPersist(w, k, ok);
            w'.up == w.up && w'.live == w.live && w'.probes == w.probes && w'.events == w.events && k in w'.writers
  {
  }

  lemma ProbesStay(w: World, w': World)
    requires ProbesOk(w) && w'.live == w.live && w'.probes == w.probes
    ensures ProbesOk(w')
  {
    hide ProbeOk;
  }

  lemma PersistWriters(w: World, k: nat, ok: bool)
    requires WritersOk(w) && Enabled(w, Persist(k, ok))
    ensures WritersOk(DoPersist(w, k, ok))
  {
    hide ConfigOf, Keyed, Denotes, Configured, Acceptable;
  }

  lemma PersistFiles(w: World, k: nat, ok: bool)
    requires WritersOk(w) && FilesOk(w) && Enabled(w, Persist(k, ok))
    ensures FilesOk(DoPersist(w, k, ok))
  {
    hide ConfigOf, Keyed, Denotes, Configured, Acceptable, ValidConfig;
    var change := w.writers[k].change;
    ConfigAfterOne(w.seed, w.committed, change);
    ChangeStaysValid(w.usable, Durable(w), change);
    assert (w.committed + [change])[..|w.committed|] == w.committed;
    DenotesUnique(w.writers[k].pc.before, w.file.value, Durable(w));
  }

  lemma PublishKeepsFiles(w: World, k: nat)
    requires RegistryInv(w) && Enabled(w, Publish(k))
    ensures FilesOk(DoPublish(w, k)) && WritersOk(DoPublish(w, k))
  {
    hide ConfigOf, Keyed, Denotes, Configured, Applied, Acceptable, ValidConfig, StatusOk, ProbeOk, Resets;
    var change := w.writers[k].change;
    ChangeCommutes(w.live, change);
    var n := |w.committed| - 1;
    assert w.committed == w.committed[..n] + [change];
    ConfigAfterOne(w.seed, w.committed[..n], change);
  }

  /** A registration that keeps its token keeps its whole record; a new one has a token no probe holds. */
  lemma AppliedToken(d: Data, change: Change, id: string)
    requires Keyed(d) && id in Applied(d, change).runners
    ensures var r := Applied(d, change).runners[id];
            (id in d.runners && r == d.runners[id]) || r.epoch >= d.nextEpoch
  {
  }

  lemma PublishKeepsProbes(w: World, k: nat)
    requires RegistryInv(w) && Enabled(w, Publish(k))
    ensures ProbesOk(DoPublish(w, k))
  {
    hide ConfigOf, Keyed, Applied, StatusOk, Resets, WritersOk, ValidConfig, Denotes, ConfigOfRecord;
    var change := w.writers[k].change;
    ChangeCommutes(w.live, change);
    forall t | t in w.probes ensures ProbeOk(DoPublish(w, k).live, w.probes[t]) {
      assert ProbeOk(w.live, w.probes[t]);
      if w.probes[t].record.id in Applied(w.live, change).runners { AppliedToken(w.live, change, w.probes[t].record.id); }
    }
  }

  lemma LatestAfter(events: seq<Event>, e: Event, id: string)
    ensures LatestHealthy(events + [e], id) ==
            match e
            case Restarted => false
            case Reset(x) => if x == id then false else LatestHealthy(events, id)
            case Result(x, healthy) => if x == id then healthy else LatestHealthy(events, id)
  {
    assert (events + [e])[..|events|] == events;
  }

  /** The status a change leaves behind is the one its health history calls for. */
  lemma AppliedStatus(d: Data, change: Change, events: seq<Event>, usable: string -> bool, id: string)
    requires Keyed(d) && StatusOk(d, events) && Acceptable(usable, change) && id in Applied(d, change).runners
    ensures var status := Applied(d, change).runners[id].record.status;
            status == ExpectedStatus(status == Draining, LatestHealthy(events + Resets(d, change), id))
  {
    hide LatestHealthy, ValidIdentity;
    if Resets(d, change) == [] { assert events + [] == events; }
    else { LatestAfter(events, Resets(d, change)[0], id); }
  }

  lemma PublishKeepsStatus(w: World, k: nat)
    requires RegistryInv(w) && Enabled(w, Publish(k))
    ensures StatusOk(DoPublish(w, k).live, DoPublish(w, k).events)
  {
    hide Applied, Resets, Keyed, Acceptable, ExpectedStatus, LatestHealthy, Denotes, ValidConfig, ConfigOf, ProbesOk;
    var change := w.writers[k].change;
    forall id | id in Applied(w.live, change).runners
      ensures var status := Applied(w.live, change).runners[id].record.status;
              status == ExpectedStatus(status == Draining, LatestHealthy(w.events + Resets(w.live, change), id))
    {
      AppliedStatus(w.live, change, w.events, w.usable, id);
    }
  }

  lemma ProbingStatus(d: Data, id: string, events: seq<Event>)
    requires StatusOk(d, events) && id in d.runners
    ensures StatusOk(Probing(d, id), events)
  {
    hide LatestHealthy, ExpectedStatus;
  }

  lemma BeginProbeKeepsInv(w: World, t: nat, id: string)
    requires RegistryInv(w) && Enabled(w, BeginProbe(t, id))
    ensures RegistryInv(DoBeginProbe(w, t, id))
  {
    hide ConfigOf, Denotes, Configured, Acceptable, ValidConfig, StatusOk, ConfigOfRecord, ConfigAfter;
    ProbingKeepsConfig(w.live, id);
    ProbingStatus(w.live, id, w.events);
    forall u | u in w.probes ensures ProbeOk(Probing(w.live, id), w.probes[u]) { assert ProbeOk(w.live, w.probes[u]); }
  }

  /** Observations move health only: tokens and configuration stay. */
  ghost predicate SameTokens(d: Data, d': Data) {
    && d'.nextEpoch == d.nextEpoch && (forall id :: id in d'.runners <==> id in d.runners)
    && forall id | id in d.runners ::
         d'.runners[id].epoch == d.runners[id].epoch && ConfigOfRecord(d'.runners[id].record) == ConfigOfRecord(d.runners[id].record)
  }

  lemma HeardStatus(d: Data, probe: Probe, healthy: bool, cpu: nat, version: string, now: nat, events: seq<Event>)
    requires Keyed(d) && StatusOk(d, events)
    ensures var told := if Current(d, probe) then events + [Result(probe.record.id, healthy)] else events;
            StatusOk(Heard(d, probe, healthy, cpu, version, now), told)
    ensures SameTokens(d, Heard(d, probe, healthy, cpu, version, now))
  {
    hide LatestHealthy;
    if Current(d, probe) {
      forall id { LatestAfter(events, Result(probe.record.id, healthy), id); }
    }
  }

  lemma SilentStatus(d: Data, probe: Probe, events: seq<Event>)
    requires Keyed(d) && StatusOk(d, events)
    ensures var told := if Current(d, probe) then events + [Result(probe.record.id, false)] else events;
            StatusOk(Silent(d, probe), told)
    ensures SameTokens(d, Silent(d, probe))
  {
    hide LatestHealthy;
    if Current(d, probe) {
      forall id { LatestAfter(events, Result(probe.record.id, false), id); }
    }
  }

  lemma ObservationKeepsInv(w: World, live: Data, events: seq<Event>)
    requires RegistryInv(w) && w.up && Keyed(live) && ConfigOf(live) == ConfigOf(w.live)
    requires SameTokens(w.live, live) && StatusOk(live, events)
    ensures RegistryInv(w.(live := live, events := events))
  {
    hide ConfigOf, Keyed, Denotes, Configured, Acceptable, ValidConfig, StatusOk, ConfigOfRecord, ConfigAfter;
    forall t | t in w.probes ensures ProbeOk(live, w.probes[t]) { assert ProbeOk(w.live, w.probes[t]); }
  }

  lemma NextKeepsInv(w: World, a: Action)
    requires RegistryInv(w) && Enabled(w, a)
    ensures RegistryInv(Next(w, a))
  {
    hide FromData, ConfigOf, Denotes, ValidConfig, ValidSnapshot, ProbeOk, StatusOk, Heard, Silent, Acceptable,
         Keyed, SameTokens, Applied, Configured, ConfigAfter;
    match a
    case Boot(default, ok) => BootKeepsInv(w, default, ok);
    case Ask(k, change) => AskKeepsInv(w, k, change);
    case Clone(k) => CloneKeepsInv(w, k);
    case Persist(k, ok) => PersistKeepsInv(w, k, ok);
    case Publish(k) => PublishKeepsFiles(w, k); PublishKeepsProbes(w, k); PublishKeepsStatus(w, k);
    case BeginProbe(t, id) => BeginProbeKeepsInv(w, t, id);
    case Hear(t, healthy, cpu, version, now) =>
      var probe := w.probes[t];
      HeardStatus(w.live, probe, healthy, cpu, version, now, w.events);
      ObservationsKeepConfig(w.live, probe, healthy, cpu, version, now);
      ObservationKeepsInv(w, Heard(w.live, probe, healthy, cpu, version, now), Accepted(w, t, healthy));
    case Silence(t) =>
      var probe := w.probes[t];
      SilentStatus(w.live, probe, w.events);
      ObservationsKeepConfig(w.live, probe, false, 0, "", 0);
      ObservationKeepsInv(w, Silent(w.live, probe), Accepted(w, t, false));
    case Crash =>
  }

  lemma {:induction false} Reachable(ws: seq<World>, acts: seq<Action>, i: nat)
    requires Behaviour(ws, acts) && i < |ws|
    ensures RegistryInv(ws[i])
  {
    hide Enabled, Next;
    if i > 0 {
      hide RegistryInv;
      Reachable(ws, acts, i - 1);
      NextKeepsInv(ws[i - 1], acts[i - 1]);
    }
  }

  // ----- the file is the configuration -----

  lemma UniqueFile(s: Snapshot, d: Data)
    requires Denotes(s, ConfigOf(d))
    ensures s == FromData(d)
  {
    hide FromData, ConfigOf, IntoData;
    FromDataDenotes(d);
    DenotesUnique(s, FromData(d), ConfigOf(d));
  }

  /** Whenever no writer stands between its write and its publication, the file is exactly the
      configuration projection of the live registry, and both are the committed changes in order. */
  lemma FileIsConfiguration(ws: seq<World>, acts: seq<Action>, i: nat)
    requires Behaviour(ws, acts) && i < |ws| && ws[i].up
    ensures !Renaming(ws[i]) ==> ws[i].file == Some(FromData(ws[i].live)) && ConfigOf(ws[i].live) == Durable(ws[i])
    ensures Renaming(ws[i]) ==>
              && ws[i].lock.value in ws[i].writers
              && ws[i].file == Some(FromData(Applied(ws[i].live, ws[i].writers[ws[i].lock.value].change)))
  {
    hide FromData, ConfigOf, Denotes, ValidConfig, StatusOk, ProbesOk, Applied, Acceptable, Configured, Enabled, Next, Keyed;
    Reachable(ws, acts, i);
    var w := ws[i];
    if Renaming(w) {
      var change := w.writers[w.lock.value].change;
      ChangeCommutes(w.live, change);
      var n := |w.committed| - 1;
      assert w.committed == w.committed[..n] + [change];
      ConfigAfterOne(w.seed, w.committed[..n], change);
      UniqueFile(w.file.value, Applied(w.live, change));
    } else {
      UniqueFile(w.file.value, w.live);
    }
  }

  /** The first start writes and serves the environment's default runner alone, its health unknown, and with one
      the registry requires a runner; if the file cannot be written the process does not come up. */
  lemma FirstBootIsDefault(ws: seq<World>, acts: seq<Action>, i: nat, default: Option<RunnerRecord>, ok: bool)
    requires Behaviour(ws, acts) && i < |acts| && acts[i] == Boot(default, ok) && ws[i].file.None?
    ensures !ok ==> ws[i + 1] == ws[i]
    ensures ok ==>
              var (w, d) := (ws[i + 1], ws[i + 1].live);
              && w.up && w.file.Some? && Denotes(w.file.value, ConfigOf(d)) && (d.requireRunner <==> default.Some?)
              && match default
                 case None => d.runners == map[]
                 case Some(r) =>
                   && d.runners.Keys == {r.id}
                   && d.runners[r.id].record == RunnerRecord(r.id, r.name, r.endpoint, r.tags,
                        if r.status == Draining then Draining else Unresponsive, None, 0, "", r.registeredAt)
  {
    hide FromData, IntoData, ConfigOf, ConfigOfRecord, Keyed, Denotes, ValidSnapshot;
    if ok { SeededBack(default, ws[i].live.nextEpoch); }
  }

  lemma SameRequirement(a: Data, b: Data)
    requires ConfigOf(a) == ConfigOf(b)
    ensures a.requireRunner == b.requireRunner
  {
  }

  lemma SeededBack(default: Option<RunnerRecord>, e: nat)
    ensures var s := FromData(Seeded(default, e));
            var d := IntoData(s, e + 1);
            && Denotes(s, ConfigOf(d)) && (d.requireRunner <==> default.Some?)
            && match default
               case None => d.runners == map[]
               case Some(r) =>
                 && d.runners.Keys == {r.id}
                 && d.runners[r.id].record == RunnerRecord(r.id, r.name, r.endpoint, r.tags,
                      if r.status == Draining then Draining else Unresponsive, None, 0, "", r.registeredAt)
  {
    hide FromData, IntoData, ConfigOf, Keyed, Denotes;
    var d := Seeded(default, e);
    var back := IntoData(FromData(d), e + 1);
    FromDataDenotes(d);
    RestartKeepsConfig(d, e + 1);
    SameRequirement(back, d);
    forall id ensures id in back.runners <==> id in d.runners { BackAt(d, e + 1, id); }
    assert back.runners.Keys == d.runners.Keys;
  }

  /** Death at any point and a restart bring back the configuration, the maintenance decisions and the
      runner-required flag that were live, or those of a change already durable but not yet visible;
      the snapshot the system wrote is accepted, and only health is lost. */
  lemma RestartLosesOnlyHealth(ws: seq<World>, acts: seq<Action>, i: nat, default: Option<RunnerRecord>, ok: bool)
    requires Behaviour(ws, acts) && i < |acts| && acts[i] == Crash
    ensures Enabled(ws[i + 1], Boot(default, ok))
    ensures var back := DoBoot(ws[i + 1], default, ok).live;
            && ConfigOf(back) == Durable(ws[i])
            && (!Renaming(ws[i]) ==> ConfigOf(back) == ConfigOf(ws[i].live))
            && forall id | id in back.runners :: back.runners[id].record.status != Active
  {
    hide FromData, ConfigOf, Denotes, ValidConfig, ValidSnapshot, StatusOk, ProbesOk, Acceptable, Configured,
         IntoData, Keyed, WritersOk, ConfigAfter;
    Reachable(ws, acts, i);
    var w := ws[i];
    DenotedIsValid(w.usable, w.file.value, Durable(w));
    BootedConfig(w.file.value, Durable(w), w.live.nextEpoch);
    FileIsConfiguration(ws, acts, i);
  }

  lemma ConfiguredKeepsRequired(c: Config, change: Change)
    requires c.requireRunner || change.Register?
    ensures Configured(c, change).requireRunner
  {
  }

  lemma StepKeepsRequired(w: World, a: Action)
    requires RegistryInv(w) && Enabled(w, a) && w.file.Some? && Durable(w).requireRunner
    ensures Next(w, a).file.Some? && Durable(Next(w, a)).requireRunner
  {
    hide FromData, ConfigOf, Denotes, ValidConfig, ValidSnapshot, StatusOk, ProbesOk, Acceptable, Configured,
         IntoData, Keyed, Heard, Silent, Applied, Resets, Probing, Current;
    if a.Persist? {
      ConfigAfterOne(w.seed, w.committed, w.writers[a.k].change);
      ConfiguredKeepsRequired(Durable(w), w.writers[a.k].change);
    }
  }

  /** Once a runner was registered durably, no removal and no restart makes runners optional again. */
  lemma {:induction false} RunnerRequiredIsSticky(ws: seq<World>, acts: seq<Action>, i: nat, j: nat)
    requires Behaviour(ws, acts) && i <= j < |ws| && ws[i].file.Some? && Durable(ws[i]).requireRunner
    ensures ws[j].file.Some? && Durable(ws[j]).requireRunner
    ensures ws[j].up && !Renaming(ws[j]) ==> ws[j].live.requireRunner
  {
    hide Enabled, Next, RegistryInv, FromData, Durable;
    if i < j {
      RunnerRequiredIsSticky(ws, acts, i, j - 1);
      Reachable(ws, acts, j - 1);
      StepKeepsRequired(ws[j - 1], acts[j - 1]);
    }
    if ws[j].up { FileIsConfiguration(ws, acts, j); }
  }

  // ----- health -----

  /** A runner is Draining exactly when the committed configuration drains it; otherwise it is Active exactly
      when the latest probe result accepted since its creation, move, resume or restart was healthy. */
  lemma StatusIsProvenance(ws: seq<World>, acts: seq<Action>, i: nat, id: string)
    requires Behaviour(ws, acts) && i < |ws| && ws[i].up && id in ws[i].live.runners
    ensures id in Visible(ws[i]).runners
    ensures ws[i].live.runners[id].record.status ==
            ExpectedStatus(Visible(ws[i]).runners[id].draining, LatestHealthy(ws[i].events, id))
  {
    hide Enabled, Next, Denotes, ValidConfig, WritersOk, ProbesOk, LatestHealthy, Visible;
    Reachable(ws, acts, i);
    assert ConfigOf(ws[i].live).runners[id].draining == (ws[i].live.runners[id].record.status == Draining);
  }

  /** A probe result that is accepted speaks about the registration that was probed: same endpoint, same
      maintenance state; and no other pending probe of that runner can be accepted. */
  lemma AcceptedProbeIsCurrent(ws: seq<World>, acts: seq<Action>, i: nat, t: nat, u: nat)
    requires Behaviour(ws, acts) && i < |ws| && t in ws[i].probes && Current(ws[i].live, ws[i].probes[t])
    ensures ConfigOfRecord(ws[i].live.runners[ws[i].probes[t].record.id].record) == ConfigOfRecord(ws[i].probes[t].record)
    ensures u in ws[i].probes && u != t && ws[i].probes[u].record.id == ws[i].probes[t].record.id ==>
              !Current(ws[i].live, ws[i].probes[u])
  {
    hide Enabled, Next, FilesOk, WritersOk, StatusOk, ConfigOfRecord;
    Reachable(ws, acts, i);
    assert ProbeOk(ws[i].live, ws[i].probes[t]);
  }

  /** The probe can no longer be accepted: its registration was replaced, moved on or removed. */
  ghost predicate Superseded(w: World, probe: Probe) {
    !Current(w.live, probe) && probe.epoch < w.live.nextEpoch
  }

  lemma BootSupersedes(w: World, default: Option<RunnerRecord>, ok: bool, probe: Probe)
    requires Superseded(w, probe)
    ensures Superseded(DoBoot(w, default, ok), probe)
  {
    hide FromData;
    var e := w.live.nextEpoch;
    match w.file
    case Some(s) => RestoredKeyed(s.runners, e);
    case None => RestoredKeyed(FromData(Seeded(default, e)).runners, e + 1);
  }

  lemma StepKeepsSuperseded(w: World, a: Action, probe: Probe)
    requires RegistryInv(w) && Enabled(w, a) && Superseded(w, probe)
    ensures Superseded(Next(w, a), probe)
  {
    hide FromData, ConfigOf, Denotes, ValidConfig, ValidSnapshot, StatusOk, ProbesOk, Acceptable, Configured,
         IntoData, Applied, Heard, Silent, Resets, ConfigOfRecord, WritersOk, ConfigAfter, Observed, Keyed;
    match a
    case Boot(default, ok) => BootSupersedes(w, default, ok, probe);
    case Publish(k) =>
      var change := w.writers[k].change;
      ChangeCommutes(w.live, change);
      if probe.record.id in Applied(w.live, change).runners { AppliedToken(w.live, change, probe.record.id); }
    case Hear(t, healthy, cpu, version, now) => HeardTokens(w.live, w.probes[t], healthy, cpu, version, now);
    case Silence(t) => HeardTokens(w.live, w.probes[t], false, 0, "", 0);
    case _ =>
  }

  lemma HeardTokens(d: Data, probe: Probe, healthy: bool, cpu: nat, version: string, now: nat)
    requires Keyed(d)
    ensures SameTokens(d, Heard(d, probe, healthy, cpu, version, now)) && SameTokens(d, Silent(d, probe))
  {
    hide Heard, Silent, ConfigOfRecord, Keyed;
    HeardMoves(d, probe, healthy, cpu, version, now);
    SilentMoves(d, probe);
  }

  /** A superseded probe result changes nothing, now or ever after, across restarts. */
  lemma {:induction false} SupersededForever(ws: seq<World>, acts: seq<Action>, i: nat, j: nat, probe: Probe,
                           healthy: bool, cpu: nat, version: string, now: nat)
    requires Behaviour(ws, acts) && i <= j < |ws| && Superseded(ws[i], probe)
    ensures Superseded(ws[j], probe)
    ensures Heard(ws[j].live, probe, healthy, cpu, version, now) == ws[j].live && Silent(ws[j].live, probe) == ws[j].live
  {
    hide Enabled, Next, RegistryInv;
    if i < j {
      SupersededForever(ws, acts, i, j - 1, probe, healthy, cpu, version, now);
      Reachable(ws, acts, j - 1);
      StepKeepsSuperseded(ws[j - 1], acts[j - 1], probe);
    }
  }

  /** Each new probe, registration, drain decision and removal supersedes the probes before it. */
  lemma NewTokenSupersedes(d: Data, probe: Probe, id: string, record: RunnerRecord)
    requires Keyed(d) && probe.epoch < d.nextEpoch
    ensures probe.record.id == id && id in d.runners ==> !Current(Probing(d, id), probe)
    ensures probe.record.id == record.id ==> !Current(Applied(d, Register(record)), probe)
    ensures probe.record.id == id ==> !Current(Applied(d, Deregister(id)), probe)
    ensures probe.record.id == id && id in d.runners && d.runners[id].record.status != Draining ==>
              !Current(Applied(d, SetDraining(id, true)), probe)
    ensures probe.record.id == id && id in d.runners && d.runners[id].record.status == Draining ==>
              !Current(Applied(d, SetDraining(id, false)), probe)
  {
  }
}
