/** The registry under concurrency: configuration writers that persist a changed clone and then repeat the
    change on live data, health probes whose results arrive at any time, failed writes, process death
    and restart. One action is one section under the data lock, or one file replacement. */
module RegistryProtocol {
  import opened Wrappers
  import opened RunnerRegistry
  import opened RegistryStore

  datatype WriterPc = Waiting | Cloned(before: Snapshot, after: Snapshot) | Persisted | Done(ok: bool)

  datatype Writer = Writer(change: Change, pc: WriterPc)

  /** What happened to a runner's health. */
  datatype Event = Reset(id: string) | Result(id: string, healthy: bool) | Restarted

  /** `seed`, `committed`, `events` and `used` are history: the first configuration, the changes in the
      order they became durable, what happened to health, and the writers ever started. */
  datatype World = World(
    up: bool, live: Data, file: Option<Snapshot>, lock: Option<nat>,
    writers: map<nat, Writer>, probes: map<nat, Probe>, usable: string -> bool,
    seed: Config, committed: seq<Change>, events: seq<Event>, used: set<nat>)

  datatype Action =
    | Boot(default: Option<RunnerRecord>, ok: bool)
    | Ask(k: nat, change: Change)
    | Clone(k: nat)
    | Persist(k: nat, ok: bool)
    | Publish(k: nat)
    | BeginProbe(t: nat, id: string)
    | Hear(t: nat, healthy: bool, cpu: nat, version: string, now: nat)
    | Silence(t: nat)
    | Crash

  /** The registry an environment default seeds before the first snapshot is written. */
  function Seeded(default: Option<RunnerRecord>, epoch: nat): Data {
    var empty := Data(map[], false, epoch);
    if default.Some? then Applied(empty, Register(default.value)) else empty
  }

  /** `register` validates the identity and strips the health a request claims. */
  predicate Acceptable(usable: string -> bool, change: Change) {
    change.Register? ==> ValidIdentity(usable, change.record.id, change.record.endpoint) && Request(change.record) == change.record
  }

  predicate Writing(w: World, k: nat) { w.up && k in w.writers && w.lock == Some(k) }

  ghost predicate Enabled(w: World, a: Action) {
    match a
    case Boot(default, _) =>
      !w.up && ValidSnapshot(w.usable, if w.file.Some? then w.file.value else FromData(Seeded(default, w.live.nextEpoch)))
    case Ask(k, change) => w.up && k !in w.used && Acceptable(w.usable, change)
    case Clone(k) => w.up && w.lock.None? && k in w.writers && w.writers[k].pc.Waiting?
    case Persist(k, _) => Writing(w, k) && w.writers[k].pc.Cloned?
    case Publish(k) => Writing(w, k) && w.writers[k].pc.Persisted?
    case BeginProbe(t, id) => w.up && t !in w.probes && id in w.live.runners
    case Hear(t, _, _, _, _) => w.up && t in w.probes
    case Silence(t) => w.up && t in w.probes
    case Crash => w.up
  }

  function Goto(w: World, k: nat, pc: WriterPc): World
    requires k in w.writers
  {
    w.(writers := w.writers[k := w.writers[k].(pc := pc)])
  }

  ghost function DoBoot(w: World, default: Option<RunnerRecord>, ok: bool): World {
    var e := w.live.nextEpoch;
    match w.file
    case Some(s) => w.(up := true, live := IntoData(s, e), events := w.events + [Restarted])
    case None =>
      var s := FromData(Seeded(default, e));
      if ok then w.(up := true, file := Some(s), live := IntoData(s, e + 1), seed := ConfigOf(Seeded(default, e)),
                    events := w.events + [Restarted])
      else w
  }

  /** A configuration that did not change is not written, and then the write cannot fail. */
  ghost function DoPersist(w: World, k: nat, ok: bool): World
    requires k in w.writers && w.writers[k].pc.Cloned?
  {
    var pc := w.writers[k].pc;
    if pc.before != pc.after && !ok then Goto(w, k, Done(false)).(lock := None)
    else Goto(w, k, Persisted).(file := if pc.before != pc.after then Some(pc.after) else w.file,
                                committed := w.committed + [w.writers[k].change])
  }

  /** The change makes the runner's health unknown: it is new, has moved, or was resumed. */
  function Resets(live: Data, change: Change): seq<Event> {
    match change
    case Register(r) =>
      if r.id in live.runners && live.runners[r.id].record.endpoint == r.endpoint then [] else [Reset(r.id)]
    case SetDraining(id, draining) =>
      if id in live.runners && live.runners[id].record.status == Draining && !draining then [Reset(id)] else []
    case Deregister(_) => []
  }

  function DoPublish(w: World, k: nat): World
    requires k in w.writers
  {
    var change := w.writers[k].change;
    Goto(w, k, Done(true)).(live := Applied(w.live, change), lock := None, events := w.events + Resets(w.live, change))
  }

  function DoBeginProbe(w: World, t: nat, id: string): World
    requires id in w.live.runners
  {
    w.(live := Probing(w.live, id), probes := w.probes[t := Probe(w.live.runners[id].record, w.live.nextEpoch)])
  }

  function Accepted(w: World, t: nat, healthy: bool): seq<Event>
    requires t in w.probes
  {
    if Current(w.live, w.probes[t]) then w.events + [Result(w.probes[t].record.id, healthy)] else w.events
  }

  ghost function Next(w: World, a: Action): World
    requires Enabled(w, a)
  {
    match a
    case Boot(default, ok) => DoBoot(w, default, ok)
    case Ask(k, change) => w.(writers := w.writers[k := Writer(change, Waiting)], used := w.used + {k})
    case Clone(k) =>
      Goto(w, k, Cloned(FromData(w.live), FromData(Applied(w.live, w.writers[k].change)))).(lock := Some(k))
    case Persist(k, ok) => DoPersist(w, k, ok)
    case Publish(k) => DoPublish(w, k)
    case BeginProbe(t, id) => DoBeginProbe(w, t, id)
    case Hear(t, healthy, cpu, version, now) =>
      w.(live := Heard(w.live, w.probes[t], healthy, cpu, version, now), events := Accepted(w, t, healthy))
    case Silence(t) => w.(live := Silent(w.live, w.probes[t]), events := Accepted(w, t, false))
    case Crash => w.(up := false, lock := None, writers := map[], probes := map[])
  }

  ghost predicate Behaviour(ws: seq<World>, acts: seq<Action>) {
    && |ws| == |acts| + 1
    && !ws[0].up && ws[0].file.None? && ws[0].lock.None? && ws[0].writers == map[] && ws[0].probes == map[]
    && ws[0].committed == [] && ws[0].events == []
    && forall i | 0 <= i < |acts| :: Enabled(ws[i], acts[i]) && ws[i + 1] == Next(ws[i], acts[i])
  }

  // ----- references -----

  /** The configuration after a sequence of changes. */
  function ConfigAfter(seed: Config, changes: seq<Change>): Config {
    if changes == [] then seed else Configured(ConfigAfter(seed, changes[..|changes| - 1]), changes[|changes| - 1])
  }

  function Durable(w: World): Config { ConfigAfter(w.seed, w.committed) }

  predicate Renaming(w: World) {
    w.lock.Some? && w.lock.value in w.writers && w.writers[w.lock.value].pc.Persisted?
  }

  /** What readers see: one change behind the file while its writer is about to publish it. */
  function Visible(w: World): Config {
    if Renaming(w) && w.committed != [] then ConfigAfter(w.seed, w.committed[..|w.committed| - 1]) else Durable(w)
  }

  /** The latest accepted probe result since the last reset or restart, false if there is none. */
  function LatestHealthy(events: seq<Event>, id: string): bool {
    if events == [] then false
    else
      var n := |events| - 1;
      match events[n]
      case Restarted => false
      case Reset(x) => if x == id then false else LatestHealthy(events[..n], id)
      case Result(x, healthy) => if x == id then healthy else LatestHealthy(events[..n], id)
  }

  function ExpectedStatus(draining: bool, healthy: bool): RunnerStatus {
    if draining then Draining else if healthy then Active else Unresponsive
  }

  // ----- the invariant -----

  /** The file holds exactly this configuration, in canonical form. */
  ghost predicate Denotes(s: Snapshot, c: Config) {
    s == FromData(IntoData(s, 0)) && ConfigOf(IntoData(s, 0)) == c
  }

  ghost predicate WritersOk(w: World) {
    && (forall k | k in w.writers :: Acceptable(w.usable, w.writers[k].change) && k in w.used)
    && (forall k | k in w.writers && (w.writers[k].pc.Cloned? || w.writers[k].pc.Persisted?) :: w.lock == Some(k))
    && (w.lock.Some? ==> w.lock.value in w.writers && HolderOk(w, w.writers[w.lock.value]))
  }

  ghost predicate HolderOk(w: World, wr: Writer) {
    match wr.pc
    case Cloned(before, after) => Denotes(before, Durable(w)) && Denotes(after, Configured(Durable(w), wr.change))
    case Persisted => w.committed != [] && w.committed[|w.committed| - 1] == wr.change
    case _ => false
  }

  ghost predicate FilesOk(w: World) {
    && (w.file.Some? ==> Denotes(w.file.value, Durable(w)) && ValidConfig(w.usable, Durable(w)))
    && (w.file.None? ==> !w.up && w.committed == [])
    && (!w.up ==> w.lock.None? && w.writers == map[] && w.probes == map[])
    && (w.up ==> Keyed(w.live) && ConfigOf(w.live) == Visible(w))
  }

  ghost predicate ProbeOk(d: Data, probe: Probe) {
    && probe.epoch < d.nextEpoch
    && (Current(d, probe) ==> ConfigOfRecord(d.runners[probe.record.id].record) == ConfigOfRecord(probe.record))
  }

  ghost predicate ProbesOk(w: World) {
    && (forall t | t in w.probes :: ProbeOk(w.live, w.probes[t]))
    && (forall t, u | t in w.probes && u in w.probes && t != u :: w.probes[t].epoch != w.probes[u].epoch)
  }

  ghost predicate StatusOk(d: Data, events: seq<Event>) {
    forall id | id in d.runners ::
      d.runners[id].record.status == ExpectedStatus(d.runners[id].record.status == Draining, LatestHealthy(events, id))
  }

  ghost predicate RegistryInv(w: World) {
    FilesOk(w) && WritersOk(w) && ProbesOk(w) && (w.up ==> StatusOk(w.live, w.events))
  }

  // ----- facts about snapshots -----

  lemma FromDataDenotes(d: Data)
    ensures Denotes(FromData(d), ConfigOf(d))
  {
    hide FromData, IntoData, ConfigOf;
    RestartKeepsConfig(d, 0);
    SnapshotIsCanonical(IntoData(FromData(d), 0), d);
  }

  /** Two canonical snapshots of one configuration are the same file. */
  lemma DenotesUnique(s: Snapshot, t: Snapshot, c: Config)
    requires Denotes(s, c) && Denotes(t, c)
    ensures s == t
  {
    hide FromData, IntoData, ConfigOf;
    SnapshotIsCanonical(IntoData(s, 0), IntoData(t, 0));
  }

  lemma DenotedIsValid(usable: string -> bool, s: Snapshot, c: Config)
    requires Denotes(s, c)
    ensures ValidSnapshot(usable, s) <==> ValidConfig(usable, c)
  {
    hide FromData, IntoData, ConfigOf, ValidSnapshot, ValidConfig;
    WrittenIsValid(usable, IntoData(s, 0));
  }

  lemma BootedConfig(s: Snapshot, c: Config, epoch: nat)
    requires Denotes(s, c)
    ensures ConfigOf(IntoData(s, epoch)) == c && Keyed(IntoData(s, epoch))
    ensures IntoData(s, epoch).nextEpoch == epoch + 1
    ensures forall id | id in IntoData(s, epoch).runners :: IntoData(s, epoch).runners[id].record.status != Active
  {
    hide FromData, ConfigOf, RestoredRunners, Keyed;
    RestartKeepsConfig(IntoData(s, 0), epoch);
  }

  lemma ChangeStaysValid(usable: string -> bool, c: Config, change: Change)
    requires ValidConfig(usable, c) && Acceptable(usable, change)
    ensures ValidConfig(usable, Configured(c, change))
  {
    hide ValidIdentity;
  }

  lemma ConfigAfterOne(seed: Config, changes: seq<Change>, change: Change)
    ensures ConfigAfter(seed, changes + [change]) == Configured(ConfigAfter(seed, changes), change)
  {
    assert (changes + [change])[..|changes|] == changes;
  }
}
