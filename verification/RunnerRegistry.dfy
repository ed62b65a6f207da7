/** The runner registry: registrations, maintenance, epoch-tagged health probes and routing
    (crates/asmodeus-control-plane/src/registry.rs). An epoch stands for the identity of the token a
    probe shares with a registration; tokens are never reused while a probe still holds one. */
module RunnerRegistry {
  import opened Wrappers
  import opened Text

  datatype RunnerStatus = Active | Unresponsive | Draining

  datatype RunnerRecord = RunnerRecord(
    id: string, name: string, endpoint: string, tags: seq<string>, status: RunnerStatus,
    lastHeartbeat: Option<nat>, cpu: nat, version: string, registeredAt: nat)

  datatype Registered = Registered(record: RunnerRecord, epoch: nat)

  /** `nextEpoch` is the first token not handed out yet. */
  datatype Data = Data(runners: map<string, Registered>, requireRunner: bool, nextEpoch: nat)

  datatype Probe = Probe(record: RunnerRecord, epoch: nat)

  datatype Change = Register(record: RunnerRecord) | SetDraining(id: string, draining: bool) | Deregister(id: string)

  datatype Reply = Saved(record: RunnerRecord) | Drained(found: Option<RunnerRecord>) | Removed(existed: bool)

  /** Every registration is filed under its own id, with a token already handed out. */
  predicate Keyed(d: Data) {
    forall id | id in d.runners :: d.runners[id].record.id == id && d.runners[id].epoch < d.nextEpoch
  }

  // ----- what a configuration change makes of the registry -----

  function Merged(d: Data, record: RunnerRecord): RunnerRecord {
    if record.id !in d.runners then record
    else
      var previous := d.runners[record.id].record;
      if record.endpoint == previous.endpoint then
        record.(status := previous.status, registeredAt := previous.registeredAt,
                lastHeartbeat := previous.lastHeartbeat, cpu := previous.cpu, version := previous.version)
      else
        record.(status := if previous.status == Draining then Draining else Unresponsive,
                registeredAt := previous.registeredAt, lastHeartbeat := None, cpu := 0, version := "")
  }

  function Replaced(d: Data, record: RunnerRecord): Data {
    d.(runners := d.runners[record.id := Registered(record, d.nextEpoch)], nextEpoch := d.nextEpoch + 1)
  }

  function Drain(d: Data, id: string, draining: bool): Data
    requires id in d.runners
  {
    var record := d.runners[id].record;
    if draining && record.status != Draining then
      d.(runners := d.runners[id := Registered(record.(status := Draining), d.nextEpoch)], nextEpoch := d.nextEpoch + 1)
    else if !draining && record.status == Draining then
      d.(runners := d.runners[id := Registered(record.(status := Unresponsive, lastHeartbeat := None), d.nextEpoch)],
         nextEpoch := d.nextEpoch + 1)
    else d
  }

  function Applied(d: Data, change: Change): Data {
    match change
    case Register(record) => Replaced(d, Merged(d, record)).(requireRunner := true)
    case SetDraining(id, draining) => if id in d.runners then Drain(d, id, draining) else d
    case Deregister(id) => d.(runners := d.runners - {id})
  }

  function ReplyTo(d: Data, change: Change): Reply {
    match change
    case Register(record) => Saved(Merged(d, record))
    case SetDraining(id, draining) =>
      Drained(if id in d.runners then Some(Drain(d, id, draining).runners[id].record) else None)
    case Deregister(id) => Removed(id in d.runners)
  }

  /** What the registry makes of a registration request before it is filed: it carries no health. */
  function Request(record: RunnerRecord): RunnerRecord {
    record.(status := if record.status == Draining then Draining else Unresponsive,
            lastHeartbeat := None, cpu := 0, version := "")
  }

  // ----- probes -----

  function Probing(d: Data, id: string): Data
    requires id in d.runners
  {
    d.(runners := d.runners[id := d.runners[id].(epoch := d.nextEpoch)], nextEpoch := d.nextEpoch + 1)
  }

  /** The registration still carries the probe's token. */
  predicate Current(d: Data, probe: Probe) {
    probe.record.id in d.runners && d.runners[probe.record.id].epoch == probe.epoch
  }

  function Observed(record: RunnerRecord, healthy: bool, cpu: nat, version: string, now: nat): RunnerRecord {
    record.(status := if record.status == Draining then Draining else if healthy then Active else Unresponsive,
            cpu := cpu, lastHeartbeat := Some(now), version := if version == "" then record.version else version)
  }

  function Heard(d: Data, probe: Probe, healthy: bool, cpu: nat, version: string, now: nat): Data {
    if Current(d, probe)
    then d.(runners := d.runners[probe.record.id :=
              d.runners[probe.record.id].(record := Observed(d.runners[probe.record.id].record, healthy, cpu, version, now))])
    else d
  }

  function Silent(d: Data, probe: Probe): Data {
    if Current(d, probe) && d.runners[probe.record.id].record.status != Draining
    then d.(runners := d.runners[probe.record.id :=
              d.runners[probe.record.id].(record := d.runners[probe.record.id].record.(status := Unresponsive))])
    else d
  }

  // ----- the configuration projection -----

  datatype RunnerConfig = RunnerConfig(
    name: string, endpoint: string, tags: seq<string>, draining: bool, registeredAt: nat)

  datatype Config = Config(requireRunner: bool, runners: map<string, RunnerConfig>)

  function ConfigOfRecord(r: RunnerRecord): RunnerConfig {
    RunnerConfig(r.name, r.endpoint, r.tags, r.status == Draining, r.registeredAt)
  }

  function ConfigOf(d: Data): Config {
    Config(d.requireRunner, map id | id in d.runners :: ConfigOfRecord(d.runners[id].record))
  }

  /** The reference: what a change means for the configuration alone, health and tokens aside. */
  function Configured(c: Config, change: Change): Config {
    match change
    case Register(r) =>
      var given := ConfigOfRecord(r);
      var kept := if r.id in c.runners
                  then given.(draining := c.runners[r.id].draining, registeredAt := c.runners[r.id].registeredAt)
                  else given;
      Config(true, c.runners[r.id := kept])
    case SetDraining(id, draining) =>
      if id in c.runners then c.(runners := c.runners[id := c.runners[id].(draining := draining)]) else c
    case Deregister(id) => c.(runners := c.runners - {id})
  }

  /** A change commutes with the projection, so it has the same configuration effect on the clone that
      is persisted and on live data whose health moved on meanwhile. */
  lemma ChangeCommutes(d: Data, change: Change)
    requires Keyed(d)
    ensures ConfigOf(Applied(d, change)) == Configured(ConfigOf(d), change)
    ensures Keyed(Applied(d, change)) && d.nextEpoch <= Applied(d, change).nextEpoch
  {
    match change
    case Register(record) => RegisterCommutes(d, record);
    case SetDraining(id, draining) => if id in d.runners { DrainCommutes(d, id, draining); }
    case Deregister(id) =>
      assert ConfigOf(Applied(d, change)).runners == Configured(ConfigOf(d), change).runners;
  }

  lemma FiledConfig(d: Data, id: string, runner: Registered, d': Data)
    requires d'.runners == d.runners[id := runner] && d'.requireRunner == d.requireRunner
    ensures ConfigOf(d') == ConfigOf(d).(runners := ConfigOf(d).runners[id := ConfigOfRecord(runner.record)])
  {
    assert ConfigOf(d').runners == ConfigOf(d).runners[id := ConfigOfRecord(runner.record)];
  }

  lemma RegisterCommutes(d: Data, record: RunnerRecord)
    requires Keyed(d)
    ensures ConfigOf(Applied(d, Change.Register(record))) == Configured(ConfigOf(d), Change.Register(record))
    ensures Keyed(Applied(d, Change.Register(record)))
  {
    FiledConfig(d, record.id, Registered(Merged(d, record), d.nextEpoch), Replaced(d, Merged(d, record)));
  }

  lemma DrainCommutes(d: Data, id: string, draining: bool)
    requires Keyed(d) && id in d.runners
    ensures ConfigOf(Drain(d, id, draining)) == Configured(ConfigOf(d), Change.SetDraining(id, draining))
    ensures Keyed(Drain(d, id, draining)) && d.nextEpoch <= Drain(d, id, draining).nextEpoch
  {
    var d' := Drain(d, id, draining);
    FiledConfig(d, id, d'.runners[id], d');
  }

  /** At most the health of one runner's record moved. */
  ghost predicate HealthMoved(d: Data, d': Data, id: string) {
    d' == d ||
    (&& id in d.runners && id in d'.runners && d' == d.(runners := d.runners[id := d'.runners[id]])
     && d'.runners[id].epoch == d.runners[id].epoch && d'.runners[id].record.id == d.runners[id].record.id
     && ConfigOfRecord(d'.runners[id].record) == ConfigOfRecord(d.runners[id].record))
  }

  lemma HeardMoves(d: Data, probe: Probe, healthy: bool, cpu: nat, version: string, now: nat)
    ensures HealthMoved(d, Heard(d, probe, healthy, cpu, version, now), probe.record.id)
  {
  }

  lemma SilentMoves(d: Data, probe: Probe)
    ensures HealthMoved(d, Silent(d, probe), probe.record.id)
  {
  }

  lemma HealthMovedKeeps(d: Data, d': Data, id: string)
    requires HealthMoved(d, d', id)
    ensures ConfigOf(d') == ConfigOf(d) && (Keyed(d) ==> Keyed(d'))
  {
    hide ConfigOfRecord;
    assert ConfigOf(d').runners == ConfigOf(d).runners;
  }

  lemma ObservationsKeepConfig(d: Data, probe: Probe, healthy: bool, cpu: nat, version: string, now: nat)
    requires Keyed(d)
    ensures ConfigOf(Heard(d, probe, healthy, cpu, version, now)) == ConfigOf(d)
    ensures ConfigOf(Silent(d, probe)) == ConfigOf(d)
    ensures Keyed(Heard(d, probe, healthy, cpu, version, now)) && Keyed(Silent(d, probe))
  {
    hide HealthMoved, Heard, Silent, ConfigOf, Keyed;
    HeardMoves(d, probe, healthy, cpu, version, now);
    SilentMoves(d, probe);
    HealthMovedKeeps(d, Heard(d, probe, healthy, cpu, version, now), probe.record.id);
    HealthMovedKeeps(d, Silent(d, probe), probe.record.id);
  }

  lemma ProbingKeepsConfig(d: Data, id: string)
    requires Keyed(d) && id in d.runners
    ensures ConfigOf(Probing(d, id)) == ConfigOf(d) && Keyed(Probing(d, id))
  {
    assert ConfigOf(Probing(d, id)).runners == ConfigOf(d).runners;
  }

  // ----- the live objects -----

  class RegistryData {
    var runners: map<string, Registered>
    var requireRunner: bool
    var nextEpoch: nat

    function Value(): Data
      reads this
    {
      Data(runners, requireRunner, nextEpoch)
    }

    constructor Copy(d: Data)
      ensures Value() == d
    {
      runners, requireRunner, nextEpoch := d.runners, d.requireRunner, d.nextEpoch;
    }

    method Register(incoming: RunnerRecord) returns (record: RunnerRecord)
      modifies this
      ensures Value() == Applied(old(Value()), Change.Register(incoming)) && record == Merged(old(Value()), incoming)
    {
      record := incoming;
      if record.id in runners {
        var previous := runners[record.id].record;
        record := record.(status := previous.status, registeredAt := previous.registeredAt);
        if record.endpoint == previous.endpoint {
          record := record.(lastHeartbeat := previous.lastHeartbeat, cpu := previous.cpu, version := previous.version);
        } else {
          if record.status != Draining { record := record.(status := Unresponsive); }
          record := record.(lastHeartbeat := None, cpu := 0, version := "");
        }
      }
      requireRunner := true;
      runners := runners[record.id := Registered(record, nextEpoch)];
      nextEpoch := nextEpoch + 1;
    }

    method SetDraining(id: string, draining: bool) returns (record: Option<RunnerRecord>)
      modifies this
      ensures Value() == Applied(old(Value()), Change.SetDraining(id, draining))
      ensures Drained(record) == ReplyTo(old(Value()), Change.SetDraining(id, draining))
    {
      if id !in runners { return None; }
      var runner := runners[id];
      if draining && runner.record.status != Draining {
        runner := Registered(runner.record.(status := Draining), nextEpoch);
        runners, nextEpoch := runners[id := runner], nextEpoch + 1;
      } else if !draining && runner.record.status == Draining {
        runner := Registered(runner.record.(status := Unresponsive, lastHeartbeat := None), nextEpoch);
        runners, nextEpoch := runners[id := runner], nextEpoch + 1;
      }
      record := Some(runner.record);
    }

    method Apply(change: Change) returns (reply: Reply)
      modifies this
      ensures Value() == Applied(old(Value()), change) && reply == ReplyTo(old(Value()), change)
    {
      match change
      case Register(incoming) =>
        var record := Register(incoming);
        reply := Saved(record);
      case SetDraining(id, draining) =>
        var record := SetDraining(id, draining);
        reply := Drained(record);
      case Deregister(id) =>
        reply := Removed(id in runners);
        runners := runners - {id};
    }

    method BeginProbe(id: string) returns (probe: Option<Probe>)
      modifies this
      ensures probe.Some? <==> id in old(runners)
      ensures Value() == if id in old(runners) then Probing(old(Value()), id) else old(Value())
      ensures probe.Some? ==> probe.value == Probe(runners[id].record, runners[id].epoch)
    {
      if id !in runners { return None; }
      runners, nextEpoch := runners[id := runners[id].(epoch := nextEpoch)], nextEpoch + 1;
      probe := Some(Probe(runners[id].record, runners[id].epoch));
    }

    /** Accepts the result only of the probe whose token the registration still carries. */
    method UpdateHeartbeat(probe: Probe, healthy: bool, cpu: nat, version: string, now: nat) returns (applied: bool)
      modifies this
      ensures applied == Current(old(Value()), probe)
      ensures Value() == Heard(old(Value()), probe, healthy, cpu, version, now)
    {
      applied := probe.record.id in runners && runners[probe.record.id].epoch == probe.epoch;
      if applied {
        var r := runners[probe.record.id].record;
        if r.status != Draining { r := r.(status := if healthy then Active else Unresponsive); }
        r := r.(cpu := cpu, lastHeartbeat := Some(now));
        if version != "" { r := r.(version := version); }
        runners := runners[probe.record.id := runners[probe.record.id].(record := r)];
      }
    }

    method MarkUnresponsive(probe: Probe) returns (applied: bool)
      modifies this
      ensures applied == Current(old(Value()), probe) && Value() == Silent(old(Value()), probe)
    {
      applied := probe.record.id in runners && runners[probe.record.id].epoch == probe.epoch;
      if applied && runners[probe.record.id].record.status != Draining {
        var r := runners[probe.record.id].record.(status := Unresponsive);
        runners := runners[probe.record.id := runners[probe.record.id].(record := r)];
      }
    }

    /** An exact id never falls back to tags: it routes to that runner or nowhere. Otherwise the choice
        is the least id among the active runners that carry the tag. */
    method FindForTarget(target: Option<string>) returns (choice: Option<RunnerRecord>)
      requires Keyed(Value())
      ensures Routed(runners, Wanted(target), choice)
      ensures Answers(runners, if target.Some? then Trim(target.value) else "", choice)
    {
      hide Answers;
      var wanted := Wanted(target);
      if wanted.Some? && wanted.value in runners {
        var record := runners[wanted.value].record;
        RoutedAnswers(runners, target, if record.status == Active then Some(record) else None);
        return if record.status == Active then Some(record) else None;
      }
      choice := None;
      var left := runners.Keys;
      hide BestOf, Eligible, Routed;
      NothingSeen(runners, wanted);
      while left != {}
        invariant left <= runners.Keys && BestOf(runners, runners.Keys - left, wanted, choice)
        decreases |left|
      {
        var id :| id in left;
        var record := runners[id].record;
        BestNext(runners, runners.Keys - left, wanted, choice, id);
        if Eligible(record, wanted) && (choice.None? || Less(id, choice.value.id)) {
          choice := Some(record);
        }
        assert runners.Keys - (left - {id}) == (runners.Keys - left) + {id};
        left := left - {id};
      }
      BestRouted(runners, runners.Keys - left, wanted, choice);
      RoutedAnswers(runners, target, choice);
    }
  }

  /** The least eligible id among the runners seen so far. */
  ghost predicate BestOf(runners: map<string, Registered>, seen: set<string>, wanted: Option<string>, choice: Option<RunnerRecord>) {
    && (choice.Some? ==> choice.value.id in seen && choice.value.id in runners && runners[choice.value.id].record == choice.value
                         && Eligible(choice.value, wanted))
    && forall id | id in runners && id in seen && Eligible(runners[id].record, wanted) ::
         choice.Some? && (choice.value.id == id || Less(choice.value.id, id))
  }

  lemma NothingSeen(runners: map<string, Registered>, wanted: Option<string>)
    ensures BestOf(runners, runners.Keys - runners.Keys, wanted, None)
  {
  }

  lemma BestNext(runners: map<string, Registered>, seen: set<string>, wanted: Option<string>, choice: Option<RunnerRecord>, id: string)
    requires BestOf(runners, seen, wanted, choice) && id in runners && runners[id].record.id == id && id !in seen
    ensures var record := runners[id].record;
            BestOf(runners, seen + {id}, wanted,
                   if Eligible(record, wanted) && (choice.None? || Less(id, choice.value.id)) then Some(record) else choice)
  {
    hide Eligible, Less;
    if choice.Some? {
      if Less(id, choice.value.id) { BeforeBest(runners, seen, wanted, choice.value.id, id); }
      else { LessTotal(choice.value.id, id); }
    }
  }

  lemma BestRouted(runners: map<string, Registered>, seen: set<string>, wanted: Option<string>, choice: Option<RunnerRecord>)
    requires BestOf(runners, seen, wanted, choice) && seen == runners.Keys && !(wanted.Some? && wanted.value in runners)
    ensures Routed(runners, wanted, choice)
  {
    hide Eligible, Less;
  }

  /** Whoever precedes the best candidate so far precedes every candidate so far. */
  lemma BeforeBest(runners: map<string, Registered>, seen: set<string>, wanted: Option<string>, best: string, id: string)
    requires forall x | x in runners && x in seen && Eligible(runners[x].record, wanted) :: best == x || Less(best, x)
    requires Less(id, best)
    ensures forall x | x in runners && x in seen && Eligible(runners[x].record, wanted) :: Less(id, x)
  {
    forall x | x in runners && x in seen && Eligible(runners[x].record, wanted) ensures Less(id, x) {
      if x != best { LessTransitive(id, best, x); }
    }
  }

  // ----- routing -----

  /** The trimmed target; a blank one is no target. */
  function Wanted(target: Option<string>): Option<string> {
    if target.Some? && Trim(target.value) != "" then Some(Trim(target.value)) else None
  }

  predicate Eligible(record: RunnerRecord, wanted: Option<string>) {
    record.status == Active && (wanted.Some? ==> exists i | 0 <= i < |record.tags| :: EqualIgnoringCase(record.tags[i], wanted.value))
  }

  ghost predicate Routed(runners: map<string, Registered>, wanted: Option<string>, choice: Option<RunnerRecord>) {
    if wanted.Some? && wanted.value in runners
    then choice == if runners[wanted.value].record.status == Active then Some(runners[wanted.value].record) else None
    else
      match choice
      case None => forall id | id in runners :: !Eligible(runners[id].record, wanted)
      case Some(record) =>
        && record.id in runners && runners[record.id].record == record && Eligible(record, wanted)
        && forall id | id in runners && Eligible(runners[id].record, wanted) :: id == record.id || Less(record.id, id)
  }

  /** Every routing request has exactly one answer, whatever order the table is visited in. */
  lemma RoutingIsUnique(runners: map<string, Registered>, wanted: Option<string>, a: Option<RunnerRecord>, b: Option<RunnerRecord>)
    requires Routed(runners, wanted, a) && Routed(runners, wanted, b)
    ensures a == b
  {
    if !(wanted.Some? && wanted.value in runners) && a.Some? && b.Some? && a.value.id != b.value.id {
      LessTransitive(a.value.id, b.value.id, a.value.id);
      LessIrreflexive(a.value.id);
    }
  }

  // ----- routing and health, on the data itself -----

  /** Equal up to the case of ASCII letters. */
  predicate SameLetters(a: string, b: string) {
    |a| == |b| && forall i | 0 <= i < |a| ::
      || a[i] == b[i]
      || ('A' <= a[i] <= 'Z' && b[i] as int == a[i] as int + 32)
      || ('a' <= a[i] <= 'z' && b[i] as int == a[i] as int - 32)
  }

  lemma SameLettersIs(a: string, b: string)
    ensures EqualIgnoringCase(a, b) <==> SameLetters(a, b)
  {
    if |a| == |b| {
      forall i | 0 <= i < |a| { LowerIs(a[i], b[i]); }
    }
  }

  lemma LowerIs(x: char, y: char)
    ensures Lower(x) == Lower(y) <==>
            x == y || ('A' <= x <= 'Z' && y as int == x as int + 32) || ('a' <= x <= 'z' && y as int == x as int - 32)
  {
  }

  /** One of the tags is this text, up to the case of ASCII letters. */
  predicate Tagged(record: RunnerRecord, text: string) {
    exists i | 0 <= i < |record.tags| :: SameLetters(record.tags[i], text)
  }

  /** The answer to a routing request whose trimmed target is `text`. */
  ghost predicate Answers(runners: map<string, Registered>, text: string, choice: Option<RunnerRecord>) {
    && (choice.Some? ==> choice.value.id in runners && runners[choice.value.id].record == choice.value && choice.value.status == Active)
    && if text != "" && text in runners then
         && (choice.Some? <==> runners[text].record.status == Active)
         && (choice.Some? ==> choice.value.id == text)
       else
         && (choice.Some? ==> text == "" || Tagged(choice.value, text))
         && (choice.None? ==> forall id | id in runners && runners[id].record.status == Active ::
               text != "" && !Tagged(runners[id].record, text))
         && (choice.Some? ==> forall id | id in runners && runners[id].record.status == Active ::
               text == "" || Tagged(runners[id].record, text) ==> id == choice.value.id || Less(choice.value.id, id))
  }

  lemma FitsIs(record: RunnerRecord, wanted: Option<string>)
    ensures Eligible(record, wanted) <==> record.status == Active && (wanted.None? || Tagged(record, wanted.value))
  {
    if wanted.Some? {
      hide EqualIgnoringCase, SameLetters;
      forall i | 0 <= i < |record.tags| { SameLettersIs(record.tags[i], wanted.value); }
    }
  }

  lemma RoutedAnswers(runners: map<string, Registered>, target: Option<string>, choice: Option<RunnerRecord>)
    requires Routed(runners, Wanted(target), choice)
    requires forall id | id in runners :: runners[id].record.id == id
    ensures Answers(runners, if target.Some? then Trim(target.value) else "", choice)
  {
    hide Eligible, Tagged, Trim, Less;
    var wanted := Wanted(target);
    forall id | id in runners { FitsIs(runners[id].record, wanted); }
    if choice.Some? { FitsIs(choice.value, wanted); }
  }

  /** A registration keeps the health of the same endpoint, starts a new endpoint with none, and keeps maintenance
      and the time of the first registration. */
  ghost predicate RegisteredAs(previous: Option<RunnerRecord>, given: RunnerRecord, filed: RunnerRecord) {
    && filed.id == given.id && filed.name == given.name && filed.endpoint == given.endpoint && filed.tags == given.tags
    && match previous
       case None => filed == given
       case Some(p) =>
         && filed.registeredAt == p.registeredAt
         && if given.endpoint == p.endpoint then
              filed.status == p.status && filed.lastHeartbeat == p.lastHeartbeat && filed.cpu == p.cpu && filed.version == p.version
            else
              && filed.status == (if p.status == Draining then Draining else Unresponsive)
              && filed.lastHeartbeat.None? && filed.cpu == 0 && filed.version == ""
  }

  /** What a caller is told: the record as it is filed after the change, and whether there was one. */
  lemma RepliesExactly(d: Data, change: Change)
    ensures var (d', reply) := (Applied(d, change), ReplyTo(d, change));
            match change
            case Register(r) => r.id in d'.runners && reply == Saved(d'.runners[r.id].record)
            case SetDraining(id, _) =>
              reply == Drained(if id in d'.runners then Some(d'.runners[id].record) else None) && d'.runners.Keys == d.runners.Keys
            case Deregister(id) => reply == Removed(id in d.runners)
  {
    if change.Register? { assert Merged(d, change.record).id == change.record.id; }
  }

  /** What a configuration change files, and under which token; every other runner is left alone. */
  lemma ChangeExactly(d: Data, change: Change)
    ensures var d' := Applied(d, change);
            match change
            case Register(r) =>
              && d'.requireRunner && d'.nextEpoch == d.nextEpoch + 1 && r.id in d'.runners
              && d'.runners == d.runners[r.id := d'.runners[r.id]] && d'.runners[r.id].epoch == d.nextEpoch
              && RegisteredAs(if r.id in d.runners then Some(d.runners[r.id].record) else None, r, d'.runners[r.id].record)
            case SetDraining(id, draining) =>
              if id !in d.runners || (d.runners[id].record.status == Draining) == draining then d' == d
              else
                && d'.requireRunner == d.requireRunner && d'.nextEpoch == d.nextEpoch + 1 && id in d'.runners
                && d'.runners == d.runners[id := d'.runners[id]] && d'.runners[id].epoch == d.nextEpoch
                && d'.runners[id].record == d.runners[id].record.(
                     status := if draining then Draining else Unresponsive,
                     lastHeartbeat := if draining then d.runners[id].record.lastHeartbeat else None)
            case Deregister(id) =>
              && d'.requireRunner == d.requireRunner && id !in d'.runners
              && forall x | x != id :: (x in d'.runners <==> x in d.runners) && (x in d.runners ==> d'.runners[x] == d.runners[x])
  {
    if change.Register? { assert Merged(d, change.record).id == change.record.id; }
  }

  /** What a probe result with the current token writes: the health it saw, unless the runner drains. A result
      with another token writes nothing. */
  lemma ResultExactly(d: Data, probe: Probe, healthy: bool, cpu: nat, version: string, now: nat)
    ensures var id := probe.record.id;
            var heard, silent := Heard(d, probe, healthy, cpu, version, now), Silent(d, probe);
            if id !in d.runners || d.runners[id].epoch != probe.epoch then heard == d && silent == d
            else
              var before := d.runners[id].record;
              && heard == d.(runners := d.runners[id := Registered(before.(
                   status := if before.status == Draining then Draining else if healthy then Active else Unresponsive,
                   cpu := cpu, lastHeartbeat := Some(now), version := if version == "" then before.version else version), probe.epoch)])
              && silent == d.(runners := d.runners[id := Registered(before.(
                   status := if before.status == Draining then Draining else Unresponsive), probe.epoch)])
  {
    if probe.record.id in d.runners { assert d.runners[probe.record.id := d.runners[probe.record.id]] == d.runners; }
  }
}
