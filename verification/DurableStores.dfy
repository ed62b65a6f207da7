/** The stores under the campaign, schedule and audit state: why one update of `Persistent` or
    `AuditStore` may be treated as one atomic, durable step.

    Any number of writers run `update` concurrently; each computes on a clone, writes the file and
    only then publishes. A write fails and changes nothing, or replaces the file. The process may die
    between any two steps. */
module DurableStores {
  import opened Wrappers

  // ----- concurrent updates of one store -----

  /** Waiting for the writer lock; computed on a clone; file replaced; published; or failed. */
  datatype Stage<T> = Waiting | Computed(next: T) | Renamed(next: T) | Acknowledged | Refused

  datatype Writer<!T> = Writer(change: T -> Option<T>, stage: Stage<T>)

  datatype Entry<!T> = Entry(writer: nat, change: T -> Option<T>)

  /** `used` and `history` are history: writers ever started, and updates in the order of their renames. */
  datatype State<!T> = State(
    up: bool, mem: T, file: Option<T>, lock: Option<nat>, writers: map<nat, Writer<T>>,
    used: set<nat>, history: seq<Entry<T>>)

  datatype StoreStep<!T> =
    Begin(k: nat, change: T -> Option<T>) | Compute(k: nat) | Write(k: nat, ok: bool) | Publish(k: nat) | Crash | Restart

  ghost function Loaded<T>(seed: T, file: Option<T>): T {
    if file.Some? then file.value else seed
  }

  ghost function Goto<T>(s: State<T>, k: nat, stage: Stage<T>): State<T>
    requires k in s.writers
  {
    s.(writers := s.writers[k := s.writers[k].(stage := stage)])
  }

  ghost predicate Holds<T>(s: State<T>, k: nat) {
    s.up && k in s.writers && s.lock == Some(k)
  }

  ghost predicate CanStep<T(!new)>(s: State<T>, step: StoreStep<T>) {
    match step
    case Begin(k, _) => s.up && k !in s.used
    case Compute(k) => s.up && k in s.writers && s.writers[k].stage.Waiting? && s.lock.None?
    case Write(k, _) => Holds(s, k) && s.writers[k].stage.Computed?
    case Publish(k) => Holds(s, k) && s.writers[k].stage.Renamed?
    case Crash => s.up
    case Restart => !s.up
  }

  ghost function DoCompute<T(!new)>(s: State<T>, k: nat): State<T>
    requires k in s.writers
  {
    match s.writers[k].change(s.mem)
    case None => Goto(s, k, Refused)
    case Some(next) => Goto(s, k, Computed(next)).(lock := Some(k))
  }

  /** An update that changes nothing skips the file, and then cannot fail. */
  ghost function DoWrite<T(!new)>(s: State<T>, k: nat, ok: bool): State<T>
    requires k in s.writers && s.writers[k].stage.Computed?
  {
    var next := s.writers[k].stage.next;
    var skip := next == s.mem && s.file.Some?;
    if skip || ok
    then Goto(s, k, Renamed(next)).(file := if skip then s.file else Some(next),
                                    history := s.history + [Entry(k, s.writers[k].change)])
    else Goto(s, k, Refused).(lock := None)
  }

  ghost function Step<T(!new)>(seed: T, s: State<T>, step: StoreStep<T>): State<T>
    requires CanStep(s, step)
  {
    match step
    case Begin(k, change) => s.(writers := s.writers[k := Writer(change, Waiting)], used := s.used + {k})
    case Compute(k) => DoCompute(s, k)
    case Write(k, ok) => DoWrite(s, k, ok)
    case Publish(k) => Goto(s, k, Acknowledged).(mem := s.writers[k].stage.next, lock := None)
    case Crash => s.(up := false, writers := map[], lock := None)
    case Restart => s.(up := true, mem := Loaded(seed, s.file))
  }

  ghost predicate Run<T(!new)>(seed: T, ss: seq<State<T>>, steps: seq<StoreStep<T>>) {
    && |ss| == |steps| + 1
    && ss[0] == State(false, seed, None, None, map[], {}, [])
    && forall i | 0 <= i < |steps| :: CanStep(ss[i], steps[i]) && ss[i + 1] == Step(seed, ss[i], steps[i])
  }

  // ----- the atomic store they refine -----

  /** The updates applied one after another, each whole. */
  ghost function Replay<T(!new)>(seed: T, history: seq<Entry<T>>): T {
    if history == [] then seed
    else
      var n := |history| - 1;
      var before := Replay(seed, history[..n]);
      match history[n].change(before)
      case None => before
      case Some(next) => next
  }

  ghost predicate Committed<T(!new)>(history: seq<Entry<T>>, k: nat) {
    exists i | 0 <= i < |history| :: history[i].writer == k
  }

  /** The value readers see: everything committed, except while the last rename awaits its publication. */
  ghost predicate Published<T(!new)>(seed: T, s: State<T>) {
    if s.lock.Some? && s.lock.value in s.writers && s.writers[s.lock.value].stage.Renamed?
    then s.history != [] && s.mem == Replay(seed, s.history[..|s.history| - 1])
    else s.mem == Replay(seed, s.history)
  }

  ghost predicate HolderOk<T(!new)>(seed: T, s: State<T>) {
    s.lock.Some? ==>
      && s.up && s.lock.value in s.writers
      && var wr := s.writers[s.lock.value];
         match wr.stage
         case Computed(next) => wr.change(s.mem) == Some(next)
         case Renamed(next) => next == Replay(seed, s.history)
         case _ => false
  }

  ghost predicate WriterOk<T(!new)>(s: State<T>, k: nat)
    requires k in s.writers
  {
    && k in s.used
    && (s.writers[k].stage.Computed? || s.writers[k].stage.Renamed? ==> s.lock == Some(k))
    && (Committed(s.history, k) <==> s.writers[k].stage.Renamed? || s.writers[k].stage.Acknowledged?)
  }

  ghost predicate StoreInv<T(!new)>(seed: T, s: State<T>) {
    && Loaded(seed, s.file) == Replay(seed, s.history)
    && (s.up ==> Published(seed, s))
    && (!s.up ==> s.writers == map[])
    && HolderOk(seed, s)
    && (forall k | k in s.writers :: WriterOk(s, k))
    && (forall i | 0 <= i < |s.history| :: s.history[i].writer in s.used)
    && (forall i, j | 0 <= i < j < |s.history| :: s.history[i].writer != s.history[j].writer)
  }

  lemma CommittedGrows<T(!new)>(history: seq<Entry<T>>, e: Entry<T>, k: nat)
    ensures Committed(history + [e], k) <==> Committed(history, k) || e.writer == k
  {
    if Committed(history, k) {
      var i :| 0 <= i < |history| && history[i].writer == k;
      assert (history + [e])[i].writer == k;
    }
    assert (history + [e])[|history|] == e;
  }

  lemma WriteKeepsInv<T(!new)>(seed: T, s: State<T>, k: nat, ok: bool)
    requires StoreInv(seed, s) && CanStep(s, Write(k, ok))
    ensures StoreInv(seed, DoWrite(s, k, ok))
  {
    hide Committed;
    var e := Entry(k, s.writers[k].change);
    assert WriterOk(s, k);
    NotYetCommitted(s.history, k);
    assert (s.history + [e])[..|s.history|] == s.history;
    WriteKeepsWriters(seed, s, k, ok);
  }

  lemma NotYetCommitted<T(!new)>(history: seq<Entry<T>>, k: nat)
    requires !Committed(history, k)
    ensures forall i | 0 <= i < |history| :: history[i].writer != k
  {
  }

  lemma WriteKeepsWriters<T(!new)>(seed: T, s: State<T>, k: nat, ok: bool)
    requires StoreInv(seed, s) && CanStep(s, Write(k, ok))
    ensures forall j | j in s.writers :: j in DoWrite(s, k, ok).writers && WriterOk(DoWrite(s, k, ok), j)
  {
    hide Replay, Committed;
    var s' := DoWrite(s, k, ok);
    forall j | j in s.writers ensures WriterOk(s', j) {
      assert WriterOk(s, j) && WriterOk(s, k);
      CommittedGrows(s.history, Entry(k, s.writers[k].change), j);
    }
  }

  lemma StepKeepsInv<T(!new)>(seed: T, s: State<T>, step: StoreStep<T>)
    requires StoreInv(seed, s) && CanStep(s, step)
    ensures StoreInv(seed, Step(seed, s, step))
  {
    var s' := Step(seed, s, step);
    match step
    case Write(k, ok) => WriteKeepsInv(seed, s, k, ok);
    case Publish(k) => PublishKeepsInv(seed, s, k);
    case Begin(k, change) =>
      hide Replay;
      forall j | j in s'.writers ensures WriterOk(s', j) { if j != k { assert WriterOk(s, j); } }
    case Compute(k) =>
      hide Replay;
      forall j | j in s'.writers ensures WriterOk(s', j) { assert WriterOk(s, j); }
    case Crash => hide Replay, Committed;
    case Restart => hide Replay, Committed;
  }

  lemma PublishKeepsInv<T(!new)>(seed: T, s: State<T>, k: nat)
    requires StoreInv(seed, s) && CanStep(s, StoreStep<T>.Publish(k))
    ensures StoreInv(seed, Step(seed, s, StoreStep<T>.Publish(k)))
  {
    hide Replay;
    var s' := Step(seed, s, StoreStep<T>.Publish(k));
    forall j | j in s'.writers ensures WriterOk(s', j) { assert WriterOk(s, j); }
  }

  lemma {:induction false} RunInv<T(!new)>(seed: T, ss: seq<State<T>>, steps: seq<StoreStep<T>>, i: nat)
    requires Run(seed, ss, steps) && i < |ss|
    ensures StoreInv(seed, ss[i])
  {
    hide StoreInv, CanStep, Step;
    if i == 0 { InitialInv(seed); }
    else {
      RunInv(seed, ss, steps, i - 1);
      StepKeepsInv(seed, ss[i - 1], steps[i - 1]);
    }
  }

  lemma InitialInv<T(!new)>(seed: T)
    ensures StoreInv(seed, State(false, seed, None, None, map[], {}, []))
  {
  }

  // ----- what callers of the store rely on -----

  /** Every step of the store leaves the durable value alone, or applies one writer's whole update to it. */
  lemma StepRefinesAtomicStore<T(!new)>(seed: T, s: State<T>, step: StoreStep<T>)
    requires StoreInv(seed, s) && CanStep(s, step)
    ensures var s' := Step(seed, s, step);
            || (s'.history == s.history && Loaded(seed, s'.file) == Loaded(seed, s.file))
            || exists k | k in s.writers ::
                 && s'.history == s.history + [Entry(k, s.writers[k].change)]
                 && s.writers[k].change(Loaded(seed, s.file)) == Some(Loaded(seed, s'.file))
  {
  }

  /** What the process knows is what it committed: the durable value is the committed updates applied
      in order, and memory is that value, or is one rename behind it while the renamer holds the lock. */
  lemma MemoryNeverHoldsUncommitted<T(!new)>(seed: T, ss: seq<State<T>>, steps: seq<StoreStep<T>>, i: nat)
    requires Run(seed, ss, steps) && i < |ss|
    ensures Loaded(seed, ss[i].file) == Replay(seed, ss[i].history)
    ensures ss[i].up && ss[i].lock.None? ==> ss[i].mem == Replay(seed, ss[i].history)
    ensures ss[i].up ==> || ss[i].mem == Replay(seed, ss[i].history)
                         || (ss[i].history != [] && ss[i].mem == Replay(seed, ss[i].history[..|ss[i].history| - 1]))
    ensures i < |steps| && steps[i] == Restart ==> ss[i + 1].mem == Replay(seed, ss[i].history)
  {
    hide HolderOk, WriterOk, Replay;
    RunInv(seed, ss, steps, i);
  }

  /** Committed updates are never lost or reordered, across any number of restarts. */
  lemma {:induction false} HistoryOnlyGrows<T(!new)>(seed: T, ss: seq<State<T>>, steps: seq<StoreStep<T>>, i: nat, j: nat)
    requires Run(seed, ss, steps) && i <= j < |ss|
    ensures ss[i].history <= ss[j].history && ss[i].used <= ss[j].used
  {
    if i < j {
      HistoryOnlyGrows(seed, ss, steps, i, j - 1);
    }
  }

  ghost predicate Once<T(!new)>(history: seq<Entry<T>>, k: nat) {
    exists i | 0 <= i < |history| ::
      history[i].writer == k && forall j | 0 <= j < |history| && j != i :: history[j].writer != k
  }

  /** An update its caller saw succeed is in the durable history exactly once, from then on. */
  lemma AcknowledgedIsDurable<T(!new)>(seed: T, ss: seq<State<T>>, steps: seq<StoreStep<T>>, i: nat, j: nat, k: nat)
    requires Run(seed, ss, steps) && i <= j < |ss|
    requires k in ss[i].writers && ss[i].writers[k].stage.Acknowledged?
    ensures Once(ss[j].history, k)
  {
    hide StoreInv, Run, Committed, Once;
    RunInv(seed, ss, steps, i);
    RunInv(seed, ss, steps, j);
    HistoryOnlyGrows(seed, ss, steps, i, j);
    AcknowledgedCommitted(seed, ss[i], k);
    CommittedOnce(seed, ss[j], k) by { CommittedLonger(ss[i].history, ss[j].history, k); }
  }

  lemma AcknowledgedCommitted<T(!new)>(seed: T, s: State<T>, k: nat)
    requires StoreInv(seed, s) && k in s.writers && s.writers[k].stage.Acknowledged?
    ensures Committed(s.history, k)
  {
    hide Replay, HolderOk, Published, Committed;
    assert WriterOk(s, k);
  }

  lemma CommittedLonger<T(!new)>(a: seq<Entry<T>>, b: seq<Entry<T>>, k: nat)
    requires a <= b && Committed(a, k)
    ensures Committed(b, k)
  {
    var n :| 0 <= n < |a| && a[n].writer == k;
    assert b[n].writer == k;
  }

  lemma CommittedOnce<T(!new)>(seed: T, s: State<T>, k: nat)
    requires StoreInv(seed, s) && Committed(s.history, k)
    ensures Once(s.history, k)
  {
    hide Replay, HolderOk, Published, WriterOk;
  }

  ghost predicate NeverCommits<T(!new)>(s: State<T>, k: nat) {
    k in s.used && !Committed(s.history, k) && (k in s.writers ==> s.writers[k].stage.Refused?)
  }

  lemma NeverCommitsStays<T(!new)>(seed: T, s: State<T>, step: StoreStep<T>, k: nat)
    requires CanStep(s, step) && NeverCommits(s, k)
    ensures NeverCommits(Step(seed, s, step), k)
  {
    if step.Write? {
      CommittedGrows(s.history, Entry(step.k, s.writers[step.k].change), k);
    }
  }

  /** An update its caller saw fail takes effect neither now nor after any restart. */
  lemma {:induction false} RefusedIsVoid<T(!new)>(seed: T, ss: seq<State<T>>, steps: seq<StoreStep<T>>, i: nat, j: nat, k: nat)
    requires Run(seed, ss, steps) && i <= j < |ss|
    requires k in ss[i].writers && ss[i].writers[k].stage.Refused?
    ensures NeverCommits(ss[j], k)
  {
    hide Replay;
    if i < j {
      RefusedIsVoid(seed, ss, steps, i, j - 1, k);
      NeverCommitsStays(seed, ss[j - 1], steps[j - 1], k);
    } else {
      RunInv(seed, ss, steps, i);
      assert WriterOk(ss[i], k);
    }
  }

  /** No update gets stuck: the holder of the lock can go on whether or not its write succeeds, a waiting writer once the
      lock is free, and any new update may begin while the process is up. */
  lemma UpdateIsNeverStuck<T(!new)>(seed: T, ss: seq<State<T>>, steps: seq<StoreStep<T>>, i: nat, k: nat)
    requires Run(seed, ss, steps) && i < |ss|
    ensures var s := ss[i];
            && (s.up && k !in s.used ==> forall change: T -> Option<T> :: CanStep(s, Begin(k, change)))
            && (k in s.writers && s.writers[k].stage.Waiting? && s.lock.None? ==> CanStep(s, Compute(k)))
            && (k in s.writers && s.writers[k].stage.Computed? ==> forall ok :: CanStep(s, Write(k, ok)))
            && (k in s.writers && s.writers[k].stage.Renamed? ==> CanStep(s, StoreStep.Publish(k)))
            && (if s.up then CanStep(s, StoreStep.Crash) else CanStep(s, StoreStep.Restart))
            && (s.lock.Some? ==>
                  && s.lock.value in s.writers
                  && (s.writers[s.lock.value].stage.Computed? || s.writers[s.lock.value].stage.Renamed?))
  {
    hide Step, Replay, Loaded, Published, Committed;
    RunInv(seed, ss, steps, i);
  }
}
