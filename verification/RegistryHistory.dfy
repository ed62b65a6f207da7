/** What the registry answers a writer, over whole runs: when a change becomes durable, when it is refused, and that
    the answer a caller gets is true. */
module RegistryHistory {
  import opened Wrappers
  import opened RunnerRegistry
  import opened RegistryStore
  import opened RegistryProtocol
  import RegistrySafety
  import opened Text

  /** The change alters the durable configuration. */
  ghost predicate Alters(live: Data, change: Change) { ConfigOf(Applied(live, change)) != ConfigOf(live) }

  lemma ClonedIsLive(w: World, k: nat)
    requires RegistryInv(w) && Writing(w, k) && w.writers[k].pc.Cloned?
    ensures w.writers[k].pc.before == FromData(w.live) && w.writers[k].pc.after == FromData(Applied(w.live, w.writers[k].change))
    ensures w.writers[k].pc.before != w.writers[k].pc.after <==> Alters(w.live, w.writers[k].change)
  {
    hide FromData, ConfigOf, Denotes, ValidConfig, StatusOk, ProbesOk, Applied, Acceptable, Configured, Keyed;
    var change := w.writers[k].change;
    ChangeCommutes(w.live, change);
    RegistrySafety.UniqueFile(w.writers[k].pc.before, w.live);
    RegistrySafety.UniqueFile(w.writers[k].pc.after, Applied(w.live, change));
    SnapshotIsCanonical(w.live, Applied(w.live, change));
  }

  /** In every run of the registry a change is refused exactly if it alters the configuration and its write fails; a
      refusal changes nothing, and a change that alters nothing is never written. */
  lemma RefusedExactlyWhen(ws: seq<World>, acts: seq<Action>, i: nat, k: nat, ok: bool)
    requires Behaviour(ws, acts) && i < |acts| && acts[i] == Persist(k, ok)
    ensures var (w, w') := (ws[i], ws[i + 1]);
            && k in w.writers && k in w'.writers && w'.writers[k].change == w.writers[k].change && w'.live == w.live
            && var change := w.writers[k].change;
               if Alters(w.live, change) && !ok then
                 w'.writers[k].pc == Done(false) && w'.lock.None? && w'.file == w.file && w'.committed == w.committed
               else
                 && w'.writers[k].pc == Persisted && w'.lock == Some(k) && w'.committed == w.committed + [change]
                 && w'.file == if Alters(w.live, change) then Some(FromData(Applied(w.live, change))) else w.file
  {
    hide RegistryInv, Alters, FromData, Applied;
    RegistrySafety.Reachable(ws, acts, i);
    ClonedIsLive(ws[i], k);
  }

  /** A writer's answer and when it was given: published, or refused because its write failed. */
  ghost predicate Answered(w: World, a: Action, w': World, k: nat, ok: bool)
  {
    && k in w.writers && k in w'.writers && w'.writers[k].change == w.writers[k].change
    && if ok then a == Publish(k) && w'.live == Applied(w.live, w.writers[k].change) && w'.file == w.file
       else a == Persist(k, false) && Alters(w.live, w.writers[k].change) && w'.live == w.live && w'.file == w.file
  }

  lemma OthersKeepWriter(w: World, a: Action, k: nat)
    requires Enabled(w, a) && k in Next(w, a).writers && Next(w, a).writers[k].pc.Done?
    ensures a == Publish(k) || (a.Persist? && a.k == k) || (k in w.writers && w.writers[k] == Next(w, a).writers[k])
  {
    hide ValidSnapshot, FromData, Applied, Heard, Silent, Probing, Acceptable, IntoData, ConfigOf, Seeded;
  }

  lemma PublishAnswers(w: World, k: nat)
    requires Enabled(w, Publish(k))
    ensures var w' := Next(w, Publish(k)); k in w'.writers && w'.writers[k].pc == Done(true) && Answered(w, Publish(k), w', k, true)
  {
    hide Applied, Resets;
  }

  /** Success is answered exactly by publishing the change on the live registry, refusal exactly where the write of a
      change that alters the configuration failed. */
  lemma {:induction false} AnswersAreTrue(ws: seq<World>, acts: seq<Action>, j: nat, k: nat) returns (i: nat)
    requires Behaviour(ws, acts) && j < |ws| && k in ws[j].writers && ws[j].writers[k].pc.Done?
    ensures i < j && Answered(ws[i], acts[i], ws[i + 1], k, ws[j].writers[k].pc.ok)
    ensures ws[i].writers[k].change == ws[j].writers[k].change
  {
    hide Enabled, Next, Answered;
    if j == 0 { assert false; }
    else {
      i := j - 1;
      OthersKeepWriter(ws[i], acts[i], k);
      if acts[i] == Publish(k) {
        PublishAnswers(ws[i], k);
        AnsweredChange(ws[i], acts[i], ws[j], k, true);
      } else if acts[i].Persist? && acts[i].k == k {
        RefusedExactlyWhen(ws, acts, i, k, acts[i].ok);
        RefusalAnswers(ws[i], ws[j], k);
      } else {
        i := AnswersAreTrue(ws, acts, i, k);
      }
    }
  }

  lemma AnsweredChange(w: World, a: Action, w': World, k: nat, ok: bool)
    requires Answered(w, a, w', k, ok)
    ensures k in w.writers && k in w'.writers && w'.writers[k].change == w.writers[k].change
  {
  }

  lemma RefusalAnswers(w: World, w': World, k: nat)
    requires k in w.writers && k in w'.writers && w'.live == w.live && w'.file == w.file && Alters(w.live, w.writers[k].change)
    requires w'.writers[k].change == w.writers[k].change
    ensures Answered(w, Persist(k, false), w', k, false) && w'.writers[k].change == w.writers[k].change
  {
    hide Alters;
  }

  // ----- nothing gets stuck -----

  /** A writer that was not answered can go on, whether or not its write succeeds, unless another holds the writer lock;
      the holder can always go on. */
  lemma WriterIsNeverStuck(ws: seq<World>, acts: seq<Action>, i: nat, k: nat)
    requires Behaviour(ws, acts) && i < |ws| && k in ws[i].writers
    ensures var w := ws[i];
            match w.writers[k].pc
            case Waiting => w.lock.None? ==> Enabled(w, Clone(k))
            case Cloned(_, _) => forall ok :: Enabled(w, Persist(k, ok))
            case Persisted => Enabled(w, Publish(k))
            case Done(_) => true
    ensures ws[i].lock.Some? ==>
              ws[i].lock.value in ws[i].writers && (ws[i].writers[ws[i].lock.value].pc.Cloned? || ws[i].writers[ws[i].lock.value].pc.Persisted?)
  {
    hide Denotes, ValidConfig, ConfigOf, Keyed, StatusOk, ProbesOk, Configured, Acceptable, FromData;
    RegistrySafety.Reachable(ws, acts, i);
  }

  /** While the process is up any valid registration, any drain and any removal may be asked for, any registered runner
      may be probed, and any probe may end with any result. */
  lemma RequestsAreFree(w: World, k: nat, t: nat, id: string)
    requires w.up
    ensures k !in w.used ==> Enabled(w, Ask(k, Deregister(id))) && forall draining :: Enabled(w, Ask(k, SetDraining(id, draining)))
    ensures k !in w.used ==>
              forall r: RunnerRecord |
                && w.usable(r.endpoint) && r.id != "" && !White(r.id[0]) && !White(r.id[|r.id| - 1])
                && r.status != Active && r.lastHeartbeat.None? && r.cpu == 0 && r.version == "" ::
                  Enabled(w, Ask(k, Register(r)))
    ensures t !in w.probes && id in w.live.runners ==> Enabled(w, BeginProbe(t, id))
    ensures t in w.probes ==>
              Enabled(w, Silence(t)) && forall healthy, cpu, version, now :: Enabled(w, Hear(t, healthy, cpu, version, now))
    ensures Enabled(w, Action.Crash)
  {
    hide White, Trim;
    forall r: RunnerRecord | r.id != "" && !White(r.id[0]) && !White(r.id[|r.id| - 1]) ensures Trim(r.id) == r.id {
      TrimmedExactly(r.id);
    }
  }
}
