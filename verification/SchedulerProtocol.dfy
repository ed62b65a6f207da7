/** The scheduler over time: claims, executions, outcomes whose commit is retried, feedback at any moment,
    operators editing the catalog, process death and restart. A failed write leaves the catalog alone. */
module SchedulerProtocol {
  import opened Wrappers
  import opened Records
  import opened Scheduler

  /** What happened to the claims of a job; history. */
  datatype Event =
    | Claimed(id: string, generation: string, now: nat)
    | Sampled(id: string, generation: string)
    | Released(id: string, generation: string)
    | Restarted

  /** `queue` are claimed jobs not executed yet; `pending` are outcomes not committed yet. `generations` and
      `issued` are the job generations and run ids ever handed out. */
  datatype World = World(
    catalog: Catalog, queue: seq<Job>, pending: seq<PendingOutcome>, events: seq<Event>, generations: set<string>,
    issued: set<string>)

  datatype Action =
    | Create(job: Job)
    | Remove(id: string)
    | Enable(id: string, enabled: bool)
    | Claim(now: nat, due: seq<Job>)
    | Skip
    | Execute(runId: Option<string>, status: string)
    | Flush(ok: bool, feedback: Option<AuditRecord>, order: seq<string>)
    | Feedback(record: AuditRecord, order: seq<string>)
    | Restart

  predicate NewJob(job: Job) {
    && job.lastEpoch.None? && job.lastStatus.None? && job.lastRunId.None? && job.lastMttd.None?
    && !job.drift && !job.missed && job.factor.None? && job.history == []
  }

  ghost predicate Enabled(w: World, a: Action) {
    match a
    case Create(job) => NewJob(job) && job.generation !in w.generations && job.id !in w.catalog.jobs
    case Claim(now, due) => w.queue == [] && w.pending == [] && ClaimedInOrder(w.catalog.jobs, now, due)
    case Skip => w.queue != []
    case Execute(runId, _) => w.queue != [] && (runId.Some? ==> runId.value !in w.issued)
    case Flush(_, _, order) => w.pending != [] && Enumerates(order, w.catalog.jobs)
    case Feedback(_, order) => Enumerates(order, w.catalog.jobs)
    case _ => true
  }

  function ClaimEvents(due: seq<Job>, now: nat): seq<Event> {
    if due == [] then [] else [Claimed(due[0].id, due[0].generation, now)] + ClaimEvents(due[1..], now)
  }

  function OutcomeOf(job: Job, runId: Option<string>, status: string): PendingOutcome {
    PendingOutcome(job.id, job.generation, runId, status)
  }

  function OutcomeEvents(jobs: map<string, Job>, p: PendingOutcome): seq<Event> {
    if !IsCurrent(jobs, p) then []
    else if p.status == "SKIPPED" then [Released(p.jobId, p.generation)]
    else [Sampled(p.jobId, p.generation)]
  }

  function WithJobs(w: World, jobs: map<string, Job>): World { w.(catalog := w.catalog.(jobs := jobs)) }

  /** One commit of `flush_outcomes`: the outcome and the feedback known by now, together. */
  function DoFlush(w: World, feedback: Option<AuditRecord>, order: seq<string>): World
    requires w.pending != []
  {
    var p := w.pending[0];
    var ended := w.catalog.(jobs := AfterOutcome(w.catalog.jobs, p));
    w.(catalog := if feedback.Some? then AfterFeedback(ended, order, feedback.value) else ended,
       pending := w.pending[1..], events := w.events + OutcomeEvents(w.catalog.jobs, p))
  }

  ghost function Next(w: World, a: Action): World
    requires Enabled(w, a)
  {
    match a
    case Create(job) => WithJobs(w, w.catalog.jobs[job.id := job]).(generations := w.generations + {job.generation})
    case Remove(id) => WithJobs(w, w.catalog.jobs - {id})
    case Enable(id, enabled) =>
      if id in w.catalog.jobs then WithJobs(w, w.catalog.jobs[id := w.catalog.jobs[id].(enabled := enabled)]) else w
    case Claim(now, due) =>
      WithJobs(w, AfterClaims(w.catalog.jobs, now)).(queue := due, events := w.events + ClaimEvents(due, now))
    case Skip =>
      w.(queue := w.queue[1..], pending := w.pending + [OutcomeOf(w.queue[0], None, "SKIPPED")])
    case Execute(runId, status) =>
      w.(queue := w.queue[1..], pending := w.pending + [OutcomeOf(w.queue[0], runId, status)],
         issued := if runId.Some? then w.issued + {runId.value} else w.issued)
    case Flush(ok, feedback, order) => if ok then DoFlush(w, feedback, order) else w
    case Feedback(record, order) => w.(catalog := AfterFeedback(w.catalog, order, record))
    case Restart =>
      WithJobs(w, AfterRecovery(w.catalog.jobs)).(queue := [], pending := [], events := w.events + [Restarted])
  }

  ghost predicate Initial(w: World) {
    && w.queue == [] && w.pending == [] && w.events == [] && w.catalog.alerts == [] && w.catalog.alertSeq == 0
    && forall id | id in w.catalog.jobs ::
         NewJob(w.catalog.jobs[id]) && w.catalog.jobs[id].id == id && w.catalog.jobs[id].generation in w.generations
  }

  ghost predicate Behaviour(ws: seq<World>, acts: seq<Action>) {
    && |ws| == |acts| + 1
    && Initial(ws[0])
    && forall i | 0 <= i < |acts| :: Enabled(ws[i], acts[i]) && ws[i + 1] == Next(ws[i], acts[i])
  }

  // ----- what the history says about one job generation -----

  /** The time of the latest claim. */
  function LastClaim(events: seq<Event>, id: string, generation: string): Option<nat> {
    if events == [] then None
    else
      var n := |events| - 1;
      match events[n]
      case Claimed(x, g, now) => if x == id && g == generation then Some(now) else LastClaim(events[..n], id, generation)
      case _ => LastClaim(events[..n], id, generation)
  }

  /** Samples appended since the latest claim. */
  function SamplesSince(events: seq<Event>, id: string, generation: string): nat {
    if events == [] then 0
    else
      var n := |events| - 1;
      match events[n]
      case Claimed(x, g, _) => if x == id && g == generation then 0 else SamplesSince(events[..n], id, generation)
      case Sampled(x, g) => SamplesSince(events[..n], id, generation) + if x == id && g == generation then 1 else 0
      case _ => SamplesSince(events[..n], id, generation)
  }

  /** An outcome or a recovery has followed the latest claim. */
  function ReleasedSince(events: seq<Event>, id: string, generation: string): bool {
    if events == [] then false
    else
      var n := |events| - 1;
      match events[n]
      case Claimed(x, g, _) => if x == id && g == generation then false else ReleasedSince(events[..n], id, generation)
      case Restarted => true
      case Sampled(x, g) => (x == id && g == generation) || ReleasedSince(events[..n], id, generation)
      case Released(x, g) => (x == id && g == generation) || ReleasedSince(events[..n], id, generation)
  }

  /** All three at once. */
  datatype Track = Track(last: Option<nat>, samples: nat, released: bool)

  function TrackOf(events: seq<Event>, id: string, generation: string): Track {
    Track(LastClaim(events, id, generation), SamplesSince(events, id, generation), ReleasedSince(events, id, generation))
  }

  function Tracked(t: Track, e: Event, id: string, generation: string): Track {
    match e
    case Claimed(x, g, now) => if x == id && g == generation then Track(Some(now), 0, false) else t
    case Sampled(x, g) => if x == id && g == generation then Track(t.last, t.samples + 1, true) else t
    case Released(x, g) => if x == id && g == generation then t.(released := true) else t
    case Restarted => t.(released := true)
  }

  lemma TrackNext(events: seq<Event>, e: Event, id: string, generation: string)
    ensures TrackOf(events + [e], id, generation) == Tracked(TrackOf(events, id, generation), e, id, generation)
  {
    assert (events + [e])[..|events|] == events;
  }

  /** Claiming jobs with different ids touches the claimed job's track once and no other. */
  lemma {:induction false} TrackClaims(events: seq<Event>, due: seq<Job>, now: nat, id: string, generation: string)
    requires forall i, j | 0 <= i < j < |due| :: due[i].id != due[j].id
    ensures TrackOf(events + ClaimEvents(due, now), id, generation) ==
            if exists i :: 0 <= i < |due| && due[i].id == id && due[i].generation == generation
            then Track(Some(now), 0, false) else TrackOf(events, id, generation)
    decreases |due|
  {
    hide TrackOf, Tracked;
    if due == [] {
      assert events + [] == events;
    } else {
      var e := Event.Claimed(due[0].id, due[0].generation, now);
      assert events + ClaimEvents(due, now) == (events + [e]) + ClaimEvents(due[1..], now);
      TrackClaims(events + [e], due[1..], now, id, generation);
      TrackNext(events, e, id, generation);
      ClaimedTrack(TrackOf(events, id, generation), due, now, id, generation);
    }
  }

  lemma ClaimedTrack(t: Track, due: seq<Job>, now: nat, id: string, generation: string)
    requires due != [] && forall i, j | 0 <= i < j < |due| :: due[i].id != due[j].id
    ensures var rest := exists i :: 0 <= i < |due[1..]| && due[1..][i].id == id && due[1..][i].generation == generation;
            var all := exists i :: 0 <= i < |due| && due[i].id == id && due[i].generation == generation;
            var t' := Tracked(t, Event.Claimed(due[0].id, due[0].generation, now), id, generation);
            (if rest then Track(Some(now), 0, false) else t') == (if all then Track(Some(now), 0, false) else t)
  {
    if i :| 0 <= i < |due| && due[i].id == id && due[i].generation == generation {
      if i > 0 { assert due[1..][i - 1] == due[i]; }
    }
    if i :| 0 <= i < |due[1..]| && due[1..][i].id == id && due[1..][i].generation == generation {
      assert due[i + 1] == due[1..][i];
    }
  }

  // ----- the invariant -----

  predicate InQueue(w: World, id: string, generation: string) {
    exists i | 0 <= i < |w.queue| :: w.queue[i].id == id && w.queue[i].generation == generation
  }

  predicate InPending(w: World, id: string, generation: string) {
    exists i | 0 <= i < |w.pending| :: w.pending[i].jobId == id && w.pending[i].generation == generation
  }

  predicate Waiting(w: World, id: string, generation: string) {
    InQueue(w, id, generation) || InPending(w, id, generation)
  }

  /** Every claimed execution is queued or pending once. */
  ghost predicate WorkDistinct(w: World) {
    && (forall i, j | 0 <= i < j < |w.queue| :: w.queue[i].id != w.queue[j].id)
    && (forall i, j | 0 <= i < j < |w.pending| :: w.pending[i].jobId != w.pending[j].jobId)
    && (forall i, j | 0 <= i < |w.queue| && 0 <= j < |w.pending| :: w.queue[i].id != w.pending[j].jobId)
  }

  ghost predicate TracksOk(w: World) {
    forall id, g :: var t := TrackOf(w.events, id, g);
      t.samples <= 1 && (Waiting(w, id, g) ==> t.samples == 0 && g in w.generations) && (t.last.Some? ==> g in w.generations)
  }

  ghost predicate JobOk(w: World, job: Job) {
    var t := TrackOf(w.events, job.id, job.generation);
    && job.generation in w.generations
    && t.last == job.lastEpoch
    && (job.lastStatus != Some("RUNNING") && t.last.Some? ==> t.released)
    && (Waiting(w, job.id, job.generation) ==> job.lastStatus == Some("RUNNING"))
    && |job.history| <= MAX_HISTORY_PER_JOB
  }

  ghost predicate JobsOk(w: World) {
    forall id | id in w.catalog.jobs :: w.catalog.jobs[id].id == id && JobOk(w, w.catalog.jobs[id])
  }

  /** The ring holds the latest alerts, numbered without a gap. */
  ghost predicate RingOk(c: Catalog) {
    && |c.alerts| == (if c.alertSeq < MAX_ALERTS then c.alertSeq else MAX_ALERTS)
    && forall k | 0 <= k < |c.alerts| :: c.alerts[k].number == c.alertSeq - |c.alerts| + 1 + k
  }

  ghost predicate SchedulerInv(w: World) {
    WorkDistinct(w) && TracksOk(w) && JobsOk(w) && RingOk(w.catalog)
  }
}
