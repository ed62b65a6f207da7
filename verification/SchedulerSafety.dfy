/** What the scheduler promises over whole runs: spaced claims, one sample per claim, feedback that is
    idempotent and touches the past only where it belongs, and an alert ring without gaps. */
module SchedulerSafety {
  import opened Wrappers
  import opened Records
  import opened Text
  import opened Scheduler
  import opened SchedulerProtocol

  // ----- feedback on one job -----

  /** Feedback changes what was observed, never what was scheduled. */
  predicate SameSchedule(a: Job, b: Job) {
    && a.id == b.id && a.generation == b.generation && a.scenarioId == b.scenarioId && a.interval == b.interval
    && a.enabled == b.enabled && a.lastEpoch == b.lastEpoch && a.lastStatus == b.lastStatus
    && a.lastRunId == b.lastRunId && |a.history| == |b.history|
    && (a.baseline.Some? ==> b.baseline == a.baseline)
    && forall i | 0 <= i < |a.history| :: a.history[i].runId == b.history[i].runId && a.history[i].status == b.history[i].status
  }

  lemma HeardKeepsSchedule(job: Job, record: AuditRecord)
    ensures SameSchedule(job, HeardJob(job, record))
  {
    hide SampleOf, Excessive;
  }

  lemma SampleOfStable(a: seq<Sample>, b: seq<Sample>, runId: string)
    requires |a| == |b| && forall i | 0 <= i < |a| :: a[i].runId == b[i].runId
    ensures SampleOf(a, runId) == SampleOf(b, runId)
  {
    var i, j := SampleOf(a, runId), SampleOf(b, runId);
    assert i < |a| ==> b[i].runId == Some(runId);
    assert j < |b| ==> a[j].runId == Some(runId);
  }

  /** Hearing the same feedback again changes nothing. */
  lemma HeardJobTwice(job: Job, record: AuditRecord)
    ensures HeardJob(HeardJob(job, record), record) == HeardJob(job, record)
  {
    hide SampleOf, Excessive;
    SampleOfStable(job.history, HeardJob(job, record).history, record.runId);
  }

  /** Nothing but what was observed of one run moved. */
  predicate StaysWithSample(a: Job, b: Job) {
    && b == a.(history := b.history) && |b.history| == |a.history|
    && forall i | 0 <= i < |a.history| ::
         b.history[i].runId == a.history[i].runId && b.history[i].status == a.history[i].status
         && b.history[i].drift == a.history[i].drift && b.history[i].factor == a.history[i].factor
  }

  /** Feedback on a run that is not the job's latest stays with its sample. */
  lemma OldSampleOnly(job: Job, record: AuditRecord)
    requires job.lastRunId != Some(record.runId)
    ensures StaysWithSample(job, job) && StaysWithSample(job, HeardJob(job, record))
    ensures !Raises(job, HeardJob(job, record))
  {
    hide SampleOf, Excessive;
  }

  /** New feedback on the job's latest run takes the job into the degraded state, or to a newly missed
      detection. */
  ghost predicate Enters(job: Job, record: AuditRecord) {
    && Reports(record) && (exists i: nat :: NewAt(job, record, i)) && job.lastRunId == Some(record.runId)
    && if record.measurements.detected then !job.drift && Slow(job, record) else !job.drift || !job.missed
  }

  lemma RaisesExactlyOnEntry(job: Job, record: AuditRecord)
    requires ConfirmedFeedback(record)
    ensures Raises(job, HeardJob(job, record)) <==> Enters(job, record)
    ensures Enters(job, record) ==> HeardJob(job, record).drift && HeardJob(job, record).missed == !record.measurements.detected
  {
    hide NewAt, HeardJob, ConfirmedFeedback, Reports, Slow;
    ReportsIs(record);
    HeardExactly(job, record);
  }

  // ----- feedback on the catalog -----

  ghost predicate HeardAll(c: Catalog, c': Catalog, ids: seq<string>, record: AuditRecord) {
    && c'.jobs.Keys == c.jobs.Keys
    && forall id | id in c.jobs :: c'.jobs[id] == if id in ids then HeardJob(c.jobs[id], record) else c.jobs[id]
  }

  /** Visiting each job once hears each job once. */
  lemma {:induction false} HeardInAll(c: Catalog, order: seq<string>, record: AuditRecord)
    requires forall i, j | 0 <= i < j < |order| :: order[i] != order[j]
    ensures HeardAll(c, HeardIn(c, order, record), order, record)
    decreases |order|
  {
    hide HeardJob, Raises, AlertFor, LastOf;
    if order != [] {
      HeardInAll(HeardAt(c, order[0], record), order[1..], record);
      assert order[0] !in order[1..];
    }
  }

  /** A catalog that has heard the feedback already does not change. */
  lemma {:induction false} NothingNew(c: Catalog, order: seq<string>, record: AuditRecord)
    requires forall id | id in order && id in c.jobs :: HeardJob(c.jobs[id], record) == c.jobs[id]
    ensures HeardIn(c, order, record) == c
    decreases |order|
  {
    hide HeardJob, AlertFor, LastOf;
    if order != [] {
      assert order[0] in order;
      assert HeardAt(c, order[0], record) == c by {
        if order[0] in c.jobs { assert c.jobs[order[0] := c.jobs[order[0]]] == c.jobs; }
      }
      assert forall id | id in order[1..] :: id in order;
      NothingNew(c, order[1..], record);
    }
  }

  /** `record_feedback` is idempotent, whatever order the table is visited in the second time. */
  lemma FeedbackIsIdempotent(c: Catalog, order: seq<string>, again: seq<string>, record: AuditRecord)
    requires Enumerates(order, c.jobs) && Enumerates(again, c.jobs)
    ensures AfterFeedback(AfterFeedback(c, order, record), again, record) == AfterFeedback(c, order, record)
  {
    hide HeardJob, HeardIn;
    if ConfirmedFeedback(record) {
      HeardInAll(c, order, record);
      var heard := HeardIn(c, order, record);
      forall id | id in again && id in heard.jobs ensures HeardJob(heard.jobs[id], record) == heard.jobs[id] {
        HeardJobTwice(c.jobs[id], record);
      }
      NothingNew(heard, again, record);
    }
  }

  /** The job has a sample of the run. */
  predicate Knows(job: Job, runId: string) { SampleOf(job.history, runId) < |job.history| }

  lemma UnknownRunUnheard(job: Job, record: AuditRecord)
    requires !Knows(job, record.runId)
    ensures HeardJob(job, record) == job && !Raises(job, job)
  {
  }

  lemma {:induction false} HeardAtOnlyKnower(c: Catalog, order: seq<string>, record: AuditRecord, x: string)
    requires x in order && forall i, j | 0 <= i < j < |order| :: order[i] != order[j]
    requires forall id | id in c.jobs && id != x :: !Knows(c.jobs[id], record.runId)
    ensures HeardIn(c, order, record) == HeardAt(c, x, record)
    decreases |order|
  {
    hide HeardJob, Knows, AlertFor, LastOf;
    var y := order[0];
    if y == x {
      var c' := HeardAt(c, x, record);
      assert x !in order[1..];
      forall id | id in order[1..] && id in c'.jobs ensures HeardJob(c'.jobs[id], record) == c'.jobs[id] {
        UnknownRunUnheard(c.jobs[id], record);
      }
      NothingNew(c', order[1..], record);
    } else {
      if y in c.jobs {
        UnknownRunUnheard(c.jobs[y], record);
        assert c.jobs[y := c.jobs[y]] == c.jobs;
      }
      assert HeardAt(c, y, record) == c;
      HeardAtOnlyKnower(c, order[1..], record, x);
    }
  }

  /** If a run belongs to at most one job, the order of the table does not show. */
  lemma OneKnowerHidesOrder(c: Catalog, a: seq<string>, b: seq<string>, record: AuditRecord)
    requires Enumerates(a, c.jobs) && Enumerates(b, c.jobs)
    requires forall id, other | id in c.jobs && other in c.jobs && Knows(c.jobs[id], record.runId) && Knows(c.jobs[other], record.runId) ::
               id == other
    ensures AfterFeedback(c, a, record) == AfterFeedback(c, b, record)
  {
    hide HeardIn, HeardAt, Knows, HeardJob;
    if x :| x in c.jobs && Knows(c.jobs[x], record.runId) {
      HeardAtOnlyKnower(c, a, record, x);
      HeardAtOnlyKnower(c, b, record, x);
    } else {
      forall id | id in c.jobs ensures HeardJob(c.jobs[id], record) == c.jobs[id] { UnknownRunUnheard(c.jobs[id], record); }
      NothingNew(c, a, record);
      NothingNew(c, b, record);
    }
  }

  lemma RingGrows(c: Catalog, alert: Alert)
    requires RingOk(c) && alert.number == c.alertSeq + 1
    ensures RingOk(Catalog(c.jobs, LastOf(c.alerts + [alert], MAX_ALERTS), c.alertSeq + 1))
  {
    hide LastOf;
    var all := c.alerts + [alert];
    var ring := LastOf(all, MAX_ALERTS);
    forall k | 0 <= k < |ring| ensures ring[k].number == c.alertSeq + 1 - |ring| + 1 + k {
      RingNumber(c, alert, |all| - |ring| + k);
    }
  }

  lemma RingNumber(c: Catalog, alert: Alert, j: nat)
    requires RingOk(c) && alert.number == c.alertSeq + 1 && j <= |c.alerts|
    ensures (c.alerts + [alert])[j].number == c.alertSeq - |c.alerts| + 1 + j
  {
  }

  lemma HeardAtRing(c: Catalog, id: string, record: AuditRecord)
    requires RingOk(c)
    ensures RingOk(HeardAt(c, id, record))
  {
    hide RingOk, HeardJob, Raises, LastOf;
    if id in c.jobs {
      var after := HeardJob(c.jobs[id], record);
      RingSame(c, c.(jobs := c.jobs[id := after]));
      RingGrows(c.(jobs := c.jobs[id := after]), AlertFor(after, record, c.alertSeq + 1));
    }
  }

  lemma RingSame(c: Catalog, c': Catalog)
    requires RingOk(c) && c'.alerts == c.alerts && c'.alertSeq == c.alertSeq
    ensures RingOk(c')
  {
  }

  lemma {:induction false} HeardInRing(c: Catalog, order: seq<string>, record: AuditRecord)
    requires RingOk(c)
    ensures RingOk(HeardIn(c, order, record))
    decreases |order|
  {
    hide RingOk, HeardAt;
    if order != [] {
      HeardAtRing(c, order[0], record);
      HeardInRing(HeardAt(c, order[0], record), order[1..], record);
    }
  }

  lemma FeedbackKeeps(c: Catalog, order: seq<string>, record: AuditRecord)
    requires Enumerates(order, c.jobs) && RingOk(c)
    ensures var c' := AfterFeedback(c, order, record);
            && c'.jobs.Keys == c.jobs.Keys && RingOk(c')
            && forall id | id in c.jobs :: SameSchedule(c.jobs[id], c'.jobs[id])
  {
    hide HeardIn, RingOk, SameSchedule, HeardJob;
    if ConfirmedFeedback(record) {
      HeardInAll(c, order, record);
      HeardInRing(c, order, record);
    }
    forall id | id in c.jobs ensures SameSchedule(c.jobs[id], AfterFeedback(c, order, record).jobs[id]) {
      HeardKeepsSchedule(c.jobs[id], record);
      SameScheduleItself(c.jobs[id]);
    }
  }

  lemma SameScheduleItself(job: Job)
    ensures SameSchedule(job, job)
  {
  }

  // ----- every action keeps the invariant -----

  lemma SameScheduleOk(w: World, w': World, a: Job, b: Job)
    requires JobOk(w, a) && a.id == b.id && a.generation == b.generation && a.lastEpoch == b.lastEpoch
    requires a.lastStatus == b.lastStatus && |b.history| <= MAX_HISTORY_PER_JOB
    requires w'.events == w.events && w.generations <= w'.generations
    requires Waiting(w', a.id, a.generation) ==> Waiting(w, a.id, a.generation)
    ensures JobOk(w', b)
  {
    hide Waiting, TrackOf;
  }

  /** Steps that leave queue, outcomes and history alone, and every remaining job's schedule. */
  lemma CatalogStepKeepsInv(w: World, w': World)
    requires SchedulerInv(w) && w' == w.(catalog := w'.catalog) && RingOk(w'.catalog)
    requires forall id | id in w'.catalog.jobs :: id in w.catalog.jobs &&
               var a, b := w.catalog.jobs[id], w'.catalog.jobs[id];
               a.id == b.id && a.generation == b.generation && a.lastEpoch == b.lastEpoch && a.lastStatus == b.lastStatus
               && |b.history| <= MAX_HISTORY_PER_JOB
    ensures SchedulerInv(w')
  {
    hide TrackOf, Waiting, RingOk, JobOk, WorkDistinct;
    WaitingSame(w, w');
    forall id | id in w'.catalog.jobs ensures JobOk(w', w'.catalog.jobs[id]) {
      SameScheduleOk(w, w', w.catalog.jobs[id], w'.catalog.jobs[id]);
    }
    WorkSame(w, w');
  }

  lemma WaitingSame(w: World, w': World)
    requires w'.queue == w.queue && w'.pending == w.pending
    ensures forall id, g :: Waiting(w', id, g) == Waiting(w, id, g)
  {
  }

  lemma WorkSame(w: World, w': World)
    requires WorkDistinct(w) && w'.queue == w.queue && w'.pending == w.pending
    ensures WorkDistinct(w')
  {
  }

  lemma CreateKeepsInv(w: World, job: Job)
    requires SchedulerInv(w) && Enabled(w, Create(job))
    ensures SchedulerInv(Next(w, Create(job)))
  {
    hide TrackOf, Waiting, JobOk;
    var w' := Next(w, Create(job));
    WaitingSame(w, w');
    forall id | id in w'.catalog.jobs ensures JobOk(w', w'.catalog.jobs[id]) {
      if id == job.id { NewJobOk(w, w', job); } else { SameScheduleOk(w, w', w.catalog.jobs[id], w.catalog.jobs[id]) by { HistoryBound(w, id); } }
    }
  }

  lemma HistoryBound(w: World, id: string)
    requires JobsOk(w) && id in w.catalog.jobs
    ensures |w.catalog.jobs[id].history| <= MAX_HISTORY_PER_JOB
  {
    hide TrackOf, Waiting;
  }

  lemma NewJobOk(w: World, w': World, job: Job)
    requires TracksOk(w) && Enabled(w, Create(job)) && w' == Next(w, Create(job))
    ensures JobOk(w', job)
  {
    hide TrackOf, Waiting;
    WaitingSame(w, w');
    var t := TrackOf(w.events, job.id, job.generation);
  }

  lemma DueDistinct(jobs: map<string, Job>, now: nat, due: seq<Job>)
    requires ClaimedInOrder(jobs, now, due) && forall id | id in jobs :: jobs[id].id == id
    ensures forall i, j | 0 <= i < j < |due| :: due[i].id != due[j].id
    ensures forall id :: (exists i :: 0 <= i < |due| && due[i].id == id) <==> id in jobs && Due(jobs[id], now)
    ensures forall i | 0 <= i < |due| :: due[i].id in jobs && due[i] == Scheduler.Claimed(jobs[due[i].id], now)
  {
    hide Due;
    var ids := SortedIds(DueIds(jobs, now));
    forall i, j | 0 <= i < j < |due| ensures due[i].id != due[j].id { LessIrreflexive(ids[i]); }
    forall id ensures (exists i :: 0 <= i < |due| && due[i].id == id) <==> id in jobs && Due(jobs[id], now) {
      if i :| 0 <= i < |due| && due[i].id == id { assert ids[i] in ids; }
      if id in jobs && Due(jobs[id], now) {
        assert id in ids;
        var i :| 0 <= i < |ids| && ids[i] == id;
        assert due[i].id == id;
      }
    }
  }

  lemma ClaimKeepsInv(w: World, now: nat, due: seq<Job>)
    requires SchedulerInv(w) && Enabled(w, Action.Claim(now, due))
    ensures SchedulerInv(Next(w, Action.Claim(now, due)))
  {
    hide TrackOf, Due, RingOk, ClaimedInOrder, JobOk;
    var w' := Next(w, Action.Claim(now, due));
    DueDistinct(w.catalog.jobs, now, due);
    RingSame(w.catalog, w'.catalog);
    forall id, g
      ensures var t := TrackOf(w'.events, id, g);
              t.samples <= 1 && (Waiting(w', id, g) ==> t.samples == 0 && g in w'.generations) && (t.last.Some? ==> g in w'.generations)
    {
      TrackClaims(w.events, due, now, id, g);
      if i :| 0 <= i < |due| && due[i].id == id && due[i].generation == g { GenerationKnown(w, due[i].id); }
    }
    forall id | id in w'.catalog.jobs ensures JobOk(w', w'.catalog.jobs[id]) { ClaimedJobOk(w, now, due, id); }
  }

  lemma GenerationKnown(w: World, id: string)
    requires JobsOk(w) && id in w.catalog.jobs
    ensures w.catalog.jobs[id].generation in w.generations
  {
    hide TrackOf, Waiting;
  }

  lemma ClaimedJobOk(w: World, now: nat, due: seq<Job>, id: string)
    requires SchedulerInv(w) && Enabled(w, Action.Claim(now, due)) && id in w.catalog.jobs
    ensures var w' := Next(w, Action.Claim(now, due)); JobOk(w', w'.catalog.jobs[id])
  {
    hide TrackOf, Due, RingOk, ClaimedInOrder, TracksOk, WorkDistinct;
    DueDistinct(w.catalog.jobs, now, due);
    var job := w.catalog.jobs[id];
    assert JobOk(w, job);
    TrackClaims(w.events, due, now, id, job.generation);
    if Due(job, now) {
      var i :| 0 <= i < |due| && due[i].id == id;
    }
  }

  /** Moving a claimed job from the queue to the outcomes leaves the same work waiting. */
  lemma MoveKeepsWork(w: World, p: PendingOutcome)
    requires w.queue != [] && p.jobId == w.queue[0].id && p.generation == w.queue[0].generation && WorkDistinct(w)
    ensures var w' := w.(queue := w.queue[1..], pending := w.pending + [p]);
            WorkDistinct(w') && forall id, g :: Waiting(w', id, g) ==> Waiting(w, id, g)
  {
  }

  lemma MoveKeepsInv(w: World, p: PendingOutcome)
    requires SchedulerInv(w) && w.queue != [] && p.jobId == w.queue[0].id && p.generation == w.queue[0].generation
    ensures SchedulerInv(w.(queue := w.queue[1..], pending := w.pending + [p]))
  {
    hide TrackOf, Waiting, JobOk, WorkDistinct;
    var w' := w.(queue := w.queue[1..], pending := w.pending + [p]);
    MoveKeepsWork(w, p);
    forall id | id in w'.catalog.jobs ensures JobOk(w', w'.catalog.jobs[id]) {
      HistoryBound(w, id);
      SameScheduleOk(w, w', w.catalog.jobs[id], w.catalog.jobs[id]);
    }
  }

  lemma IssuedKeepsInv(w: World, issued: set<string>)
    requires SchedulerInv(w)
    ensures SchedulerInv(w.(issued := issued))
  {
    hide TrackOf, RingOk;
    var w' := w.(issued := issued);
    WaitingSame(w, w');
    forall id | id in w'.catalog.jobs ensures JobOk(w', w'.catalog.jobs[id]) { assert JobOk(w, w.catalog.jobs[id]); }
  }

  lemma PoppedWork(w: World)
    requires WorkDistinct(w) && w.pending != []
    ensures WorkDistinct(w.(pending := w.pending[1..]))
    ensures forall id, g :: Waiting(w.(pending := w.pending[1..]), id, g) ==> Waiting(w, id, g) && id != w.pending[0].jobId
    ensures Waiting(w, w.pending[0].jobId, w.pending[0].generation)
  {
    assert w.pending[0].jobId == w.pending[0].jobId;
  }

  /** Committing the first outcome: its job, if still current, is sampled or released. */
  function Popped(w: World): World
    requires w.pending != []
  {
    var p := w.pending[0];
    WithJobs(w, AfterOutcome(w.catalog.jobs, p))
    .(pending := w.pending[1..], events := w.events + OutcomeEvents(w.catalog.jobs, p))
  }

  lemma OutcomeTrack(w: World, p: PendingOutcome, id: string, g: string)
    ensures TrackOf(w.events + OutcomeEvents(w.catalog.jobs, p), id, g) ==
            if OutcomeEvents(w.catalog.jobs, p) == [] then TrackOf(w.events, id, g)
            else Tracked(TrackOf(w.events, id, g), OutcomeEvents(w.catalog.jobs, p)[0], id, g)
  {
    hide TrackOf, Tracked;
    var es := OutcomeEvents(w.catalog.jobs, p);
    if es == [] { assert w.events + es == w.events; } else { TrackNext(w.events, es[0], id, g); }
  }

  lemma PoppedTracks(w: World)
    requires SchedulerInv(w) && w.pending != []
    ensures TracksOk(Popped(w))
  {
    hide TrackOf, Waiting, JobOk, WorkDistinct, Ended;
    var w', p := Popped(w), w.pending[0];
    PoppedWork(w);
    WaitingSame(w.(pending := w.pending[1..]), w');
    forall id, g
      ensures var t := TrackOf(w'.events, id, g);
              t.samples <= 1 && (Waiting(w', id, g) ==> t.samples == 0 && g in w'.generations) && (t.last.Some? ==> g in w'.generations)
    {
      OutcomeTrack(w, p, id, g);
      assert TrackOf(w.events, id, g).samples <= 1;
    }
  }

  lemma EndedKeeps(job: Job, p: PendingOutcome)
    requires |job.history| <= MAX_HISTORY_PER_JOB
    ensures Ended(job, p).id == job.id && Ended(job, p).generation == job.generation && Ended(job, p).lastEpoch == job.lastEpoch
    ensures Ended(job, p).lastStatus == Some(p.status) && |Ended(job, p).history| <= MAX_HISTORY_PER_JOB
    ensures job.baseline == Ended(job, p).baseline
  {
  }

  lemma PoppedJob(w: World, id: string)
    requires SchedulerInv(w) && w.pending != [] && id in Popped(w).catalog.jobs
    ensures id in w.catalog.jobs && Popped(w).catalog.jobs[id].id == id && JobOk(Popped(w), Popped(w).catalog.jobs[id])
  {
    hide TrackOf, Waiting, WorkDistinct, Ended, RingOk, TracksOk;
    var w', p, job := Popped(w), w.pending[0], w.catalog.jobs[id];
    assert JobOk(w, job);
    PoppedWork(w);
    WaitingSame(w.(pending := w.pending[1..]), w');
    OutcomeTrack(w, p, id, job.generation);
    EndedKeeps(job, p);
  }

  lemma PopKeepsInv(w: World)
    requires SchedulerInv(w) && w.pending != []
    ensures SchedulerInv(Popped(w))
  {
    hide TrackOf, Waiting, WorkDistinct, Ended, RingOk, JobOk, TracksOk;
    PoppedTracks(w);
    PoppedWork(w);
    WorkSame(w.(pending := w.pending[1..]), Popped(w));
    RingSame(w.catalog, Popped(w).catalog);
    forall id | id in Popped(w).catalog.jobs { PoppedJob(w, id); }
  }

  lemma FeedbackKeepsInv(w: World, record: AuditRecord, order: seq<string>)
    requires SchedulerInv(w) && Enumerates(order, w.catalog.jobs)
    ensures SchedulerInv(w.(catalog := AfterFeedback(w.catalog, order, record)))
  {
    hide AfterFeedback, TracksOk, WorkDistinct, RingOk, JobOk;
    FeedbackKeeps(w.catalog, order, record);
    forall id | id in w.catalog.jobs { HistoryBound(w, id); }
    CatalogStepKeepsInv(w, w.(catalog := AfterFeedback(w.catalog, order, record)));
  }

  lemma FlushKeepsInv(w: World, feedback: Option<AuditRecord>, order: seq<string>)
    requires SchedulerInv(w) && w.pending != [] && Enumerates(order, w.catalog.jobs)
    ensures SchedulerInv(DoFlush(w, feedback, order))
  {
    hide SchedulerInv, AfterFeedback, Ended;
    PopKeepsInv(w);
    if feedback.Some? {
      assert Enumerates(order, Popped(w).catalog.jobs);
      FeedbackKeepsInv(Popped(w), feedback.value, order);
    }
  }

  lemma RestartKeepsInv(w: World)
    requires SchedulerInv(w)
    ensures SchedulerInv(Next(w, Restart))
  {
    hide TrackOf, RingOk;
    var w' := Next(w, Restart);
    RingSame(w.catalog, w'.catalog);
    forall id, g ensures TrackOf(w'.events, id, g) == TrackOf(w.events, id, g).(released := true) {
      TrackNext(w.events, Restarted, id, g);
    }
    forall id | id in w'.catalog.jobs ensures JobOk(w', w'.catalog.jobs[id]) { assert JobOk(w, w.catalog.jobs[id]); }
  }

  lemma NextKeepsInv(w: World, a: Action)
    requires SchedulerInv(w) && Enabled(w, a)
    ensures SchedulerInv(Next(w, a))
  {
    hide WorkDistinct, TracksOk, RingOk, JobOk, DoFlush, AfterFeedback, AfterClaims, ClaimedInOrder, AfterRecovery;
    match a
    case Create(job) => CreateKeepsInv(w, job);
    case Claim(now, due) => ClaimKeepsInv(w, now, due);
    case Skip => MoveKeepsInv(w, OutcomeOf(w.queue[0], None, "SKIPPED"));
    case Execute(runId, status) =>
      MoveKeepsInv(w, OutcomeOf(w.queue[0], runId, status));
      IssuedKeepsInv(w.(queue := w.queue[1..], pending := w.pending + [OutcomeOf(w.queue[0], runId, status)]), Next(w, a).issued);
    case Flush(ok, feedback, order) => if ok { FlushKeepsInv(w, feedback, order); }
    case Feedback(record, order) => FeedbackKeepsInv(w, record, order);
    case Restart => RestartKeepsInv(w);
    case Remove(id) =>
      forall x | x in w.catalog.jobs { HistoryBound(w, x); }
      RingSame(w.catalog, Next(w, a).catalog);
      CatalogStepKeepsInv(w, Next(w, a));
    case Enable(id, enabled) =>
      forall x | x in w.catalog.jobs { HistoryBound(w, x); }
      RingSame(w.catalog, Next(w, a).catalog);
      CatalogStepKeepsInv(w, Next(w, a));
  }

  lemma InitialInv(w: World)
    requires Initial(w)
    ensures SchedulerInv(w)
  {
  }

  lemma {:induction false} Reachable(ws: seq<World>, acts: seq<Action>, i: nat)
    requires Behaviour(ws, acts) && i < |ws|
    ensures SchedulerInv(ws[i])
  {
    hide Enabled, Next, SchedulerInv;
    if i == 0 { InitialInv(ws[0]); }
    else {
      Reachable(ws, acts, i - 1);
      NextKeepsInv(ws[i - 1], acts[i - 1]);
    }
  }

  // ----- what the scheduler promises -----

  /** A claim of a job comes at least its interval after the previous claim of the same generation, up to
      saturation, and only after an outcome or a recovery has followed that one. */
  lemma ClaimsAreSpaced(ws: seq<World>, acts: seq<Action>, i: nat, id: string)
    requires Behaviour(ws, acts) && i < |acts| && acts[i].Claim?
    requires id in ws[i].catalog.jobs && Due(ws[i].catalog.jobs[id], acts[i].now)
    ensures var job := ws[i].catalog.jobs[id];
            var last := LastClaim(ws[i].events, id, job.generation);
            last.Some? ==> acts[i].now >= SaturatingAdd(last.value, job.interval) && ReleasedSince(ws[i].events, id, job.generation)
    ensures LastClaim(ws[i + 1].events, id, ws[i].catalog.jobs[id].generation) == Some(acts[i].now)
  {
    hide Enabled, LastClaim, ReleasedSince, SamplesSince, WorkDistinct, RingOk, Waiting;
    Reachable(ws, acts, i);
    var w, job := ws[i], ws[i].catalog.jobs[id];
    assert JobOk(w, job);
    ClaimTracked(w, acts[i].now, acts[i].due, id);
  }

  lemma ClaimTracked(w: World, now: nat, due: seq<Job>, id: string)
    requires JobsOk(w) && Enabled(w, Action.Claim(now, due)) && id in w.catalog.jobs && Due(w.catalog.jobs[id], now)
    ensures LastClaim(w.events + ClaimEvents(due, now), id, w.catalog.jobs[id].generation) == Some(now)
  {
    hide LastClaim, ReleasedSince, SamplesSince, Due, JobOk, ClaimedInOrder;
    DueDistinct(w.catalog.jobs, now, due);
    var i :| 0 <= i < |due| && due[i].id == id;
    TrackClaims(w.events, due, now, id, w.catalog.jobs[id].generation);
  }

  /** Each claim leads to at most one history sample, however many writes failed in between. */
  lemma OneSamplePerClaim(ws: seq<World>, acts: seq<Action>, i: nat, id: string, generation: string)
    requires Behaviour(ws, acts) && i < |ws|
    ensures SamplesSince(ws[i].events, id, generation) <= 1
  {
    hide Enabled, Next, Behaviour;
    Reachable(ws, acts, i);
    assert TrackOf(ws[i].events, id, generation).samples <= 1;
  }

  /** The outcome's sample is the newest of the job's bounded history. */
  predicate SampleAdded(before: Job, after: Job, p: PendingOutcome) {
    && after.history != []
    && after.history[|after.history| - 1].runId == p.runId && after.history[|after.history| - 1].status == p.status
    && |after.history| == if |before.history| < MAX_HISTORY_PER_JOB then |before.history| + 1 else MAX_HISTORY_PER_JOB
  }

  /** When a pending outcome commits, it is the only one of its claim, its job is sampled exactly once if it is
      still current and the outcome is not SKIPPED, and the outcome is gone; a failed write keeps it. */
  lemma CommittedOutcomeIsSampled(ws: seq<World>, acts: seq<Action>, i: nat)
    requires Behaviour(ws, acts) && i < |acts| && acts[i].Flush?
    ensures !acts[i].ok ==> ws[i + 1] == ws[i]
    ensures acts[i].ok ==> ws[i + 1].pending == ws[i].pending[1..]
    ensures var p := ws[i].pending[0];
            acts[i].ok && IsCurrent(ws[i].catalog.jobs, p) && p.status != "SKIPPED" ==>
              && SamplesSince(ws[i].events, p.jobId, p.generation) == 0
              && SamplesSince(ws[i + 1].events, p.jobId, p.generation) == 1
              && p.jobId in ws[i + 1].catalog.jobs
              && SampleAdded(ws[i].catalog.jobs[p.jobId], ws[i + 1].catalog.jobs[p.jobId], p)
  {
    hide AfterFeedback, LastClaim, ReleasedSince, SamplesSince, Ended, JobOk, RingOk;
    if acts[i].ok {
      Reachable(ws, acts, i);
      var w, p := ws[i], ws[i].pending[0];
      PoppedWork(w);
      OutcomeTrack(w, p, p.jobId, p.generation);
      assert TrackOf(w.events, p.jobId, p.generation).samples == 0;
      if IsCurrent(w.catalog.jobs, p) && p.status != "SKIPPED" {
        FlushedJob(w, acts[i].feedback, acts[i].order);
      }
    }
  }

  lemma EndedSample(job: Job, p: PendingOutcome)
    requires p.status != "SKIPPED" && |job.history| <= MAX_HISTORY_PER_JOB
    ensures SampleAdded(job, Ended(job, p), p)
  {
  }

  lemma FlushedJob(w: World, feedback: Option<AuditRecord>, order: seq<string>)
    requires SchedulerInv(w) && w.pending != [] && Enumerates(order, w.catalog.jobs)
    requires IsCurrent(w.catalog.jobs, w.pending[0]) && w.pending[0].status != "SKIPPED"
    ensures var p := w.pending[0];
            p.jobId in DoFlush(w, feedback, order).catalog.jobs
            && SampleAdded(w.catalog.jobs[p.jobId], DoFlush(w, feedback, order).catalog.jobs[p.jobId], p)
  {
    hide AfterFeedback, Ended, SampleAdded, TracksOk, WorkDistinct, JobOk, HeardIn, HeardJob, RingOk;
    var p := w.pending[0];
    var job := w.catalog.jobs[p.jobId];
    HistoryBound(w, p.jobId);
    EndedSample(job, p);
    if feedback.Some? {
      assert Enumerates(order, AfterOutcome(w.catalog.jobs, p));
      RingSame(w.catalog, Popped(w).catalog);
      HeardSample(Popped(w).catalog, order, feedback.value, p.jobId, job, p);
    }
  }

  lemma HeardSample(c: Catalog, order: seq<string>, record: AuditRecord, id: string, before: Job, p: PendingOutcome)
    requires Enumerates(order, c.jobs) && RingOk(c) && id in c.jobs && SampleAdded(before, c.jobs[id], p)
    ensures id in AfterFeedback(c, order, record).jobs && SampleAdded(before, AfterFeedback(c, order, record).jobs[id], p)
  {
    hide AfterFeedback, RingOk;
    FeedbackKeeps(c, order, record);
  }

  /** The retained alerts are the last min(200, n) of the n raised, without a gap; histories hold at most 50. */
  lemma RingIsContiguous(ws: seq<World>, acts: seq<Action>, i: nat, k: nat, id: string)
    requires Behaviour(ws, acts) && i < |ws|
    ensures |ws[i].catalog.alerts| == if ws[i].catalog.alertSeq < MAX_ALERTS then ws[i].catalog.alertSeq else MAX_ALERTS
    ensures k < |ws[i].catalog.alerts| ==>
              ws[i].catalog.alerts[k].number == ws[i].catalog.alertSeq - |ws[i].catalog.alerts| + 1 + k
    ensures id in ws[i].catalog.jobs ==> |ws[i].catalog.jobs[id].history| <= MAX_HISTORY_PER_JOB
  {
    hide Enabled, Next, Behaviour, TracksOk, WorkDistinct, JobOk;
    Reachable(ws, acts, i);
    if id in ws[i].catalog.jobs { HistoryBound(ws[i], id); }
  }

  predicate HasBaseline(w: World, id: string, generation: string, baseline: nat) {
    id in w.catalog.jobs && w.catalog.jobs[id].generation == generation ==> w.catalog.jobs[id].baseline == Some(baseline)
  }

  lemma OutcomeKeepsBaseline(w: World, feedback: Option<AuditRecord>, order: seq<string>, id: string, generation: string, baseline: nat)
    requires SchedulerInv(w) && w.pending != [] && Enumerates(order, w.catalog.jobs) && HasBaseline(w, id, generation, baseline)
    ensures HasBaseline(DoFlush(w, feedback, order), id, generation, baseline)
  {
    hide AfterFeedback, Ended, TracksOk, WorkDistinct, JobOk, RingOk;
    if id in w.catalog.jobs { HistoryBound(w, id); EndedKeeps(w.catalog.jobs[id], w.pending[0]); }
    if feedback.Some? {
      assert Enumerates(order, AfterOutcome(w.catalog.jobs, w.pending[0]));
      RingSame(w.catalog, Popped(w).catalog);
      FeedbackKeeps(Popped(w).catalog, order, feedback.value);
    }
  }

  lemma StepKeepsBaseline(w: World, a: Action, id: string, generation: string, baseline: nat)
    requires SchedulerInv(w) && Enabled(w, a) && generation in w.generations && HasBaseline(w, id, generation, baseline)
    ensures HasBaseline(Next(w, a), id, generation, baseline) && generation in Next(w, a).generations
  {
    hide TracksOk, WorkDistinct, RingOk, JobOk, DoFlush, AfterFeedback, ClaimedInOrder;
    match a
    case Flush(ok, feedback, order) => if ok { OutcomeKeepsBaseline(w, feedback, order, id, generation, baseline); FlushGenerations(w, feedback, order); }
    case Feedback(record, order) => FeedbackKeeps(w.catalog, order, record);
    case _ =>
  }

  lemma FlushGenerations(w: World, feedback: Option<AuditRecord>, order: seq<string>)
    requires w.pending != []
    ensures DoFlush(w, feedback, order).generations == w.generations
  {
  }

  /** A job generation's baseline is written once and never moves again. */
  lemma {:induction false} BaselineIsWriteOnce(ws: seq<World>, acts: seq<Action>, i: nat, j: nat, id: string, baseline: nat)
    requires Behaviour(ws, acts) && i <= j < |ws| && id in ws[i].catalog.jobs && ws[i].catalog.jobs[id].baseline == Some(baseline)
    ensures ws[i].catalog.jobs[id].generation in ws[j].generations
    ensures HasBaseline(ws[j], id, ws[i].catalog.jobs[id].generation, baseline)
  {
    hide Enabled, Next, SchedulerInv;
    if i == j {
      Reachable(ws, acts, i);
      assert JobsOk(ws[i]) by { InvJobs(ws[i]); }
      GenerationKnown(ws[i], id);
    } else {
      BaselineIsWriteOnce(ws, acts, i, j - 1, id, baseline);
      Reachable(ws, acts, j - 1);
      StepKeepsBaseline(ws[j - 1], acts[j - 1], id, ws[i].catalog.jobs[id].generation, baseline);
    }
  }

  lemma InvJobs(w: World)
    requires SchedulerInv(w)
    ensures JobsOk(w)
  {
  }

  // ----- a run belongs to one job -----

  /** The jobs that know a run, and the outcomes that still carry it. */
  ghost predicate RunsOk(w: World) {
    && (forall id, r | id in w.catalog.jobs && Knows(w.catalog.jobs[id], r) :: r in w.issued && !Carried(w.pending, r))
    && (forall id, other, r | id in w.catalog.jobs && other in w.catalog.jobs
                              && Knows(w.catalog.jobs[id], r) && Knows(w.catalog.jobs[other], r) :: id == other)
    && (forall i | 0 <= i < |w.pending| && w.pending[i].runId.Some? :: w.pending[i].runId.value in w.issued)
    && (forall i, j | 0 <= i < j < |w.pending| && w.pending[i].runId.Some? :: w.pending[i].runId != w.pending[j].runId)
  }

  predicate Carried(pending: seq<PendingOutcome>, r: string) {
    exists i | 0 <= i < |pending| :: pending[i].runId == Some(r)
  }

  lemma KnowsSome(job: Job, r: string)
    ensures Knows(job, r) <==> exists i :: 0 <= i < |job.history| && job.history[i].runId == Some(r)
  {
  }

  /** Every run of b is a run of a. */
  ghost predicate KnowsNoMore(a: Job, b: Job) {
    forall r :: Knows(b, r) ==> Knows(a, r)
  }

  lemma SameScheduleKnows(a: Job, b: Job)
    requires SameSchedule(a, b)
    ensures KnowsNoMore(a, b)
  {
    hide Knows;
    forall r | Knows(b, r) ensures Knows(a, r) {
      KnowsSome(b, r);
      KnowsSome(a, r);
      var i :| 0 <= i < |b.history| && b.history[i].runId == Some(r);
      assert a.history[i].runId == Some(r);
    }
  }

  lemma EndedKnows(job: Job, p: PendingOutcome, r: string)
    requires Knows(Ended(job, p), r)
    ensures Knows(job, r) || p.runId == Some(r)
  {
    hide Knows, LastOf;
    KnowsSome(Ended(job, p), r);
    KnowsSome(job, r);
    var all := job.history + [OutcomeSample(job, p)];
    var h := Ended(job, p).history;
    var i :| 0 <= i < |h| && h[i].runId == Some(r);
    if p.status != "SKIPPED" {
      assert h[i] == all[|all| - |h| + i];
    }
  }

  /** Jobs that learn no run, and outcomes that are dropped, keep runs apart. */
  lemma RunsStay(w: World, w': World)
    requires RunsOk(w) && w.issued <= w'.issued
    requires w'.pending == w.pending || w'.pending == []
    requires forall id | id in w'.catalog.jobs :: id in w.catalog.jobs && KnowsNoMore(w.catalog.jobs[id], w'.catalog.jobs[id])
    ensures RunsOk(w')
  {
    hide Knows;
  }

  lemma SameHistoryKnows(a: Job, b: Job)
    requires a.history == b.history
    ensures KnowsNoMore(a, b)
  {
  }

  lemma NewJobKnowsNothing(job: Job, r: string)
    requires job.history == []
    ensures !Knows(job, r)
  {
  }

  lemma CreateKeepsRuns(w: World, job: Job)
    requires RunsOk(w) && Enabled(w, Create(job))
    ensures RunsOk(Next(w, Create(job)))
  {
    hide Knows;
    forall r { NewJobKnowsNothing(job, r); }
  }

  lemma CarriedNext(pending: seq<PendingOutcome>, p: PendingOutcome, r: string)
    ensures Carried(pending + [p], r) <==> Carried(pending, r) || p.runId == Some(r)
  {
    assert (pending + [p])[|pending|] == p;
    if i :| 0 <= i < |pending| && pending[i].runId == Some(r) { assert (pending + [p])[i].runId == Some(r); }
  }

  lemma OutcomeKeepsRuns(w: World, p: PendingOutcome, w': World)
    requires RunsOk(w) && (p.runId.Some? ==> p.runId.value !in w.issued)
    requires w'.pending == w.pending + [p] && w'.catalog == w.catalog
    requires w'.issued == if p.runId.Some? then w.issued + {p.runId.value} else w.issued
    ensures RunsOk(w')
  {
    hide Knows, Carried;
    forall r { CarriedNext(w.pending, p, r); }
  }

  lemma CarriedRest(pending: seq<PendingOutcome>, r: string)
    requires pending != []
    ensures Carried(pending[1..], r) ==> Carried(pending, r)
    ensures pending[0].runId == Some(r) ==> Carried(pending, r)
  {
    if i :| 0 <= i < |pending[1..]| && pending[1..][i].runId == Some(r) { assert pending[i + 1].runId == Some(r); }
  }

  lemma HeadNotCarriedAgain(w: World)
    requires RunsOk(w) && w.pending != [] && w.pending[0].runId.Some?
    ensures !Carried(w.pending[1..], w.pending[0].runId.value)
  {
    hide Knows;
  }

  /** Whatever a job knows after the outcome commits, it knew before, or the outcome taught it. */
  lemma PoppedKnows(w: World, id: string, r: string)
    requires w.pending != [] && id in Popped(w).catalog.jobs && Knows(Popped(w).catalog.jobs[id], r)
    ensures id in w.catalog.jobs
    ensures Knows(w.catalog.jobs[id], r) || (id == w.pending[0].jobId && w.pending[0].runId == Some(r))
  {
    hide Knows, Ended;
    if IsCurrent(w.catalog.jobs, w.pending[0]) && id == w.pending[0].jobId { EndedKnows(w.catalog.jobs[id], w.pending[0], r); }
  }

  lemma PopKeepsRuns(w: World)
    requires RunsOk(w) && w.pending != []
    ensures RunsOk(Popped(w))
  {
    hide Knows, Carried, Ended, OutcomeEvents;
    var w' := Popped(w);
    forall r { CarriedRest(w.pending, r); }
    if w.pending[0].runId.Some? { HeadNotCarriedAgain(w); }
    forall id, r | id in w'.catalog.jobs && Knows(w'.catalog.jobs[id], r)
      ensures r in w'.issued && !Carried(w'.pending, r)
    {
      PoppedKnows(w, id, r);
    }
    forall id, other, r | id in w'.catalog.jobs && other in w'.catalog.jobs
                          && Knows(w'.catalog.jobs[id], r) && Knows(w'.catalog.jobs[other], r)
      ensures id == other
    {
      PoppedKnows(w, id, r);
      PoppedKnows(w, other, r);
    }
  }

  lemma FeedbackKeepsRuns(w: World, record: AuditRecord, order: seq<string>)
    requires RunsOk(w) && RingOk(w.catalog) && Enumerates(order, w.catalog.jobs)
    ensures RunsOk(w.(catalog := AfterFeedback(w.catalog, order, record)))
  {
    hide RunsOk, RingOk, AfterFeedback, SameSchedule, KnowsNoMore;
    FeedbackKeeps(w.catalog, order, record);
    var c := AfterFeedback(w.catalog, order, record);
    forall id | id in c.jobs ensures id in w.catalog.jobs && KnowsNoMore(w.catalog.jobs[id], c.jobs[id]) {
      SameScheduleKnows(w.catalog.jobs[id], c.jobs[id]);
    }
    RunsStay(w, w.(catalog := c));
  }

  lemma FlushKeepsRuns(w: World, feedback: Option<AuditRecord>, order: seq<string>)
    requires RunsOk(w) && RingOk(w.catalog) && w.pending != [] && Enumerates(order, w.catalog.jobs)
    ensures RunsOk(DoFlush(w, feedback, order))
  {
    hide RunsOk, AfterFeedback, RingOk, Ended;
    PopKeepsRuns(w);
    if feedback.Some? {
      assert Enumerates(order, Popped(w).catalog.jobs);
      RingSame(w.catalog, Popped(w).catalog);
      FeedbackKeepsRuns(Popped(w), feedback.value, order);
    }
  }

  lemma NextKeepsRuns(w: World, a: Action)
    requires SchedulerInv(w) && RunsOk(w) && Enabled(w, a)
    ensures RunsOk(Next(w, a))
  {
    hide RunsOk, KnowsNoMore, DoFlush, AfterFeedback, ClaimedInOrder, WorkDistinct, TracksOk, JobsOk, RingOk;
    var w' := Next(w, a);
    match a
    case Create(job) => CreateKeepsRuns(w, job);
    case Skip => OutcomeKeepsRuns(w, OutcomeOf(w.queue[0], None, "SKIPPED"), w');
    case Execute(runId, status) => OutcomeKeepsRuns(w, OutcomeOf(w.queue[0], runId, status), w');
    case Flush(ok, feedback, order) => if ok { FlushKeepsRuns(w, feedback, order); }
    case Feedback(record, order) => FeedbackKeepsRuns(w, record, order);
    case _ =>
      forall id | id in w'.catalog.jobs ensures id in w.catalog.jobs && KnowsNoMore(w.catalog.jobs[id], w'.catalog.jobs[id]) {
        SameHistoryKnows(w.catalog.jobs[id], w'.catalog.jobs[id]);
      }
      RunsStay(w, w');
  }

  lemma {:induction false} RunsReachable(ws: seq<World>, acts: seq<Action>, i: nat)
    requires Behaviour(ws, acts) && i < |ws|
    ensures RunsOk(ws[i])
  {
    hide Enabled, Next, RunsOk;
    if i == 0 { InitialRuns(ws[0]); }
    else {
      RunsReachable(ws, acts, i - 1);
      Reachable(ws, acts, i - 1);
      NextKeepsRuns(ws[i - 1], acts[i - 1]);
    }
  }

  lemma InitialRuns(w: World)
    requires Initial(w)
    ensures RunsOk(w)
  {
  }

  lemma OrderInvisibleIn(w: World, a: seq<string>, b: seq<string>, record: AuditRecord)
    requires RunsOk(w) && Enumerates(a, w.catalog.jobs) && Enumerates(b, w.catalog.jobs)
    ensures AfterFeedback(w.catalog, a, record) == AfterFeedback(w.catalog, b, record)
  {
    hide Knows, AfterFeedback, Enumerates, Carried;
    OneKnowerHidesOrder(w.catalog, a, b, record);
  }

  /** In every reachable state a run belongs to at most one job, so the order in which the table yields its
      jobs shows neither in feedback nor in the commit of an outcome together with its feedback. */
  lemma FeedbackOrderIsInvisible(
      ws: seq<World>, acts: seq<Action>, i: nat, a: seq<string>, b: seq<string>, record: AuditRecord)
    requires Behaviour(ws, acts) && i < |ws|
    requires Enumerates(a, ws[i].catalog.jobs) && Enumerates(b, ws[i].catalog.jobs)
    ensures Next(ws[i], Feedback(record, a)) == Next(ws[i], Feedback(record, b))
    ensures ws[i].pending != [] ==>
              Next(ws[i], Flush(true, Some(record), a)) == Next(ws[i], Flush(true, Some(record), b))
  {
    hide RunsOk, AfterFeedback, Ended, Behaviour;
    RunsReachable(ws, acts, i);
    var w := ws[i];
    OrderInvisibleIn(w, a, b, record);
    if w.pending != [] {
      PopKeepsRuns(w);
      assert Enumerates(a, Popped(w).catalog.jobs) && Enumerates(b, Popped(w).catalog.jobs);
      OrderInvisibleIn(Popped(w), a, b, record);
    }
  }

  // ----- alerts over whole runs -----

  lemma EntrantKnows(job: Job, record: AuditRecord)
    requires Enters(job, record)
    ensures Knows(job, record.runId) && ConfirmedFeedback(record)
  {
    hide Reports, ConfirmedFeedback, Slow;
    ReportsIs(record);
    var i: nat :| NewAt(job, record, i);
  }

  /** What feedback does to a catalog, from what its jobs were before: at most one job enters, and exactly
      its entry adds an alert, the next in number, about the job as it is now. */
  ghost predicate AlertRule(c: Catalog, c': Catalog, record: AuditRecord) {
    && c'.jobs.Keys == c.jobs.Keys
    && (forall id, other | id in c.jobs && other in c.jobs && Enters(c.jobs[id], record) && Enters(c.jobs[other], record) ::
          id == other)
    && (forall id | id in c.jobs && Enters(c.jobs[id], record) :: EntryAdded(c, c', id, record))
    && ((forall id | id in c.jobs :: !Enters(c.jobs[id], record)) ==> c'.alerts == c.alerts && c'.alertSeq == c.alertSeq)
  }

  /** The alert about a job that entered. */
  function Alerting(job: Job, record: AuditRecord, number: nat): Alert {
    Alert(!record.measurements.detected, number, job.id, job.scenarioId, job.baseline, Mttd(record),
          if job.baseline.Some? && job.baseline.value > 0 then Some(Factor(Mttd(record), job.baseline.value)) else None)
  }

  ghost predicate EntryAdded(c: Catalog, c': Catalog, id: string, record: AuditRecord) {
    && id in c'.jobs && c'.jobs[id].drift && c'.jobs[id].missed == !record.measurements.detected
    && c'.alertSeq == c.alertSeq + 1
    && c'.alerts == LastOf(c.alerts + [Alerting(c'.jobs[id], record, c.alertSeq + 1)], 200)
  }

  /** At most one job of the catalog knows the run. */
  ghost predicate OneKnower(c: Catalog, runId: string) {
    forall id, other | id in c.jobs && other in c.jobs && Knows(c.jobs[id], runId) && Knows(c.jobs[other], runId) :: id == other
  }

  lemma AlertingIs(job: Job, record: AuditRecord, number: nat)
    requires Enters(job, record)
    ensures Alerting(HeardJob(job, record), record, number) == AlertFor(HeardJob(job, record), record, number)
  {
    hide HeardJob, Enters;
    EntrantKnows(job, record);
    RaisesExactlyOnEntry(job, record);
  }

  lemma EntryIsAdded(c: Catalog, x: string, record: AuditRecord)
    requires x in c.jobs && Enters(c.jobs[x], record)
    ensures EntryAdded(c, HeardAt(c, x, record), x, record)
  {
    hide HeardJob, Raises, Knows, Enters, LastOf, AlertFor, Alerting, ConfirmedFeedback;
    EntrantKnows(c.jobs[x], record);
    AlertingIs(c.jobs[x], record, c.alertSeq + 1);
    RaisesExactlyOnEntry(c.jobs[x], record);
  }

  lemma HeardAtKeys(c: Catalog, x: string, record: AuditRecord)
    ensures HeardAt(c, x, record).jobs.Keys == c.jobs.Keys
  {
    hide HeardJob, Raises, LastOf, AlertFor;
  }

  lemma NoEntryNoAlert(c: Catalog, x: string, record: AuditRecord)
    requires x in c.jobs && ConfirmedFeedback(record) && !Enters(c.jobs[x], record)
    ensures HeardAt(c, x, record).alerts == c.alerts && HeardAt(c, x, record).alertSeq == c.alertSeq
  {
    hide HeardJob, Raises, Enters, LastOf, AlertFor, ConfirmedFeedback;
    RaisesExactlyOnEntry(c.jobs[x], record);
  }

  lemma HeardAtRule(c: Catalog, x: string, record: AuditRecord)
    requires OneKnower(c, record.runId) && x in c.jobs && Knows(c.jobs[x], record.runId) && ConfirmedFeedback(record)
    ensures AlertRule(c, HeardAt(c, x, record), record)
  {
    hide HeardAt, EntryAdded, Knows, Enters, ConfirmedFeedback;
    HeardAtKeys(c, x, record);
    if Enters(c.jobs[x], record) { EntryIsAdded(c, x, record); } else { NoEntryNoAlert(c, x, record); }
    forall id | id in c.jobs && Enters(c.jobs[id], record) ensures id == x { EntrantKnows(c.jobs[id], record); }
  }

  lemma FeedbackRule(c: Catalog, order: seq<string>, record: AuditRecord)
    requires Enumerates(order, c.jobs) && OneKnower(c, record.runId)
    ensures AlertRule(c, AfterFeedback(c, order, record), record)
  {
    hide HeardIn, HeardAt, Knows, HeardJob, ConfirmedFeedback, AlertRule;
    if ConfirmedFeedback(record) {
      if x :| x in c.jobs && Knows(c.jobs[x], record.runId) {
        HeardAtOnlyKnower(c, order, record, x);
        HeardAtRule(c, x, record);
      } else {
        forall id | id in c.jobs ensures HeardJob(c.jobs[id], record) == c.jobs[id] { UnknownRunUnheard(c.jobs[id], record); }
        NothingNew(c, order, record);
        NobodyEnters(c, record);
      }
    } else {
      NobodyEnters(c, record);
    }
  }

  lemma NobodyEnters(c: Catalog, record: AuditRecord)
    requires !ConfirmedFeedback(record) || forall id | id in c.jobs :: !Knows(c.jobs[id], record.runId)
    ensures AlertRule(c, c, record)
  {
    hide Knows, ConfirmedFeedback, SampleOf;
    forall id | id in c.jobs ensures !Enters(c.jobs[id], record) {
      if Enters(c.jobs[id], record) { EntrantKnows(c.jobs[id], record); }
    }
  }

  /** The catalog a step hears feedback in, with the record: a flush commits its outcome first. */
  function Hearing(w: World, a: Action): Option<(Catalog, AuditRecord)> {
    match a
    case Feedback(record, _) => Some((w.catalog, record))
    case Flush(ok, feedback, _) =>
      if ok && feedback.Some? && w.pending != [] then Some((Popped(w).catalog, feedback.value)) else None
    case _ => None
  }

  lemma RunsApart(w: World, runId: string)
    requires RunsOk(w)
    ensures OneKnower(w.catalog, runId)
  {
    hide Knows, Carried;
  }

  lemma HearingStep(w: World, a: Action) returns (order: seq<string>)
    requires RunsOk(w) && Enabled(w, a) && Hearing(w, a).Some?
    ensures var (c, record) := Hearing(w, a).value;
            Enumerates(order, c.jobs) && OneKnower(c, record.runId) && Next(w, a).catalog == AfterFeedback(c, order, record)
            && c.alerts == w.catalog.alerts && c.alertSeq == w.catalog.alertSeq
  {
    hide RunsOk, AfterFeedback, Ended, OneKnower;
    match a
    case Feedback(record, visited) =>
      order := visited;
      RunsApart(w, record.runId);
    case Flush(_, feedback, visited) =>
      order := visited;
      PopKeepsRuns(w);
      RunsApart(Popped(w), feedback.value.runId);
  }

  lemma QuietStep(w: World, a: Action)
    requires Enabled(w, a) && Hearing(w, a).None?
    ensures Next(w, a).catalog.alerts == w.catalog.alerts && Next(w, a).catalog.alertSeq == w.catalog.alertSeq
  {
    hide ClaimedInOrder, AfterClaims, AfterRecovery, AfterFeedback, Ended, NewJob, Enumerates;
  }

  /** In every run of the scheduler, an alert is added exactly when new feedback on a job's latest run takes the
      job into the degraded state or to a new miss, by the step that hears it, for one job at most; it carries
      the next number. Every other step leaves the alerts alone. */
  lemma AlertsExactlyOnEntry(ws: seq<World>, acts: seq<Action>, i: nat)
    requires Behaviour(ws, acts) && i < |acts|
    ensures match Hearing(ws[i], acts[i])
            case Some((c, record)) => AlertRule(c, ws[i + 1].catalog, record)
            case None => ws[i + 1].catalog.alerts == ws[i].catalog.alerts && ws[i + 1].catalog.alertSeq == ws[i].catalog.alertSeq
  {
    hide RunsOk, AfterFeedback, Hearing, AlertRule, OneKnower, Enumerates, Next, Enabled;
    RunsReachable(ws, acts, i);
    if Hearing(ws[i], acts[i]).Some? {
      var order := HearingStep(ws[i], acts[i]);
      var (c, record) := Hearing(ws[i], acts[i]).value;
      FeedbackRule(c, order, record);
    } else {
      QuietStep(ws[i], acts[i]);
    }
  }

  /** In every run of the scheduler, feedback on a run that is not a job's latest one stays with its sample:
      baseline, drift state, latest detection time and the drift marks of the history do not move. If it is
      the latest of no job, no alert is added. */
  lemma OldFeedbackStaysOld(ws: seq<World>, acts: seq<Action>, i: nat, id: string)
    requires Behaviour(ws, acts) && i < |acts| && Hearing(ws[i], acts[i]).Some?
    ensures var (c, record) := Hearing(ws[i], acts[i]).value;
            var c' := ws[i + 1].catalog;
            && (id in c.jobs && c.jobs[id].lastRunId != Some(record.runId) ==>
                  id in c'.jobs && StaysWithSample(c.jobs[id], c'.jobs[id]))
            && ((forall x | x in c.jobs :: c.jobs[x].lastRunId != Some(record.runId)) ==>
                  c'.alerts == ws[i].catalog.alerts && c'.alertSeq == ws[i].catalog.alertSeq)
  {
    hide RunsOk, Hearing, OneKnower, Next, Enabled, HeardIn, HeardJob, Enters, ConfirmedFeedback, EntryAdded, StaysWithSample;
    RunsReachable(ws, acts, i);
    var order := HearingStep(ws[i], acts[i]);
    AlertsExactlyOnEntry(ws, acts, i);
    var (c, record) := Hearing(ws[i], acts[i]).value;
    HeardInAll(c, order, record);
    forall x | x in c.jobs && c.jobs[x].lastRunId != Some(record.runId) ensures !Enters(c.jobs[x], record) {
      EntrantIsLatest(c.jobs[x], record);
    }
    if id in c.jobs && c.jobs[id].lastRunId != Some(record.runId) { OldSampleOnly(c.jobs[id], record); }
  }

  lemma EntrantIsLatest(job: Job, record: AuditRecord)
    ensures Enters(job, record) ==> job.lastRunId == Some(record.runId)
  {
    hide Reports, NewAt, Slow;
  }

  /** In every run of the scheduler, a step that hears feedback changes a job exactly so: the first sample of the run,
      if it does not say the same already, and for the latest run also the baseline, drift state and detection time. */
  lemma FeedbackIsExact(ws: seq<World>, acts: seq<Action>, i: nat, id: string)
    requires Behaviour(ws, acts) && i < |acts| && Hearing(ws[i], acts[i]).Some?
    requires id in Hearing(ws[i], acts[i]).value.0.jobs
    ensures var (c, record) := Hearing(ws[i], acts[i]).value;
            && id in ws[i + 1].catalog.jobs
            && var before, after := c.jobs[id], ws[i + 1].catalog.jobs[id];
               && (!Reports(record) || (forall n: nat :: !NewAt(before, record, n)) ==> after == before)
               && (Reports(record) ==> forall n: nat | NewAt(before, record, n) :: Takes(before, after, record, n))
  {
    hide RunsOk, Hearing, OneKnower, Next, Enabled, HeardIn, HeardJob, Reports, ConfirmedFeedback, NewAt, Takes;
    RunsReachable(ws, acts, i);
    var order := HearingStep(ws[i], acts[i]);
    var (c, record) := Hearing(ws[i], acts[i]).value;
    HeardInAll(c, order, record);
    ReportsIs(record);
    HeardExactly(c.jobs[id], record);
  }

  /** The scheduler is never stuck: a claimed job can be skipped or executed with any outcome, a pending outcome can be
      committed or fail to be, and with neither left the jobs that have to run can be claimed. */
  lemma SchedulerIsNeverStuck(w: World, now: nat) returns (order: seq<string>, due: seq<Job>)
    ensures w.queue != [] ==> Enabled(w, Skip) && forall status :: Enabled(w, Execute(None, status))
    ensures w.queue != [] ==> forall id, status | id !in w.issued :: Enabled(w, Execute(Some(id), status))
    ensures w.pending != [] ==> forall ok, record :: Enabled(w, Flush(ok, record, order))
    ensures forall record :: Enabled(w, Feedback(record, order))
    ensures w.queue == [] && w.pending == [] ==> Enabled(w, Claim(now, due))
    ensures Enabled(w, Restart) && (forall id :: Enabled(w, Remove(id))) && forall id, enabled :: Enabled(w, Enable(id, enabled))
    ensures forall job | NewJob(job) && job.generation !in w.generations && job.id !in w.catalog.jobs :: Enabled(w, Create(job))
  {
    hide SortedIds, NewJob, Less, Due;
    var jobs := w.catalog.jobs;
    order := SortedIds(jobs.Keys);
    AscendingDistinct(order);
    assert Enumerates(order, jobs);
    var ids := SortedIds(DueIds(jobs, now));
    assert forall n | 0 <= n < |ids| :: ids[n] in DueIds(jobs, now);
    due := seq(|ids|, i requires 0 <= i < |ids| => Scheduler.Claimed(jobs[ids[i]], now));
  }

  lemma AscendingDistinct(s: seq<string>)
    requires Ascending(s)
    ensures forall i, j | 0 <= i < j < |s| :: s[i] != s[j]
  {
    hide Less;
    forall i, j | 0 <= i < j < |s| ensures s[i] != s[j] { LessIrreflexive(s[i]); }
  }

  /** What operators, execution and a restart change, over every run: a new job is filed under its id and removed under
      it, enabling touches that flag alone, an execution turns the oldest claim into the newest outcome, and a restart
      drops claims and outcomes and interrupts what was running. */
  lemma StepsExactly(ws: seq<World>, acts: seq<Action>, i: nat)
    requires Behaviour(ws, acts) && i < |acts|
    ensures var (w, w') := (ws[i], ws[i + 1]);
            var (before, after) := (w.catalog.jobs, w'.catalog.jobs);
            match acts[i]
            case Create(job) =>
              && job.id !in before && job.id in after && after[job.id] == job && w'.queue == w.queue && w'.pending == w.pending
              && forall id | id != job.id :: (id in after <==> id in before) && (id in before ==> after[id] == before[id])
            case Remove(x) =>
              && x !in after && w'.queue == w.queue && w'.pending == w.pending
              && forall id | id != x :: (id in after <==> id in before) && (id in before ==> after[id] == before[id])
            case Enable(x, enabled) =>
              && after.Keys == before.Keys && w'.queue == w.queue && w'.pending == w.pending
              && forall id | id in before :: after[id] == before[id].(enabled := if id == x then enabled else before[id].enabled)
            case Skip =>
              && after == before && w.queue == [w.queue[0]] + w'.queue
              && w'.pending == w.pending + [PendingOutcome(w.queue[0].id, w.queue[0].generation, None, "SKIPPED")]
            case Execute(runId, status) =>
              && after == before && w.queue == [w.queue[0]] + w'.queue
              && w'.pending == w.pending + [PendingOutcome(w.queue[0].id, w.queue[0].generation, runId, status)]
            case Restart =>
              && w'.queue == [] && w'.pending == [] && after.Keys == before.Keys
              && forall id | id in before :: after[id] == if before[id].lastStatus == Some("RUNNING")
                                                          then before[id].(lastStatus := Some("INTERRUPTED")) else before[id]
            case _ => true
  {
    hide ClaimedInOrder, AfterClaims, AfterFeedback, DoFlush, Enumerates;
    if acts[i].Restart? { hide AfterRecovery; forall id { RecoveryExactly(ws[i].catalog.jobs, id); } }
  }

  /** In every run of the scheduler, a claim takes exactly the jobs that have to run: a disabled or running job is
      never claimed, an enabled idle one whose interval has passed always is. */
  lemma ClaimsExactlyDue(ws: seq<World>, acts: seq<Action>, i: nat)
    requires Behaviour(ws, acts) && i < |acts| && acts[i].Claim?
    ensures ClaimsMade(ws[i].catalog.jobs, ws[i + 1].catalog.jobs, acts[i].now)
    ensures ListsClaims(ws[i].catalog.jobs, ws[i + 1].catalog.jobs, acts[i].now, ws[i + 1].queue)
  {
    hide ClaimedInOrder, AfterClaims, ClaimsMade, ListsClaims;
    ClaimsExactly(ws[i].catalog.jobs, acts[i].now, acts[i].due);
  }

  // ----- the queue of outcomes and the protocol's flushes -----

  /** The audit record of the outcome's own run, if the audit has one by now. */
  function OwnRecord(p: PendingOutcome, audit: map<string, AuditRecord>): Option<AuditRecord> {
    match p.runId
    case None => None
    case Some(id) => if id in audit then Some(audit[id]) else None
  }

  /** The protocol's state after its first n outcomes were committed, each with the record of its own run. */
  function AfterFlushes(w: World, audit: map<string, AuditRecord>, order: seq<string>, n: nat): World
    requires n <= |w.pending|
    ensures AfterFlushes(w, audit, order, n).pending == w.pending[n..]
  {
    if n == 0 then w
    else
      var before := AfterFlushes(w, audit, order, n - 1);
      assert before.pending[0] == w.pending[n - 1];
      DoFlush(before, OwnRecord(before.pending[0], audit), order)
  }

  /** What FlushOutcomes commits is what the protocol's flush steps commit, outcome by outcome. */
  lemma {:induction false} FlushesAreSteps(w: World, audit: map<string, AuditRecord>, order: seq<string>, n: nat)
    requires n <= |w.pending|
    ensures FlushedAll(w.catalog, w.pending[..n], audit, order) == AfterFlushes(w, audit, order, n).catalog
  {
    hide AfterFeedback, AfterOutcome;
    if n > 0 {
      FlushesAreSteps(w, audit, order, n - 1);
      assert w.pending[..n][..n - 1] == w.pending[..n - 1];
      assert AfterFlushes(w, audit, order, n - 1).pending[0] == w.pending[n - 1];
    }
  }

  /** An outcome never enters the history without the feedback the audit has for its run by then: if the committed
      outcome is sampled, its sample carries the record's detection. */
  lemma OutcomeHearsItsRecord(w: World, audit: map<string, AuditRecord>, order: seq<string>)
    requires RunsOk(w) && w.pending != [] && Enumerates(order, w.catalog.jobs)
    requires var p := w.pending[0];
             && IsCurrent(w.catalog.jobs, p) && p.status != "SKIPPED" && |w.catalog.jobs[p.jobId].history| <= MAX_HISTORY_PER_JOB
             && OwnRecord(p, audit).Some? && Reports(OwnRecord(p, audit).value) && p.runId == Some(OwnRecord(p, audit).value.runId)
    ensures var p := w.pending[0];
            var record := OwnRecord(p, audit).value;
            var w' := DoFlush(w, Some(record), order);
            && p.jobId in w'.catalog.jobs && w'.catalog.jobs[p.jobId].history != []
            && var h := w'.catalog.jobs[p.jobId].history;
               var sample := h[|h| - 1];
               && sample.runId == p.runId && sample.feedback && sample.detected == Some(record.measurements.detected)
               && sample.mttd == Mttd(record)
  {
    hide AfterFeedback, HeardIn, HeardJob, Reports, ConfirmedFeedback, Takes, Knows, OutcomeEvents, Carried, LastOf;
    var p := w.pending[0];
    var record := OwnRecord(p, audit).value;
    var c := Popped(w).catalog;
    assert Enumerates(order, c.jobs);
    HeardInAll(c, order, record);
    ReportsIs(record);
    FeedbackHears(c, order, record);
    var job := w.catalog.jobs[p.jobId];
    NewSampleIsNew(job, p, record) by { assert !Knows(job, record.runId) by { UnknownBefore(w); } }
    var n := |Ended(job, p).history| - 1;
    HeardExactly(Ended(job, p), record);
    TakesSample(Ended(job, p), HeardJob(Ended(job, p), record), record, n);
  }

  lemma FeedbackHears(c: Catalog, order: seq<string>, record: AuditRecord)
    requires ConfirmedFeedback(record)
    ensures AfterFeedback(c, order, record) == HeardIn(c, order, record)
  {
  }

  lemma UnknownBefore(w: World)
    requires RunsOk(w) && w.pending != [] && w.pending[0].runId.Some? && w.pending[0].jobId in w.catalog.jobs
    ensures !Knows(w.catalog.jobs[w.pending[0].jobId], w.pending[0].runId.value)
  {
    hide Knows;
  }

  lemma NewSampleIsNew(job: Job, p: PendingOutcome, record: AuditRecord)
    requires p.status != "SKIPPED" && p.runId == Some(record.runId) && !Knows(job, record.runId)
    ensures Ended(job, p).history != [] && NewAt(Ended(job, p), record, |Ended(job, p).history| - 1)
  {
    hide LastOf, Knows;
    KnowsSome(job, record.runId);
    NewestIsNew(job.history, OutcomeSample(job, p), record, Ended(job, p));
  }

  lemma NewestIsNew(earlier: seq<Sample>, newest: Sample, record: AuditRecord, job: Job)
    requires forall j | 0 <= j < |earlier| :: earlier[j].runId != Some(record.runId)
    requires newest.runId == Some(record.runId) && !newest.feedback && job.history == LastOf(earlier + [newest], MAX_HISTORY_PER_JOB)
    ensures job.history != [] && NewAt(job, record, |job.history| - 1)
  {
    hide LastOf;
    var all, h := earlier + [newest], job.history;
    assert h[|h| - 1] == all[|all| - 1] == newest;
    forall j | 0 <= j < |h| - 1 ensures h[j].runId != Some(record.runId) {
      assert h[j] == all[|all| - |h| + j] == earlier[|all| - |h| + j];
    }
  }

  lemma TakesSample(before: Job, after: Job, record: AuditRecord, n: nat)
    requires n == |before.history| - 1 && Takes(before, after, record, n)
    ensures |after.history| == n + 1 && after.history[n].runId == before.history[n].runId && after.history[n].feedback
    ensures after.history[n].detected == Some(record.measurements.detected) && after.history[n].mttd == Mttd(record)
  {
  }

  // ----- every alert ever raised -----

  ghost predicate EntersIn(c: Catalog, c': Catalog, id: string, record: AuditRecord) {
    id in c.jobs && id in c'.jobs && Enters(c.jobs[id], record)
  }

  /** The alerts a step from w to w' raises, at most one. */
  ghost function AlertsOf(w: World, a: Action, w': World): seq<Alert> {
    match Hearing(w, a)
    case None => []
    case Some((c, record)) =>
      if exists id :: EntersIn(c, w'.catalog, id, record)
      then var id :| EntersIn(c, w'.catalog, id, record); [Alerting(w'.catalog.jobs[id], record, c.alertSeq + 1)]
      else []
  }

  /** The alerts of the first i steps, in order. */
  ghost function Raised(ws: seq<World>, acts: seq<Action>, i: nat): seq<Alert>
    requires i <= |acts| && i < |ws|
  {
    if i == 0 then [] else Raised(ws, acts, i - 1) + AlertsOf(ws[i - 1], acts[i - 1], ws[i])
  }

  lemma EntrantCounts(c: Catalog, c': Catalog, record: AuditRecord, id: string)
    requires AlertRule(c, c', record) && EntersIn(c, c', id, record)
    ensures EntryAdded(c, c', id, record)
  {
    hide Enters, EntryAdded;
  }

  lemma NoEntrantCounts(c: Catalog, c': Catalog, record: AuditRecord)
    requires AlertRule(c, c', record) && !exists id :: EntersIn(c, c', id, record)
    ensures c'.alerts == c.alerts && c'.alertSeq == c.alertSeq
  {
    hide Enters, EntryAdded;
    forall x | x in c.jobs ensures !Enters(c.jobs[x], record) { assert !EntersIn(c, c', x, record); }
  }

  lemma StepRaises(ws: seq<World>, acts: seq<Action>, i: nat)
    requires Behaviour(ws, acts) && i < |acts|
    ensures var c, c', added := ws[i].catalog, ws[i + 1].catalog, AlertsOf(ws[i], acts[i], ws[i + 1]);
            && |added| <= 1 && c'.alertSeq == c.alertSeq + |added|
            && c'.alerts == if added == [] then c.alerts else LastOf(c.alerts + added, MAX_ALERTS)
  {
    hide AlertRule, Enabled, Next, Hearing, EntersIn, LastOf, Alerting, RunsOk, OneKnower;
    AlertsExactlyOnEntry(ws, acts, i);
    if Hearing(ws[i], acts[i]).Some? {
      RunsReachable(ws, acts, i);
      var order := HearingStep(ws[i], acts[i]);
      var (c, record) := Hearing(ws[i], acts[i]).value;
      var c' := ws[i + 1].catalog;
      if exists id :: EntersIn(c, c', id, record) {
        forall id | EntersIn(c, c', id, record) ensures EntryAdded(c, c', id, record) { EntrantCounts(c, c', record, id); }
      } else {
        NoEntrantCounts(c, c', record);
      }
    }
  }

  lemma RingAppendOne(before: seq<Alert>, x: Alert, n: nat)
    ensures LastOf(LastOf(before, n) + [x], n) == LastOf(before + [x], n)
  {
    hide LastOf;
    var all, ring := before + [x], LastOf(before, n) + [x];
    assert ring == all[|all| - |ring|..];
    var r := |LastOf(ring, n)|;
    assert ring[|ring| - r..] == all[|all| - r..];
  }

  lemma RingAppend(before: seq<Alert>, added: seq<Alert>, n: nat)
    requires |added| <= 1
    ensures LastOf(before + added, n) == if added == [] then LastOf(before, n) else LastOf(LastOf(before, n) + added, n)
  {
    hide LastOf;
    if added == [] { assert before + added == before; }
    else {
      assert added == [added[0]];
      RingAppendOne(before, added[0], n);
    }
  }

  /** In every run the retained alerts are the last of all alerts raised by entries, in order and complete,
      and the counter counts them all. */
  lemma {:induction false} RingIsLastEntries(ws: seq<World>, acts: seq<Action>, i: nat)
    requires Behaviour(ws, acts) && i < |ws|
    ensures ws[i].catalog.alertSeq == |Raised(ws, acts, i)|
    ensures ws[i].catalog.alerts == LastOf(Raised(ws, acts, i), MAX_ALERTS)
  {
    hide Enabled, Next, AlertsOf, LastOf;
    if i == 0 {
      assert LastOf<Alert>([], MAX_ALERTS) == [];
    } else {
      RingIsLastEntries(ws, acts, i - 1);
      StepRaises(ws, acts, i - 1);
      RingAppend(Raised(ws, acts, i - 1), AlertsOf(ws[i - 1], acts[i - 1], ws[i]), MAX_ALERTS);
    }
  }
}
