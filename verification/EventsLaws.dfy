/**
 Many recorders and dispatchers at once, any of which may crash: every event causes its jobs exactly once.
 A dispatcher locks the rows it reads; its effects appear when it commits, and a crash leaves only the locks' release.
 */
module EventsLaws {
  import opened Common
  import opened Events

  type Worker = string

  datatype Dispatch = Dispatch(batch: seq<nat>, view: View)

  /** `handled` lists the events in the order in which their dispatches committed. */
  datatype State = State(
    events: seq<EventRow>, outbox: seq<OutboxRow>, jobs: seq<Job>, running: map<Worker, Dispatch>, handled: seq<nat>)

  datatype Step =
    | Record(event: Event, topics: seq<string>)
    | Begin(worker: Worker, batch: seq<nat>, view: View)
    | Commit(worker: Worker)
    | Crash(worker: Worker)

  const Start := State([], [], [], map[], [])

  predicate Pending(events: seq<EventRow>, i: nat) {
    i < |events| && !events[i].processed
  }

  /** No other dispatcher holds the event. */
  predicate Unlocked(running: map<Worker, Dispatch>, i: nat) {
    forall w :: w in running ==> i !in running[w].batch
  }

  /** The rows a new dispatcher may lock: pending ones, each once, skipping those that others hold. */
  predicate Lockable(s: State, batch: seq<nat>) {
    && (forall j, k :: 0 <= j < k < |batch| ==> batch[j] != batch[k])
    && (forall k :: 0 <= k < |batch| ==> Pending(s.events, batch[k]) && Unlocked(s.running, batch[k]))
  }

  /** A step that is not enabled changes nothing. */
  function Apply(s: State, step: Step): State {
    match step
    case Record(e, topics) =>
      s.(events := Recorded(s.events, e, topics), outbox := RecordedOutbox(s.events, s.outbox, e, topics))
    case Begin(w, batch, view) =>
      if w !in s.running && Lockable(s, batch) then s.(running := s.running[w := Dispatch(batch, view)]) else s
    case Commit(w) =>
      if w !in s.running || !InRange(s.events, s.running[w].batch) then s
      else
        var d := s.running[w];
        State(EventsAfter(s.events, d.batch), s.outbox, JobsAfter(s.events, s.jobs, d.batch, d.view),
              s.running - {w}, s.handled + d.batch)
    case Crash(w) => s.(running := s.running - {w})
  }

  function Run(steps: seq<Step>): State {
    if steps == [] then Start else Apply(Run(steps[..|steps| - 1]), steps[|steps| - 1])
  }

  // ---- Recording: once per key, one outbox row per topic --------------------------------------

  ghost predicate KeysUnique(events: seq<EventRow>) {
    forall i, j :: 0 <= i < j < |events| ==>
      !(events[i].event.kind == events[j].event.kind && events[i].event.dedupe == events[j].event.dedupe)
  }

  predicate HasRow(outbox: seq<OutboxRow>, i: nat, topic: string) {
    exists k :: 0 <= k < |outbox| && outbox[k].event == i && outbox[k].topic == topic
  }

  ghost predicate OutboxOk(events: seq<EventRow>, outbox: seq<OutboxRow>) {
    && (forall k :: 0 <= k < |outbox| ==> outbox[k].event < |events|)
    && (forall j, k :: 0 <= j < k < |outbox| ==> !(outbox[j].event == outbox[k].event && outbox[j].topic == outbox[k].topic))
    && (forall i, t :: 0 <= i < |events| ==> (HasRow(outbox, i, t) <==> t in events[i].topics))
  }

  lemma RecordKeepsKeys(events: seq<EventRow>, e: Event, topics: seq<string>)
    requires KeysUnique(events)
    ensures KeysUnique(Recorded(events, e, topics))
  {
  }

  lemma RecordKeepsOutbox(events: seq<EventRow>, outbox: seq<OutboxRow>, e: Event, topics: seq<string>)
    requires OutboxOk(events, outbox)
    ensures OutboxOk(Recorded(events, e, topics), RecordedOutbox(events, outbox, e, topics))
  {
    if Recordable(events, e, topics) {
      var events', added := Recorded(events, e, topics), RowsFor(|events|, topics);
      var outbox' := outbox + added;
      forall i, t | 0 <= i < |events'|
        ensures HasRow(outbox', i, t) <==> t in events'[i].topics
      {
        if i < |events| {
          assert HasRow(outbox, i, t) <==> t in events[i].topics;
          if HasRow(outbox, i, t) {
            var k :| 0 <= k < |outbox| && outbox[k].event == i && outbox[k].topic == t;
            assert outbox'[k] == outbox[k];
          }
        } else if t in topics {
          var k :| 0 <= k < |topics| && topics[k] == t;
          assert outbox'[|outbox| + k] == added[k];
        }
      }
    }
  }

  lemma DispatchKeepsRows(events: seq<EventRow>, batch: seq<nat>)
    requires InRange(events, batch)
    ensures forall i :: 0 <= i < |events| ==>
              EventsAfter(events, batch)[i] == events[i].(processed := events[i].processed || i in batch)
  {
    if batch != [] {
      DispatchKeepsRows(events, batch[..|batch| - 1]);
      assert batch == batch[..|batch| - 1] + [batch[|batch| - 1]];
    }
  }

  // ---- Jobs: the ones its event calls for ------------------------------------------------------

  ghost predicate NoRepeats(jobs: seq<Job>) {
    forall i, j :: 0 <= i < j < |jobs| ==> jobs[i] != jobs[j]
  }

  lemma {:induction false} EnqueueAllHolds(jobs: seq<Job>, more: seq<Job>)
    ensures forall x :: x in EnqueueAll(jobs, more) <==> x in jobs || x in more
    ensures NoRepeats(jobs) ==> NoRepeats(EnqueueAll(jobs, more))
  {
    if more != [] {
      EnqueueAllHolds(jobs, more[..|more| - 1]);
      assert more == more[..|more| - 1] + [more[|more| - 1]];
    }
  }

  /** The jobs a batch causes, event by event. */
  ghost function Causes(events: seq<EventRow>, batch: seq<nat>, view: View): seq<seq<Job>>
    requires InRange(events, batch)
  {
    seq(|batch|, k requires 0 <= k < |batch| => JobsFor(batch[k], events[batch[k]].event, view))
  }

  ghost predicate AnyHas(lists: seq<seq<Job>>, x: Job) {
    exists k :: 0 <= k < |lists| && x in lists[k]
  }

  ghost predicate CausedBy(x: Job, events: seq<EventRow>, batch: seq<nat>, view: View)
    requires InRange(events, batch)
  {
    AnyHas(Causes(events, batch, view), x)
  }

  lemma AnySnoc(lists: seq<seq<Job>>, x: Job)
    requires lists != []
    ensures AnyHas(lists, x) <==> AnyHas(lists[..|lists| - 1], x) || x in lists[|lists| - 1]
  {
    var init := lists[..|lists| - 1];
    if AnyHas(init, x) {
      var k :| 0 <= k < |init| && x in init[k];
      assert x in lists[k];
    }
    if AnyHas(lists, x) {
      var k :| 0 <= k < |lists| && x in lists[k];
      assert k < |init| ==> x in init[k];
    }
  }

  lemma {:induction false} JobsAfterHolds(events: seq<EventRow>, jobs: seq<Job>, batch: seq<nat>, view: View, x: Job)
    requires InRange(events, batch)
    ensures x in JobsAfter(events, jobs, batch, view) <==> x in jobs || CausedBy(x, events, batch, view)
  {
    if batch != [] {
      var n := |batch| - 1;
      var lists := Causes(events, batch, view);
      JobsAfterHolds(events, jobs, batch[..n], view, x);
      EnqueueAllHolds(JobsAfter(events, jobs, batch[..n], view), lists[n]);
      AnySnoc(lists, x);
      assert lists[..n] == Causes(events, batch[..n], view);
    }
  }

  lemma {:induction false} JobsAfterOnce(events: seq<EventRow>, jobs: seq<Job>, batch: seq<nat>, view: View)
    requires InRange(events, batch) && NoRepeats(jobs)
    ensures NoRepeats(JobsAfter(events, jobs, batch, view))
  {
    if batch != [] {
      var n := |batch| - 1;
      JobsAfterOnce(events, jobs, batch[..n], view);
      EnqueueAllHolds(JobsAfter(events, jobs, batch[..n], view), JobsFor(batch[n], events[batch[n]].event, view));
    }
  }

  lemma {:induction false} ClosingAre(snapshots: seq<Snapshot>, map_: string)
    ensures forall x :: x in ClosingFor(snapshots, map_) ==> x.kind == CAPTURE_FUTURE_ODDS && x.key.ClosingOdds?
    ensures forall s :: s in snapshots && s.map_ == Some(map_) ==>
              Job(CAPTURE_FUTURE_ODDS, ClosingOdds(s.id)) in ClosingFor(snapshots, map_)
    ensures forall x :: x in ClosingFor(snapshots, map_) ==>
              exists s :: s in snapshots && s.map_ == Some(map_) && x == Job(CAPTURE_FUTURE_ODDS, ClosingOdds(s.id))
  {
    if snapshots != [] {
      ClosingAre(snapshots[..|snapshots| - 1], map_);
      assert snapshots == snapshots[..|snapshots| - 1] + [snapshots[|snapshots| - 1]];
    }
  }

  /** The job belongs to the event by its key. */
  predicate Owns(i: nat, key: JobKey) {
    key == ForEvent(i) || (key.ForEventJob? && key.event == i)
  }

  /** The kinds of event whose main job is of the given kind; requests for AI decisions have none. */
  predicate CallsFor(t: EventType, job: JobType) {
    match job
    case REFRESH_ODDS_REGISTRY => t in {MARKET_DISCOVERED, ODDS_REGISTRY_REFRESH_REQUIRED}
    case BOOTSTRAP_DLTV_MATCH => t == DLTV_MATCH_DISCOVERED
    case SYNC_HISTORICAL => t in {DLTV_MATCH_RESOLVED, MAP_STARTED, ADVANCED_RESULT_READY}
    case BUILD_DRAFT_CURVE => t == DRAFT_CONFIRMED
    case BUILD_SNAPSHOT => t in {DECISION_CHECKPOINT_DUE, SIGNIFICANT_ODDS_MOVE, MARKET_REOPENED, SNAPSHOT_BUILD_REQUESTED}
    case RUN_AI_PROVIDER => false
    case CAPTURE_FUTURE_ODDS => t == FUTURE_ODDS_CAPTURE_DUE
    case RESOLVE_POSTMATCH => t == MAP_ENDED
    case SETTLE_MAP => t in {BASIC_RESULT_READY, SETTLEMENT_REQUIRED}
    case EVALUATE_DECISION => t == EVALUATION_REQUIRED
  }

  /** The jobs keyed by an event that its kind calls for: its main job, and a sync for discovered markets and drafts. */
  predicate Due(i: nat, e: Event, x: Job) {
    || (x.key == ForEvent(i) && CallsFor(e.kind, x.kind))
    || (x == Job(SYNC_HISTORICAL, ForEventJob(i, SYNC_HISTORICAL)) && e.kind in {MARKET_DISCOVERED, DRAFT_CONFIRMED})
  }

  lemma MainKinds(t: EventType, job: JobType)
    ensures t != AI_DECISION_REQUESTED ==> (job == PrimaryJob(t) <==> CallsFor(t, job))
    ensures t == AI_DECISION_REQUESTED ==> !CallsFor(t, job)
  {
  }

  /** Among the jobs of an event those it owns are the due ones; the others are captures and experiment runs. */
  lemma JobsForAre(i: nat, e: Event, view: View, x: Job)
    ensures x.key.ForEvent? || x.key.ForEventJob? ==> (x in JobsFor(i, e, view) <==> Due(i, e, x))
    ensures x in JobsFor(i, e, view) && x.key.ClosingOdds? ==> x.kind == CAPTURE_FUTURE_ODDS
    ensures x in JobsFor(i, e, view) && x.key.ForExperiment? ==> x.kind == RUN_AI_PROVIDER
  {
    var main, extra, closing := MainJobs(i, e, view), AdditionalFor(i, AdditionalJobs(e.kind)), ClosingJobs(e, view);
    assert x in JobsFor(i, e, view) <==> x in main || x in extra || x in closing;
    if e.kind == MAP_ENDED && e.map_.Some? {
      ClosingAre(view.snapshots, e.map_.value);
    }
    MainKinds(e.kind, x.kind);
    var kinds := AdditionalJobs(e.kind);
    if x.key == ForEventJob(i, x.kind) && x.kind in kinds {
      var k :| 0 <= k < |kinds| && kinds[k] == x.kind;
      assert extra[k] == x;
    }
  }

  // ---- The invariant ---------------------------------------------------------------------------

  ghost predicate LocksOk(s: State) {
    && (forall w :: w in s.running ==> BatchOk(s.events, s.running[w].batch))
    && (forall v, w :: v in s.running && w in s.running && v != w ==> Apart(s.running[v].batch, s.running[w].batch))
  }

  ghost predicate BatchOk(events: seq<EventRow>, batch: seq<nat>) {
    && (forall j, k :: 0 <= j < k < |batch| ==> batch[j] != batch[k])
    && (forall k :: 0 <= k < |batch| ==> Pending(events, batch[k]))
  }

  ghost predicate Apart(xs: seq<nat>, ys: seq<nat>) {
    forall i :: i in xs ==> i !in ys
  }

  predicate IsProcessed(events: seq<EventRow>, i: nat) {
    i < |events| && events[i].processed
  }

  ghost predicate HandledOk(s: State) {
    && (forall j, k :: 0 <= j < k < |s.handled| ==> s.handled[j] != s.handled[k])
    && (forall i: nat :: i in s.handled <==> IsProcessed(s.events, i))
  }

  /** Exactly the due jobs of exactly the processed events, each job once. */
  ghost predicate JobsOk(events: seq<EventRow>, jobs: seq<Job>) {
    && NoRepeats(jobs)
    && (forall i: nat, x: Job :: Owns(i, x.key) ==> (x in jobs <==> IsProcessed(events, i) && Due(i, events[i].event, x)))
    && (forall x :: x in jobs && x.key.ClosingOdds? ==> x.kind == CAPTURE_FUTURE_ODDS)
    && (forall x :: x in jobs && x.key.ForExperiment? ==> x.kind == RUN_AI_PROVIDER)
  }

  ghost predicate Inv(s: State) {
    && KeysUnique(s.events) && OutboxOk(s.events, s.outbox) && LocksOk(s) && HandledOk(s) && JobsOk(s.events, s.jobs)
  }

  lemma RecordKeepsJobs(events: seq<EventRow>, jobs: seq<Job>, e: Event, topics: seq<string>)
    requires JobsOk(events, jobs)
    ensures JobsOk(Recorded(events, e, topics), jobs)
  {
    var events' := Recorded(events, e, topics);
    forall i: nat, x: Job | Owns(i, x.key)
      ensures x in jobs <==> IsProcessed(events', i) && Due(i, events'[i].event, x)
    {
      assert x in jobs <==> IsProcessed(events, i) && Due(i, events[i].event, x);
      assert IsProcessed(events', i) <==> IsProcessed(events, i);
    }
  }

  lemma RecordKeepsInv(s: State, e: Event, topics: seq<string>)
    requires Inv(s)
    ensures Inv(Apply(s, Record(e, topics)))
  {
    RecordKeepsKeys(s.events, e, topics);
    RecordKeepsOutbox(s.events, s.outbox, e, topics);
    RecordKeepsJobs(s.events, s.jobs, e, topics);
    var s' := Apply(s, Record(e, topics));
    assert forall w :: w in s.running ==> BatchOk(s.events, s.running[w].batch);
    forall w | w in s'.running
      ensures BatchOk(s'.events, s'.running[w].batch)
    {
      var batch := s.running[w].batch;
      assert forall k :: 0 <= k < |batch| ==> Pending(s.events, batch[k]) ==> Pending(s'.events, batch[k]);
    }
  }

  lemma BeginKeepsInv(s: State, w: Worker, batch: seq<nat>, view: View)
    requires Inv(s)
    ensures Inv(Apply(s, Begin(w, batch, view)))
  {
    var s' := Apply(s, Begin(w, batch, view));
    if s' != s {
      forall u, v | u in s'.running && v in s'.running && u != v
        ensures Apart(s'.running[u].batch, s'.running[v].batch)
      {
        if u != w && v != w {
          assert Apart(s.running[u].batch, s.running[v].batch);
        } else {
          assert forall k :: 0 <= k < |batch| ==> Unlocked(s.running, batch[k]);
        }
      }
    }
  }

  /** A job owned by an event is caused by a batch iff the event is in it and calls for the job. */
  lemma OwnedCaused(i: nat, x: Job, events: seq<EventRow>, batch: seq<nat>, view: View)
    requires InRange(events, batch) && Owns(i, x.key)
    ensures CausedBy(x, events, batch, view) <==> i in batch && i < |events| && Due(i, events[i].event, x)
  {
    var lists := Causes(events, batch, view);
    if AnyHas(lists, x) {
      var k :| 0 <= k < |lists| && x in lists[k];
      JobsForAre(batch[k], events[batch[k]].event, view, x);
      assert batch[k] == i;
    }
    if i in batch && Due(i, events[i].event, x) {
      var k :| 0 <= k < |batch| && batch[k] == i;
      JobsForAre(i, events[i].event, view, x);
      assert x in lists[k];
    }
  }

  lemma OthersCaused(x: Job, events: seq<EventRow>, batch: seq<nat>, view: View)
    requires InRange(events, batch) && CausedBy(x, events, batch, view)
    ensures x.key.ClosingOdds? ==> x.kind == CAPTURE_FUTURE_ODDS
    ensures x.key.ForExperiment? ==> x.kind == RUN_AI_PROVIDER
  {
    var lists := Causes(events, batch, view);
    var k :| 0 <= k < |lists| && x in lists[k];
    JobsForAre(batch[k], events[batch[k]].event, view, x);
  }

  lemma OwnedAfter(i: nat, x: Job, events: seq<EventRow>, jobs: seq<Job>, batch: seq<nat>, view: View)
    requires InRange(events, batch) && Owns(i, x.key)
    requires x in jobs <==> IsProcessed(events, i) && Due(i, events[i].event, x)
    ensures var events' := EventsAfter(events, batch);
            x in JobsAfter(events, jobs, batch, view) <==> IsProcessed(events', i) && Due(i, events'[i].event, x)
  {
    DispatchKeepsRows(events, batch);
    JobsAfterHolds(events, jobs, batch, view, x);
    OwnedCaused(i, x, events, batch, view);
    assert i in batch ==> i < |events|;
  }

  lemma CommitKeepsJobs(events: seq<EventRow>, jobs: seq<Job>, batch: seq<nat>, view: View)
    requires JobsOk(events, jobs) && BatchOk(events, batch) && InRange(events, batch)
    ensures JobsOk(EventsAfter(events, batch), JobsAfter(events, jobs, batch, view))
  {
    JobsAfterOnce(events, jobs, batch, view);
    var events', jobs' := EventsAfter(events, batch), JobsAfter(events, jobs, batch, view);
    forall i: nat, x: Job | Owns(i, x.key)
      ensures x in jobs' <==> IsProcessed(events', i) && Due(i, events'[i].event, x)
    {
      OwnedAfter(i, x, events, jobs, batch, view);
    }
    forall x: Job | x in jobs' && (x.key.ClosingOdds? || x.key.ForExperiment?)
      ensures x.key.ClosingOdds? ==> x.kind == CAPTURE_FUTURE_ODDS
      ensures x.key.ForExperiment? ==> x.kind == RUN_AI_PROVIDER
    {
      JobsAfterHolds(events, jobs, batch, view, x);
      if x !in jobs {
        OthersCaused(x, events, batch, view);
      }
    }
  }

  lemma CommitKeepsHandled(s: State, w: Worker)
    requires HandledOk(s) && w in s.running && BatchOk(s.events, s.running[w].batch) && InRange(s.events, s.running[w].batch)
    ensures HandledOk(Apply(s, Commit(w)))
  {
    var s', batch := Apply(s, Commit(w)), s.running[w].batch;
    DispatchKeepsRows(s.events, batch);
    assert s'.handled == s.handled + batch;
    forall j, k | 0 <= j < k < |s'.handled|
      ensures s'.handled[j] != s'.handled[k]
    {
      if j < |s.handled| <= k {
        assert s.handled[j] in s.handled && Pending(s.events, batch[k - |s.handled|]);
      }
    }
    forall i: nat
      ensures i in s'.handled <==> IsProcessed(s'.events, i)
    {
      assert i in s'.handled <==> i in s.handled || i in batch;
      if i in batch {
        var k :| 0 <= k < |batch| && batch[k] == i;
        assert Pending(s.events, batch[k]);
      }
    }
  }

  lemma CommitKeepsLocks(s: State, w: Worker)
    requires LocksOk(s) && w in s.running && InRange(s.events, s.running[w].batch)
    ensures LocksOk(Apply(s, Commit(w)))
  {
    var s', batch := Apply(s, Commit(w)), s.running[w].batch;
    DispatchKeepsRows(s.events, batch);
    forall v | v in s'.running
      ensures BatchOk(s'.events, s'.running[v].batch)
    {
      var other := s.running[v].batch;
      assert BatchOk(s.events, other) && Apart(other, batch);
      forall k | 0 <= k < |other|
        ensures Pending(s'.events, other[k])
      {
        assert Pending(s.events, other[k]) && other[k] in other;
      }
    }
    forall u, v | u in s'.running && v in s'.running && u != v
      ensures Apart(s'.running[u].batch, s'.running[v].batch)
    {
      assert Apart(s.running[u].batch, s.running[v].batch);
    }
  }

  lemma CommitKeepsKeys(events: seq<EventRow>, outbox: seq<OutboxRow>, batch: seq<nat>)
    requires KeysUnique(events) && OutboxOk(events, outbox) && InRange(events, batch)
    ensures KeysUnique(EventsAfter(events, batch)) && OutboxOk(EventsAfter(events, batch), outbox)
  {
    DispatchKeepsRows(events, batch);
    var events' := EventsAfter(events, batch);
    forall i, t | 0 <= i < |events'|
      ensures HasRow(outbox, i, t) <==> t in events'[i].topics
    {
      assert HasRow(outbox, i, t) <==> t in events[i].topics;
    }
  }

  lemma CommitKeepsInv(s: State, w: Worker)
    requires Inv(s)
    ensures Inv(Apply(s, Commit(w)))
  {
    if w in s.running {
      var d := s.running[w];
      assert BatchOk(s.events, d.batch);
      assert forall k :: 0 <= k < |d.batch| ==> Pending(s.events, d.batch[k]);
      CommitKeepsKeys(s.events, s.outbox, d.batch);
      CommitKeepsLocks(s, w);
      CommitKeepsHandled(s, w);
      CommitKeepsJobs(s.events, s.jobs, d.batch, d.view);
    }
  }

  lemma CrashKeepsInv(s: State, w: Worker)
    requires Inv(s)
    ensures Inv(Apply(s, Crash(w)))
  {
    var s' := Apply(s, Crash(w));
    assert forall v :: v in s'.running ==> v in s.running && s'.running[v] == s.running[v];
  }

  /** Every reachable state, whatever was recorded, dispatched and lost to crashes before. */
  lemma {:induction false} RunKeepsInv(steps: seq<Step>)
    ensures Inv(Run(steps))
  {
    if steps != [] {
      var s := Run(steps[..|steps| - 1]);
      RunKeepsInv(steps[..|steps| - 1]);
      match steps[|steps| - 1]
      case Record(e, topics) => RecordKeepsInv(s, e, topics);
      case Begin(w, batch, view) => BeginKeepsInv(s, w, batch, view);
      case Commit(w) => CommitKeepsInv(s, w);
      case Crash(w) => CrashKeepsInv(s, w);
    }
  }

  // ---- Main results ------------------------------------------------------------------------------

  /** An event is stored once per kind and key, with exactly one outbox row for each topic of its recording. */
  lemma RecordedOnce(steps: seq<Step>, i: nat, j: nat, topic: string)
    requires i < |Run(steps).events|
    ensures j < i ==> Run(steps).events[j].event.(snapshot := None, map_ := None) != Run(steps).events[i].event.(snapshot := None, map_ := None)
    ensures HasRow(Run(steps).outbox, i, topic) <==> topic in Run(steps).events[i].topics
    ensures forall k, l :: 0 <= k < l < |Run(steps).outbox| ==>
              !(Run(steps).outbox[k].event == Run(steps).outbox[l].event && Run(steps).outbox[k].topic == Run(steps).outbox[l].topic)
  {
    RunKeepsInv(steps);
  }

  predicate SameKey(e: Event, f: Event) {
    e.kind == f.kind && e.dedupe == f.dedupe
  }

  /** Recording an event for different topics leaves an event of its kind and key stored: itself, pending, if there was none. */
  lemma RecordingStores(steps: seq<Step>, e: Event, topics: seq<string>)
    requires forall i, j :: 0 <= i < j < |topics| ==> topics[i] != topics[j]
    ensures var events, events' := Run(steps).events, Run(steps + [Record(e, topics)]).events;
            if exists i :: 0 <= i < |events| && SameKey(events[i].event, e) then events' == events
            else events' == events + [EventRow(e, topics, false)]
  {
    assert (steps + [Record(e, topics)])[..|steps|] == steps;
    var events := Run(steps).events;
    assert Known(events, e) <==> exists i :: 0 <= i < |events| && SameKey(events[i].event, e);
  }

  /** Committing a dispatch processes exactly the events of its batch. */
  lemma CommitProcesses(steps: seq<Step>, w: Worker, i: nat)
    requires w in Run(steps).running
    ensures IsProcessed(Run(steps + [Commit(w)]).events, i)
            <==> IsProcessed(Run(steps).events, i) || i in Run(steps).running[w].batch
  {
    CommitIsEnabled(steps, w);
    assert (steps + [Commit(w)])[..|steps|] == steps;
    var s := Run(steps);
    DispatchKeepsRows(s.events, s.running[w].batch);
    assert i in s.running[w].batch ==> i < |s.events|;
  }

  /** The jobs keyed by an event: the due ones once it is processed, none before; and no job is stored twice. */
  lemma ExactlyTheDueJobs(steps: seq<Step>, i: nat, x: Job)
    requires Owns(i, x.key)
    ensures var s := Run(steps);
            x in s.jobs <==> IsProcessed(s.events, i) && Due(i, s.events[i].event, x)
    ensures NoRepeats(Run(steps).jobs)
  {
    RunKeepsInv(steps);
  }

  /** No event is dispatched twice, and the processed events are the dispatched ones. */
  lemma HandledOnce(steps: seq<Step>)
    ensures HandledOk(Run(steps))
  {
    RunKeepsInv(steps);
  }

  /** At most one closing capture is stored per snapshot, whatever ends and is dispatched again. */
  lemma OneClosingCapture(steps: seq<Step>, j: nat, k: nat, snapshot: string)
    requires j < |Run(steps).jobs| && k < |Run(steps).jobs|
    requires Run(steps).jobs[j].key == ClosingOdds(snapshot) == Run(steps).jobs[k].key
    ensures j == k
  {
    RunKeepsInv(steps);
    var jobs := Run(steps).jobs;
    assert jobs[j] in jobs && jobs[k] in jobs;
  }

  lemma ClosingCaused(i: nat, e: Event, view: View, s: Snapshot)
    requires e.kind == MAP_ENDED && e.map_.Some? && s in view.snapshots && s.map_ == e.map_
    ensures Job(CAPTURE_FUTURE_ODDS, ClosingOdds(s.id)) in JobsFor(i, e, view)
  {
    ClosingAre(view.snapshots, e.map_.value);
    assert Job(CAPTURE_FUTURE_ODDS, ClosingOdds(s.id)) in ClosingJobs(e, view);
  }

  lemma CommitCaptures(events: seq<EventRow>, jobs: seq<Job>, d: Dispatch, k: nat, s: Snapshot)
    requires InRange(events, d.batch) && k < |d.batch|
    requires events[d.batch[k]].event.kind == MAP_ENDED && events[d.batch[k]].event.map_.Some?
    requires s in d.view.snapshots && s.map_ == events[d.batch[k]].event.map_
    ensures Job(CAPTURE_FUTURE_ODDS, ClosingOdds(s.id)) in JobsAfter(events, jobs, d.batch, d.view)
  {
    var x := Job(CAPTURE_FUTURE_ODDS, ClosingOdds(s.id));
    ClosingCaused(d.batch[k], events[d.batch[k]].event, d.view, s);
    assert x in Causes(events, d.batch, d.view)[k];
    JobsAfterHolds(events, jobs, d.batch, d.view, x);
  }

  lemma CommitIsEnabled(steps: seq<Step>, w: Worker)
    requires w in Run(steps).running
    ensures var s := Run(steps);
            InRange(s.events, s.running[w].batch)
            && Run(steps + [Commit(w)]).jobs == JobsAfter(s.events, s.jobs, s.running[w].batch, s.running[w].view)
  {
    assert (steps + [Commit(w)])[..|steps|] == steps;
    var s := Run(steps);
    RunKeepsInv(steps);
    assert BatchOk(s.events, s.running[w].batch);
    assert forall l :: 0 <= l < |s.running[w].batch| ==> Pending(s.events, s.running[w].batch[l]);
  }

  /** Committing the dispatch of a map's end leaves a closing capture for every snapshot of the map it saw. */
  lemma EndedMapsAreCaptured(steps: seq<Step>, w: Worker, k: nat, s: Snapshot)
    requires w in Run(steps).running && k < |Run(steps).running[w].batch|
    requires Run(steps).running[w].batch[k] < |Run(steps).events|
    requires Run(steps).events[Run(steps).running[w].batch[k]].event.kind == MAP_ENDED
    requires Run(steps).events[Run(steps).running[w].batch[k]].event.map_.Some?
    requires s in Run(steps).running[w].view.snapshots
    requires s.map_ == Run(steps).events[Run(steps).running[w].batch[k]].event.map_
    ensures Job(CAPTURE_FUTURE_ODDS, ClosingOdds(s.id)) in Run(steps + [Commit(w)]).jobs
  {
    CommitIsEnabled(steps, w);
    CommitCaptures(Run(steps).events, Run(steps).jobs, Run(steps).running[w], k, s);
  }

  // ---- AI decisions ------------------------------------------------------------------------------

  /** The snapshots a dispatch sees have different identifiers. */
  ghost predicate IdsUnique(view: View) {
    forall s, t :: s in view.snapshots && t in view.snapshots && s.id == t.id ==> s == t
  }

  /** The event asks for AI decisions on a snapshot with this hash that the dispatch saw. */
  ghost predicate AsksFor(e: Event, view: View, hash: string) {
    && e.kind == AI_DECISION_REQUESTED
    && exists s :: s in view.snapshots && e.snapshot == Some(s.id) && s.hash == hash
  }

  lemma {:induction false} FindsSnapshot(snapshots: seq<Snapshot>, id: string)
    ensures FindSnapshot(snapshots, id).None? ==> forall s :: s in snapshots ==> s.id != id
  {
    if snapshots != [] {
      FindsSnapshot(snapshots[..|snapshots| - 1], id);
      assert snapshots == snapshots[..|snapshots| - 1] + [snapshots[|snapshots| - 1]];
    }
  }

  lemma AiJobsFor(i: nat, e: Event, view: View, hash: string, experiment: string)
    requires IdsUnique(view)
    ensures Job(RUN_AI_PROVIDER, ForExperiment(hash, experiment)) in JobsFor(i, e, view)
            <==> AsksFor(e, view, hash) && experiment in view.experiments
  {
    var x := Job(RUN_AI_PROVIDER, ForExperiment(hash, experiment));
    var main, extra, closing := MainJobs(i, e, view), AdditionalFor(i, AdditionalJobs(e.kind)), ClosingJobs(e, view);
    assert x in JobsFor(i, e, view) <==> x in main || x in extra || x in closing;
    if e.kind == MAP_ENDED && e.map_.Some? {
      ClosingAre(view.snapshots, e.map_.value);
    }
    if e.kind == AI_DECISION_REQUESTED && e.snapshot.Some? {
      FindsSnapshot(view.snapshots, e.snapshot.value);
      if experiment in view.experiments {
        var k :| 0 <= k < |view.experiments| && view.experiments[k] == experiment;
        assert ExperimentJobs(hash, view.experiments)[k] == x;
      }
    }
  }

  /** Some event of the batch asks for the hash. */
  ghost predicate BatchAsks(events: seq<EventRow>, batch: seq<nat>, view: View, hash: string)
    requires InRange(events, batch)
  {
    exists k :: 0 <= k < |batch| && AsksFor(events[batch[k]].event, view, hash)
  }

  lemma AiJobsAfter(events: seq<EventRow>, jobs: seq<Job>, d: Dispatch, hash: string, experiment: string)
    requires InRange(events, d.batch) && IdsUnique(d.view)
    ensures var x := Job(RUN_AI_PROVIDER, ForExperiment(hash, experiment));
            x in JobsAfter(events, jobs, d.batch, d.view)
            <==> x in jobs || (BatchAsks(events, d.batch, d.view, hash) && experiment in d.view.experiments)
  {
    var x := Job(RUN_AI_PROVIDER, ForExperiment(hash, experiment));
    JobsAfterHolds(events, jobs, d.batch, d.view, x);
    var lists := Causes(events, d.batch, d.view);
    forall k | 0 <= k < |d.batch|
      ensures x in lists[k] <==> AsksFor(events[d.batch[k]].event, d.view, hash) && experiment in d.view.experiments
    {
      AiJobsFor(d.batch[k], events[d.batch[k]].event, d.view, hash, experiment);
    }
  }

  /**
   Committing a dispatch adds exactly these runs of AI providers: for every request for AI decisions on a snapshot
   it saw, one per experiment it saw active, keyed by the snapshot's hash.
   */
  lemma AiRequestsFanOut(steps: seq<Step>, w: Worker, hash: string, experiment: string)
    requires w in Run(steps).running && IdsUnique(Run(steps).running[w].view)
    ensures InRange(Run(steps).events, Run(steps).running[w].batch)
    ensures var s, x := Run(steps), Job(RUN_AI_PROVIDER, ForExperiment(hash, experiment));
            var d := s.running[w];
            x in Run(steps + [Commit(w)]).jobs
            <==> x in s.jobs || (BatchAsks(s.events, d.batch, d.view, hash) && experiment in d.view.experiments)
  {
    CommitIsEnabled(steps, w);
    AiJobsAfter(Run(steps).events, Run(steps).jobs, Run(steps).running[w], hash, experiment);
  }

  /** A closing capture that a commit adds belongs to a snapshot of a map that an event of its batch ended. */
  lemma CapturesAreOfEndedMaps(steps: seq<Step>, w: Worker, id: string)
    requires w in Run(steps).running && Job(CAPTURE_FUTURE_ODDS, ClosingOdds(id)) !in Run(steps).jobs
    requires Job(CAPTURE_FUTURE_ODDS, ClosingOdds(id)) in Run(steps + [Commit(w)]).jobs
    ensures var s := Run(steps);
            exists k, x :: && 0 <= k < |s.running[w].batch| && x in s.running[w].view.snapshots && x.id == id
                           && s.running[w].batch[k] < |s.events| && x.map_.Some?
                           && s.events[s.running[w].batch[k]].event.kind == MAP_ENDED
                           && s.events[s.running[w].batch[k]].event.map_ == x.map_
  {
    CommitIsEnabled(steps, w);
    var s, job := Run(steps), Job(CAPTURE_FUTURE_ODDS, ClosingOdds(id));
    var d := s.running[w];
    JobsAfterHolds(s.events, s.jobs, d.batch, d.view, job);
    var lists := Causes(s.events, d.batch, d.view);
    var k :| 0 <= k < |lists| && job in lists[k];
    ClosingCause(d.batch[k], s.events[d.batch[k]].event, d.view, id);
  }

  lemma ClosingCause(i: nat, e: Event, view: View, id: string)
    requires Job(CAPTURE_FUTURE_ODDS, ClosingOdds(id)) in JobsFor(i, e, view)
    ensures e.kind == MAP_ENDED && e.map_.Some?
    ensures exists x :: x in view.snapshots && x.id == id && x.map_ == e.map_
  {
    var job := Job(CAPTURE_FUTURE_ODDS, ClosingOdds(id));
    assert job in ClosingJobs(e, view);
    ClosingAre(view.snapshots, e.map_.value);
  }
}
