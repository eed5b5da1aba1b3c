/**
 Domain events, the jobs they cause, and the outbox that publishes them. Rows are identified by their index in
 insertion order; deduplication keys built from row identifiers are modelled by the identifiers themselves.
 */
module Events {
  import opened Common

  datatype EventType =
    | MARKET_DISCOVERED | ODDS_REGISTRY_REFRESH_REQUIRED | DLTV_MATCH_DISCOVERED | DLTV_MATCH_RESOLVED
    | DRAFT_CONFIRMED | MAP_STARTED | DECISION_CHECKPOINT_DUE | SIGNIFICANT_ODDS_MOVE | MARKET_REOPENED
    | MAP_ENDED | BASIC_RESULT_READY | ADVANCED_RESULT_READY | SNAPSHOT_BUILD_REQUESTED | AI_DECISION_REQUESTED
    | FUTURE_ODDS_CAPTURE_DUE | SETTLEMENT_REQUIRED | EVALUATION_REQUIRED

  datatype JobType =
    | REFRESH_ODDS_REGISTRY | BOOTSTRAP_DLTV_MATCH | SYNC_HISTORICAL | BUILD_DRAFT_CURVE | BUILD_SNAPSHOT
    | RUN_AI_PROVIDER | CAPTURE_FUTURE_ODDS | RESOLVE_POSTMATCH | SETTLE_MAP | EVALUATE_DECISION

  datatype JobKey =
    | ForEvent(event: nat)
    | ForEventJob(event: nat, job: JobType)
    | ClosingOdds(snapshot: string)
    | ForExperiment(hash: string, experiment: string)

  datatype Job = Job(kind: JobType, key: JobKey)

  /** What is recorded; the identifiers are those the payload names, if it names any. */
  datatype Event = Event(kind: EventType, dedupe: string, snapshot: Option<string>, map_: Option<string>)

  /** `topics` remembers what the event was first recorded for. */
  datatype EventRow = EventRow(event: Event, topics: seq<string>, processed: bool)

  datatype OutboxRow = OutboxRow(event: nat, topic: string, published: bool, attempts: nat)

  datatype Snapshot = Snapshot(id: string, map_: Option<string>, hash: string)

  /** What a dispatch reads besides its events. */
  datatype View = View(snapshots: seq<Snapshot>, experiments: seq<string>)

  // ---- Recording ---------------------------------------------------------------------------

  predicate Known(events: seq<EventRow>, e: Event) {
    exists i :: 0 <= i < |events| && events[i].event.kind == e.kind && events[i].event.dedupe == e.dedupe
  }

  function RowsFor(event: nat, topics: seq<string>): seq<OutboxRow> {
    seq(|topics|, i requires 0 <= i < |topics| => OutboxRow(event, topics[i], false, 0))
  }

  /** A repeated topic would break the unique key of the outbox and roll the recording back. */
  predicate Recordable(events: seq<EventRow>, e: Event, topics: seq<string>) {
    !Known(events, e) && forall i, j :: 0 <= i < j < |topics| ==> topics[i] != topics[j]
  }

  function Recorded(events: seq<EventRow>, e: Event, topics: seq<string>): seq<EventRow> {
    if Recordable(events, e, topics) then events + [EventRow(e, topics, false)] else events
  }

  function RecordedOutbox(events: seq<EventRow>, outbox: seq<OutboxRow>, e: Event, topics: seq<string>): seq<OutboxRow> {
    if Recordable(events, e, topics) then outbox + RowsFor(|events|, topics) else outbox
  }

  // ---- Dispatching -------------------------------------------------------------------------

  function PrimaryJob(t: EventType): JobType {
    match t
    case MARKET_DISCOVERED => REFRESH_ODDS_REGISTRY
    case ODDS_REGISTRY_REFRESH_REQUIRED => REFRESH_ODDS_REGISTRY
    case DLTV_MATCH_DISCOVERED => BOOTSTRAP_DLTV_MATCH
    case DLTV_MATCH_RESOLVED => SYNC_HISTORICAL
    case DRAFT_CONFIRMED => BUILD_DRAFT_CURVE
    case MAP_STARTED => SYNC_HISTORICAL
    case DECISION_CHECKPOINT_DUE => BUILD_SNAPSHOT
    case SIGNIFICANT_ODDS_MOVE => BUILD_SNAPSHOT
    case MARKET_REOPENED => BUILD_SNAPSHOT
    case MAP_ENDED => RESOLVE_POSTMATCH
    case BASIC_RESULT_READY => SETTLE_MAP
    case ADVANCED_RESULT_READY => SYNC_HISTORICAL
    case SNAPSHOT_BUILD_REQUESTED => BUILD_SNAPSHOT
    case AI_DECISION_REQUESTED => RUN_AI_PROVIDER
    case FUTURE_ODDS_CAPTURE_DUE => CAPTURE_FUTURE_ODDS
    case SETTLEMENT_REQUIRED => SETTLE_MAP
    case EVALUATION_REQUIRED => EVALUATE_DECISION
  }

  function AdditionalJobs(t: EventType): seq<JobType> {
    if t == MARKET_DISCOVERED || t == DRAFT_CONFIRMED then [SYNC_HISTORICAL] else []
  }

  /** Insert if absent. */
  function Enqueue(jobs: seq<Job>, job: Job): seq<Job> {
    if job in jobs then jobs else jobs + [job]
  }

  function EnqueueAll(jobs: seq<Job>, more: seq<Job>): seq<Job> {
    if more == [] then jobs else Enqueue(EnqueueAll(jobs, more[..|more| - 1]), more[|more| - 1])
  }

  function FindSnapshot(snapshots: seq<Snapshot>, id: string): (r: Option<Snapshot>)
    ensures r.Some? ==> r.value in snapshots && r.value.id == id
  {
    if snapshots == [] then None
    else if snapshots[|snapshots| - 1].id == id then Some(snapshots[|snapshots| - 1])
    else FindSnapshot(snapshots[..|snapshots| - 1], id)
  }

  function ExperimentJobs(hash: string, experiments: seq<string>): seq<Job> {
    seq(|experiments|, i requires 0 <= i < |experiments| => Job(RUN_AI_PROVIDER, ForExperiment(hash, experiments[i])))
  }

  function AdditionalFor(event: nat, kinds: seq<JobType>): seq<Job> {
    seq(|kinds|, i requires 0 <= i < |kinds| => Job(kinds[i], ForEventJob(event, kinds[i])))
  }

  function ClosingFor(snapshots: seq<Snapshot>, map_: string): seq<Job> {
    if snapshots == [] then []
    else
      var before, s := ClosingFor(snapshots[..|snapshots| - 1], map_), snapshots[|snapshots| - 1];
      if s.map_ == Some(map_) then before + [Job(CAPTURE_FUTURE_ODDS, ClosingOdds(s.id))] else before
  }

  function MainJobs(i: nat, e: Event, view: View): seq<Job> {
    if e.kind != AI_DECISION_REQUESTED then [Job(PrimaryJob(e.kind), ForEvent(i))]
    else if e.snapshot.None? || FindSnapshot(view.snapshots, e.snapshot.value).None? then []
    else ExperimentJobs(FindSnapshot(view.snapshots, e.snapshot.value).value.hash, view.experiments)
  }

  function ClosingJobs(e: Event, view: View): seq<Job> {
    if e.kind == MAP_ENDED && e.map_.Some? then ClosingFor(view.snapshots, e.map_.value) else []
  }

  /** The jobs one event causes. */
  function JobsFor(i: nat, e: Event, view: View): seq<Job> {
    MainJobs(i, e, view) + AdditionalFor(i, AdditionalJobs(e.kind)) + ClosingJobs(e, view)
  }

  predicate InRange(events: seq<EventRow>, batch: seq<nat>) {
    forall k :: 0 <= k < |batch| ==> batch[k] < |events|
  }

  function JobsAfter(events: seq<EventRow>, jobs: seq<Job>, batch: seq<nat>, view: View): seq<Job>
    requires InRange(events, batch)
  {
    if batch == [] then jobs
    else
      var i := batch[|batch| - 1];
      EnqueueAll(JobsAfter(events, jobs, batch[..|batch| - 1], view), JobsFor(i, events[i].event, view))
  }

  function EventsAfter(events: seq<EventRow>, batch: seq<nat>): (r: seq<EventRow>)
    requires InRange(events, batch)
    ensures |r| == |events|
  {
    if batch == [] then events
    else
      var before, i := EventsAfter(events, batch[..|batch| - 1]), batch[|batch| - 1];
      before[i := before[i].(processed := true)]
  }

  // ---- The services ------------------------------------------------------------------------

  class EventStore {
    var events: seq<EventRow>
    var outbox: seq<OutboxRow>
    var jobs: seq<Job>

    constructor ()
      ensures events == [] && outbox == [] && jobs == []
    {
      events, outbox, jobs := [], [], [];
    }

    /** Stores an event once, with one outbox row per topic. */
    method RecordEvent(e: Event, topics: seq<string>)
      modifies this`events, this`outbox
      ensures events == Recorded(old(events), e, topics)
      ensures outbox == RecordedOutbox(old(events), old(outbox), e, topics)
    {
      if !Recordable(events, e, topics) {
        return;
      }
      var id := |events|;
      events := events + [EventRow(e, topics, false)];
      for i := 0 to |topics|
        invariant events == old(events) + [EventRow(e, topics, false)]
        invariant outbox == old(outbox) + RowsFor(id, topics)[..i]
      {
        outbox := outbox + [OutboxRow(id, topics[i], false, 0)];
      }
      assert RowsFor(id, topics)[..|topics|] == RowsFor(id, topics);
    }

    method EnqueueJob(kind: JobType, key: JobKey)
      modifies this`jobs
      ensures jobs == Enqueue(old(jobs), Job(kind, key))
    {
      if Job(kind, key) !in jobs {
        jobs := jobs + [Job(kind, key)];
      }
    }

    method EnqueueEach(more: seq<Job>)
      modifies this`jobs
      ensures jobs == EnqueueAll(old(jobs), more)
    {
      for k := 0 to |more|
        invariant jobs == EnqueueAll(old(jobs), more[..k])
      {
        assert more[..k + 1][..k] == more[..k];
        EnqueueJob(more[k].kind, more[k].key);
      }
      assert more[..|more|] == more;
    }

    /** Dispatches a locked batch of pending events in one transaction. */
    method DispatchBatch(batch: seq<nat>, view: View)
      requires InRange(events, batch)
      modifies this`events, this`jobs
      ensures events == EventsAfter(old(events), batch)
      ensures jobs == JobsAfter(old(events), old(jobs), batch, view)
    {
      for k := 0 to |batch|
        invariant |events| == |old(events)| && events == EventsAfter(old(events), batch[..k])
        invariant forall i :: 0 <= i < |events| ==> events[i].event == old(events)[i].event
        invariant jobs == JobsAfter(old(events), old(jobs), batch[..k], view)
      {
        assert batch[..k + 1][..k] == batch[..k];
        var i := batch[k];
        EnqueueEach(JobsFor(i, events[i].event, view));
        events := events[i := events[i].(processed := true)];
      }
      assert batch[..|batch|] == batch;
    }
  }
}
