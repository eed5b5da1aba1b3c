/**
 Publishing the outbox with many publishers and crashes: what is marked published was delivered, and is not
 delivered again. A publisher locks the rows it reads; sends leave the system at once, marks appear on commit.
 */
module Outbox {
  import opened Common
  import opened Events

  type Worker = string

  // ---- One publisher ---------------------------------------------------------------------------

  predicate InTable(rows: seq<OutboxRow>, batch: seq<nat>) {
    forall k :: 0 <= k < |batch| ==> batch[k] < |rows|
  }

  /** The rows after a pass over a batch, of which the transport accepted some. */
  function Marked(rows: seq<OutboxRow>, batch: seq<nat>, accepted: set<nat>): (r: seq<OutboxRow>)
    requires InTable(rows, batch)
    ensures |r| == |rows|
  {
    if batch == [] then rows
    else
      var before, i := Marked(rows, batch[..|batch| - 1], accepted), batch[|batch| - 1];
      before[i := before[i].(attempts := before[i].attempts + 1, published := before[i].published || i in accepted)]
  }

  class OutboxDispatcher {
    var rows: seq<OutboxRow>

    constructor (table: seq<OutboxRow>)
      ensures rows == table
    {
      rows := table;
    }

    /** One transaction over a locked batch; `accepted` is what the transport does not refuse. */
    method DispatchOnce(batch: seq<nat>, accepted: set<nat>) returns (sent: seq<nat>, published: nat)
      requires InTable(rows, batch)
      modifies this`rows
      ensures rows == Marked(old(rows), batch, accepted)
      ensures forall i :: i in sent <==> i in batch && i in accepted
      ensures published == |sent| <= |batch|
    {
      sent, published := [], 0;
      for k := 0 to |batch|
        invariant |rows| == |old(rows)| && rows == Marked(old(rows), batch[..k], accepted)
        invariant forall i :: i in sent <==> i in batch[..k] && i in accepted
        invariant published == |sent| <= k
      {
        assert batch[..k + 1][..k] == batch[..k];
        assert batch[..k + 1] == batch[..k] + [batch[k]];
        var i := batch[k];
        rows := rows[i := rows[i].(attempts := rows[i].attempts + 1)];
        if i !in accepted {
          continue;
        }
        sent := sent + [i];
        rows := rows[i := rows[i].(published := true)];
        published := published + 1;
      }
      assert batch[..|batch|] == batch;
    }
  }

  /** A pass counts one attempt per occurrence in its batch, marks what the transport took, and changes nothing else. */
  lemma {:induction false} MarkedRows(rows: seq<OutboxRow>, batch: seq<nat>, accepted: set<nat>)
    requires InTable(rows, batch)
    ensures forall i: nat :: i < |rows| ==>
              Marked(rows, batch, accepted)[i]
              == OutboxRow(rows[i].event, rows[i].topic, rows[i].published || (i in batch && i in accepted),
                           rows[i].attempts + multiset(batch)[i])
  {
    if batch != [] {
      var init, last := batch[..|batch| - 1], batch[|batch| - 1];
      MarkedRows(rows, init, accepted);
      assert batch == init + [last];
      assert multiset(batch) == multiset(init) + multiset{last};
    }
  }

  // ---- Many publishers ---------------------------------------------------------------------------

  /** A publisher at work: its rows, how far it got, and which of them the transport took. */
  datatype Sending = Sending(batch: seq<nat>, next: nat, accepted: set<nat>)

  /** `delivered` lists the rows the transport took, in order, crashes or not. */
  datatype State = State(rows: seq<OutboxRow>, sending: map<Worker, Sending>, delivered: seq<nat>)

  datatype Step =
    | Insert(event: nat, topic: string)
    | Begin(worker: Worker, batch: seq<nat>)
    | Send(worker: Worker, taken: bool)
    | Commit(worker: Worker)
    | Crash(worker: Worker)

  const Start := State([], map[], [])

  predicate Lockable(s: State, batch: seq<nat>) {
    && (forall j, k :: 0 <= j < k < |batch| ==> batch[j] != batch[k])
    && (forall k :: 0 <= k < |batch| ==> Unpublished(s.rows, batch[k]))
    && (forall w, k :: w in s.sending && 0 <= k < |batch| ==> batch[k] !in s.sending[w].batch)
  }

  predicate Unpublished(rows: seq<OutboxRow>, i: nat) {
    i < |rows| && !rows[i].published
  }

  /** A step that is not enabled changes nothing. */
  function Apply(s: State, step: Step): State {
    match step
    case Insert(event, topic) => s.(rows := s.rows + [OutboxRow(event, topic, false, 0)])
    case Begin(w, batch) =>
      if w !in s.sending && Lockable(s, batch) then s.(sending := s.sending[w := Sending(batch, 0, {})]) else s
    case Send(w, taken) =>
      if w !in s.sending || s.sending[w].next >= |s.sending[w].batch| then s
      else
        var d := s.sending[w];
        var i := d.batch[d.next];
        if taken then
          s.(sending := s.sending[w := Sending(d.batch, d.next + 1, d.accepted + {i})], delivered := s.delivered + [i])
        else s.(sending := s.sending[w := d.(next := d.next + 1)])
    case Commit(w) =>
      if w !in s.sending || s.sending[w].next < |s.sending[w].batch| || !InTable(s.rows, s.sending[w].batch) then s
      else s.(rows := Marked(s.rows, s.sending[w].batch, s.sending[w].accepted), sending := s.sending - {w})
    case Crash(w) => s.(sending := s.sending - {w})
  }

  function RunFrom(s: State, steps: seq<Step>): State {
    if steps == [] then s else Apply(RunFrom(s, steps[..|steps| - 1]), steps[|steps| - 1])
  }

  // ---- The invariant -------------------------------------------------------------------------------

  ghost predicate SendingOk(s: State, d: Sending) {
    && (forall k :: 0 <= k < |d.batch| ==> Unpublished(s.rows, d.batch[k]))
    && (forall i :: i in d.accepted ==> i in s.delivered)
  }

  /** A publisher works through distinct rows in order, so what the transport took from it lies behind it. */
  ghost predicate InOrder(d: Sending) {
    && d.next <= |d.batch| && Distinct(d.batch)
    && (forall i :: i in d.accepted ==> i in d.batch[..d.next])
  }

  ghost predicate Apart(xs: seq<nat>, ys: seq<nat>) {
    forall i :: i in xs ==> i !in ys
  }

  ghost predicate Inv(s: State) {
    && (forall i: nat :: i < |s.rows| && s.rows[i].published ==> i in s.delivered)
    && (forall w :: w in s.sending ==> SendingOk(s, s.sending[w]))
    && (forall w :: w in s.sending ==> InOrder(s.sending[w]))
    && (forall v, w :: v in s.sending && w in s.sending && v != w ==> Apart(s.sending[v].batch, s.sending[w].batch))
  }

  lemma SendKeepsOrder(d: Sending, taken: bool)
    requires InOrder(d) && d.next < |d.batch|
    ensures InOrder(Sending(d.batch, d.next + 1, if taken then d.accepted + {d.batch[d.next]} else d.accepted))
  {
    assert d.batch[..d.next + 1] == d.batch[..d.next] + [d.batch[d.next]];
  }

  lemma BeginKeeps(s: State, w: Worker, batch: seq<nat>)
    requires Inv(s)
    ensures Inv(Apply(s, Begin(w, batch)))
  {
    var s' := Apply(s, Begin(w, batch));
    forall v | v in s'.sending
      ensures SendingOk(s', s'.sending[v])
    {
      assert v in s.sending ==> SendingOk(s, s.sending[v]);
    }
    forall u, v | u in s'.sending && v in s'.sending && u != v
      ensures Apart(s'.sending[u].batch, s'.sending[v].batch)
    {
      if u in s.sending && v in s.sending {
        assert Apart(s.sending[u].batch, s.sending[v].batch);
      }
    }
  }

  lemma SendKeeps(s: State, w: Worker, taken: bool)
    requires Inv(s)
    ensures Inv(Apply(s, Send(w, taken)))
  {
    var s' := Apply(s, Send(w, taken));
    assert forall i :: i in s.delivered ==> i in s'.delivered;
    if w in s.sending && s.sending[w].next < |s.sending[w].batch| {
      SendKeepsOrder(s.sending[w], taken);
    }
    forall v | v in s'.sending
      ensures SendingOk(s', s'.sending[v])
    {
      assert SendingOk(s, s.sending[v]);
      if s'.delivered != s.delivered {
        assert s'.delivered[|s.delivered|] in s'.delivered;
      }
    }
    forall u, v | u in s'.sending && v in s'.sending && u != v
      ensures Apart(s'.sending[u].batch, s'.sending[v].batch)
    {
      assert Apart(s.sending[u].batch, s.sending[v].batch);
    }
  }

  lemma CommitKeeps(s: State, w: Worker)
    requires Inv(s)
    ensures Inv(Apply(s, Commit(w)))
  {
    var s' := Apply(s, Commit(w));
    if w in s.sending && s'.sending == s.sending - {w} {
      var d := s.sending[w];
      assert SendingOk(s, d);
      assert InTable(s.rows, d.batch) by {
        assert forall k :: 0 <= k < |d.batch| ==> Unpublished(s.rows, d.batch[k]);
      }
      MarkedRows(s.rows, d.batch, d.accepted);
      forall v | v in s'.sending
        ensures SendingOk(s', s'.sending[v])
      {
        assert SendingOk(s, s.sending[v]) && Apart(s.sending[v].batch, d.batch);
        var other := s.sending[v].batch;
        forall k | 0 <= k < |other|
          ensures Unpublished(s'.rows, other[k])
        {
          assert Unpublished(s.rows, other[k]) && other[k] in other;
        }
      }
      forall u, v | u in s'.sending && v in s'.sending && u != v
        ensures Apart(s'.sending[u].batch, s'.sending[v].batch)
      {
        assert Apart(s.sending[u].batch, s.sending[v].batch);
      }
    }
  }

  lemma InsertKeeps(s: State, event: nat, topic: string)
    requires Inv(s)
    ensures Inv(Apply(s, Insert(event, topic)))
  {
    var s' := Apply(s, Insert(event, topic));
    forall v | v in s'.sending
      ensures SendingOk(s', s'.sending[v])
    {
      assert SendingOk(s, s.sending[v]);
      var batch := s.sending[v].batch;
      forall k | 0 <= k < |batch|
        ensures Unpublished(s'.rows, batch[k])
      {
        assert Unpublished(s.rows, batch[k]);
      }
    }
  }

  lemma CrashKeeps(s: State, w: Worker)
    requires Inv(s)
    ensures Inv(Apply(s, Crash(w)))
  {
    var s' := Apply(s, Crash(w));
    forall v | v in s'.sending
      ensures SendingOk(s', s'.sending[v])
    {
      assert SendingOk(s, s.sending[v]);
    }
  }

  lemma StepKeeps(s: State, step: Step)
    requires Inv(s)
    ensures Inv(Apply(s, step))
  {
    match step
    case Insert(event, topic) => InsertKeeps(s, event, topic);
    case Begin(w, batch) => BeginKeeps(s, w, batch);
    case Send(w, taken) => SendKeeps(s, w, taken);
    case Commit(w) => CommitKeeps(s, w);
    case Crash(w) => CrashKeeps(s, w);
  }

  lemma {:induction false} RunKeeps(s: State, steps: seq<Step>)
    requires Inv(s)
    ensures Inv(RunFrom(s, steps))
  {
    if steps != [] {
      RunKeeps(s, steps[..|steps| - 1]);
      StepKeeps(RunFrom(s, steps[..|steps| - 1]), steps[|steps| - 1]);
    }
  }

  // ---- Main results ----------------------------------------------------------------------------------

  /** A row marked published was delivered at least once. */
  lemma PublishedWasDelivered(steps: seq<Step>, i: nat)
    requires i < |RunFrom(Start, steps).rows| && RunFrom(Start, steps).rows[i].published
    ensures i in RunFrom(Start, steps).delivered
  {
    RunKeeps(Start, steps);
  }

  function Deliveries(s: State, i: nat): nat {
    multiset(s.delivered)[i]
  }

  lemma StepSparesPublished(s: State, step: Step, i: nat)
    requires Inv(s) && i < |s.rows| && s.rows[i].published
    ensures var s' := Apply(s, step);
            i < |s'.rows| && s'.rows[i].published && Deliveries(s', i) == Deliveries(s, i)
  {
    if step.Commit? && step.worker in s.sending && InTable(s.rows, s.sending[step.worker].batch) {
      MarkedRows(s.rows, s.sending[step.worker].batch, s.sending[step.worker].accepted);
    }
    if step.Send? && step.worker in s.sending && s.sending[step.worker].next < |s.sending[step.worker].batch| {
      var d := s.sending[step.worker];
      assert SendingOk(s, d);
      assert Unpublished(s.rows, d.batch[d.next]);
      assert multiset(s.delivered + [d.batch[d.next]]) == multiset(s.delivered) + multiset{d.batch[d.next]};
    }
  }

  lemma {:induction false} NeverAgain(s: State, steps: seq<Step>, i: nat)
    requires Inv(s) && i < |s.rows| && s.rows[i].published
    ensures var s' := RunFrom(s, steps);
            i < |s'.rows| && s'.rows[i].published && Deliveries(s', i) == Deliveries(s, i)
  {
    if steps != [] {
      var init := steps[..|steps| - 1];
      NeverAgain(s, init, i);
      RunKeeps(s, init);
      StepSparesPublished(RunFrom(s, init), steps[|steps| - 1], i);
    }
  }

  /** Once a row is marked published it stays so, and no publisher delivers it again. */
  lemma PublishedStaysQuiet(steps: seq<Step>, more: seq<Step>, i: nat)
    requires i < |RunFrom(Start, steps).rows| && RunFrom(Start, steps).rows[i].published
    ensures var s, s' := RunFrom(Start, steps), RunFrom(RunFrom(Start, steps), more);
            i < |s'.rows| && s'.rows[i].published && Deliveries(s', i) == Deliveries(s, i)
  {
    RunKeeps(Start, steps);
    NeverAgain(RunFrom(Start, steps), more, i);
  }

  // ---- How often a row is delivered ------------------------------------------------------------------

  /** Some publisher at work had the row accepted, but has not committed yet. */
  ghost predicate Pending(s: State, i: nat) {
    exists w :: w in s.sending && i in s.sending[w].accepted
  }

  predicate Published(s: State, i: nat) {
    i < |s.rows| && s.rows[i].published
  }

  /** One for a row that is published or about to be. */
  ghost function Kept(s: State, i: nat): nat {
    if Published(s, i) || Pending(s, i) then 1 else 0
  }

  /** Whether the step is a crash that forgets the acceptance of the row. */
  predicate Loses(s: State, step: Step, i: nat) {
    step.Crash? && step.worker in s.sending && i in s.sending[step.worker].accepted
  }

  /** How many crashes of a run forgot that the row had been accepted. */
  function Lost(steps: seq<Step>, i: nat): nat {
    if steps == [] then 0
    else
      var init, last := steps[..|steps| - 1], steps[|steps| - 1];
      Lost(init, i) + if Loses(RunFrom(Start, init), last, i) then 1 else 0
  }

  /** What one publisher had accepted is unpublished, and no other publisher holds it. */
  lemma AcceptedByOne(s: State, w: Worker, i: nat)
    requires Inv(s) && w in s.sending && i in s.sending[w].batch
    ensures !Published(s, i)
    ensures forall v :: v in s.sending && v != w ==> i !in s.sending[v].accepted
  {
    var d := s.sending[w];
    assert SendingOk(s, d);
    var k :| 0 <= k < |d.batch| && d.batch[k] == i;
    assert Unpublished(s.rows, d.batch[k]);
    forall v | v in s.sending && v != w
      ensures i !in s.sending[v].accepted
    {
      assert Apart(d.batch, s.sending[v].batch) && InOrder(s.sending[v]);
    }
  }

  lemma SendCounts(s: State, w: Worker, taken: bool, i: nat)
    requires Inv(s)
    ensures var s' := Apply(s, Send(w, taken));
            Deliveries(s', i) - Kept(s', i) == Deliveries(s, i) - Kept(s, i)
  {
    var s' := Apply(s, Send(w, taken));
    if w in s.sending && s.sending[w].next < |s.sending[w].batch| {
      var d := s.sending[w];
      var j := d.batch[d.next];
      forall v | v in s.sending && v != w
        ensures s'.sending[v] == s.sending[v]
      {
      }
      if taken {
        assert multiset(s.delivered + [j]) == multiset(s.delivered) + multiset{j};
      }
      if taken && i == j {
        AcceptedByOne(s, w, i);
        assert InOrder(d) && i !in d.batch[..d.next];
        assert !Pending(s, i);
        assert i in s'.sending[w].accepted;
      } else {
        assert i in s'.sending[w].accepted <==> i in d.accepted;
        assert Pending(s', i) <==> Pending(s, i);
      }
    }
  }

  lemma BeginCounts(s: State, w: Worker, batch: seq<nat>, i: nat)
    requires Inv(s)
    ensures Kept(Apply(s, Begin(w, batch)), i) == Kept(s, i)
  {
    var s' := Apply(s, Begin(w, batch));
    if Pending(s, i) {
      var v :| v in s.sending && i in s.sending[v].accepted;
      assert v in s'.sending && s'.sending[v] == s.sending[v];
    }
  }

  /** When a publisher leaves, only what it had accepted can stop being pending. */
  lemma LeavingSpares(s: State, s': State, w: Worker, i: nat)
    requires s'.sending == s.sending - {w} && (w in s.sending ==> i !in s.sending[w].accepted)
    ensures Pending(s', i) <==> Pending(s, i)
  {
    if Pending(s, i) {
      var v :| v in s.sending && i in s.sending[v].accepted;
      assert v in s'.sending && s'.sending[v] == s.sending[v];
    }
  }

  lemma CommitCounts(s: State, w: Worker, i: nat)
    requires Inv(s)
    ensures Kept(Apply(s, Commit(w)), i) == Kept(s, i)
  {
    var s' := Apply(s, Commit(w));
    if w in s.sending && s.sending[w].next >= |s.sending[w].batch| && InTable(s.rows, s.sending[w].batch) {
      var d := s.sending[w];
      assert InOrder(d) && d.batch[..d.next] == d.batch;
      MarkedRows(s.rows, d.batch, d.accepted);
      if i in d.accepted {
        AcceptedByOne(s, w, i);
        assert SendingOk(s, d);
        var k :| 0 <= k < |d.batch| && d.batch[k] == i;
        assert Unpublished(s.rows, d.batch[k]);
        assert Pending(s, i);
      } else {
        LeavingSpares(s, s', w, i);
      }
    }
  }

  lemma CrashCounts(s: State, w: Worker, i: nat)
    requires Inv(s)
    ensures var lost := if Loses(s, Crash(w), i) then 1 else 0;
            Kept(Apply(s, Crash(w)), i) + lost == Kept(s, i)
  {
    var s' := Apply(s, Crash(w));
    if Loses(s, Crash(w), i) {
      var d := s.sending[w];
      assert InOrder(d) && i in d.batch;
      AcceptedByOne(s, w, i);
      assert Pending(s, i) && !Pending(s', i);
    } else {
      LeavingSpares(s, s', w, i);
    }
  }

  lemma InsertCounts(s: State, event: nat, topic: string, i: nat)
    ensures Kept(Apply(s, Insert(event, topic)), i) == Kept(s, i)
  {
    var s' := Apply(s, Insert(event, topic));
    assert Pending(s', i) <==> Pending(s, i);
  }

  lemma StepCounts(s: State, step: Step, i: nat)
    requires Inv(s)
    ensures var s' := Apply(s, step);
            var lost := if Loses(s, step, i) then 1 else 0;
            Deliveries(s', i) - Kept(s', i) == Deliveries(s, i) - Kept(s, i) + lost
  {
    match step
    case Insert(event, topic) => InsertCounts(s, event, topic, i);
    case Begin(w, batch) => BeginCounts(s, w, batch, i);
    case Send(w, taken) => SendCounts(s, w, taken, i);
    case Commit(w) => CommitCounts(s, w, i);
    case Crash(w) => CrashCounts(s, w, i);
  }

  /** A row was delivered once for every crash that forgot it, and once more if it is published or about to be. */
  lemma {:induction false} DeliveriesAre(steps: seq<Step>, i: nat)
    ensures Deliveries(RunFrom(Start, steps), i) == Lost(steps, i) + Kept(RunFrom(Start, steps), i)
  {
    if steps != [] {
      var init := steps[..|steps| - 1];
      DeliveriesAre(init, i);
      RunKeeps(Start, init);
      StepCounts(RunFrom(Start, init), steps[|steps| - 1], i);
    }
  }

  /** A published row was delivered exactly once iff no crash ever forgot that it had been accepted. */
  lemma DeliveredOnceExactly(steps: seq<Step>, i: nat)
    requires Published(RunFrom(Start, steps), i)
    ensures Deliveries(RunFrom(Start, steps), i) == 1 <==> Lost(steps, i) == 0
  {
    DeliveriesAre(steps, i);
  }

  lemma RunSnoc(s: State, steps: seq<Step>, step: Step)
    ensures RunFrom(s, steps + [step]) == Apply(RunFrom(s, steps), step)
  {
    assert (steps + [step])[..|steps|] == steps;
  }

  /** Delivery is not exactly once: a publisher that crashes after sending leaves the row to be sent again. */
  lemma CrashRepeatsDelivery(w: Worker, topic: string)
    ensures var once := [Insert(0, topic), Begin(w, [0]), Send(w, true)];
            Deliveries(RunFrom(Start, once + [Crash(w)] + [Begin(w, [0])] + [Send(w, true)]), 0) == 2
  {
    var once := [Insert(0, topic), Begin(w, [0]), Send(w, true)];
    var rows := [OutboxRow(0, topic, false, 0)];
    assert once == [] + [Insert(0, topic)] + [Begin(w, [0])] + [Send(w, true)];
    RunSnoc(Start, [], Insert(0, topic));
    RunSnoc(Start, [] + [Insert(0, topic)], Begin(w, [0]));
    RunSnoc(Start, [] + [Insert(0, topic)] + [Begin(w, [0])], Send(w, true));
    assert RunFrom(Start, [] + [Insert(0, topic)]) == State(rows, map[], []);
    assert RunFrom(Start, [] + [Insert(0, topic)] + [Begin(w, [0])]) == State(rows, map[w := Sending([0], 0, {})], []);
    var sent := RunFrom(Start, once);
    assert sent.sending[w].accepted == {0};
    assert sent.sending == map[w := Sending([0], 1, {0})];
    assert sent.rows == rows && sent.delivered == [0];
    RunSnoc(Start, once, Crash(w));
    assert RunFrom(Start, once + [Crash(w)]) == State(rows, map[], [0]);
    RunSnoc(Start, once + [Crash(w)], Begin(w, [0]));
    RunSnoc(Start, once + [Crash(w)] + [Begin(w, [0])], Send(w, true));
  }
}
