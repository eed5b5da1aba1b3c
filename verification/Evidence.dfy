/**
 Merging of match-result evidence from several providers into one result record per map.
 Raw events and teams are named by strings; times are in microseconds.
 */
module Evidence {
  import opened Common

  datatype Row = Row(
    rawEvent: string, provider: string, matchId: string, winner: Option<string>, observedAt: int, firstUsableAt: int,
    normalizer: string, confidence: real, conflicted: bool)

  datatype Record = Record(winner: Option<string>, basic: int, advanced: Option<int>, conflict: bool)

  /** The rows of one map, in insertion order, and its result record. */
  datatype Table = Table(rows: seq<Row>, record: Option<Record>)

  datatype Call = Call(
    rawEvent: string, provider: string, matchId: string, winner: Option<string>, observedAt: int, basic: int,
    normalizer: string, confidence: real, advanced: Option<int>, conflict: bool)

  datatype Reply = Rejected | Recorded(record: Record)

  // ---- Specification -------------------------------------------------------------------

  predicate Valid(c: Call) {
    0.0 <= c.confidence <= 1.0
  }

  predicate Knows(rows: seq<Row>, rawEvent: string) {
    exists i :: 0 <= i < |rows| && rows[i].rawEvent == rawEvent
  }

  function NewRow(c: Call): Row {
    Row(c.rawEvent, c.provider, c.matchId, c.winner, c.observedAt, c.basic, c.normalizer, c.confidence, c.conflict)
  }

  /** A raw event is stored the first time it is seen. */
  function WithRow(rows: seq<Row>, c: Call): seq<Row> {
    if Knows(rows, c.rawEvent) then rows else rows + [NewRow(c)]
  }

  function Winners(rows: seq<Row>): set<string> {
    set i | 0 <= i < |rows| && rows[i].winner.Some? :: rows[i].winner.value
  }

  predicate AnyConflicted(rows: seq<Row>) {
    exists i :: 0 <= i < |rows| && rows[i].conflicted
  }

  function Marked(rows: seq<Row>, conflict: bool): seq<Row> {
    seq(|rows|, i requires 0 <= i < |rows| => rows[i].(conflicted := conflict))
  }

  predicate Contradicts(rows: seq<Row>, flagged: bool) {
    flagged || |Winners(rows)| > 1 || AnyConflicted(rows)
  }

  /** The only winner, unless there is a conflict. */
  ghost function Resolved(winners: set<string>, conflict: bool): Option<string> {
    if |winners| == 1 && !conflict then
      var w :| w in winners;
      Some(w)
    else None
  }

  function EarlierOf(x: Option<int>, y: Option<int>): Option<int> {
    if y.None? then x else if x.None? then y else Some(Min(x.value, y.value))
  }

  ghost function Merge(old_: Option<Record>, rows: seq<Row>, c: Call): Record {
    var conflict := Contradicts(rows, c.conflict);
    if old_.None? then Record(Resolved(Winners(rows), conflict), c.basic, c.advanced, conflict)
    else
      Record(Resolved(Winners(rows), conflict), Min(old_.value.basic, c.basic), EarlierOf(old_.value.advanced, c.advanced), conflict)
  }

  ghost function Settle(t: Table, c: Call): Table {
    if !Valid(c) then t
    else
      var rows := WithRow(t.rows, c);
      Table(Marked(rows, Contradicts(rows, c.conflict)), Some(Merge(t.record, rows, c)))
  }

  lemma OnlyMember(s: set<string>, x: string, y: string)
    requires |s| == 1 && x in s && y in s
    ensures x == y
  {
    if x != y {
      assert {x, y} <= s;
      SubsetSize({x, y}, s);
    }
  }

  lemma {:induction false} SubsetSize(a: set<string>, b: set<string>)
    requires a <= b
    ensures |a| <= |b|
  {
    assert b == a + (b - a);
  }

  // ---- The service ---------------------------------------------------------------------

  class SettlementService {
    var evidence: map<string, seq<Row>>
    var records: map<string, Record>

    function TableOf(mapId: string): Table
      reads this
    {
      Table(if mapId in evidence then evidence[mapId] else [], if mapId in records then Some(records[mapId]) else None)
    }

    constructor ()
      ensures evidence == map[] && records == map[]
    {
      evidence, records := map[], map[];
    }

    /** Adds the evidence, recomputes the conflict over all rows of the map, and overwrites flags and record. */
    method SettleMap(mapId: string, c: Call) returns (r: Reply)
      modifies this
      ensures TableOf(mapId) == Settle(old(TableOf(mapId)), c)
      ensures r == if Valid(c) then Recorded(TableOf(mapId).record.value) else Rejected
      ensures forall m :: m != mapId ==> TableOf(m) == old(TableOf(m))
    {
      if !(0.0 <= c.confidence <= 1.0) {
        return Rejected;
      }
      var rows := if mapId in evidence then evidence[mapId] else [];
      var known := FindEvidence(rows, c.rawEvent);
      if !known {
        rows := rows + [Row(c.rawEvent, c.provider, c.matchId, c.winner, c.observedAt, c.basic, c.normalizer,
                            c.confidence, c.conflict)];
      }
      var winners, anyConflicted := Survey(rows);
      var conflict := c.conflict || |winners| > 1 || anyConflicted;
      var winner := None;
      if |winners| == 1 && !conflict {
        var w :| w in winners;
        winner := Some(w);
        forall v | v in winners ensures v == w { OnlyMember(winners, v, w); }
      }
      rows := MarkAll(rows, conflict);
      evidence := evidence[mapId := rows];
      var record := Record(winner, c.basic, c.advanced, conflict);
      if mapId in records {
        record := records[mapId].(conflict := conflict, winner := winner, basic := Min(records[mapId].basic, c.basic));
        if c.advanced.Some? {
          record := record.(advanced := if record.advanced.Some? then Some(Min(record.advanced.value, c.advanced.value))
                                        else c.advanced);
        }
      }
      records := records[mapId := record];
      return Recorded(record);
    }
  }

  method FindEvidence(rows: seq<Row>, rawEvent: string) returns (known: bool)
    ensures known <==> Knows(rows, rawEvent)
  {
    for i := 0 to |rows|
      invariant forall j :: 0 <= j < i ==> rows[j].rawEvent != rawEvent
    {
      if rows[i].rawEvent == rawEvent {
        return true;
      }
    }
    return false;
  }

  /** One pass over the rows: who won according to them, and whether one is in conflict. */
  method Survey(rows: seq<Row>) returns (winners: set<string>, conflicted: bool)
    ensures winners == Winners(rows) && (conflicted <==> AnyConflicted(rows))
  {
    winners, conflicted := {}, false;
    for i := 0 to |rows|
      invariant winners == Winners(rows[..i])
      invariant conflicted <==> AnyConflicted(rows[..i])
    {
      var before, after := rows[..i], rows[..i + 1];
      assert after == before + [rows[i]];
      assert Winners(after) == Winners(before) + Winners([rows[i]]) by { WinnersConcat(before, [rows[i]]); }
      if rows[i].winner.Some? {
        winners := winners + {rows[i].winner.value};
      }
      conflicted := conflicted || rows[i].conflicted;
      assert AnyConflicted(after) <==> AnyConflicted(before) || rows[i].conflicted by {
        assert forall j :: 0 <= j < i ==> after[j] == before[j];
        assert after[i] == rows[i];
      }
    }
    assert rows[..|rows|] == rows;
  }

  lemma WinnersConcat(a: seq<Row>, b: seq<Row>)
    ensures Winners(a + b) == Winners(a) + Winners(b)
  {
    forall w
      ensures w in Winners(a + b) <==> w in Winners(a) || w in Winners(b)
    {
      if w in Winners(a) {
        var i :| 0 <= i < |a| && a[i].winner == Some(w);
        assert (a + b)[i] == a[i];
      }
      if w in Winners(b) {
        var i :| 0 <= i < |b| && b[i].winner == Some(w);
        assert (a + b)[|a| + i] == b[i];
      }
    }
  }

  method MarkAll(rows: seq<Row>, conflict: bool) returns (marked: seq<Row>)
    ensures marked == Marked(rows, conflict)
  {
    marked := rows;
    for i := 0 to |rows|
      invariant |marked| == |rows|
      invariant forall j :: 0 <= j < i ==> marked[j] == rows[j].(conflicted := conflict)
      invariant forall j :: i <= j < |rows| ==> marked[j] == rows[j]
    {
      marked := marked[i := marked[i].(conflicted := conflict)];
    }
  }
}
