/** What an entry of the minute graph says: the hero's tempo in the minutes around, from what its rows count. */
module RoshEntries {
  import opened Common
  import opened Rosh
  import opened RoshGraph
  import opened Sorting

  // ---- Counts of one minute --------------------------------------------------------------------

  /** What a cumulative count loses to the hero's next row, if anything; the last row keeps all of it. */
  function Loss(rows: seq<TimeRow>, count: TimeRow -> int): int -> int {
    (j: int) =>
      if !(0 <= j < |rows|) then 0
      else if j + 1 < |rows| && rows[j + 1].hero == rows[j].hero then Max(0, count(rows[j]) - count(rows[j + 1]))
      else count(rows[j])
  }

  function Matches(r: TimeRow): int { r.matches }
  function Wins(r: TimeRow): int { r.wins }

  /** The rows of the hero of row `i` among it and its two neighbours. */
  function Around(rows: seq<TimeRow>, i: nat): seq<int>
    requires i < |rows|
  {
    (if i > 0 && rows[i - 1].hero == rows[i].hero then [i - 1] else []) + [i]
    + (if i + 1 < |rows| && rows[i + 1].hero == rows[i].hero then [i + 1] else [])
  }

  function AllOf(rows: seq<TimeRow>, hero: int, end: nat): seq<int>
    requires end <= |rows|
  {
    if end == 0 then [] else AllOf(rows, hero, end - 1) + if rows[end - 1].hero == hero then [end - 1] else []
  }

  function Lost(rows: seq<TimeRow>, count: TimeRow -> int, indices: seq<int>): int {
    SumBy(Loss(rows, count), indices)
  }

  // ---- Entries ---------------------------------------------------------------------------------

  /**
   The tempo is the lead of the win rate around the minute over half and over the hero's base lead, in percent,
   shrunk towards zero by 500 matches and weighted by 0.35.
   */
  predicate TempoIs(tempo: real, wins: int, matches: int, baseLead: real)
    requires matches > 0
  {
    tempo == (wins as real / matches as real * 100.0 - 50.0 - baseLead) * (matches as real / (matches + 500) as real) * 0.35
  }

  /** The entry belongs to row `i`: its own matches, all matches of the hero, and the tempo around it. */
  ghost predicate EntryOf(s: Stats, rows: seq<TimeRow>, i: nat, baseLead: real) {
    && i < |rows| && Lost(rows, Matches, Around(rows, i)) > 0
    && s.matches == Loss(rows, Matches)(i)
    && s.total == Lost(rows, Matches, AllOf(rows, rows[i].hero, |rows|))
    && TempoIs(s.tempo, Lost(rows, Wins, Around(rows, i)), Lost(rows, Matches, Around(rows, i)), baseLead)
  }

  lemma SumOfFew(f: int -> int, a: seq<int>, i: int, c: seq<int>)
    requires |a| <= 1 && |c| <= 1
    ensures SumBy(f, a + [i] + c) == (if a == [] then 0 else f(a[0])) + f(i) + if c == [] then 0 else f(c[0])
  {
    SumConcat(f, a + [i], c);
    SumConcat(f, a, [i]);
    assert [i][..0] == [];
    assert a != [] ==> a[..0] == [];
    assert c != [] ==> c[..0] == [];
  }

  lemma LossIs(rows: seq<TimeRow>, i: nat)
    requires i < |rows|
    ensures Loss(rows, Matches)(i) == MinuteMatches(rows, i) && Loss(rows, Wins)(i) == MinuteWins(rows, i)
  {
    assert Matches(rows[i]) == rows[i].matches && Wins(rows[i]) == rows[i].wins;
    if i + 1 < |rows| {
      assert Matches(rows[i + 1]) == rows[i + 1].matches && Wins(rows[i + 1]) == rows[i + 1].wins;
    }
  }

  lemma WindowsAre(rows: seq<TimeRow>, i: nat)
    requires i < |rows|
    ensures WindowMatches(rows, rows[i].hero, i) == Lost(rows, Matches, Around(rows, i))
    ensures WindowWins(rows, rows[i].hero, i) == Lost(rows, Wins, Around(rows, i))
  {
    var a := if i > 0 && rows[i - 1].hero == rows[i].hero then [i - 1] else [];
    var c := if i + 1 < |rows| && rows[i + 1].hero == rows[i].hero then [i + 1] else [];
    LossIs(rows, i);
    if i > 0 {
      LossIs(rows, i - 1);
    }
    if i + 1 < |rows| {
      LossIs(rows, i + 1);
    }
    SumOfFew(Loss(rows, Matches), a, i, c);
    SumOfFew(Loss(rows, Wins), a, i, c);
  }

  /** The reconstructed total of a hero, summed from the back. */
  lemma {:induction false} TotalsAre(rows: seq<TimeRow>, hero: int, end: nat)
    requires end <= |rows|
    ensures TotalFrom(rows, hero, 0) == Lost(rows, Matches, AllOf(rows, hero, end)) + TotalFrom(rows, hero, end)
  {
    if end > 0 {
      TotalsAre(rows, hero, end - 1);
      LossIs(rows, end - 1);
      SumSnoc(Loss(rows, Matches), AllOf(rows, hero, end - 1), end - 1);
      assert AllOf(rows, hero, end - 1) + [] == AllOf(rows, hero, end - 1);
    }
  }

  lemma StatsAreEntry(rows: seq<TimeRow>, i: nat, baseLead: real)
    requires i < |rows| && WindowMatches(rows, rows[i].hero, i) > 0
    ensures EntryOf(StatsOf(rows, i, baseLead), rows, i, baseLead)
  {
    WindowsAre(rows, i);
    LossIs(rows, i);
    TotalsAre(rows, rows[i].hero, |rows|);
  }

  // ---- The whole graph ---------------------------------------------------------------------------

  /** Some row of the pick's position, hero and minute accounts for the entry. */
  ghost predicate Accounted(s: Stats, data: seq<seq<TimeRow>>, positions: map<Pick, Base>, pick: Pick, minute: int) {
    && 1 <= pick.position <= |data| && pick in positions && 20 <= minute <= 60
    && SomeRowAccounts(s, SortRows(data[pick.position - 1]), pick, minute, positions[pick].rawDiff)
  }

  ghost predicate SomeRowAccounts(s: Stats, rows: seq<TimeRow>, pick: Pick, minute: int, baseLead: real) {
    exists i: nat :: RowAccounts(s, rows, i, pick, minute, baseLead)
  }

  ghost predicate RowAccounts(s: Stats, rows: seq<TimeRow>, i: nat, pick: Pick, minute: int, baseLead: real) {
    i < |rows| && rows[i].hero == pick.hero && rows[i].time == minute && EntryOf(s, rows, i, baseLead)
  }

  ghost predicate AllAccounted(graph: map<int, Bucket>, data: seq<seq<TimeRow>>, positions: map<Pick, Base>) {
    forall m, pick :: m in graph && pick in graph[m] ==> Accounted(graph[m][pick], data, positions, pick, m)
  }

  lemma AddRowAccounts(
    graph: map<int, Bucket>, data: seq<seq<TimeRow>>, positions: map<Pick, Base>, position: int, rows: seq<TimeRow>, i: nat)
    requires AllAccounted(graph, data, positions) && 1 <= position <= |data| && rows == SortRows(data[position - 1])
    requires i < |rows|
    ensures AllAccounted(AddRow(graph, positions, position, rows, i), data, positions)
  {
    var pick, after := Pick(rows[i].hero, position), AddRow(graph, positions, position, rows, i);
    forall m, p | m in after && p in after[m]
      ensures Accounted(after[m][p], data, positions, p, m)
    {
      if m == rows[i].time && p == pick && pick in positions && WindowMatches(rows, rows[i].hero, i) > 0
         && MIN_TIME <= m <= MAX_TIME {
        StatsAreEntry(rows, i, positions[pick].rawDiff);
        assert RowAccounts(after[m][p], rows, i, pick, m, positions[pick].rawDiff);
      } else {
        assert m in graph && p in graph[m] && after[m][p] == graph[m][p];
      }
    }
  }

  lemma {:induction false} AddRowsAccount(
    graph: map<int, Bucket>, data: seq<seq<TimeRow>>, positions: map<Pick, Base>, position: int, rows: seq<TimeRow>, end: nat)
    requires AllAccounted(graph, data, positions) && 1 <= position <= |data| && rows == SortRows(data[position - 1])
    requires end <= |rows|
    ensures AllAccounted(AddRows(graph, positions, position, rows, end), data, positions)
  {
    if end > 0 {
      AddRowsAccount(graph, data, positions, position, rows, end - 1);
      AddRowAccounts(AddRows(graph, positions, position, rows, end - 1), data, positions, position, rows, end - 1);
    }
  }

  /** Every entry of the graph is the one that some row of its position, hero and minute calls for. */
  lemma {:induction false} EntriesAreAccounted(data: seq<seq<TimeRow>>, positions: map<Pick, Base>, end: nat)
    requires end <= |data|
    ensures AllAccounted(GraphUpTo(data, positions, end), data, positions)
  {
    if end > 0 {
      EntriesAreAccounted(data, positions, end - 1);
      var rows := SortRows(data[end - 1]);
      AddRowsAccount(GraphUpTo(data, positions, end - 1), data, positions, end, rows, |rows|);
    }
  }

  ghost predicate HasEntry(graph: map<int, Bucket>, pick: Pick, minute: int) {
    minute in graph && pick in graph[minute]
  }

  lemma {:induction false} RowsLeaveEntries(
    graph: map<int, Bucket>, positions: map<Pick, Base>, position: int, rows: seq<TimeRow>, end: nat, pick: Pick, minute: int)
    requires end <= |rows|
    requires || HasEntry(graph, pick, minute)
             || (pick in positions && pick.position == position && MIN_TIME <= minute <= MAX_TIME
                 && SomeRowCalls(rows, end, pick, minute))
    ensures HasEntry(AddRows(graph, positions, position, rows, end), pick, minute)
  {
    if end > 0 {
      if HasEntry(graph, pick, minute) || SomeRowCalls(rows, end - 1, pick, minute) {
        RowsLeaveEntries(graph, positions, position, rows, end - 1, pick, minute);
      } else {
        var i: nat :| RowCalls(rows, i, end, pick, minute);
        assert i < end - 1 ==> RowCalls(rows, i, end - 1, pick, minute);
        WindowsAre(rows, end - 1);
      }
    }
  }

  /** A row of the hero and minute, before `end`, with matches around it. */
  predicate RowCalls(rows: seq<TimeRow>, i: nat, end: nat, pick: Pick, minute: int) {
    i < end <= |rows| && rows[i].hero == pick.hero && rows[i].time == minute && Lost(rows, Matches, Around(rows, i)) > 0
  }

  ghost predicate SomeRowCalls(rows: seq<TimeRow>, end: nat, pick: Pick, minute: int) {
    exists i: nat :: RowCalls(rows, i, end, pick, minute)
  }

  /** Conversely every row between minutes 20 and 60 with a base and with matches around it leaves an entry. */
  lemma {:induction false} RowsHaveEntries(
    data: seq<seq<TimeRow>>, positions: map<Pick, Base>, end: nat, pick: Pick, minute: int, i: nat)
    requires 1 <= pick.position <= end <= |data| && pick in positions && 20 <= minute <= 60
    requires RowCalls(SortRows(data[pick.position - 1]), i, |SortRows(data[pick.position - 1])|, pick, minute)
    ensures HasEntry(GraphUpTo(data, positions, end), pick, minute)
  {
    var rows := SortRows(data[end - 1]);
    if pick.position < end {
      RowsHaveEntries(data, positions, end - 1, pick, minute, i);
    }
    RowsLeaveEntries(GraphUpTo(data, positions, end - 1), positions, end, rows, |rows|, pick, minute);
  }
}
