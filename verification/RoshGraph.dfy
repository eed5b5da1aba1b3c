/**
 The minute graph of R.O.S.H. scoring: cumulative counts of heroes turned into counts per minute.
 A row counts the matches that lasted at least until its minute, so counts usually fall with time.
 */
module RoshGraph {
  import opened Common
  import opened Rosh
  import opened Sorting
  import Money

  const TEMPO_PRIOR := 500
  const TEMPO_WEIGHT := 0.35

  datatype TimeRow = TimeRow(hero: int, time: int, wins: int, matches: int)

  // ---- Sorting by hero and time ------------------------------------------------------------

  predicate Before(a: TimeRow, b: TimeRow) {
    a.hero < b.hero || (a.hero == b.hero && a.time <= b.time)
  }

  ghost predicate Sorted(rows: seq<TimeRow>) {
    SortedBy(Before, rows)
  }

  function SortRows(rows: seq<TimeRow>): seq<TimeRow> {
    SortBy(Before, rows)
  }

  lemma RowsSort(rows: seq<TimeRow>)
    ensures Sorted(SortRows(rows)) && multiset(SortRows(rows)) == multiset(rows)
    ensures forall r :: r in SortRows(rows) <==> r in rows
  {
    SortSorts(Before, rows);
  }

  // ---- Counts per minute -------------------------------------------------------------------

  predicate SameHeroNext(rows: seq<TimeRow>, i: nat)
    requires i < |rows|
  {
    i + 1 < |rows| && rows[i + 1].hero == rows[i].hero
  }

  /** The matches that ended in the minute of row `i`: its count less that of the hero's next row. */
  function MinuteMatches(rows: seq<TimeRow>, i: nat): int
    requires i < |rows|
  {
    if SameHeroNext(rows, i) then Max(0, rows[i].matches - rows[i + 1].matches) else rows[i].matches
  }

  function MinuteWins(rows: seq<TimeRow>, i: nat): int
    requires i < |rows|
  {
    if SameHeroNext(rows, i) then Max(0, rows[i].wins - rows[i + 1].wins) else rows[i].wins
  }

  /** The reconstructed matches of a hero from row `i` on. */
  function TotalFrom(rows: seq<TimeRow>, hero: int, i: nat): int
    requires i <= |rows|
    decreases |rows| - i
  {
    if i == |rows| then 0
    else (if rows[i].hero == hero then MinuteMatches(rows, i) else 0) + TotalFrom(rows, hero, i + 1)
  }

  ghost predicate NonNegative(rows: seq<TimeRow>) {
    forall i :: 0 <= i < |rows| ==> rows[i].matches >= 0
  }

  lemma {:induction false} NoneLeft(rows: seq<TimeRow>, hero: int, i: nat)
    requires i <= |rows| && forall j :: i <= j < |rows| ==> rows[j].hero != hero
    ensures TotalFrom(rows, hero, i) == 0
    decreases |rows| - i
  {
    if i < |rows| {
      NoneLeft(rows, hero, i + 1);
    }
  }

  /** From row `i` on the counts of its hero never rise. */
  ghost predicate FallsFrom(rows: seq<TimeRow>, i: nat) {
    forall j :: i < j < |rows| && rows[j].hero == rows[i].hero ==> rows[j].matches <= rows[j - 1].matches
  }

  /**
   Telescoping: what is reconstructed from a row on is at least its cumulative count, and equal to it
   iff the counts never rise afterwards.
   */
  lemma {:induction false} TotalTelescopes(rows: seq<TimeRow>, i: nat)
    requires Sorted(rows) && i < |rows|
    ensures TotalFrom(rows, rows[i].hero, i) >= rows[i].matches
    ensures TotalFrom(rows, rows[i].hero, i) == rows[i].matches <==> FallsFrom(rows, i)
    decreases |rows| - i
  {
    if SameHeroNext(rows, i) {
      TotalTelescopes(rows, i + 1);
      assert FallsFrom(rows, i) <==> rows[i + 1].matches <= rows[i].matches && FallsFrom(rows, i + 1);
    } else {
      forall j | i < j < |rows|
        ensures rows[j].hero != rows[i].hero
      {
        assert Before(rows[i + 1], rows[j]) || j == i + 1;
        assert Before(rows[i], rows[i + 1]);
      }
      NoneLeft(rows, rows[i].hero, i + 1);
    }
  }

  predicate FirstRowOf(rows: seq<TimeRow>, i: nat)
    requires i < |rows|
  {
    forall j :: 0 <= j < i ==> rows[j].hero != rows[i].hero
  }

  lemma {:induction false} NothingBefore(rows: seq<TimeRow>, hero: int, i: nat)
    requires i <= |rows| && forall j :: 0 <= j < i ==> rows[j].hero != hero
    ensures TotalFrom(rows, hero, 0) == TotalFrom(rows, hero, i)
  {
    if i > 0 {
      NothingBefore(rows, hero, i - 1);
    }
  }

  /** A hero's whole reconstructed total is at least its first cumulative count, and equal to it iff the counts never rise. */
  lemma HeroTotalTelescopes(rows: seq<TimeRow>, i: nat)
    requires Sorted(rows) && i < |rows| && FirstRowOf(rows, i)
    ensures TotalFrom(rows, rows[i].hero, 0) >= rows[i].matches
    ensures TotalFrom(rows, rows[i].hero, 0) == rows[i].matches <==> FallsFrom(rows, i)
  {
    NothingBefore(rows, rows[i].hero, i);
    TotalTelescopes(rows, i);
  }

  /** No minute holds more matches than the hero has in total. */
  lemma {:induction false} MinuteWithinTotal(rows: seq<TimeRow>, hero: int, start: nat, i: nat)
    requires NonNegative(rows) && start <= i < |rows| && rows[i].hero == hero
    ensures 0 <= MinuteMatches(rows, i) <= TotalFrom(rows, hero, start)
    decreases |rows| - start
  {
    TotalNonNegative(rows, hero, start + 1);
    if start < i {
      MinuteWithinTotal(rows, hero, start + 1, i);
    }
  }

  lemma {:induction false} TotalNonNegative(rows: seq<TimeRow>, hero: int, i: nat)
    requires NonNegative(rows) && i <= |rows|
    ensures TotalFrom(rows, hero, i) >= 0
    decreases |rows| - i
  {
    if i < |rows| {
      TotalNonNegative(rows, hero, i + 1);
    }
  }

  // ---- The graph ---------------------------------------------------------------------------

  /** The count of a neighbouring row, if it belongs to the same hero. */
  function MatchesAt(rows: seq<TimeRow>, hero: int, i: int): int {
    if 0 <= i < |rows| && rows[i].hero == hero then MinuteMatches(rows, i) else 0
  }

  function WinsAt(rows: seq<TimeRow>, hero: int, i: int): int {
    if 0 <= i < |rows| && rows[i].hero == hero then MinuteWins(rows, i) else 0
  }

  /** Row `i` and its neighbours within the window radius. */
  function WindowMatches(rows: seq<TimeRow>, hero: int, i: int): int {
    MatchesAt(rows, hero, i - 1) + MatchesAt(rows, hero, i) + MatchesAt(rows, hero, i + 1)
  }

  function WindowWins(rows: seq<TimeRow>, hero: int, i: int): int {
    WinsAt(rows, hero, i - 1) + WinsAt(rows, hero, i) + WinsAt(rows, hero, i + 1)
  }

  function TempoEffect(wins: int, matches: int, baseDiff: real): real
    requires matches > 0
  {
    ((wins as real / matches as real) * 100.0 - 50.0 - baseDiff)
    * (matches as real / (matches + TEMPO_PRIOR) as real) * TEMPO_WEIGHT
  }

  function StatsOf(rows: seq<TimeRow>, i: nat, baseDiff: real): Stats
    requires i < |rows| && WindowMatches(rows, rows[i].hero, i) > 0
  {
    var hero := rows[i].hero;
    Stats(TempoEffect(WindowWins(rows, hero, i), WindowMatches(rows, hero, i), baseDiff),
          MinuteMatches(rows, i), TotalFrom(rows, hero, 0))
  }

  function BucketOf(graph: map<int, Bucket>, minute: int): Bucket {
    if minute in graph then graph[minute] else map[]
  }

  /** What one row adds to the graph: a bucket for its minute, and an entry if its window has matches. */
  function AddRow(graph: map<int, Bucket>, positions: map<Pick, Base>, position: int, rows: seq<TimeRow>, i: nat)
    : map<int, Bucket>
    requires i < |rows|
  {
    var row, pick := rows[i], Pick(rows[i].hero, position);
    if !(MIN_TIME <= row.time <= MAX_TIME) || pick !in positions then graph
    else
      var bucket := BucketOf(graph, row.time);
      graph[row.time := if WindowMatches(rows, row.hero, i) <= 0 then bucket
                        else bucket[pick := StatsOf(rows, i, positions[pick].rawDiff)]]
  }

  function AddRows(graph: map<int, Bucket>, positions: map<Pick, Base>, position: int, rows: seq<TimeRow>, end: nat)
    : map<int, Bucket>
    requires end <= |rows|
  {
    if end == 0 then graph else AddRow(AddRows(graph, positions, position, rows, end - 1), positions, position, rows, end - 1)
  }

  /** The rows of positions 1 up to `end`, one list per position. */
  function GraphUpTo(data: seq<seq<TimeRow>>, positions: map<Pick, Base>, end: nat): map<int, Bucket>
    requires end <= |data|
  {
    if end == 0 then map[]
    else
      var rows := SortRows(data[end - 1]);
      AddRows(GraphUpTo(data, positions, end - 1), positions, end, rows, |rows|)
  }

  // ---- Methods -----------------------------------------------------------------------------

  /** First pass: counts per minute, and per hero the sum of them. */
  method Decumulate(rows: seq<TimeRow>) returns (normal: seq<TimeRow>, totals: map<int, int>)
    ensures |normal| == |rows|
    ensures forall i :: 0 <= i < |rows| ==>
              normal[i] == TimeRow(rows[i].hero, rows[i].time, MinuteWins(rows, i), MinuteMatches(rows, i))
    ensures forall i :: 0 <= i < |rows| ==> rows[i].hero in totals && totals[rows[i].hero] == TotalFrom(rows, rows[i].hero, 0)
  {
    normal, totals := [], map[];
    for i := 0 to |rows|
      invariant |normal| == i
      invariant forall j :: 0 <= j < i ==>
                  normal[j] == TimeRow(rows[j].hero, rows[j].time, MinuteWins(rows, j), MinuteMatches(rows, j))
      invariant forall j :: 0 <= j < i ==> rows[j].hero in totals
      invariant forall h :: (if h in totals then totals[h] else 0) + TotalFrom(rows, h, i) == TotalFrom(rows, h, 0)
    {
      var row := rows[i];
      var sameHeroNext := i + 1 < |rows| && rows[i + 1].hero == row.hero;
      var matches := if sameHeroNext then Max(0, row.matches - rows[i + 1].matches) else row.matches;
      var wins := if sameHeroNext then Max(0, row.wins - rows[i + 1].wins) else row.wins;
      totals := totals[row.hero := (if row.hero in totals then totals[row.hero] else 0) + matches];
      normal := normal + [TimeRow(row.hero, row.time, wins, matches)];
    }
  }

  /** The sums over the rows of one hero within the window. */
  method SumWindow(rows: seq<TimeRow>, normal: seq<TimeRow>, i: nat) returns (wins: int, matches: int)
    requires i < |rows| == |normal|
    requires forall j :: 0 <= j < |rows| ==>
               normal[j] == TimeRow(rows[j].hero, rows[j].time, MinuteWins(rows, j), MinuteMatches(rows, j))
    ensures wins == WindowWins(rows, rows[i].hero, i) && matches == WindowMatches(rows, rows[i].hero, i)
  {
    wins, matches := 0, 0;
    var hero := rows[i].hero;
    var start, end := Max(0, i - WINDOW_RADIUS), Min(|normal|, i + WINDOW_RADIUS + 1);
    for j := start to end
      invariant matches == (if j > i - 1 then MatchesAt(rows, hero, i - 1) else 0)
                           + (if j > i then MatchesAt(rows, hero, i) else 0)
                           + (if j > i + 1 then MatchesAt(rows, hero, i + 1) else 0)
      invariant wins == (if j > i - 1 then WinsAt(rows, hero, i - 1) else 0)
                        + (if j > i then WinsAt(rows, hero, i) else 0)
                        + (if j > i + 1 then WinsAt(rows, hero, i + 1) else 0)
    {
      if normal[j].hero == hero {
        wins, matches := wins + normal[j].wins, matches + normal[j].matches;
      }
    }
  }

  /** Second pass over the rows of one position. */
  method AddPosition(
    before: map<int, Bucket>, positions: map<Pick, Base>, position: int, rows: seq<TimeRow>, normal: seq<TimeRow>,
    totals: map<int, int>)
    returns (graph: map<int, Bucket>)
    requires |normal| == |rows|
    requires forall i :: 0 <= i < |rows| ==>
               normal[i] == TimeRow(rows[i].hero, rows[i].time, MinuteWins(rows, i), MinuteMatches(rows, i))
    requires forall i :: 0 <= i < |rows| ==> rows[i].hero in totals && totals[rows[i].hero] == TotalFrom(rows, rows[i].hero, 0)
    ensures graph == AddRows(before, positions, position, rows, |rows|)
  {
    graph := before;
    for i := 0 to |rows|
      invariant graph == AddRows(before, positions, position, rows, i)
    {
      var row, pick := normal[i], Pick(rows[i].hero, position);
      if row.time < MIN_TIME || row.time > MAX_TIME {
        continue;
      }
      if pick !in positions {
        continue;
      }
      if row.time !in graph {
        graph := graph[row.time := map[]];
      }
      var wins, matches := SumWindow(rows, normal, i);
      if matches <= 0 {
        assert graph == AddRows(before, positions, position, rows, i + 1);
        continue;
      }
      var stats := Stats(TempoEffect(wins, matches, positions[pick].rawDiff), row.matches, totals[row.hero]);
      graph := graph[row.time := graph[row.time][pick := stats]];
    }
  }

  method BuildGraph(data: seq<seq<TimeRow>>, positions: map<Pick, Base>) returns (graph: map<int, Bucket>)
    ensures graph == GraphUpTo(data, positions, |data|)
  {
    graph := map[];
    for p := 0 to |data|
      invariant graph == GraphUpTo(data, positions, p)
    {
      var rows := SortRows(data[p]);
      var normal, totals := Decumulate(rows);
      graph := AddPosition(graph, positions, p + 1, rows, normal, totals);
    }
  }

  // ---- What the graph guarantees -------------------------------------------------------------

  predicate StatsOk(s: Stats) {
    0 <= s.matches <= s.total
  }

  ghost predicate BucketOk(bucket: Bucket) {
    forall p :: p in bucket ==> StatsOk(bucket[p])
  }

  ghost predicate BucketsOk(graph: map<int, Bucket>) {
    GraphOk(graph) && forall m :: m in graph ==> BucketOk(graph[m])
  }

  lemma AddRowKeeps(graph: map<int, Bucket>, positions: map<Pick, Base>, position: int, rows: seq<TimeRow>, i: nat)
    requires BucketsOk(graph) && NonNegative(rows) && i < |rows|
    ensures BucketsOk(AddRow(graph, positions, position, rows, i))
  {
    MinuteWithinTotal(rows, rows[i].hero, 0, i);
    assert BucketOk(BucketOf(graph, rows[i].time));
  }

  lemma {:induction false} AddRowsKeep(
    graph: map<int, Bucket>, positions: map<Pick, Base>, position: int, rows: seq<TimeRow>, end: nat)
    requires BucketsOk(graph) && NonNegative(rows) && end <= |rows|
    ensures BucketsOk(AddRows(graph, positions, position, rows, end))
  {
    if end > 0 {
      AddRowsKeep(graph, positions, position, rows, end - 1);
      AddRowKeeps(AddRows(graph, positions, position, rows, end - 1), positions, position, rows, end - 1);
    }
  }

  /** Every entry of the graph lies in minutes 20 to 60 and counts no more matches than the hero's total. */
  lemma {:induction false} GraphIsOk(data: seq<seq<TimeRow>>, positions: map<Pick, Base>, end: nat)
    requires end <= |data| && forall p :: 0 <= p < |data| ==> NonNegative(data[p])
    ensures BucketsOk(GraphUpTo(data, positions, end))
  {
    if end > 0 {
      GraphIsOk(data, positions, end - 1);
      var rows := SortRows(data[end - 1]);
      RowsSort(data[end - 1]);
      forall i | 0 <= i < |rows|
        ensures rows[i].matches >= 0
      {
        assert rows[i] in data[end - 1];
      }
      AddRowsKeep(GraphUpTo(data, positions, end - 1), positions, end, rows, |rows|);
    }
  }

  lemma {:induction false} SupportWithinTotal(picks: seq<Pick>, bucket: Bucket)
    requires BucketOk(bucket)
    ensures 0 <= MatchSum(picks, bucket) <= TotalSum(picks, bucket)
  {
    if picks != [] {
      SupportWithinTotal(picks[..|picks| - 1], bucket);
    }
  }

  lemma PercentageInRange(matches: int, total: int)
    requires 0 <= matches <= total
    ensures 0.0 <= Percentage(matches, total) <= 100.0
  {
    if total > 0 {
      var q := matches as real / total as real;
      assert 0.0 <= q <= 1.0;
      Money.RoundMonotone(0.0, q * 100.0 * 10.0);
      Money.RoundMonotone(q * 100.0 * 10.0, 1000.0);
      Money.RoundWhole(0);
      Money.RoundWhole(1000);
    }
  }

  /** On every graph built from non-negative counts each minute's match percentage lies between 0 and 100. */
  lemma MatchPercentageInRange(
    data: seq<seq<TimeRow>>, positions: map<Pick, Base>, radiant: seq<Pick>, dire: seq<Pick>, a: Analysis, player: real,
    minute: int)
    requires forall p :: 0 <= p < |data| ==> NonNegative(data[p])
    requires a.graph == GraphUpTo(data, positions, |data|) && minute in a.graph
    ensures 0.0 <= RowFor(radiant, dire, a, player, minute).matchPercentage <= 100.0
  {
    GraphIsOk(data, positions, |data|);
    SupportWithinTotal(radiant, a.graph[minute]);
    SupportWithinTotal(dire, a.graph[minute]);
    PercentageInRange(MatchSum(radiant, a.graph[minute]) + MatchSum(dire, a.graph[minute]),
                      TotalSum(radiant, a.graph[minute]) + TotalSum(dire, a.graph[minute]));
  }
}
