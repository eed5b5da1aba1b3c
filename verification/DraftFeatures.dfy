/**
 Features of a draft curve. The curve is the list of adjusted edges by minute, in ascending order of
 minutes, which is the order in which the curve is assembled and in which ties are broken.
 */
module DraftFeatures {
  import opened Common
  import opened Rosh

  datatype Point = Point(minute: int, edge: real)

  datatype Features = Features(
    currentMinute: Option<int>, currentEdge: Option<real>, next5: Option<real>, next10: Option<real>,
    peakMinute: Option<int>, peakEdge: Option<real>, crossOver: Option<int>,
    early: Option<real>, mid: Option<real>, late: Option<real>, ultraLate: Option<real>,
    slope5: Option<real>, slope10: Option<real>)

  // ---- Specification -------------------------------------------------------------------

  function AbsInt(x: int): int {
    if x < 0 then -x else x
  }

  /** The first point of those nearest to the minute. */
  function NearestIndex(values: seq<Point>, minute: int): (i: nat)
    requires values != []
    ensures i < |values|
  {
    if |values| == 1 then 0
    else
      var n := |values| - 1;
      var i := NearestIndex(values[..n], minute);
      if AbsInt(values[n].minute - minute) < AbsInt(values[i].minute - minute) then n else i
  }

  function Nearest(values: seq<Point>, minute: int): Option<real> {
    if values == [] then None else Some(values[NearestIndex(values, minute)].edge)
  }

  /** The first point of those with the largest magnitude. */
  function PeakIndex(values: seq<Point>): (i: nat)
    requires values != []
    ensures i < |values|
  {
    if |values| == 1 then 0
    else
      var n := |values| - 1;
      var i := PeakIndex(values[..n]);
      if Abs(values[n].edge) > Abs(values[i].edge) then n else i
  }

  function SumIn(values: seq<Point>, start: int, end: int): real {
    if values == [] then 0.0
    else
      var p := values[|values| - 1];
      SumIn(values[..|values| - 1], start, end) + if start <= p.minute <= end then p.edge else 0.0
  }

  function CountIn(values: seq<Point>, start: int, end: int): nat {
    if values == [] then 0
    else CountIn(values[..|values| - 1], start, end) + if start <= values[|values| - 1].minute <= end then 1 else 0
  }

  function RangeAverage(values: seq<Point>, start: int, end: int): Option<real> {
    if CountIn(values, start, end) == 0 then None
    else Some(SumIn(values, start, end) / CountIn(values, start, end) as real)
  }

  function WindowAverage(values: seq<Point>, start: Option<int>, width: int): Option<real> {
    if start.None? then None else RangeAverage(values, start.value, start.value + width)
  }

  function Slope(values: seq<Point>, start: Option<int>, width: int): Option<real>
    requires width != 0
  {
    if start.None? || values == [] then None
    else Some((Nearest(values, Min(start.value + width, 60)).value - Nearest(values, start.value).value) / width as real)
  }

  /** The edge changes sign between the point before `i` and the point at `i`; a zero in between hides it. */
  predicate Crosses(values: seq<Point>, i: nat)
    requires i < |values|
  {
    i > 0 && (values[i - 1].edge < 0.0 < values[i].edge || values[i - 1].edge > 0.0 > values[i].edge)
  }

  function CrossOverFrom(values: seq<Point>, i: nat): Option<int>
    requires i <= |values|
    decreases |values| - i
  {
    if i == |values| then None else if Crosses(values, i) then Some(values[i].minute) else CrossOverFrom(values, i + 1)
  }

  function Derive(values: seq<Point>, minute: Option<int>): Features {
    var current := if minute.Some? && minute.value >= 20 then minute else None;
    Features(
      current, if current.Some? then Nearest(values, current.value) else None,
      WindowAverage(values, current, 5), WindowAverage(values, current, 10),
      if values == [] then None else Some(values[PeakIndex(values)].minute),
      if values == [] then None else Some(values[PeakIndex(values)].edge),
      CrossOverFrom(values, 0),
      RangeAverage(values, 20, 29), RangeAverage(values, 30, 39), RangeAverage(values, 40, 49), RangeAverage(values, 50, 60),
      Slope(values, current, 5), Slope(values, current, 10))
  }

  // ---- The cross-over loop -----------------------------------------------------------------

  method CrossOver(values: seq<Point>) returns (r: Option<int>)
    ensures r == CrossOverFrom(values, 0)
  {
    var previous := None;
    for i := 0 to |values|
      invariant previous == if i == 0 then None else Some(values[i - 1].edge)
      invariant CrossOverFrom(values, i) == CrossOverFrom(values, 0)
    {
      var value := values[i].edge;
      if previous.Some? && (previous.value < 0.0 < value || previous.value > 0.0 > value) {
        return Some(values[i].minute);
      }
      previous := Some(value);
    }
    return None;
  }

  /** The cross-over is the first change of sign between neighbouring points, if there is one. */
  lemma {:induction false} CrossOverIsFirst(values: seq<Point>, i: nat) returns (k: nat)
    requires i <= |values|
    ensures i <= k <= |values| && forall j :: i <= j < k ==> !Crosses(values, j)
    ensures CrossOverFrom(values, i) == if k < |values| then Some(values[k].minute) else None
    ensures k < |values| ==> Crosses(values, k)
    decreases |values| - i
  {
    k := i;
    if i < |values| && !Crosses(values, i) {
      k := CrossOverIsFirst(values, i + 1);
    }
  }

  /** The peak is the earliest of the points with the largest magnitude. */
  lemma {:induction false} PeakIsFirstLargest(values: seq<Point>, j: nat)
    requires j < |values|
    ensures Abs(values[j].edge) <= Abs(values[PeakIndex(values)].edge)
    ensures j < PeakIndex(values) ==> Abs(values[j].edge) < Abs(values[PeakIndex(values)].edge)
  {
    var n := |values| - 1;
    if n > 0 {
      if j < n {
        PeakIsFirstLargest(values[..n], j);
      } else {
        PeakIsFirstLargest(values[..n], 0);
      }
    }
  }

  lemma {:induction false} NearestIsFirst(values: seq<Point>, minute: int, j: nat)
    requires j < |values|
    ensures AbsInt(values[NearestIndex(values, minute)].minute - minute) <= AbsInt(values[j].minute - minute)
    ensures j < NearestIndex(values, minute) ==>
              AbsInt(values[NearestIndex(values, minute)].minute - minute) < AbsInt(values[j].minute - minute)
  {
    var n := |values| - 1;
    if n > 0 {
      if j < n {
        NearestIsFirst(values[..n], minute, j);
      } else {
        NearestIsFirst(values[..n], minute, 0);
      }
    }
  }

  // ---- What the features say -----------------------------------------------------------------

  function EdgeOf(p: Point): real {
    p.edge
  }

  /** The points of the minutes from one to another, both included. */
  function Between(values: seq<Point>, start: int, end: int): seq<Point> {
    if values == [] then []
    else
      var p := values[|values| - 1];
      Between(values[..|values| - 1], start, end) + if start <= p.minute <= end then [p] else []
  }

  /** The mean edge of some points, if there are any. */
  function MeanEdge(points: seq<Point>): Option<real> {
    if points == [] then None else Some(SumReal(EdgeOf, points) / |points| as real)
  }

  lemma {:induction false} SumsBetween(values: seq<Point>, start: int, end: int)
    ensures SumIn(values, start, end) == SumReal(EdgeOf, Between(values, start, end))
    ensures CountIn(values, start, end) == |Between(values, start, end)|
  {
    if values != [] {
      var n := |values| - 1;
      SumsBetween(values[..n], start, end);
      var before := Between(values[..n], start, end);
      assert (before + [values[n]])[..|before|] == before;
      assert before + [] == before;
    }
  }

  lemma AverageIs(values: seq<Point>, start: int, end: int)
    ensures RangeAverage(values, start, end) == MeanEdge(Between(values, start, end))
  {
    SumsBetween(values, start, end);
  }

  /** The averages are those of their ranges of minutes, and a current minute below 20 is none. */
  lemma AveragesSay(values: seq<Point>, minute: Option<int>)
    ensures var f := Derive(values, minute);
            && f.early == MeanEdge(Between(values, 20, 29)) && f.mid == MeanEdge(Between(values, 30, 39))
            && f.late == MeanEdge(Between(values, 40, 49)) && f.ultraLate == MeanEdge(Between(values, 50, 60))
            && (f.currentMinute.Some? <==> minute.Some? && minute.value >= 20)
            && (f.currentMinute.Some? ==> f.currentMinute == minute)
  {
    AverageIs(values, 20, 29);
    AverageIs(values, 30, 39);
    AverageIs(values, 40, 49);
    AverageIs(values, 50, 60);
  }

  /** The means of the next five and ten minutes. */
  lemma {:induction false} OutlookSays(values: seq<Point>, at: int)
    requires at >= 20
    ensures Derive(values, Some(at)).next5 == MeanEdge(Between(values, at, at + 5))
    ensures Derive(values, Some(at)).next10 == MeanEdge(Between(values, at, at + 10))
  {
    AverageIs(values, at, at + 5);
    AverageIs(values, at, at + 10);
  }

  /** The edge of the nearest point, whose meaning `NearestIsFirst` states. */
  function EdgeNear(values: seq<Point>, minute: int): real
    requires values != []
  {
    values[NearestIndex(values, minute)].edge
  }

  /** A slope leads from the current edge to the edge some minutes later, but no later than minute 60. */
  lemma {:induction false} SlopesSay(values: seq<Point>, at: int)
    requires at >= 20 && values != []
    ensures var f := Derive(values, Some(at));
            && f.currentEdge == Some(EdgeNear(values, at))
            && f.slope5 == Some((EdgeNear(values, if at > 55 then 60 else at + 5) - EdgeNear(values, at)) / 5.0)
            && f.slope10 == Some((EdgeNear(values, if at > 50 then 60 else at + 10) - EdgeNear(values, at)) / 10.0)
  {
  }

  // ---- Swapping the sides ------------------------------------------------------------------

  function Negated(values: seq<Point>): seq<Point> {
    seq(|values|, i requires 0 <= i < |values| => Point(values[i].minute, -values[i].edge))
  }

  function Minus(x: Option<real>): Option<real> {
    if x.Some? then Some(-x.value) else None
  }

  function Opposed(f: Features): Features {
    Features(f.currentMinute, Minus(f.currentEdge), Minus(f.next5), Minus(f.next10), f.peakMinute, Minus(f.peakEdge),
             f.crossOver, Minus(f.early), Minus(f.mid), Minus(f.late), Minus(f.ultraLate), Minus(f.slope5), Minus(f.slope10))
  }

  lemma NegatedInit(values: seq<Point>)
    requires values != []
    ensures Negated(values)[..|values| - 1] == Negated(values[..|values| - 1])
  {
  }

  lemma {:induction false} NegatedIndices(values: seq<Point>, minute: int)
    requires values != []
    ensures NearestIndex(Negated(values), minute) == NearestIndex(values, minute)
    ensures PeakIndex(Negated(values)) == PeakIndex(values)
  {
    if |values| > 1 {
      NegatedInit(values);
      NegatedIndices(values[..|values| - 1], minute);
    }
  }

  lemma {:induction false} NegatedSums(values: seq<Point>, start: int, end: int)
    ensures SumIn(Negated(values), start, end) == -SumIn(values, start, end)
    ensures CountIn(Negated(values), start, end) == CountIn(values, start, end)
  {
    if values != [] {
      NegatedInit(values);
      NegatedSums(values[..|values| - 1], start, end);
    }
  }

  lemma NegatedQuotient(x: real, y: real)
    requires y != 0.0
    ensures (-x) / y == -(x / y)
  {
    assert (-x) / y == (-1.0 * x) / y;
  }

  lemma NegatedAverage(values: seq<Point>, start: int, end: int)
    ensures RangeAverage(Negated(values), start, end) == Minus(RangeAverage(values, start, end))
  {
    NegatedSums(values, start, end);
    if CountIn(values, start, end) != 0 {
      NegatedQuotient(SumIn(values, start, end), CountIn(values, start, end) as real);
    }
  }

  lemma {:induction false} NegatedCrossOver(values: seq<Point>, i: nat)
    requires i <= |values|
    ensures CrossOverFrom(Negated(values), i) == CrossOverFrom(values, i)
    decreases |values| - i
  {
    if i < |values| {
      NegatedCrossOver(values, i + 1);
    }
  }

  lemma NegatedNearest(values: seq<Point>, minute: int)
    ensures Nearest(Negated(values), minute) == Minus(Nearest(values, minute))
  {
    if values != [] {
      NegatedIndices(values, minute);
    }
  }

  lemma NegatedSlope(values: seq<Point>, start: Option<int>, width: int)
    requires width != 0
    ensures Slope(Negated(values), start, width) == Minus(Slope(values, start, width))
  {
    if start.Some? && values != [] {
      NegatedNearest(values, start.value);
      NegatedNearest(values, Min(start.value + width, 60));
      var first, last := Nearest(values, start.value).value, Nearest(values, Min(start.value + width, 60)).value;
      assert -last - -first == -(last - first);
      NegatedQuotient(last - first, width as real);
    }
  }

  lemma NegatedWindow(values: seq<Point>, start: Option<int>, width: int)
    ensures WindowAverage(Negated(values), start, width) == Minus(WindowAverage(values, start, width))
  {
    if start.Some? {
      NegatedAverage(values, start.value, start.value + width);
    }
  }

  lemma NegatedCurrent(values: seq<Point>, minute: Option<int>)
    ensures var f, g := Derive(values, minute), Derive(Negated(values), minute);
            && g.currentMinute == f.currentMinute && g.currentEdge == Minus(f.currentEdge)
            && g.next5 == Minus(f.next5) && g.next10 == Minus(f.next10)
            && g.slope5 == Minus(f.slope5) && g.slope10 == Minus(f.slope10)
  {
    var current := Derive(values, minute).currentMinute;
    if current.Some? {
      NegatedNearest(values, current.value);
    }
    NegatedWindow(values, current, 5);
    NegatedWindow(values, current, 10);
    NegatedSlope(values, current, 5);
    NegatedSlope(values, current, 10);
  }

  lemma NegatedRanges(values: seq<Point>, minute: Option<int>)
    ensures var f, g := Derive(values, minute), Derive(Negated(values), minute);
            && g.early == Minus(f.early) && g.mid == Minus(f.mid)
            && g.late == Minus(f.late) && g.ultraLate == Minus(f.ultraLate)
  {
    NegatedAverage(values, 20, 29);
    NegatedAverage(values, 30, 39);
    NegatedAverage(values, 40, 49);
    NegatedAverage(values, 50, 60);
  }

  lemma NegatedShape(values: seq<Point>, minute: Option<int>)
    ensures var f, g := Derive(values, minute), Derive(Negated(values), minute);
            && g.peakMinute == f.peakMinute && g.peakEdge == Minus(f.peakEdge) && g.crossOver == f.crossOver
  {
    if values != [] {
      NegatedIndices(values, 0);
    }
    NegatedCrossOver(values, 0);
  }

  lemma OpposedByFields(f: Features, g: Features)
    requires g.currentMinute == f.currentMinute && g.currentEdge == Minus(f.currentEdge)
    requires g.next5 == Minus(f.next5) && g.next10 == Minus(f.next10)
    requires g.slope5 == Minus(f.slope5) && g.slope10 == Minus(f.slope10)
    requires g.early == Minus(f.early) && g.mid == Minus(f.mid)
    requires g.late == Minus(f.late) && g.ultraLate == Minus(f.ultraLate)
    requires g.peakMinute == f.peakMinute && g.peakEdge == Minus(f.peakEdge) && g.crossOver == f.crossOver
    ensures g == Opposed(f)
  {
  }

  /** Negating the curve negates every edge, average and slope and keeps the peak and cross-over minutes. */
  lemma NegatedFeatures(values: seq<Point>, minute: Option<int>)
    ensures Derive(Negated(values), minute) == Opposed(Derive(values, minute))
  {
    NegatedCurrent(values, minute);
    NegatedRanges(values, minute);
    NegatedShape(values, minute);
    OpposedByFields(Derive(values, minute), Derive(Negated(values), minute));
  }

  // ---- From the minute table to the features -------------------------------------------------

  /** The curve of a minute table. */
  function CurveOf(table: seq<MinuteRow>): seq<Point> {
    seq(|table|, i requires 0 <= i < |table| => Point(table[i].minute, table[i].edge))
  }

  lemma {:induction false} MirroredLength(table: seq<MinuteRow>)
    ensures |MirroredTable(table)| == |table|
    ensures forall i :: 0 <= i < |table| ==> MirroredTable(table)[i] == Mirrored(table[i])
  {
    if table != [] {
      MirroredLength(table[..|table| - 1]);
    }
  }

  ghost predicate Ascends(t: seq<MinuteRow>, end: int) {
    && (forall i :: 0 <= i < |t| ==> MIN_TIME <= t[i].minute < end)
    && (forall i, j :: 0 <= i < j < |t| ==> t[i].minute < t[j].minute)
  }

  lemma AscendsSnoc(t: seq<MinuteRow>, row: MinuteRow)
    requires Ascends(t, row.minute) && MIN_TIME <= row.minute
    ensures Ascends(t + [row], row.minute + 1)
  {
  }

  /** The minutes of a table are strictly increasing and lie between 20 and 60. */
  lemma {:induction false} TableAscends(radiant: seq<Pick>, dire: seq<Pick>, a: Analysis, player: real, end: int)
    ensures Ascends(TableUpTo(radiant, dire, a, player, end), end)
    decreases end
  {
    if end > MIN_TIME {
      TableAscends(radiant, dire, a, player, end - 1);
      if end - 1 in a.graph {
        AscendsSnoc(TableUpTo(radiant, dire, a, player, end - 1), RowFor(radiant, dire, a, player, end - 1));
      }
    }
  }

  /** Swapping Radiant and Dire, picks and highlights, opposes every feature of the draft. */
  lemma SwapOpposesFeatures(radiant: seq<Pick>, dire: seq<Pick>, a: Analysis, h: Highlights, minute: Option<int>)
    requires ScorePicks(radiant, dire, a, h).Some?
    ensures ScorePicks(dire, radiant, a, SwappedHighlights(h)).Some?
    ensures Derive(CurveOf(ScorePicks(dire, radiant, a, SwappedHighlights(h)).value.adjusted), minute)
            == Opposed(Derive(CurveOf(ScorePicks(radiant, dire, a, h).value.adjusted), minute))
  {
    SwapMirrorsScore(radiant, dire, a, h);
    var table := ScorePicks(radiant, dire, a, h).value.adjusted;
    MirroredLength(table);
    assert CurveOf(MirroredTable(table)) == Negated(CurveOf(table));
    NegatedFeatures(CurveOf(table), minute);
  }
}
