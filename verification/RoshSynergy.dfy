/** Merging the weekly synergy rows of R.O.S.H. scoring into one figure per pair of heroes. */
module RoshSynergy {
  import opened Common
  import opened Rosh
  import Money

  const RELIABILITY_MATCH_COUNT := 100.0

  datatype Entry = Entry(pair: Pair, count: int, synergy: real)

  /** What is merged so far for one pair. */
  datatype Merged = Merged(count: int, synergy: real)

  // ---- Specification -------------------------------------------------------------------

  /** One more row; a count that leaves nothing in total is passed over. */
  function Merge(old_: Option<Merged>, count: int, synergy: real): Merged {
    var entry := if old_.Some? then old_.value else Merged(0, 0.0);
    var total := entry.count + count;
    if total <= 0 then entry
    else
      Merged(total, entry.synergy * (entry.count as real / total as real) + synergy * (count as real / total as real))
  }

  /** All rows of a pair, merged one at a time. */
  function MergeAll(entries: seq<Entry>, pair: Pair): Option<Merged> {
    if entries == [] then None
    else
      var before, last := MergeAll(entries[..|entries| - 1], pair), entries[|entries| - 1];
      if last.pair == pair then Some(Merge(before, last.count, last.synergy)) else before
  }

  function Confidence(count: int): (c: real)
    ensures 0.0 <= c <= 1.0
  {
    Clamp(count as real / RELIABILITY_MATCH_COUNT, 0.0, 1.0)
  }

  function Damped(m: Merged): real {
    m.synergy * Confidence(m.count)
  }

  function Reliable(m: Merged): real {
    Round2(Damped(m))
  }

  // ---- Methods ---------------------------------------------------------------------------

  method MergeEntries(entries: seq<Entry>) returns (lookup: map<Pair, Merged>)
    ensures forall p :: p in lookup <==> MergeAll(entries, p).Some?
    ensures forall p :: p in lookup ==> MergeAll(entries, p) == Some(lookup[p])
  {
    lookup := map[];
    for i := 0 to |entries|
      invariant forall p :: p in lookup <==> MergeAll(entries[..i], p).Some?
      invariant forall p :: p in lookup ==> MergeAll(entries[..i], p) == Some(lookup[p])
    {
      assert entries[..i + 1][..i] == entries[..i];
      var e := entries[i];
      ghost var before := MergeAll(entries[..i], e.pair);
      if e.pair !in lookup {
        lookup := lookup[e.pair := Merged(0, 0.0)];
      }
      var entry := lookup[e.pair];
      var total := entry.count + e.count;
      if total > 0 {
        var weighted := entry.synergy * (entry.count as real / total as real) + e.synergy * (e.count as real / total as real);
        lookup := lookup[e.pair := Merged(total, weighted)];
      }
      assert lookup[e.pair] == Merge(before, e.count, e.synergy);
      assert MergeAll(entries[..i + 1], e.pair) == Some(Merge(before, e.count, e.synergy));
    }
    assert entries[..|entries|] == entries;
  }

  method ApplyReliability(lookup: map<Pair, Merged>) returns (result: map<Pair, real>)
    ensures result == map p | p in lookup :: Reliable(lookup[p])
  {
    result := map[];
    var left := lookup.Keys;
    while left != {}
      invariant left <= lookup.Keys
      invariant result.Keys == lookup.Keys - left
      invariant forall p :: p in result ==> result[p] == Reliable(lookup[p])
      decreases left
    {
      var p :| p in left;
      result := result[p := Reliable(lookup[p])];
      left := left - {p};
    }
  }

  // ---- The merged figure is the weighted mean ----------------------------------------------

  function CountOf(pair: Pair): Entry -> int {
    (e: Entry) => if e.pair == pair then e.count else 0
  }

  function MomentOf(pair: Pair): Entry -> real {
    (e: Entry) => if e.pair == pair then Moment(e.count, e.synergy) else 0.0
  }

  function Moment(count: int, synergy: real): real {
    synergy * count as real
  }

  ghost predicate CountsNonNegative(entries: seq<Entry>) {
    forall i :: 0 <= i < |entries| ==> entries[i].count >= 0
  }

  /** The pair has a row. */
  predicate Listed(entries: seq<Entry>, pair: Pair) {
    exists i :: 0 <= i < |entries| && entries[i].pair == pair
  }

  lemma Unscale(x: real, c: real, t: real)
    requires t > 0.0
    ensures (x * (c / t)) * t == x * c
  {
    assert (c / t) * t == c;
    assert (x * (c / t)) * t == x * ((c / t) * t);
  }

  lemma MergeAddsMoment(m: Merged, count: int, synergy: real)
    requires m.count >= 0 && count >= 0 && (m.count == 0 ==> m.synergy == 0.0)
    ensures var m' := Merge(Some(m), count, synergy);
            && m'.count == m.count + count && (m'.count == 0 ==> m'.synergy == 0.0)
            && Moment(m'.count, m'.synergy) == Moment(m.count, m.synergy) + Moment(count, synergy)
  {
    if m.count + count > 0 {
      var t := (m.count + count) as real;
      var x, y := m.synergy * (m.count as real / t), synergy * (count as real / t);
      Unscale(m.synergy, m.count as real, t);
      Unscale(synergy, count as real, t);
      assert (x + y) * t == x * t + y * t;
    }
  }

  /** Nothing merged yet counts as a pair without matches. */
  function OrNothing(m: Option<Merged>): Merged {
    if m.Some? then m.value else Merged(0, 0.0)
  }

  /** Merging row by row gives the total count and, exactly, the count-weighted mean of all rows. */
  lemma {:induction false} MergedIsMean(entries: seq<Entry>, pair: Pair)
    requires CountsNonNegative(entries)
    ensures var m := OrNothing(MergeAll(entries, pair));
            && m.count == SumBy(CountOf(pair), entries) >= 0
            && Moment(m.count, m.synergy) == SumReal(MomentOf(pair), entries)
            && (m.count == 0 ==> m.synergy == 0.0)
  {
    if entries != [] {
      var n := |entries| - 1;
      var before, last := entries[..n], entries[n];
      MergedIsMean(before, pair);
      var m := OrNothing(MergeAll(before, pair));
      if last.pair == pair {
        MergeAddsMoment(m, last.count, last.synergy);
        assert OrNothing(MergeAll(entries, pair)) == Merge(Some(m), last.count, last.synergy);
      }
    }
  }

  lemma {:induction false} MergedIffListed(entries: seq<Entry>, pair: Pair)
    ensures MergeAll(entries, pair).Some? <==> Listed(entries, pair)
  {
    if entries != [] {
      var n := |entries| - 1;
      MergedIffListed(entries[..n], pair);
      if Listed(entries[..n], pair) {
        var i :| 0 <= i < n && entries[..n][i].pair == pair;
        assert entries[i].pair == pair;
      } else {
        assert forall i :: 0 <= i < n ==> entries[i] == entries[..n][i];
      }
    }
  }

  // ---- Order is irrelevant -------------------------------------------------------------------

  lemma ListedIgnoresOrder(xs: seq<Entry>, ys: seq<Entry>, pair: Pair)
    requires multiset(xs) == multiset(ys) && Listed(xs, pair)
    ensures Listed(ys, pair)
  {
    var i :| 0 <= i < |xs| && xs[i].pair == pair;
    assert xs[i] in multiset(ys);
    var j :| 0 <= j < |ys| && ys[j] == xs[i];
  }

  lemma DivideOut(x: real, y: real, t: real)
    requires t != 0.0 && x * t == y * t
    ensures x == y
  {
    assert x == (x * t) / t && y == (y * t) / t;
  }

  lemma SameMoment(a: Merged, b: Merged)
    requires a.count == b.count && Moment(a.count, a.synergy) == Moment(b.count, b.synergy)
    requires a.count == 0 ==> a.synergy == b.synergy
    ensures a == b
  {
    if a.count != 0 {
      DivideOut(a.synergy, b.synergy, a.count as real);
    }
  }

  function GainOf(pair: Pair): Entry -> int {
    (e: Entry) => if e.pair == pair && e.count > 0 then e.count else 0
  }

  function GainMomentOf(pair: Pair): Entry -> real {
    (e: Entry) => if e.pair == pair && e.count > 0 then Moment(e.count, e.synergy) else 0.0
  }

  /** The sum of the pair's positive counts. */
  function Gained(entries: seq<Entry>, pair: Pair): int {
    SumBy(GainOf(pair), entries)
  }

  /** Every negative row of the pair takes away at least the bound. */
  ghost predicate NegativesReach(entries: seq<Entry>, pair: Pair, bound: int) {
    forall i :: 0 <= i < |entries| && entries[i].pair == pair && entries[i].count < 0 ==> bound + entries[i].count <= 0
  }

  /** Negative rows that take away at least what is gained are always passed over. */
  lemma {:induction false} GainedIsMean(entries: seq<Entry>, pair: Pair, bound: int)
    requires NegativesReach(entries, pair, bound) && Gained(entries, pair) <= bound
    ensures var m := OrNothing(MergeAll(entries, pair));
            && m.count == Gained(entries, pair) >= 0
            && Moment(m.count, m.synergy) == SumReal(GainMomentOf(pair), entries)
            && (m.count == 0 ==> m.synergy == 0.0)
  {
    if entries != [] {
      var n := |entries| - 1;
      var before, last := entries[..n], entries[n];
      assert forall i :: 0 <= i < n ==> before[i] == entries[i];
      GainedIsMean(before, pair, bound);
      var m := OrNothing(MergeAll(before, pair));
      if last.pair == pair {
        assert OrNothing(MergeAll(entries, pair)) == Merge(Some(m), last.count, last.synergy);
        if last.count >= 0 {
          MergeAddsMoment(m, last.count, last.synergy);
        }
      }
    }
  }

  lemma NegativesReachIgnoresOrder(xs: seq<Entry>, ys: seq<Entry>, pair: Pair, bound: int)
    requires multiset(xs) == multiset(ys) && NegativesReach(xs, pair, bound)
    ensures NegativesReach(ys, pair, bound)
  {
    forall i | 0 <= i < |ys| && ys[i].pair == pair && ys[i].count < 0
      ensures bound + ys[i].count <= 0
    {
      assert ys[i] in multiset(xs);
    }
  }

  lemma {:induction false} SkippedNegativesCommute(xs: seq<Entry>, ys: seq<Entry>, pair: Pair)
    requires NegativesReach(xs, pair, Gained(xs, pair)) && multiset(xs) == multiset(ys)
    ensures MergeAll(xs, pair) == MergeAll(ys, pair)
  {
    var bound := Gained(xs, pair);
    NegativesReachIgnoresOrder(xs, ys, pair, bound);
    SumsIgnoreOrder(GainOf(pair), GainMomentOf(pair), xs, ys);
    GainedIsMean(xs, pair, bound);
    GainedIsMean(ys, pair, bound);
    SameMoment(OrNothing(MergeAll(xs, pair)), OrNothing(MergeAll(ys, pair)));
    MergedIffListed(xs, pair);
    MergedIffListed(ys, pair);
    if Listed(xs, pair) {
      ListedIgnoresOrder(xs, ys, pair);
    }
    if Listed(ys, pair) {
      ListedIgnoresOrder(ys, xs, pair);
    }
  }

  predicate Takes(e: Entry, pair: Pair) {
    e.pair == pair && e.count < 0
  }

  /** The rows apart, negative ones of the pair first. */
  lemma {:induction false} Parted(rows: seq<Entry>, pair: Pair) returns (taking: seq<Entry>, others: seq<Entry>)
    ensures multiset(taking + others) == multiset(rows)
    ensures forall e :: e in taking ==> Takes(e, pair)
    ensures forall e :: e in others ==> !Takes(e, pair)
  {
    taking, others := [], [];
    if rows != [] {
      var n := |rows| - 1;
      assert rows == rows[..n] + [rows[n]];
      taking, others := Parted(rows[..n], pair);
      if Takes(rows[n], pair) {
        taking := taking + [rows[n]];
      } else {
        others := others + [rows[n]];
      }
    }
  }

  /** Negative rows at the front are passed over, so the count becomes what is gained. */
  lemma {:induction false} NegativesFirst(taking: seq<Entry>, others: seq<Entry>, pair: Pair)
    requires forall e :: e in taking ==> Takes(e, pair)
    requires forall e :: e in others ==> !Takes(e, pair)
    ensures OrNothing(MergeAll(taking + others, pair)).count == Gained(taking + others, pair) >= 0
    decreases |taking + others|
  {
    var rows := taking + others;
    if rows != [] {
      var n := |rows| - 1;
      if others == [] {
        assert rows[..n] == taking[..n] + [] && rows[n] in taking;
        NegativesFirst(taking[..n], [], pair);
        NothingGained(taking[..n], pair);
      } else {
        assert rows[..n] == taking + others[..|others| - 1] && rows[n] in others;
        NegativesFirst(taking, others[..|others| - 1], pair);
      }
      var m := OrNothing(MergeAll(rows[..n], pair));
      assert rows[n].pair == pair ==>
               OrNothing(MergeAll(rows, pair)) == Merge(Some(m), rows[n].count, rows[n].synergy);
    }
  }

  lemma {:induction false} NothingGained(taking: seq<Entry>, pair: Pair)
    requires forall e :: e in taking ==> Takes(e, pair)
    ensures Gained(taking + [], pair) == 0
  {
    assert taking + [] == taking;
    if taking != [] {
      var n := |taking| - 1;
      assert taking[n] in taking && taking[..n] + [] == taking[..n];
      NothingGained(taking[..n], pair);
    }
  }

  /** A negative row that takes less than what is gained: moving it from the front to the end lowers the count. */
  lemma {:induction false} MovedRowTells(xs: seq<Entry>, k: nat, pair: Pair) returns (front: seq<Entry>, back: seq<Entry>)
    requires k < |xs| && Takes(xs[k], pair) && Gained(xs, pair) + xs[k].count > 0
    ensures multiset(front) == multiset(xs) == multiset(back)
    ensures OrNothing(MergeAll(front, pair)).count == Gained(xs, pair)
    ensures OrNothing(MergeAll(back, pair)).count == Gained(xs, pair) + xs[k].count
  {
    var e := xs[k];
    var taking, others := Parted(Without(xs, k), pair);
    front, back := [e] + taking + others, taking + others + [e];
    assert xs == xs[..k] + [e] + xs[k + 1..];
    assert [e] + taking + others == [e] + (taking + others);
    SumsIgnoreOrder(GainOf(pair), GainMomentOf(pair), front, xs);
    SumsIgnoreOrder(GainOf(pair), GainMomentOf(pair), back, xs);
    NegativesFirst([e] + taking, others, pair);
    NegativesFirst(taking, others, pair);
    assert back[..|back| - 1] == taking + others;
  }

  /** Whether every reordering of the rows merges alike for the pair. */
  ghost predicate OrderIsIrrelevant(xs: seq<Entry>, pair: Pair) {
    forall ys :: multiset(ys) == multiset(xs) ==> MergeAll(ys, pair) == MergeAll(xs, pair)
  }

  /**
   The order of a pair's rows is irrelevant exactly when each of its negative counts takes away at least all of
   its positive counts together; no negative row is applied then, wherever it stands.
   */
  lemma {:induction false} OrderIsIrrelevantExactly(xs: seq<Entry>, pair: Pair)
    ensures OrderIsIrrelevant(xs, pair) <==> NegativesReach(xs, pair, Gained(xs, pair))
  {
    if NegativesReach(xs, pair, Gained(xs, pair)) {
      forall ys | multiset(ys) == multiset(xs)
        ensures MergeAll(ys, pair) == MergeAll(xs, pair)
      {
        SkippedNegativesCommute(xs, ys, pair);
      }
    } else {
      var k :| 0 <= k < |xs| && xs[k].pair == pair && xs[k].count < 0 && Gained(xs, pair) + xs[k].count > 0;
      var front, back := MovedRowTells(xs, k, pair);
      assert MergeAll(front, pair) != MergeAll(back, pair);
    }
  }

  /** Counts that are not negative may come in any order. */
  lemma MergeIgnoresOrder(xs: seq<Entry>, ys: seq<Entry>, pair: Pair)
    requires CountsNonNegative(xs) && multiset(xs) == multiset(ys)
    ensures MergeAll(xs, pair) == MergeAll(ys, pair)
  {
    SkippedNegativesCommute(xs, ys, pair);
  }

  /** A negative count can break this: what it is subtracted from depends on what was merged before. */
  lemma NegativeCountsDependOnOrder(pair: Pair)
    ensures MergeAll([Entry(pair, -5, 1.0), Entry(pair, 10, 1.0)], pair)
            != MergeAll([Entry(pair, 10, 1.0), Entry(pair, -5, 1.0)], pair)
  {
    var x, y := Entry(pair, -5, 1.0), Entry(pair, 10, 1.0);
    assert [x, y][..1] == [x] && [y, x][..1] == [y];
    assert MergeAll([x], pair).value.count == 0 && MergeAll([y], pair).value.count == 10;
  }

  // ---- Bounds --------------------------------------------------------------------------------

  lemma ProductNonNegative(x: real, y: real)
    requires x >= 0.0 && y >= 0.0
    ensures x * y >= 0.0
  {
  }

  lemma FactorNonNegative(d: real, t: real)
    requires t > 0.0 && d * t >= 0.0
    ensures d >= 0.0
  {
  }

  /** A weighted sum of distances is no less than zero. */
  lemma MixNonNegative(d: real, u: real, v: real, c: real, k: real)
    requires u >= 0.0 && v >= 0.0 && c >= 0.0 && k >= 0.0 && c + k > 0.0
    requires d * (c + k) == u * c + v * k
    ensures d >= 0.0
  {
    ProductNonNegative(u, c);
    ProductNonNegative(v, k);
    FactorNonNegative(d, c + k);
  }

  lemma MeanBounded(mean: real, x: real, y: real, c: real, k: real, bound: real)
    requires c >= 0.0 && k >= 0.0 && c + k > 0.0 && Abs(x) <= bound && Abs(y) <= bound
    requires mean * (c + k) == x * c + y * k
    ensures Abs(mean) <= bound
  {
    assert (mean + bound) * (c + k) == (x + bound) * c + (y + bound) * k;
    MixNonNegative(mean + bound, x + bound, y + bound, c, k);
    assert (bound - mean) * (c + k) == (bound - x) * c + (bound - y) * k;
    MixNonNegative(bound - mean, bound - x, bound - y, c, k);
  }

  lemma MergeBounded(m: Merged, count: int, synergy: real, bound: real)
    requires m.count >= 0 && count >= 0 && (m.count == 0 ==> m.synergy == 0.0)
    requires Abs(m.synergy) <= bound && Abs(synergy) <= bound
    ensures Abs(Merge(Some(m), count, synergy).synergy) <= bound
  {
    if m.count + count > 0 {
      MergeAddsMoment(m, count, synergy);
      MeanBounded(Merge(Some(m), count, synergy).synergy, m.synergy, synergy, m.count as real, count as real, bound);
    }
  }

  /** The merged synergy never exceeds the largest magnitude merged. */
  lemma {:induction false} MergedBounded(entries: seq<Entry>, pair: Pair, bound: real)
    requires CountsNonNegative(entries) && bound >= 0.0
    requires forall i :: 0 <= i < |entries| && entries[i].pair == pair ==> Abs(entries[i].synergy) <= bound
    ensures Abs(OrNothing(MergeAll(entries, pair)).synergy) <= bound
  {
    if entries != [] {
      var n := |entries| - 1;
      var before, last := entries[..n], entries[n];
      assert forall i :: 0 <= i < n ==> before[i] == entries[i];
      MergedBounded(before, pair, bound);
      MergedIsMean(before, pair);
      if last.pair == pair {
        MergeBounded(OrNothing(MergeAll(before, pair)), last.count, last.synergy, bound);
        assert OrNothing(MergeAll(entries, pair))
               == Merge(Some(OrNothing(MergeAll(before, pair))), last.count, last.synergy);
      }
    }
  }

  lemma DampingBounded(x: real, c: real, bound: real)
    requires 0.0 <= c <= 1.0 && Abs(x) <= bound
    ensures Abs(x * c) <= bound
  {
    ProductNonNegative(bound - x, c);
    ProductNonNegative(bound + x, c);
    ProductNonNegative(bound, 1.0 - c);
    assert (bound - x) * c == bound * c - x * c && (bound + x) * c == bound * c + x * c;
    assert bound * (1.0 - c) == bound - bound * c;
  }

  lemma DampedBounded(m: Merged, bound: real)
    requires Abs(m.synergy) <= bound
    ensures Abs(Damped(m)) <= bound
  {
    DampingBounded(m.synergy, Confidence(m.count), bound);
  }

  lemma Round2Bounded(x: real, bound: real)
    requires Abs(x) <= bound
    ensures Abs(Round2(x)) <= Round2(bound)
  {
    Money.RoundMonotone(x * 100.0, bound * 100.0);
    Money.RoundMonotone(-(bound * 100.0), x * 100.0);
    Money.RoundOdd(bound * 100.0);
  }

  /** Nor does the figure after damping by reliability, up to rounding. */
  lemma ReliableBounded(m: Merged, bound: real)
    requires m.count >= 0 && Abs(m.synergy) <= bound
    ensures Abs(Reliable(m)) <= Round2(bound)
  {
    DampedBounded(m, bound);
    Round2Bounded(Damped(m), bound);
  }

  lemma Round2Near(x: real)
    ensures -0.005 <= Round2(x) - x <= 0.005
  {
    var n := Money.RoundHalfUp(x * 100.0);
    assert -0.5 <= n as real - x * 100.0 <= 0.5;
    assert Round2(x) == n as real / 100.0;
  }

  /** From a hundred matches on a pair keeps its merged figure, fewer matches scale it in proportion; rounded to cents. */
  lemma ReliableIs(m: Merged)
    ensures m.count >= 100 ==> Reliable(m) == Round2(m.synergy)
    ensures 0 <= m.count < 100 ==> -0.005 <= Reliable(m) - m.synergy * (m.count as real / 100.0) <= 0.005
    ensures m.count <= 0 ==> Reliable(m) == 0.0
  {
    Round2Near(Damped(m));
    if m.count >= 100 {
      assert Confidence(m.count) == 1.0;
    } else if m.count > 0 {
      assert Confidence(m.count) == m.count as real / 100.0;
    } else {
      assert Confidence(m.count) == 0.0;
      Money.RoundWhole(0);
    }
  }
}
