/** What a row of the minute table says: the edge as the picks' figures call for, and the side it favours. */
module RoshEdges {
  import opened Common
  import opened Rosh
  import Money

  // ---- The figures of the picks --------------------------------------------------------------

  function EffectOf(a: Analysis): Pick -> real {
    (p: Pick) => if p in a.positions then a.positions[p].effect else 0.0
  }

  function TempoOf(bucket: Bucket): Pick -> real {
    (p: Pick) => if p in bucket then bucket[p].tempo else 0.0
  }

  function MatchesOf(bucket: Bucket): Pick -> int {
    (p: Pick) => if p in bucket then bucket[p].matches else 0
  }

  function TotalOf(bucket: Bucket): Pick -> int {
    (p: Pick) => if p in bucket then bucket[p].total else 0
  }

  /** The mean over the picks of one side, zero for none. */
  function Mean(f: Pick -> real, picks: seq<Pick>): real {
    if picks == [] then 0.0 else SumReal(f, picks) / |picks| as real
  }

  /** The figure for one hero with or against another, zero if there is none. */
  function Figure(lookup: map<Pair, real>, p: Pick, q: Pick): real {
    if Pair(p.hero, q.hero) in lookup then lookup[Pair(p.hero, q.hero)] else 0.0
  }

  /** In how many of the two directions there is a figure, but at least one. */
  function Directions(lookup: map<Pair, real>, p: Pick, q: Pick): real {
    if Pair(p.hero, q.hero) in lookup && Pair(q.hero, p.hero) in lookup then 2.0 else 1.0
  }

  /** The mean of what is known of two heroes together. */
  function Together(lookup: map<Pair, real>, p: Pick): Pick -> real {
    (q: Pick) => (Figure(lookup, p, q) + Figure(lookup, q, p)) / Directions(lookup, p, q)
  }

  /** What is known of one hero against another, seen from the first. */
  function Against(lookup: map<Pair, real>, p: Pick): Pick -> real {
    (q: Pick) => (Figure(lookup, p, q) - Figure(lookup, q, p)) / Directions(lookup, p, q)
  }

  /** Over all pairs of a side, each pick with those before it. */
  function AllTogether(lookup: map<Pair, real>, picks: seq<Pick>): real {
    if picks == [] then 0.0
    else
      var init, p := picks[..|picks| - 1], picks[|picks| - 1];
      AllTogether(lookup, init) + SumReal(Together(lookup, p), init)
  }

  function RowAgainst(lookup: map<Pair, real>, dire: seq<Pick>): Pick -> real {
    (p: Pick) => SumReal(Against(lookup, p), dire)
  }

  /** Over all pairs of opponents. */
  function AllAgainst(lookup: map<Pair, real>, radiant: seq<Pick>, dire: seq<Pick>): real {
    SumReal(RowAgainst(lookup, dire), radiant)
  }

  function Capped(x: real, cap: real): real {
    if x > cap then cap else if x < -cap then -cap else x
  }

  function Synergies(radiant: seq<Pick>, dire: seq<Pick>, a: Analysis): real {
    Capped(AllTogether(a.allies, radiant) - AllTogether(a.allies, dire) + AllAgainst(a.foes, radiant, dire), 30.0)
  }

  /** Twice the lead of Radiant's mean over Dire's. */
  function Lead(f: Pick -> real, radiant: seq<Pick>, dire: seq<Pick>): real {
    2.0 * (Mean(f, radiant) - Mean(f, dire))
  }

  // ---- Rows ----------------------------------------------------------------------------------

  /** A rounded value: whole tenths, no farther than half a tenth. */
  ghost predicate Tenths(r: real, x: real) {
    -0.05 <= r - x <= 0.05 && exists n :: r == TenthsOf(n)
  }

  function TenthsOf(n: int): real {
    n as real / 10.0
  }

  ghost predicate EdgeSays(row: MinuteRow) {
    && (row.side == Radiant <==> row.edge > 0.0) && (row.side == Dire <==> row.edge < 0.0)
    && row.advantage == Abs(row.edge)
    && row.radiantAdvantage == MaxReal(row.edge, 0.0) && row.direAdvantage == MaxReal(-row.edge, 0.0)
  }

  /** The row of a minute is what the picks' figures of that minute call for. */
  ghost predicate RowSays(row: MinuteRow, radiant: seq<Pick>, dire: seq<Pick>, a: Analysis, player: real) {
    && row.minute in a.graph && 20 <= row.minute <= 60
    && row.timeStart == Max(20, row.minute - 1) && row.timeEnd == Min(60, row.minute + 1)
    && var bucket := a.graph[row.minute];
       var base, tempo, synergy := Lead(EffectOf(a), radiant, dire), Lead(TempoOf(bucket), radiant, dire), Synergies(radiant, dire, a);
       var matches, total := SumBy(MatchesOf(bucket), radiant + dire), SumBy(TotalOf(bucket), radiant + dire);
       && Tenths(row.edge, base + tempo + synergy + player) && EdgeSays(row)
       && Tenths(row.hero, base + tempo) && Tenths(row.heroBase, base) && Tenths(row.heroTempo, tempo)
       && Tenths(row.synergy, synergy) && Tenths(row.player, player)
       && row.support == matches
       && (total > 0 ==> Tenths(row.matchPercentage, (matches as real / total as real) * 100.0))
       && (total <= 0 ==> row.matchPercentage == 0.0)
  }

  // ---- The sums agree --------------------------------------------------------------------------

  lemma {:induction false} EffectsSum(picks: seq<Pick>, a: Analysis)
    ensures EffectSum(picks, a.positions) == SumReal(EffectOf(a), picks)
  {
    if picks != [] {
      EffectsSum(picks[..|picks| - 1], a);
    }
  }

  lemma {:induction false} BucketSums(picks: seq<Pick>, bucket: Bucket)
    ensures TempoSum(picks, bucket) == SumReal(TempoOf(bucket), picks)
    ensures MatchSum(picks, bucket) == SumBy(MatchesOf(bucket), picks)
    ensures TotalSum(picks, bucket) == SumBy(TotalOf(bucket), picks)
  {
    if picks != [] {
      BucketSums(picks[..|picks| - 1], bucket);
    }
  }

  lemma PairFigures(lookup: map<Pair, real>, p: Pick, q: Pick)
    ensures AveragePairSynergy(p.hero, q.hero, lookup) == Together(lookup, q)(p) == Together(lookup, p)(q)
    ensures Advantage(lookup, p, q) == Against(lookup, p)(q)
  {
  }

  lemma {:induction false} AdvantagesSum(lookup: map<Pair, real>, p: Pick, dire: seq<Pick>)
    ensures AdvantageOver(lookup, p, dire) == SumReal(Against(lookup, p), dire)
  {
    if dire != [] {
      AdvantagesSum(lookup, p, dire[..|dire| - 1]);
      PairFigures(lookup, p, dire[|dire| - 1]);
    }
  }

  lemma {:induction false} MatchupIs(lookup: map<Pair, real>, radiant: seq<Pick>, dire: seq<Pick>)
    ensures Matchup(radiant, dire, lookup) == AllAgainst(lookup, radiant, dire)
  {
    if radiant != [] {
      MatchupIs(lookup, radiant[..|radiant| - 1], dire);
      AdvantagesSum(lookup, radiant[|radiant| - 1], dire);
    }
  }

  lemma {:induction false} LeftSumSnoc(picks: seq<Pick>, p: Pick, left: nat, end: nat, lookup: map<Pair, real>)
    requires left < end <= |picks|
    ensures LeftSum(picks + [p], left, end, lookup) == LeftSum(picks, left, end, lookup)
  {
    if end > left + 1 {
      LeftSumSnoc(picks, p, left, end - 1, lookup);
    }
  }

  /** One more pick adds a column of pairs. */
  lemma {:induction false} PairSumSnoc(picks: seq<Pick>, p: Pick, end: nat, lookup: map<Pair, real>)
    requires end <= |picks|
    ensures PairSum(picks + [p], end, lookup) == PairSum(picks, end, lookup) + SumReal(Together(lookup, p), picks[..end])
  {
    if end > 0 {
      PairSumSnoc(picks, p, end - 1, lookup);
      LeftSumSnoc(picks, p, end - 1, |picks|, lookup);
      PairFigures(lookup, picks[end - 1], p);
      assert picks[..end][..end - 1] == picks[..end - 1];
    }
  }

  lemma {:induction false} PairSumIs(picks: seq<Pick>, lookup: map<Pair, real>)
    ensures PairSum(picks, |picks|, lookup) == AllTogether(lookup, picks)
  {
    if picks != [] {
      var n := |picks| - 1;
      var init, p := picks[..n], picks[n];
      assert picks == init + [p] && init[..n] == init;
      PairSumIs(init, lookup);
      PairSumSnoc(init, p, n, lookup);
      assert LeftSum(picks, n, n + 1, lookup) == 0.0;
    }
  }

  lemma SynergiesAre(radiant: seq<Pick>, dire: seq<Pick>, a: Analysis)
    ensures SynergyOffset(radiant, dire, a) == Synergies(radiant, dire, a)
  {
    PairSumIs(radiant, a.allies);
    PairSumIs(dire, a.allies);
    MatchupIs(a.foes, radiant, dire);
  }

  lemma LeadIs(f: Pick -> real, radiant: seq<Pick>, dire: seq<Pick>)
    ensures TeamAverageDifference(SumReal(f, radiant), |radiant|, SumReal(f, dire), |dire|) * HERO_ADJUSTMENT_WEIGHT
            == Lead(f, radiant, dire)
  {
  }

  // ---- Rounding --------------------------------------------------------------------------------

  lemma RoundedTenths(x: real)
    ensures Tenths(Round1(x), x)
  {
    var n := Money.RoundHalfUp(x * 10.0);
    assert -0.5 <= n as real - x * 10.0 <= 0.5;
    assert Round1(x) == TenthsOf(n);
  }

  /** Rounding a rounded value again changes nothing. */
  lemma RoundsTwice(x: real)
    ensures Round1(Round1(x)) == Round1(x)
  {
    Money.RoundWhole(Money.RoundHalfUp(x * 10.0));
  }

  lemma RoundedEdge(minute: int, base: real, tempo: real, synergy: real, player: real, matches: int, total: int)
    ensures var row := RowAt(minute, base, tempo, synergy, player, matches, total);
            && Tenths(row.edge, base + tempo + synergy + player) && EdgeSays(row)
            && Tenths(row.hero, base + tempo) && Tenths(row.heroBase, base) && Tenths(row.heroTempo, tempo)
            && Tenths(row.synergy, synergy) && Tenths(row.player, player)
  {
    var x := base + tempo + synergy + player;
    RoundedTenths(x);
    RoundedTenths(base + tempo);
    RoundedTenths(base);
    RoundedTenths(tempo);
    RoundedTenths(synergy);
    RoundedTenths(player);
    RoundsTwice(x);
    RoundsOdd(Round1(x));
  }

  // ---- The table -------------------------------------------------------------------------------

  lemma BaseAndSynergyAre(radiant: seq<Pick>, dire: seq<Pick>, a: Analysis)
    ensures HeroBase(radiant, dire, a) == Lead(EffectOf(a), radiant, dire)
    ensures SynergyOffset(radiant, dire, a) == Synergies(radiant, dire, a)
  {
    EffectsSum(radiant, a);
    EffectsSum(dire, a);
    LeadIs(EffectOf(a), radiant, dire);
    SynergiesAre(radiant, dire, a);
  }

  lemma BucketFiguresAre(radiant: seq<Pick>, dire: seq<Pick>, bucket: Bucket)
    ensures HeroTempo(radiant, dire, bucket) == Lead(TempoOf(bucket), radiant, dire)
    ensures MatchSum(radiant, bucket) + MatchSum(dire, bucket) == SumBy(MatchesOf(bucket), radiant + dire)
    ensures TotalSum(radiant, bucket) + TotalSum(dire, bucket) == SumBy(TotalOf(bucket), radiant + dire)
  {
    BucketSums(radiant, bucket);
    BucketSums(dire, bucket);
    SumConcat(MatchesOf(bucket), radiant, dire);
    SumConcat(TotalOf(bucket), radiant, dire);
    LeadIs(TempoOf(bucket), radiant, dire);
  }

  lemma RoundedShare(matches: int, total: int)
    ensures total > 0 ==> Tenths(Percentage(matches, total), (matches as real / total as real) * 100.0)
    ensures total <= 0 ==> Percentage(matches, total) == 0.0
  {
    if total > 0 {
      RoundedTenths((matches as real / total as real) * 100.0);
    }
  }

  lemma RowForSays(radiant: seq<Pick>, dire: seq<Pick>, a: Analysis, player: real, minute: int)
    requires minute in a.graph && MIN_TIME <= minute <= MAX_TIME
    ensures RowSays(RowFor(radiant, dire, a, player, minute), radiant, dire, a, player)
  {
    var bucket := a.graph[minute];
    BaseAndSynergyAre(radiant, dire, a);
    BucketFiguresAre(radiant, dire, bucket);
    var matches, total := SumBy(MatchesOf(bucket), radiant + dire), SumBy(TotalOf(bucket), radiant + dire);
    RoundedEdge(minute, HeroBase(radiant, dire, a), HeroTempo(radiant, dire, bucket), SynergyOffset(radiant, dire, a),
                player, matches, total);
    RoundedShare(matches, total);
  }

  ghost predicate AllSay(table: seq<MinuteRow>, radiant: seq<Pick>, dire: seq<Pick>, a: Analysis, player: real) {
    forall i :: 0 <= i < |table| ==> RowSays(table[i], radiant, dire, a, player)
  }

  lemma OneMoreSays(table: seq<MinuteRow>, row: MinuteRow, radiant: seq<Pick>, dire: seq<Pick>, a: Analysis, player: real)
    requires AllSay(table, radiant, dire, a, player) && RowSays(row, radiant, dire, a, player)
    ensures AllSay(table + [row], radiant, dire, a, player)
  {
    var all := table + [row];
    forall i | 0 <= i < |all|
      ensures RowSays(all[i], radiant, dire, a, player)
    {
      if i < |table| {
        assert all[i] == table[i];
      } else {
        assert all[i] == row;
      }
    }
  }

  ghost predicate HasRow(table: seq<MinuteRow>, minute: int) {
    exists i :: 0 <= i < |table| && table[i].minute == minute
  }

  lemma {:induction false} TableSays(radiant: seq<Pick>, dire: seq<Pick>, a: Analysis, player: real, end: int)
    requires end <= MAX_TIME + 1
    ensures var table := TableUpTo(radiant, dire, a, player, end);
            && AllSay(table, radiant, dire, a, player)
            && (forall m :: m in a.graph && MIN_TIME <= m < end ==> HasRow(table, m))
    decreases end
  {
    if end > MIN_TIME {
      TableSays(radiant, dire, a, player, end - 1);
      var before, table := TableUpTo(radiant, dire, a, player, end - 1), TableUpTo(radiant, dire, a, player, end);
      if end - 1 in a.graph {
        RowForSays(radiant, dire, a, player, end - 1);
        OneMoreSays(before, RowFor(radiant, dire, a, player, end - 1), radiant, dire, a, player);
        assert table[|before|].minute == end - 1;
      }
      forall m | m in a.graph && MIN_TIME <= m < end
        ensures HasRow(table, m)
      {
        if m < end - 1 {
          var i :| 0 <= i < |before| && before[i].minute == m;
          assert table[i].minute == m;
        }
      }
    }
  }

  /**
   Both tables of a score have a row for every minute of the graph, and each row says what the picks call for:
   the pure one without the players, the adjusted one with them.
   */
  lemma ScoreSays(radiant: seq<Pick>, dire: seq<Pick>, a: Analysis, h: Highlights)
    requires GraphOk(a.graph) && ScorePicks(radiant, dire, a, h).Some?
    ensures var s := ScorePicks(radiant, dire, a, h).value;
            && AllSay(s.pure_, radiant, dire, a, 0.0)
            && AllSay(s.adjusted, radiant, dire, a, PlayerAdjustment(h))
            && (forall m :: m in a.graph ==> HasRow(s.pure_, m) && HasRow(s.adjusted, m))
  {
    TableSays(radiant, dire, a, 0.0, MAX_TIME + 1);
    TableSays(radiant, dire, a, PlayerAdjustment(h), MAX_TIME + 1);
  }

  // ---- Players ---------------------------------------------------------------------------------

  function ImpactOf(x: Option<real>): real {
    if x.Some? then x.value else 0.0
  }

  lemma {:induction false} ImpactsSum(impacts: seq<Option<real>>)
    ensures ImpactSum(impacts) == SumReal(ImpactOf, impacts)
  {
    if impacts != [] {
      ImpactsSum(impacts[..|impacts| - 1]);
    }
  }

  /** The players move the edge by a fifth of the difference of their impacts, by at most 2.5. */
  lemma PlayersAdjust(h: Highlights)
    ensures h.NoHighlights? ==> PlayerAdjustment(h) == 0.0
    ensures h.Highlights? ==>
              Tenths(PlayerAdjustment(h), Capped((SumReal(ImpactOf, h.radiant) - SumReal(ImpactOf, h.dire)) / 5.0, 2.5))
  {
    if h.Highlights? {
      ImpactsSum(h.radiant);
      ImpactsSum(h.dire);
      RoundedTenths(Capped((SumReal(ImpactOf, h.radiant) - SumReal(ImpactOf, h.dire)) / 5.0, 2.5));
    }
  }

  // ---- Better heroes ---------------------------------------------------------------------------

  lemma {:induction false} SumRealMonotone(f: Pick -> real, g: Pick -> real, picks: seq<Pick>)
    requires forall i :: 0 <= i < |picks| ==> f(picks[i]) <= g(picks[i])
    ensures SumReal(f, picks) <= SumReal(g, picks)
  {
    if picks != [] {
      SumRealMonotone(f, g, picks[..|picks| - 1]);
    }
  }

  lemma QuotientMonotone(x: real, y: real, n: real)
    requires x <= y && n > 0.0
    ensures x / n <= y / n
  {
  }

  lemma MeanMonotone(f: Pick -> real, g: Pick -> real, picks: seq<Pick>)
    requires forall i :: 0 <= i < |picks| ==> f(picks[i]) <= g(picks[i])
    ensures Mean(f, picks) <= Mean(g, picks)
  {
    SumRealMonotone(f, g, picks);
    if picks != [] {
      QuotientMonotone(SumReal(f, picks), SumReal(g, picks), |picks| as real);
    }
  }

  /** Nothing but base effects differs, Radiant's are no worse and Dire's no better. */
  ghost predicate Favours(a: Analysis, b: Analysis, radiant: seq<Pick>, dire: seq<Pick>) {
    && b.graph == a.graph && b.allies == a.allies && b.foes == a.foes
    && (forall i :: 0 <= i < |radiant| ==> EffectOf(a)(radiant[i]) <= EffectOf(b)(radiant[i]))
    && (forall i :: 0 <= i < |dire| ==> EffectOf(b)(dire[i]) <= EffectOf(a)(dire[i]))
  }

  lemma RowForRises(radiant: seq<Pick>, dire: seq<Pick>, a: Analysis, b: Analysis, player: real, minute: int)
    requires Favours(a, b, radiant, dire) && minute in a.graph
    ensures RowFor(radiant, dire, a, player, minute).edge <= RowFor(radiant, dire, b, player, minute).edge
  {
    BaseAndSynergyAre(radiant, dire, a);
    BaseAndSynergyAre(radiant, dire, b);
    MeanMonotone(EffectOf(a), EffectOf(b), radiant);
    MeanMonotone(EffectOf(b), EffectOf(a), dire);
    var tempo, synergy := HeroTempo(radiant, dire, a.graph[minute]), SynergyOffset(radiant, dire, a);
    var x, y := HeroBase(radiant, dire, a) + tempo + synergy + player, HeroBase(radiant, dire, b) + tempo + synergy + player;
    assert x <= y;
    Money.RoundMonotone(x * 10.0, y * 10.0);
  }

  /** Better base effects for Radiant's heroes, or worse ones for Dire's, lower no edge of the table. */
  lemma {:induction false} BetterHeroesRaiseEdges(
    radiant: seq<Pick>, dire: seq<Pick>, a: Analysis, b: Analysis, player: real, end: int)
    requires Favours(a, b, radiant, dire)
    ensures var t, t' := TableUpTo(radiant, dire, a, player, end), TableUpTo(radiant, dire, b, player, end);
            |t'| == |t| && forall i :: 0 <= i < |t| ==> t[i].minute == t'[i].minute && t[i].edge <= t'[i].edge
    decreases end
  {
    if end > MIN_TIME {
      BetterHeroesRaiseEdges(radiant, dire, a, b, player, end - 1);
      if end - 1 in a.graph {
        RowForRises(radiant, dire, a, b, player, end - 1);
      }
    }
  }
}
