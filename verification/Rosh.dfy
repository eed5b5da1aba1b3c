/**
 R.O.S.H. scoring of a draft: hero, synergy and player adjustments summed into an edge per minute.
 Numbers are exact reals; rounding is half away from zero at the stated number of places.
 */
module Rosh {
  import opened Common
  import Money

  const MIN_TIME := 20
  const MAX_TIME := 60
  const WINDOW_RADIUS := 1
  const HERO_ADJUSTMENT_WEIGHT := 2.0
  const SYNERGY_ADJUSTMENT_CAP := 30.0
  const TEAM_PLAYER_ADJUSTMENT_CAP := 2.5

  datatype Pick = Pick(hero: int, position: int)

  /** Base statistics of a hero on a position. */
  datatype Base = Base(matches: int, rawDiff: real, effect: real)

  /** Statistics of a hero on a position in one minute. */
  datatype Stats = Stats(tempo: real, matches: int, total: int)

  datatype Pair = Pair(hero: int, other: int)

  type Bucket = map<Pick, Stats>

  datatype Analysis = Analysis(
    positions: map<Pick, Base>, graph: map<int, Bucket>, allies: map<Pair, real>, foes: map<Pair, real>)

  datatype Side = Radiant | Dire | Even

  datatype MinuteRow = MinuteRow(
    minute: int, timeStart: int, timeEnd: int, side: Side, advantage: real, radiantAdvantage: real, direAdvantage: real,
    matchPercentage: real, support: int, edge: real,
    hero: real, heroBase: real, heroTempo: real, synergy: real, player: real)

  // ---- Numbers ---------------------------------------------------------------------------

  function Round1(x: real): real {
    Money.RoundHalfUp(x * 10.0) as real / 10.0
  }

  function Round2(x: real): real {
    Money.RoundHalfUp(x * 100.0) as real / 100.0
  }

  function Clamp(x: real, low: real, high: real): real {
    MaxReal(low, MinReal(high, x))
  }

  lemma RoundsOdd(x: real)
    ensures Round1(-x) == -Round1(x) && Round2(-x) == -Round2(x)
    ensures x >= 0.0 ==> Round1(x) >= 0.0
  {
    Money.RoundOdd(x * 10.0);
    Money.RoundOdd(x * 100.0);
    assert (-x) * 10.0 == -(x * 10.0) && (-x) * 100.0 == -(x * 100.0);
  }

  // ---- Specification: sums over the picks --------------------------------------------------

  function Effect(positions: map<Pick, Base>, p: Pick): real {
    if p in positions then positions[p].effect else 0.0
  }

  function EffectSum(picks: seq<Pick>, positions: map<Pick, Base>): real {
    if picks == [] then 0.0
    else EffectSum(picks[..|picks| - 1], positions) + Effect(positions, picks[|picks| - 1])
  }

  function TempoSum(picks: seq<Pick>, bucket: Bucket): real {
    if picks == [] then 0.0
    else
      var p := picks[|picks| - 1];
      TempoSum(picks[..|picks| - 1], bucket) + if p in bucket then bucket[p].tempo else 0.0
  }

  function MatchSum(picks: seq<Pick>, bucket: Bucket): int {
    if picks == [] then 0
    else
      var p := picks[|picks| - 1];
      MatchSum(picks[..|picks| - 1], bucket) + if p in bucket then bucket[p].matches else 0
  }

  function TotalSum(picks: seq<Pick>, bucket: Bucket): int {
    if picks == [] then 0
    else
      var p := picks[|picks| - 1];
      TotalSum(picks[..|picks| - 1], bucket) + if p in bucket then bucket[p].total else 0
  }

  function Average(total: real, count: nat): real {
    if count > 0 then total / count as real else 0.0
  }

  function TeamAverageDifference(radiant: real, radiantCount: nat, dire: real, direCount: nat): real {
    Average(radiant, radiantCount) - Average(dire, direCount)
  }

  // ---- Specification: synergies ------------------------------------------------------------

  function LookupSynergy(lookup: map<Pair, real>, hero: int, other: int): Option<real> {
    if Pair(hero, other) in lookup then Some(lookup[Pair(hero, other)]) else None
  }

  function AveragePairSynergy(hero: int, other: int, lookup: map<Pair, real>): real {
    var left, right := LookupSynergy(lookup, hero, other), LookupSynergy(lookup, other, hero);
    if left.Some? && right.Some? then (left.value + right.value) / 2.0
    else if left.Some? then left.value
    else if right.Some? then right.value
    else 0.0
  }

  /** Synergies of pick `left` with the picks after it and before `end`. */
  function LeftSum(picks: seq<Pick>, left: nat, end: nat, lookup: map<Pair, real>): real
    requires left < end <= |picks|
  {
    if end == left + 1 then 0.0
    else LeftSum(picks, left, end - 1, lookup) + AveragePairSynergy(picks[left].hero, picks[end - 1].hero, lookup)
  }

  function PairSum(picks: seq<Pick>, end: nat, lookup: map<Pair, real>): real
    requires end <= |picks|
  {
    if end == 0 then 0.0 else PairSum(picks, end - 1, lookup) + LeftSum(picks, end - 1, |picks|, lookup)
  }

  function Advantage(lookup: map<Pair, real>, p: Pick, q: Pick): real {
    var ours, theirs := LookupSynergy(lookup, p.hero, q.hero), LookupSynergy(lookup, q.hero, p.hero);
    if ours.Some? && theirs.Some? then (ours.value - theirs.value) / 2.0
    else if ours.Some? then ours.value
    else if theirs.Some? then -theirs.value
    else 0.0
  }

  function AdvantageOver(lookup: map<Pair, real>, p: Pick, others: seq<Pick>): real {
    if others == [] then 0.0
    else AdvantageOver(lookup, p, others[..|others| - 1]) + Advantage(lookup, p, others[|others| - 1])
  }

  function Matchup(radiant: seq<Pick>, dire: seq<Pick>, lookup: map<Pair, real>): real {
    if radiant == [] then 0.0
    else Matchup(radiant[..|radiant| - 1], dire, lookup) + AdvantageOver(lookup, radiant[|radiant| - 1], dire)
  }

  function SynergyOffset(radiant: seq<Pick>, dire: seq<Pick>, a: Analysis): real {
    Clamp(PairSum(radiant, |radiant|, a.allies) - PairSum(dire, |dire|, a.allies) + Matchup(radiant, dire, a.foes),
          -SYNERGY_ADJUSTMENT_CAP, SYNERGY_ADJUSTMENT_CAP)
  }

  // ---- Specification: the minute table -----------------------------------------------------

  function HeroBase(radiant: seq<Pick>, dire: seq<Pick>, a: Analysis): real {
    TeamAverageDifference(EffectSum(radiant, a.positions), |radiant|, EffectSum(dire, a.positions), |dire|)
    * HERO_ADJUSTMENT_WEIGHT
  }

  function HeroTempo(radiant: seq<Pick>, dire: seq<Pick>, bucket: Bucket): real {
    TeamAverageDifference(TempoSum(radiant, bucket), |radiant|, TempoSum(dire, bucket), |dire|) * HERO_ADJUSTMENT_WEIGHT
  }

  function Percentage(matches: int, total: int): real {
    if total > 0 then Round1((matches as real / total as real) * 100.0) else 0.0
  }

  function RowAt(minute: int, heroBase: real, heroTempo: real, synergy: real, player: real, matches: int, total: int)
    : MinuteRow
  {
    var edge := Round1(heroBase + heroTempo + synergy + player);
    MinuteRow(
      minute, Max(MIN_TIME, minute - WINDOW_RADIUS), Min(MAX_TIME, minute + WINDOW_RADIUS),
      if edge > 0.0 then Radiant else if edge < 0.0 then Dire else Even,
      Round1(Abs(edge)), if edge > 0.0 then Round1(edge) else 0.0, if edge < 0.0 then Round1(Abs(edge)) else 0.0,
      Percentage(matches, total), matches, edge,
      Round1(heroBase + heroTempo), Round1(heroBase), Round1(heroTempo), Round1(synergy), Round1(player))
  }

  function RowFor(radiant: seq<Pick>, dire: seq<Pick>, a: Analysis, player: real, minute: int): MinuteRow
    requires minute in a.graph
  {
    var bucket := a.graph[minute];
    RowAt(minute, HeroBase(radiant, dire, a), HeroTempo(radiant, dire, bucket), SynergyOffset(radiant, dire, a), player,
          MatchSum(radiant, bucket) + MatchSum(dire, bucket), TotalSum(radiant, bucket) + TotalSum(dire, bucket))
  }

  /** The rows of the minutes from 20 up to but not including `end`. */
  function TableUpTo(radiant: seq<Pick>, dire: seq<Pick>, a: Analysis, player: real, end: int): seq<MinuteRow>
    decreases end
  {
    if end <= MIN_TIME then []
    else
      var before := TableUpTo(radiant, dire, a, player, end - 1);
      if end - 1 in a.graph then before + [RowFor(radiant, dire, a, player, end - 1)] else before
  }

  function MinuteTable(radiant: seq<Pick>, dire: seq<Pick>, a: Analysis, player: real): seq<MinuteRow> {
    TableUpTo(radiant, dire, a, player, MAX_TIME + 1)
  }

  /** The graph covers minutes 20 to 60 only, as it is built. */
  predicate GraphOk(graph: map<int, Bucket>) {
    forall m :: m in graph ==> MIN_TIME <= m <= MAX_TIME
  }

  // ---- Methods -----------------------------------------------------------------------------

  method SumTeamPairSynergies(picks: seq<Pick>, lookup: map<Pair, real>) returns (total: real)
    ensures total == PairSum(picks, |picks|, lookup)
  {
    total := 0.0;
    for left := 0 to |picks|
      invariant total == PairSum(picks, left, lookup)
    {
      ghost var before := total;
      for right := left + 1 to |picks|
        invariant total == before + LeftSum(picks, left, right, lookup)
      {
        total := total + AveragePairSynergy(picks[left].hero, picks[right].hero, lookup);
      }
    }
  }

  method SumMatchupAdvantages(radiant: seq<Pick>, dire: seq<Pick>, lookup: map<Pair, real>) returns (advantage: real)
    ensures advantage == Matchup(radiant, dire, lookup)
  {
    advantage := 0.0;
    for i := 0 to |radiant|
      invariant advantage == Matchup(radiant[..i], dire, lookup)
    {
      ghost var before := advantage;
      for j := 0 to |dire|
        invariant advantage == before + AdvantageOver(lookup, radiant[i], dire[..j])
      {
        assert dire[..j + 1][..j] == dire[..j];
        var ours := LookupSynergy(lookup, radiant[i].hero, dire[j].hero);
        var theirs := LookupSynergy(lookup, dire[j].hero, radiant[i].hero);
        if ours.Some? && theirs.Some? {
          advantage := advantage + (ours.value - theirs.value) / 2.0;
        } else if ours.Some? {
          advantage := advantage + ours.value;
        } else if theirs.Some? {
          advantage := advantage - theirs.value;
        }
      }
      assert dire[..|dire|] == dire && radiant[..i + 1][..i] == radiant[..i];
    }
    assert radiant[..|radiant|] == radiant;
  }

  method CalculateSynergyOffset(radiant: seq<Pick>, dire: seq<Pick>, a: Analysis) returns (offset: real)
    ensures offset == SynergyOffset(radiant, dire, a)
  {
    var radiantSynergy := SumTeamPairSynergies(radiant, a.allies);
    var direSynergy := SumTeamPairSynergies(dire, a.allies);
    var matchup := SumMatchupAdvantages(radiant, dire, a.foes);
    offset := Clamp(radiantSynergy - direSynergy + matchup, -SYNERGY_ADJUSTMENT_CAP, SYNERGY_ADJUSTMENT_CAP);
  }

  method SumPositionEffects(picks: seq<Pick>, positions: map<Pick, Base>) returns (total: real)
    ensures total == EffectSum(picks, positions)
  {
    total := 0.0;
    for i := 0 to |picks|
      invariant total == EffectSum(picks[..i], positions)
    {
      assert picks[..i + 1][..i] == picks[..i];
      total := total + Effect(positions, picks[i]);
    }
    assert picks[..|picks|] == picks;
  }

  /** One pass over the picks of a side: their tempo, and the matches they add to the counts so far. */
  method Survey(picks: seq<Pick>, bucket: Bucket, matches0: int, total0: int)
    returns (tempo: real, matches: int, total: int)
    ensures tempo == TempoSum(picks, bucket)
    ensures matches == matches0 + MatchSum(picks, bucket) && total == total0 + TotalSum(picks, bucket)
  {
    tempo, matches, total := 0.0, matches0, total0;
    for i := 0 to |picks|
      invariant tempo == TempoSum(picks[..i], bucket)
      invariant matches == matches0 + MatchSum(picks[..i], bucket) && total == total0 + TotalSum(picks[..i], bucket)
    {
      assert picks[..i + 1][..i] == picks[..i];
      if picks[i] in bucket {
        var stats := bucket[picks[i]];
        tempo, matches, total := tempo + stats.tempo, matches + stats.matches, total + stats.total;
      }
    }
    assert picks[..|picks|] == picks;
  }

  method BuildMinuteTable(radiant: seq<Pick>, dire: seq<Pick>, a: Analysis, player: real)
    returns (table: seq<MinuteRow>)
    requires GraphOk(a.graph)
    ensures table == MinuteTable(radiant, dire, a, player)
  {
    var radiantEffects := SumPositionEffects(radiant, a.positions);
    var direEffects := SumPositionEffects(dire, a.positions);
    var heroBase := TeamAverageDifference(radiantEffects, |radiant|, direEffects, |dire|) * HERO_ADJUSTMENT_WEIGHT;
    var synergy := CalculateSynergyOffset(radiant, dire, a);
    table := [];
    for minute := MIN_TIME to MAX_TIME + 1
      invariant table == TableUpTo(radiant, dire, a, player, minute)
    {
      if minute in a.graph {
        var bucket := a.graph[minute];
        var radiantTempo, matches, total := Survey(radiant, bucket, 0, 0);
        var direTempo, allMatches, allTotal := Survey(dire, bucket, matches, total);
        var heroTempo := TeamAverageDifference(radiantTempo, |radiant|, direTempo, |dire|) * HERO_ADJUSTMENT_WEIGHT;
        table := table + [RowAt(minute, heroBase, heroTempo, synergy, player, allMatches, allTotal)];
      }
    }
  }

  // ---- The players' adjustment -------------------------------------------------------------

  /** The impacts of the highlights of one side, none for a slot without one. */
  function ImpactSum(impacts: seq<Option<real>>): real {
    if impacts == [] then 0.0
    else
      var x := impacts[|impacts| - 1];
      ImpactSum(impacts[..|impacts| - 1]) + if x.Some? then x.value else 0.0
  }

  function NetAdjustment(radiant: seq<Option<real>>, dire: seq<Option<real>>): real {
    Round1(Clamp((ImpactSum(radiant) - ImpactSum(dire)) / 5.0, -TEAM_PLAYER_ADJUSTMENT_CAP, TEAM_PLAYER_ADJUSTMENT_CAP))
  }

  datatype Highlights = NoHighlights | Highlights(radiant: seq<Option<real>>, dire: seq<Option<real>>)

  datatype Score = Score(pure_: seq<MinuteRow>, adjusted: seq<MinuteRow>)

  function PlayerAdjustment(h: Highlights): real {
    if h.NoHighlights? then 0.0 else NetAdjustment(h.radiant, h.dire)
  }

  /** None when the highlights do not align with the picks. */
  function ScorePicks(radiant: seq<Pick>, dire: seq<Pick>, a: Analysis, h: Highlights): Option<Score> {
    if h.Highlights? && (|h.radiant| != |radiant| || |h.dire| != |dire|) then None
    else Some(Score(MinuteTable(radiant, dire, a, 0.0), MinuteTable(radiant, dire, a, PlayerAdjustment(h))))
  }

  method ScoreRoshPicks(radiant: seq<Pick>, dire: seq<Pick>, a: Analysis, h: Highlights) returns (r: Option<Score>)
    requires GraphOk(a.graph)
    ensures r == ScorePicks(radiant, dire, a, h)
  {
    if h.Highlights? && (|h.radiant| != |radiant| || |h.dire| != |dire|) {
      return None;
    }
    var pureTable := BuildMinuteTable(radiant, dire, a, 0.0);
    var adjustedTable := BuildMinuteTable(radiant, dire, a, PlayerAdjustment(h));
    return Some(Score(pureTable, adjustedTable));
  }

  // ---- Swapping the sides ------------------------------------------------------------------

  lemma AdvantageIsOdd(lookup: map<Pair, real>, p: Pick, q: Pick)
    ensures Advantage(lookup, q, p) == -Advantage(lookup, p, q)
  {
  }

  /** A column of the advantage matrix, summed by rows. */
  lemma {:induction false} MatchupColumn(dire: seq<Pick>, radiant: seq<Pick>, p: Pick, lookup: map<Pair, real>)
    ensures Matchup(dire, radiant + [p], lookup) == Matchup(dire, radiant, lookup) - AdvantageOver(lookup, p, dire)
  {
    if dire != [] {
      var n := |dire| - 1;
      MatchupColumn(dire[..n], radiant, p, lookup);
      AdvantageIsOdd(lookup, p, dire[n]);
      assert (radiant + [p])[..|radiant|] == radiant;
    }
  }

  /** The double sum over both teams changes sign when the teams change places. */
  lemma {:induction false} MatchupTransposed(radiant: seq<Pick>, dire: seq<Pick>, lookup: map<Pair, real>)
    ensures Matchup(dire, radiant, lookup) == -Matchup(radiant, dire, lookup)
  {
    if radiant == [] {
      EmptyMatchup(dire, lookup);
    } else {
      var n := |radiant| - 1;
      MatchupTransposed(radiant[..n], dire, lookup);
      assert radiant == radiant[..n] + [radiant[n]];
      MatchupColumn(dire, radiant[..n], radiant[n], lookup);
    }
  }

  lemma {:induction false} EmptyMatchup(dire: seq<Pick>, lookup: map<Pair, real>)
    ensures Matchup(dire, [], lookup) == 0.0
  {
    if dire != [] {
      EmptyMatchup(dire[..|dire| - 1], lookup);
    }
  }

  lemma SynergyOffsetOdd(radiant: seq<Pick>, dire: seq<Pick>, a: Analysis)
    ensures SynergyOffset(dire, radiant, a) == -SynergyOffset(radiant, dire, a)
    ensures -SYNERGY_ADJUSTMENT_CAP <= SynergyOffset(radiant, dire, a) <= SYNERGY_ADJUSTMENT_CAP
  {
    MatchupTransposed(radiant, dire, a.foes);
  }

  lemma NetAdjustmentOdd(radiant: seq<Option<real>>, dire: seq<Option<real>>)
    ensures NetAdjustment(dire, radiant) == -NetAdjustment(radiant, dire)
  {
    var x := (ImpactSum(radiant) - ImpactSum(dire)) / 5.0;
    assert (ImpactSum(dire) - ImpactSum(radiant)) / 5.0 == -x;
    RoundsOdd(Clamp(x, -TEAM_PLAYER_ADJUSTMENT_CAP, TEAM_PLAYER_ADJUSTMENT_CAP));
  }

  function Opposite(s: Side): Side {
    match s case Radiant => Dire case Dire => Radiant case Even => Even
  }

  /** The same minute seen from the other side: signed figures change sign, the sides change places. */
  function Mirrored(row: MinuteRow): MinuteRow {
    row.(side := Opposite(row.side), radiantAdvantage := row.direAdvantage, direAdvantage := row.radiantAdvantage,
         edge := -row.edge, hero := -row.hero, heroBase := -row.heroBase, heroTempo := -row.heroTempo,
         synergy := -row.synergy, player := -row.player)
  }

  function MirroredTable(table: seq<MinuteRow>): seq<MinuteRow> {
    if table == [] then [] else MirroredTable(table[..|table| - 1]) + [Mirrored(table[|table| - 1])]
  }

  lemma RowMirrors(minute: int, b: real, t: real, s: real, p: real, matches: int, total: int)
    ensures RowAt(minute, -b, -t, -s, -p, matches, total) == Mirrored(RowAt(minute, b, t, s, p, matches, total))
  {
    var x := b + t + s + p;
    assert -b + -t + -s + -p == -x && -b + -t == -(b + t);
    RoundsOdd(x);
    RoundsOdd(b + t);
    RoundsOdd(b);
    RoundsOdd(t);
    RoundsOdd(s);
    RoundsOdd(p);
    RoundsOdd(Round1(x));
  }

  lemma RowForMirrors(radiant: seq<Pick>, dire: seq<Pick>, a: Analysis, player: real, minute: int)
    requires minute in a.graph
    ensures RowFor(dire, radiant, a, -player, minute) == Mirrored(RowFor(radiant, dire, a, player, minute))
  {
    var bucket := a.graph[minute];
    SynergyOffsetOdd(radiant, dire, a);
    var b, t := HeroBase(radiant, dire, a), HeroTempo(radiant, dire, bucket);
    assert HeroBase(dire, radiant, a) == -b && HeroTempo(dire, radiant, bucket) == -t;
    RowMirrors(minute, b, t, SynergyOffset(radiant, dire, a), player,
               MatchSum(radiant, bucket) + MatchSum(dire, bucket), TotalSum(radiant, bucket) + TotalSum(dire, bucket));
  }

  lemma MirroredSnoc(table: seq<MinuteRow>, row: MinuteRow)
    ensures MirroredTable(table + [row]) == MirroredTable(table) + [Mirrored(row)]
  {
    assert (table + [row])[..|table|] == table;
  }

  lemma {:induction false} TableMirrors(radiant: seq<Pick>, dire: seq<Pick>, a: Analysis, player: real, end: int)
    ensures TableUpTo(dire, radiant, a, -player, end) == MirroredTable(TableUpTo(radiant, dire, a, player, end))
    decreases end
  {
    if end > MIN_TIME {
      TableMirrors(radiant, dire, a, player, end - 1);
      if end - 1 in a.graph {
        RowForMirrors(radiant, dire, a, player, end - 1);
        MirroredSnoc(TableUpTo(radiant, dire, a, player, end - 1), RowFor(radiant, dire, a, player, end - 1));
      }
    }
  }

  function SwappedHighlights(h: Highlights): Highlights {
    if h.NoHighlights? then h else Highlights(h.dire, h.radiant)
  }

  /**
   Swapping Radiant and Dire, picks and highlights, mirrors every minute of the pure and of the adjusted table:
   each edge changes sign, support and match percentage stay.
   */
  lemma SwapMirrorsScore(radiant: seq<Pick>, dire: seq<Pick>, a: Analysis, h: Highlights)
    ensures ScorePicks(dire, radiant, a, SwappedHighlights(h))
            == match ScorePicks(radiant, dire, a, h)
               case None => None
               case Some(s) => Some(Score(MirroredTable(s.pure_), MirroredTable(s.adjusted)))
  {
    if h.Highlights? {
      NetAdjustmentOdd(h.radiant, h.dire);
    }
    TableMirrors(radiant, dire, a, 0.0, MAX_TIME + 1);
    TableMirrors(radiant, dire, a, PlayerAdjustment(h), MAX_TIME + 1);
  }
}
