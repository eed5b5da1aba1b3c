/** Which way ratings move: winners gain what losers lose, by their expected score, from their latest rating. */
module EloGains {
  import opened Common
  import opened Elo
  import opened EloLaws

  /** A positive step and an expected score strictly between 0 and 1 that both teams agree on. */
  ghost predicate Scored(cfg: Config) {
    && cfg.k > 0.0
    && (forall x: real :: 0.0 < cfg.logistic(x) < 1.0)
    && (forall x: real :: cfg.logistic(x) + cfg.logistic(-x) == 1.0)
  }

  /** The fact counts for a run: usable by then, mapped, between two teams, won, and not in conflict. */
  predicate Counts(f: Fact, asOf: int) {
    f.usableAt <= asOf && f.canonical && f.radiant.Some? && f.dire.Some? && f.winner.Some? && !f.conflict
  }

  /** The listed winner, which is Dire unless Radiant is named. */
  predicate Won(f: Fact, team: int)
    requires f.radiant.Some? && f.dire.Some?
  {
    if f.winner == f.radiant then team == f.radiant.value else team == f.dire.value
  }

  /** The share of a whole step. */
  function Step(cfg: Config, share: real): real {
    cfg.k * share
  }

  /** A snapshot as the result of its fact calls for: up from the rating before for the winner, down for the loser. */
  ghost predicate Graded(cfg: Config, s: Snapshot, f: Fact) {
    && f.radiant.Some? && f.dire.Some? && (s.team == f.radiant.value || s.team == f.dire.value)
    && s.source == f.id && s.cutoff == f.usableAt && s.expected == cfg.logistic(s.before - s.opponentBefore)
    && (Won(f, s.team) ==>
          s.result == 1.0 && s.rating == s.before + Step(cfg, 1.0 - s.expected) && s.rating > s.before)
    && (!Won(f, s.team) ==>
          s.result == 0.0 && s.rating == s.before - Step(cfg, s.expected) && s.rating < s.before)
  }

  /** The two snapshots of one match: Radiant's and Dire's, each against the other, with equal gain and loss. */
  ghost predicate Pair(cfg: Config, x: Snapshot, y: Snapshot, f: Fact) {
    && Graded(cfg, x, f) && Graded(cfg, y, f) && x.team == f.radiant.value && y.team == f.dire.value
    && x.opponentBefore == y.before && y.opponentBefore == x.before
    && x.rating - x.before == y.before - y.rating
  }

  /** The rating a team enters its next match with: its last one in this list, else the one it came with. */
  function Entering(cfg: Config, ratings: map<int, real>, snaps: seq<Snapshot>, team: int): real {
    if snaps == [] then if team in ratings then ratings[team] else cfg.initial
    else if snaps[|snaps| - 1].team == team then snaps[|snaps| - 1].rating
    else Entering(cfg, ratings, snaps[..|snaps| - 1], team)
  }

  // ---- One match -----------------------------------------------------------------------------

  lemma StepIsPositive(cfg: Config, share: real)
    requires cfg.k > 0.0 && share > 0.0
    ensures Step(cfg, share) > 0.0
  {
  }

  lemma LogisticAt(cfg: Config, lead: real)
    requires Scored(cfg)
    ensures 0.0 < cfg.logistic(lead) < 1.0 && cfg.logistic(-lead) == 1.0 - cfg.logistic(lead)
  {
  }

  lemma UpdateIs(cfg: Config, a: real, b: real, winnerIsA: bool)
    ensures var x := cfg.logistic(a - b);
            UpdateElo(cfg, a, b, winnerIsA)
            == if winnerIsA then Update(a + Step(cfg, 1.0 - x), b - Step(cfg, 1.0 - x), x, 1.0 - x)
               else Update(a - Step(cfg, x), b + Step(cfg, x), x, 1.0 - x)
  {
    var x := cfg.logistic(a - b);
    assert cfg.k * (0.0 - x) == -(cfg.k * x);
    assert cfg.k * ((1.0 - 1.0) - (1.0 - x)) == -(cfg.k * (1.0 - x));
    assert (1.0 - 0.0) - (1.0 - x) == x;
  }

  lemma SnapshotsPair(cfg: Config, ratings: map<int, real>, f: Fact)
    requires Scored(cfg) && Playable(f) && f.radiant != f.dire
    ensures var snaps := SnapshotsOf(cfg, ratings, f);
            && Pair(cfg, snaps[0], snaps[1], f)
            && snaps[0].before == RatingOf(cfg, ratings, f.radiant.value)
            && snaps[1].before == RatingOf(cfg, ratings, f.dire.value)
  {
    var lead := RatingOf(cfg, ratings, f.radiant.value) - RatingOf(cfg, ratings, f.dire.value);
    LogisticAt(cfg, lead);
    PairOfSnapshots(cfg, ratings, f, cfg.logistic(lead));
  }

  lemma PairOfSnapshots(cfg: Config, ratings: map<int, real>, f: Fact, x: real)
    requires cfg.k > 0.0 && 0.0 < x < 1.0 && Playable(f) && f.radiant != f.dire
    requires var a, b := RatingOf(cfg, ratings, f.radiant.value), RatingOf(cfg, ratings, f.dire.value);
             cfg.logistic(a - b) == x && cfg.logistic(-(a - b)) == 1.0 - x
    ensures Pair(cfg, SnapshotsOf(cfg, ratings, f)[0], SnapshotsOf(cfg, ratings, f)[1], f)
  {
    var a, b := RatingOf(cfg, ratings, f.radiant.value), RatingOf(cfg, ratings, f.dire.value);
    assert -(a - b) == b - a;
    UpdateIs(cfg, a, b, f.winner.value == f.radiant.value);
    StepIsPositive(cfg, x);
    StepIsPositive(cfg, 1.0 - x);
    assert 1.0 - (1.0 - x) == x;
    var snaps := SnapshotsOf(cfg, ratings, f);
    assert Graded(cfg, snaps[0], f);
    assert Graded(cfg, snaps[1], f);
  }

  // ---- A whole replay --------------------------------------------------------------------------

  /** The snapshots at `i` and after it are the two of one match, entered with the latest ratings. */
  ghost predicate PairAt(cfg: Config, ratings: map<int, real>, snaps: seq<Snapshot>, facts: seq<Fact>, i: nat) {
    && i + 1 < |snaps|
    && snaps[i].before == Entering(cfg, ratings, snaps[..i], snaps[i].team)
    && snaps[i + 1].before == Entering(cfg, ratings, snaps[..i], snaps[i + 1].team)
    && exists f :: f in facts && Pair(cfg, snaps[i], snaps[i + 1], f)
  }

  ghost predicate AllPaired(cfg: Config, ratings: map<int, real>, snaps: seq<Snapshot>, facts: seq<Fact>) {
    && |snaps| % 2 == 0
    && forall i :: 0 <= i < |snaps| && i % 2 == 0 ==> PairAt(cfg, ratings, snaps, facts, i)
  }

  ghost predicate Entered(cfg: Config, ratings: map<int, real>, b: Book) {
    forall team :: RatingOf(cfg, b.ratings, team) == Entering(cfg, ratings, b.added, team)
  }

  lemma PairStays(cfg: Config, ratings: map<int, real>, snaps: seq<Snapshot>, more: seq<Snapshot>,
                  facts: seq<Fact>, f: Fact, i: nat)
    requires PairAt(cfg, ratings, snaps, facts, i)
    ensures PairAt(cfg, ratings, snaps + more, facts + [f], i)
  {
    assert (snaps + more)[..i] == snaps[..i];
    var g :| g in facts && Pair(cfg, snaps[i], snaps[i + 1], g);
    assert g in facts + [f];
  }

  lemma EnteringSnoc(cfg: Config, ratings: map<int, real>, snaps: seq<Snapshot>, x: Snapshot, y: Snapshot, team: int)
    ensures Entering(cfg, ratings, snaps + [x, y], team)
            == if team == y.team then y.rating else if team == x.team then x.rating else Entering(cfg, ratings, snaps, team)
  {
    assert (snaps + [x, y])[..|snaps| + 1] == snaps + [x];
    assert (snaps + [x])[..|snaps|] == snaps;
  }

  lemma PlayKeepsEntered(cfg: Config, ratings: map<int, real>, b: Book, f: Fact)
    requires Entered(cfg, ratings, b)
    ensures Entered(cfg, ratings, Play(cfg, b, f))
  {
    if f.match_ !in b.processed && Playable(f) {
      var snaps := SnapshotsOf(cfg, b.ratings, f);
      assert snaps == [snaps[0], snaps[1]];
      forall team
        ensures RatingOf(cfg, Play(cfg, b, f).ratings, team) == Entering(cfg, ratings, Play(cfg, b, f).added, team)
      {
        EnteringSnoc(cfg, ratings, b.added, snaps[0], snaps[1], team);
      }
    }
  }

  lemma PlayKeepsPaired(cfg: Config, ratings: map<int, real>, b: Book, facts: seq<Fact>, f: Fact)
    requires Scored(cfg) && TwoTeams(f) && Entered(cfg, ratings, b) && AllPaired(cfg, ratings, b.added, facts)
    ensures AllPaired(cfg, ratings, Play(cfg, b, f).added, facts + [f])
  {
    var played, n := Play(cfg, b, f).added, |b.added|;
    var more := if f.match_ in b.processed || !Playable(f) then [] else SnapshotsOf(cfg, b.ratings, f);
    assert played == b.added + more;
    forall i | 0 <= i < |played| && i % 2 == 0
      ensures PairAt(cfg, ratings, played, facts + [f], i)
    {
      if i < n {
        PairStays(cfg, ratings, b.added, more, facts, f, i);
      } else {
        SnapshotsPair(cfg, b.ratings, f);
        assert i == n && played[..n] == b.added && f in facts + [f];
      }
    }
  }

  lemma {:induction false} ReplayPairs(cfg: Config, b: Book, facts: seq<Fact>)
    requires Scored(cfg) && b.added == [] && forall i :: 0 <= i < |facts| ==> TwoTeams(facts[i])
    ensures Entered(cfg, b.ratings, Replay(cfg, b, facts))
    ensures AllPaired(cfg, b.ratings, Replay(cfg, b, facts).added, facts)
  {
    if facts != [] {
      var n := |facts| - 1;
      assert facts == facts[..n] + [facts[n]];
      ReplayPairs(cfg, b, facts[..n]);
      PlayKeepsPaired(cfg, b.ratings, Replay(cfg, b, facts[..n]), facts[..n], facts[n]);
      PlayKeepsEntered(cfg, b.ratings, Replay(cfg, b, facts[..n]), facts[n]);
    }
  }

  // ---- Main results ----------------------------------------------------------------------------

  lemma AgendaTwoTeams(table: seq<Fact>, asOf: int)
    requires forall i :: 0 <= i < |table| ==> TwoTeams(table[i])
    ensures forall i :: 0 <= i < |Agenda(table, asOf)| ==> TwoTeams(Agenda(table, asOf)[i])
    ensures forall f :: f in Agenda(table, asOf) ==> f in table && Counts(f, asOf)
  {
    forall f | f in Agenda(table, asOf)
      ensures f in table && Counts(f, asOf)
    {
      AgendaFact(table, asOf, f);
    }
    forall i | 0 <= i < |Agenda(table, asOf)|
      ensures TwoTeams(Agenda(table, asOf)[i])
    {
      AgendaFact(table, asOf, Agenda(table, asOf)[i]);
    }
  }

  /**
   The snapshots a run creates come in pairs, one pair for a fact that counts: the winner's rating rises from what it
   entered with, the loser's falls by as much, each team entering with its latest rating.
   */
  lemma RunsRewardWinners(cfg: Config, table: seq<Fact>, snaps: seq<Snapshot>, asOf: int)
    requires Scored(cfg) && forall i :: 0 <= i < |table| ==> TwoTeams(table[i])
    ensures AllPaired(cfg, LatestRatings(snaps, asOf), Close(cfg, table, snaps, asOf).added, Agenda(table, asOf))
    ensures forall f :: f in Agenda(table, asOf) ==> f in table && Counts(f, asOf)
  {
    AgendaTwoTeams(table, asOf);
    ReplayPairs(cfg, Opening(table, snaps, asOf), Agenda(table, asOf));
  }

  /** Each snapshot of a run is graded by a fact of the table that counts. */
  lemma EverySnapshotIsGraded(cfg: Config, table: seq<Fact>, snaps: seq<Snapshot>, asOf: int, s: Snapshot) returns (f: Fact)
    requires Scored(cfg) && forall i :: 0 <= i < |table| ==> TwoTeams(table[i])
    requires s in Close(cfg, table, snaps, asOf).added
    ensures f in table && Counts(f, asOf) && Graded(cfg, s, f)
  {
    RunsRewardWinners(cfg, table, snaps, asOf);
    var added := Close(cfg, table, snaps, asOf).added;
    var i :| 0 <= i < |added| && added[i] == s;
    var j := if i % 2 == 0 then i else i - 1;
    assert PairAt(cfg, LatestRatings(snaps, asOf), added, Agenda(table, asOf), j);
    f :| f in Agenda(table, asOf) && Pair(cfg, added[j], added[j + 1], f);
  }

  /** Of the facts of one match that count, the run takes one from Stratz if there is one. */
  lemma {:induction false} StratzIsPreferred(table: seq<Fact>, asOf: int, f: Fact, g: Fact)
    requires f in Agenda(table, asOf) && g in table && Counts(g, asOf) && g.match_ == f.match_
    ensures f.provider == "stratz" || g.provider != "stratz"
  {
    AgendaIs(table, asOf);
    EligibleAre(table, asOf);
    if g.provider == "stratz" {
      ChosenPrefersStratz(EligibleFacts(table, asOf), f.match_, g);
    }
  }

  lemma {:induction false} ChosenPrefersStratz(facts: seq<Fact>, match_: int, g: Fact)
    requires g in facts && g.match_ == match_ && g.provider == "stratz"
    ensures Chosen(facts, match_).Some? && Chosen(facts, match_).value.provider == "stratz"
  {
    var n := |facts| - 1;
    assert facts == facts[..n] + [facts[n]];
    if g in facts[..n] {
      ChosenPrefersStratz(facts[..n], match_, g);
    }
  }
}
