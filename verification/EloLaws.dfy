/** Ratings are conserved, reruns create nothing, and incremental runs add up to one full run. */
module EloLaws {
  import opened Common
  import opened Sorting
  import opened Elo

  // ---- Conservation ------------------------------------------------------------------------

  function RatingFunction(cfg: Config, ratings: map<int, real>): int -> real {
    t => RatingOf(cfg, ratings, t)
  }

  /** The ratings of some teams together. */
  function Total(cfg: Config, ratings: map<int, real>, teams: seq<int>): real {
    SumReal(RatingFunction(cfg, ratings), teams)
  }

  lemma {:induction false} SumChangesAt(f: int -> real, g: int -> real, s: seq<int>, x: int)
    requires Distinct(s) && x in s && forall i :: 0 <= i < |s| && s[i] != x ==> f(s[i]) == g(s[i])
    ensures SumReal(g, s) == SumReal(f, s) - f(x) + g(x)
  {
    var init, last := s[..|s| - 1], s[|s| - 1];
    assert s == init + [last];
    if last == x {
      SumRealSame(f, g, init);
    } else {
      SumChangesAt(f, g, init, x);
    }
  }

  lemma TotalChangesAt(cfg: Config, ratings: map<int, real>, team: int, rating: real, teams: seq<int>)
    requires Distinct(teams) && team in teams
    ensures Total(cfg, ratings[team := rating], teams) == Total(cfg, ratings, teams) - RatingOf(cfg, ratings, team) + rating
  {
    SumChangesAt(RatingFunction(cfg, ratings), RatingFunction(cfg, ratings[team := rating]), teams, team);
  }

  /** What one team wins the other loses. */
  lemma UpdateConserves(cfg: Config, a: real, b: real, winnerIsA: bool)
    ensures UpdateElo(cfg, a, b, winnerIsA).ratingA + UpdateElo(cfg, a, b, winnerIsA).ratingB == a + b
  {
    var x := (if winnerIsA then 1.0 else 0.0) - cfg.logistic(a - b);
    assert UpdateElo(cfg, a, b, winnerIsA).ratingA == a + cfg.k * x;
    assert UpdateElo(cfg, a, b, winnerIsA).ratingB == b + cfg.k * (-x);
    assert cfg.k * (-x) == -(cfg.k * x);
  }

  /** A match between two different teams. */
  predicate TwoTeams(f: Fact) {
    Playable(f) ==> f.radiant != f.dire
  }

  ghost predicate Plays(f: Fact, teams: seq<int>) {
    TwoTeams(f) && (Playable(f) ==> f.radiant.value in teams && f.dire.value in teams)
  }

  lemma PlayConserves(cfg: Config, b: Book, f: Fact, teams: seq<int>)
    requires Distinct(teams) && Plays(f, teams)
    ensures Total(cfg, Play(cfg, b, f).ratings, teams) == Total(cfg, b.ratings, teams)
  {
    if f.match_ !in b.processed && Playable(f) {
      var radiant, dire := f.radiant.value, f.dire.value;
      var x, y := RatingOf(cfg, b.ratings, radiant), RatingOf(cfg, b.ratings, dire);
      var snaps := SnapshotsOf(cfg, b.ratings, f);
      UpdateConserves(cfg, x, y, f.winner.value == radiant);
      TotalChangesAt(cfg, b.ratings, radiant, snaps[0].rating, teams);
      TotalChangesAt(cfg, b.ratings[radiant := snaps[0].rating], dire, snaps[1].rating, teams);
    }
  }

  /** A run leaves the total rating of all teams that play in it where it was. */
  lemma {:induction false} ReplayConserves(cfg: Config, b: Book, facts: seq<Fact>, teams: seq<int>)
    requires Distinct(teams) && forall i :: 0 <= i < |facts| ==> Plays(facts[i], teams)
    ensures Total(cfg, Replay(cfg, b, facts).ratings, teams) == Total(cfg, b.ratings, teams)
  {
    if facts != [] {
      var n := |facts| - 1;
      ReplayConserves(cfg, b, facts[..n], teams);
      PlayConserves(cfg, Replay(cfg, b, facts[..n]), facts[n], teams);
    }
  }

  /** Which side a team is listed on makes no difference to its new rating. */
  lemma SidesDoNotMatter(cfg: Config, a: real, b: real, winnerIsA: bool)
    requires forall x: real :: cfg.logistic(x) + cfg.logistic(-x) == 1.0
    ensures UpdateElo(cfg, b, a, !winnerIsA).ratingA == UpdateElo(cfg, a, b, winnerIsA).ratingB
    ensures UpdateElo(cfg, b, a, !winnerIsA).ratingB == UpdateElo(cfg, a, b, winnerIsA).ratingA
  {
    assert cfg.logistic(a - b) + cfg.logistic(-(a - b)) == 1.0;
    assert -(a - b) == b - a;
  }

  // ---- Folding -------------------------------------------------------------------------------

  lemma {:induction false} ReplayConcat(cfg: Config, b: Book, xs: seq<Fact>, ys: seq<Fact>)
    ensures Replay(cfg, b, xs + ys) == Replay(cfg, Replay(cfg, b, xs), ys)
  {
    if ys == [] {
      assert xs + ys == xs;
    } else {
      assert (xs + ys)[..|xs + ys| - 1] == xs + ys[..|ys| - 1];
      ReplayConcat(cfg, b, xs, ys[..|ys| - 1]);
    }
  }

  lemma {:induction false} ReplaySkips(cfg: Config, b: Book, facts: seq<Fact>)
    requires forall i :: 0 <= i < |facts| ==> facts[i].match_ in b.processed
    ensures Replay(cfg, b, facts) == b
  {
    if facts != [] {
      ReplaySkips(cfg, b, facts[..|facts| - 1]);
    }
  }

  /** Snapshots taken before play no part in what is added. */
  lemma {:induction false} ReplayFrame(cfg: Config, b: Book, earlier: seq<Snapshot>, facts: seq<Fact>)
    ensures Replay(cfg, b.(added := earlier + b.added), facts)
            == Replay(cfg, b, facts).(added := earlier + Replay(cfg, b, facts).added)
  {
    if facts != [] {
      var init := facts[..|facts| - 1];
      ReplayFrame(cfg, b, earlier, init);
      var c := Replay(cfg, b, init);
      if facts[|facts| - 1].match_ !in c.processed && Playable(facts[|facts| - 1]) {
        var snaps := SnapshotsOf(cfg, c.ratings, facts[|facts| - 1]);
        assert earlier + (c.added + snaps) == (earlier + c.added) + snaps;
      }
    }
  }

  // ---- Which facts are preferred ---------------------------------------------------------------

  /** The fact that stands for a match: the first from Stratz, else the first. */
  function Chosen(facts: seq<Fact>, match_: int): Option<Fact> {
    if facts == [] then None
    else
      var current, f := Chosen(facts[..|facts| - 1], match_), facts[|facts| - 1];
      if f.match_ == match_ && (current.None? || (Stratz(f) && !Stratz(current.value))) then Some(f) else current
  }

  ghost predicate OnePerMatch(facts: seq<Fact>) {
    forall i, j :: 0 <= i < j < |facts| ==> facts[i].match_ != facts[j].match_
  }

  lemma {:induction false} ChosenIsFact(facts: seq<Fact>, match_: int)
    ensures Chosen(facts, match_).Some? ==>
              Chosen(facts, match_).value in facts && Chosen(facts, match_).value.match_ == match_
    ensures Chosen(facts, match_).None? ==> forall f :: f in facts ==> f.match_ != match_
  {
    if facts != [] {
      ChosenIsFact(facts[..|facts| - 1], match_);
      assert facts == facts[..|facts| - 1] + [facts[|facts| - 1]];
    }
  }

  ghost predicate ListsChosen(grouped: seq<Fact>, facts: seq<Fact>) {
    && OnePerMatch(grouped)
    && (forall i :: 0 <= i < |grouped| ==> Chosen(facts, grouped[i].match_) == Some(grouped[i]))
    && (forall m :: Chosen(facts, m).Some? ==> Chosen(facts, m).value in grouped)
  }

  /** The grouping loop keeps exactly the chosen fact of every match. */
  lemma {:induction false} PreferredListsChosen(facts: seq<Fact>)
    ensures ListsChosen(Preferred(facts), facts)
  {
    if facts != [] {
      var init, f := facts[..|facts| - 1], facts[|facts| - 1];
      PreferredListsChosen(init);
      var grouped, after := Preferred(init), Preferred(facts);
      var current := Find(grouped, f.match_);
      ChosenIsFact(init, f.match_);
      if current.Some? {
        assert Chosen(init, f.match_) == Some(grouped[current.value]);
      }
      forall m | Chosen(facts, m).Some?
        ensures Chosen(facts, m).value in after
      {
        ChosenIsFact(init, m);
        if m != f.match_ {
          var i :| 0 <= i < |grouped| && grouped[i] == Chosen(init, m).value;
          assert after[i] == grouped[i];
        } else if current.None? {
          assert after[|grouped|] == f;
        } else {
          assert after[current.value] == Chosen(facts, m).value;
        }
      }
    }
  }

  // ---- The agenda ------------------------------------------------------------------------------

  /** Sorted, with one entry per match: strictly ascending. */
  ghost predicate Ascending(facts: seq<Fact>) {
    OnePerMatch(facts) && SortedBy(Earlier, facts)
  }

  /** Sorting a list with one entry per match makes it strictly ascending. */
  lemma SortAscends(facts: seq<Fact>)
    requires OnePerMatch(facts)
    ensures Ascending(SortFacts(facts)) && forall x :: x in SortFacts(facts) <==> x in facts
  {
    SortSorts(Earlier, facts);
    PermutedDistinct(facts, SortFacts(facts));
    StillOnePerMatch(facts, SortFacts(facts));
  }

  lemma StillOnePerMatch(facts: seq<Fact>, sorted: seq<Fact>)
    requires OnePerMatch(facts) && Distinct(sorted) && forall x :: x in sorted <==> x in facts
    ensures OnePerMatch(sorted)
  {
    forall i, j | 0 <= i < j < |sorted|
      ensures sorted[i].match_ != sorted[j].match_
    {
      assert sorted[i] in facts && sorted[j] in facts && sorted[i] != sorted[j];
    }
  }

  /** The agenda holds the chosen facts in strictly ascending order. */
  lemma AgendaIs(table: seq<Fact>, asOf: int)
    ensures Ascending(Agenda(table, asOf))
    ensures forall f :: f in Agenda(table, asOf) <==> Chosen(EligibleFacts(table, asOf), f.match_) == Some(f)
  {
    var facts := EligibleFacts(table, asOf);
    PreferredListsChosen(facts);
    SortAscends(Preferred(facts));
    forall f
      ensures f in Agenda(table, asOf) <==> Chosen(facts, f.match_) == Some(f)
    {
      if f in Preferred(facts) {
        var i :| 0 <= i < |Preferred(facts)| && Preferred(facts)[i] == f;
      }
    }
  }

  lemma {:induction false} EligibleAre(table: seq<Fact>, asOf: int)
    ensures forall f :: f in EligibleFacts(table, asOf) <==> f in table && Eligible(f, asOf)
  {
    if table != [] {
      EligibleAre(table[..|table| - 1], asOf);
      assert table == table[..|table| - 1] + [table[|table| - 1]];
    }
  }

  lemma AgendaFact(table: seq<Fact>, asOf: int, f: Fact)
    requires f in Agenda(table, asOf)
    ensures f in table && Eligible(f, asOf)
  {
    AgendaIs(table, asOf);
    ChosenIsFact(EligibleFacts(table, asOf), f.match_);
    EligibleAre(table, asOf);
  }

  /** Two strictly ascending lists of the same facts are equal. */
  lemma {:induction false} AscendingOnce(xs: seq<Fact>, ys: seq<Fact>)
    requires Ascending(xs) && Ascending(ys) && forall f :: f in xs <==> f in ys
    ensures xs == ys
  {
    if xs == [] {
      HasOne(ys);
    } else {
      assert xs[0] in ys;
      var x, y := xs[|xs| - 1], ys[|ys| - 1];
      assert x in ys && y in xs;
      LastIsLatest(xs, y);
      LastIsLatest(ys, x);
      assert x == y;
      InitOf(xs);
      InitOf(ys);
      var xs', ys' := xs[..|xs| - 1], ys[..|ys| - 1];
      forall f: Fact
        ensures f in xs' <==> f in ys'
      {
        assert f in xs <==> f in ys;
      }
      AscendingOnce(xs', ys');
    }
  }

  lemma HasOne(xs: seq<Fact>)
    ensures xs == [] || exists f :: f in xs
  {
    if xs != [] {
      assert xs[0] in xs;
    }
  }

  lemma LastIsLatest(xs: seq<Fact>, f: Fact)
    requires Ascending(xs) && f in xs
    ensures f == xs[|xs| - 1] || (Earlier(f, xs[|xs| - 1]) && f.match_ != xs[|xs| - 1].match_)
  {
  }

  lemma InitOf(xs: seq<Fact>)
    requires Ascending(xs) && xs != []
    ensures Ascending(xs[..|xs| - 1]) && forall f :: f in xs[..|xs| - 1] <==> f in xs && f != xs[|xs| - 1]
  {
    assert xs == xs[..|xs| - 1] + [xs[|xs| - 1]];
  }

  // ---- Rerunning -------------------------------------------------------------------------------

  /** The matches played are those that were processed at the end. */
  lemma {:induction false} ReplayProcesses(cfg: Config, b: Book, facts: seq<Fact>)
    requires forall i :: 0 <= i < |facts| ==> Playable(facts[i])
    ensures forall f :: f in facts ==> f.match_ in Replay(cfg, b, facts).processed
    ensures b.processed <= Replay(cfg, b, facts).processed
  {
    if facts != [] {
      ReplayProcesses(cfg, b, facts[..|facts| - 1]);
      assert facts == facts[..|facts| - 1] + [facts[|facts| - 1]];
    }
  }

  /** Each processed match has a snapshot from a fact of that match, old or added. */
  ghost predicate Backed(m: int, facts: seq<Fact>, snaps: seq<Snapshot>) {
    exists f :: f in facts && f.match_ == m && HasSnapshot(snaps, f.id)
  }

  lemma {:induction false} ReplayBacks(cfg: Config, b: Book, facts: seq<Fact>, m: int)
    requires m in Replay(cfg, b, facts).processed && m !in b.processed
    ensures Backed(m, facts, Replay(cfg, b, facts).added)
  {
    var init, f := facts[..|facts| - 1], facts[|facts| - 1];
    assert facts == init + [f];
    var before, after := Replay(cfg, b, init), Replay(cfg, b, facts);
    if m in before.processed {
      ReplayBacks(cfg, b, init, m);
      var g :| g in init && g.match_ == m && HasSnapshot(before.added, g.id);
      var i :| 0 <= i < |before.added| && before.added[i].source == g.id;
      assert after.added[i] == before.added[i];
      assert g in facts;
    } else {
      assert after.added[|before.added|].source == f.id;
      assert f in facts && HasSnapshot(after.added, f.id);
    }
  }

  lemma AgendaPlayable(table: seq<Fact>, asOf: int)
    ensures forall i :: 0 <= i < |Agenda(table, asOf)| ==> Playable(Agenda(table, asOf)[i])
  {
    forall i | 0 <= i < |Agenda(table, asOf)|
      ensures Playable(Agenda(table, asOf)[i])
    {
      AgendaFact(table, asOf, Agenda(table, asOf)[i]);
    }
  }

  /** After a run every match of its agenda counts as processed, and so it does ever after. */
  lemma RunProcesses(cfg: Config, table: seq<Fact>, snaps: seq<Snapshot>, asOf: int, f: Fact)
    requires f in Agenda(table, asOf)
    ensures f.match_ in Processed(table, snaps + Close(cfg, table, snaps, asOf).added)
  {
    var b, agenda := Opening(table, snaps, asOf), Agenda(table, asOf);
    var close := Close(cfg, table, snaps, asOf);
    AgendaPlayable(table, asOf);
    ReplayProcesses(cfg, b, agenda);
    if f.match_ in b.processed {
      var i :| 0 <= i < |table| && HasSnapshot(snaps, table[i].id) && table[i].match_ == f.match_;
      StillSnapshot(snaps, close.added, table[i].id);
    } else {
      ReplayBacks(cfg, b, agenda, f.match_);
      var g :| g in agenda && g.match_ == f.match_ && HasSnapshot(close.added, g.id);
      AgendaFact(table, asOf, g);
      var i :| 0 <= i < |table| && table[i] == g;
      StillSnapshot(snaps, close.added, g.id);
    }
  }

  lemma StillSnapshot(xs: seq<Snapshot>, ys: seq<Snapshot>, id: int)
    requires HasSnapshot(xs, id) || HasSnapshot(ys, id)
    ensures HasSnapshot(xs + ys, id)
  {
    if HasSnapshot(xs, id) {
      var i :| 0 <= i < |xs| && xs[i].source == id;
      assert (xs + ys)[i].source == id;
    } else {
      var i :| 0 <= i < |ys| && ys[i].source == id;
      assert (xs + ys)[|xs| + i].source == id;
    }
  }

  /** What is on an earlier agenda has its match on a later one. */
  lemma EarlierAgenda(table: seq<Fact>, asOf: int, later: int, f: Fact)
    requires asOf <= later && f in Agenda(table, asOf)
    ensures exists g :: g in Agenda(table, later) && g.match_ == f.match_
  {
    AgendaFact(table, asOf, f);
    EligibleAre(table, later);
    ChosenIsFact(EligibleFacts(table, later), f.match_);
    AgendaIs(table, later);
    var g := Chosen(EligibleFacts(table, later), f.match_).value;
    assert g in Agenda(table, later);
  }

  /** Running again on the same facts, at the same or an earlier moment, creates nothing. */
  lemma RerunCreatesNothing(cfg: Config, table: seq<Fact>, snaps: seq<Snapshot>, asOf: int, again: int)
    requires again <= asOf
    ensures Close(cfg, table, snaps + Close(cfg, table, snaps, asOf).added, again).added == []
  {
    var after := snaps + Close(cfg, table, snaps, asOf).added;
    var agenda := Agenda(table, again);
    forall i | 0 <= i < |agenda|
      ensures agenda[i].match_ in Processed(table, after)
    {
      EarlierAgenda(table, again, asOf, agenda[i]);
      var g :| g in Agenda(table, asOf) && g.match_ == agenda[i].match_;
      RunProcesses(cfg, table, snaps, asOf, g);
    }
    ReplaySkips(cfg, Opening(table, after, again), agenda);
  }
}
