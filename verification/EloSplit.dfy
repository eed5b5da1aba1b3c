/** Incremental ratings: runs at any increasing moments create the snapshots of one run at the last of them. */
module EloSplit {
  import opened Common
  import opened Sorting
  import opened Elo
  import opened EloLaws

  // ---- What the history must satisfy -------------------------------------------------------------

  /** Facts that become usable after the moment are about matches not seen by then. */
  ghost predicate NewMatchesAfter(table: seq<Fact>, at: int) {
    forall f, g :: f in table && g in table && Settled(f) && Settled(g) && f.usableAt <= at < g.usableAt ==> f.match_ != g.match_
  }

  predicate ShareTeam(f: Fact, g: Fact) {
    Playable(f) && Playable(g)
    && (f.radiant == g.radiant || f.radiant == g.dire || f.dire == g.radiant || f.dire == g.dire)
  }

  /** Ids are unique, a match has two teams, and a team's matches become usable at different moments. */
  ghost predicate Orderly(table: seq<Fact>) {
    && (forall f, g :: f in table && g in table && f.id == g.id ==> f == g)
    && (forall f :: f in table && Settled(f) ==> f.radiant != f.dire)
    && (forall f, g :: f in table && g in table && Settled(f) && Settled(g) && f.match_ != g.match_ && ShareTeam(f, g) ==>
          f.usableAt != g.usableAt)
  }

  const Empty := Book(map[], {}, [])

  // ---- An agenda splits in time --------------------------------------------------------------------

  function Until(facts: seq<Fact>, at: int): seq<Fact> {
    if facts == [] then []
    else
      var before := Until(facts[..|facts| - 1], at);
      if facts[|facts| - 1].usableAt <= at then before + [facts[|facts| - 1]] else before
  }

  function Since(facts: seq<Fact>, at: int): seq<Fact> {
    if facts == [] then []
    else
      var before := Since(facts[..|facts| - 1], at);
      if facts[|facts| - 1].usableAt <= at then before else before + [facts[|facts| - 1]]
  }

  lemma {:induction false} NoneSince(facts: seq<Fact>, at: int)
    requires forall i :: 0 <= i < |facts| ==> facts[i].usableAt <= at
    ensures Since(facts, at) == []
  {
    if facts != [] {
      NoneSince(facts[..|facts| - 1], at);
    }
  }

  lemma {:induction false} SplitInTime(facts: seq<Fact>, at: int)
    requires Ascending(facts)
    ensures facts == Until(facts, at) + Since(facts, at)
  {
    if facts != [] {
      var init, last := facts[..|facts| - 1], facts[|facts| - 1];
      InitOf(facts);
      SplitInTime(init, at);
      assert facts == init + [last];
      if last.usableAt <= at {
        forall i | 0 <= i < |init|
          ensures init[i].usableAt <= at
        {
          assert Earlier(facts[i], facts[|facts| - 1]);
        }
        NoneSince(init, at);
      }
    }
  }

  lemma {:induction false} UntilHolds(facts: seq<Fact>, at: int)
    ensures forall f :: f in Until(facts, at) <==> f in facts && f.usableAt <= at
    ensures forall f :: f in Since(facts, at) <==> f in facts && f.usableAt > at
  {
    if facts != [] {
      UntilHolds(facts[..|facts| - 1], at);
      assert facts == facts[..|facts| - 1] + [facts[|facts| - 1]];
    }
  }

  lemma {:induction false} UntilAscends(facts: seq<Fact>, at: int)
    requires Ascending(facts)
    ensures Ascending(Until(facts, at))
  {
    SplitInTime(facts, at);
    var first := Until(facts, at);
    assert forall i :: 0 <= i < |first| ==> first[i] == facts[i];
  }

  /** If matches after the moment are new, the choice for a match seen by then does not change later. */
  lemma {:induction false} ChoiceStays(table: seq<Fact>, at: int, later: int, m: int)
    requires at <= later && NewMatchesAfter(table, at) && Chosen(EligibleFacts(table, at), m).Some?
    ensures Chosen(EligibleFacts(table, later), m) == Chosen(EligibleFacts(table, at), m)
  {
    var init, f := table[..|table| - 1], table[|table| - 1];
    assert table == init + [f];
    assert NewMatchesAfter(init, at) by {
      assert forall x :: x in init ==> x in table;
    }
    ChosenIsFact(EligibleFacts(table, at), m);
    EligibleAre(table, at);
    var e := EligibleFacts(init, at);
    var d := EligibleFacts(init, later);
    assert (e + [f])[..|e|] == e && (d + [f])[..|d|] == d;
    if Chosen(e, m).Some? {
      ChoiceStays(init, at, later, m);
    } else {
      var c := Chosen(EligibleFacts(table, at), m).value;
      assert c == f;
      NotChosenLater(init, at, later, f);
    }
  }

  lemma NotChosenLater(init: seq<Fact>, at: int, later: int, f: Fact)
    requires at <= later && Eligible(f, at) && NewMatchesAfter(init + [f], at)
    requires Chosen(EligibleFacts(init, at), f.match_).None?
    ensures Chosen(EligibleFacts(init, later), f.match_).None?
  {
    ChosenIsFact(EligibleFacts(init, at), f.match_);
    ChosenIsFact(EligibleFacts(init, later), f.match_);
    EligibleAre(init, at);
    EligibleAre(init, later);
    assert f in init + [f];
    assert forall x :: x in init ==> x in init + [f];
  }

  /** The agenda at a moment is the part of any later agenda up to it. */
  lemma AgendaIsPrefix(table: seq<Fact>, at: int, later: int)
    requires at <= later && NewMatchesAfter(table, at)
    ensures Until(Agenda(table, later), at) == Agenda(table, at)
  {
    AgendaIs(table, at);
    AgendaIs(table, later);
    UntilAscends(Agenda(table, later), at);
    UntilHolds(Agenda(table, later), at);
    forall f: Fact
      ensures f in Until(Agenda(table, later), at) <==> f in Agenda(table, at)
    {
      if f in Agenda(table, at) {
        AgendaFact(table, at, f);
        ChoiceStays(table, at, later, f.match_);
      }
      if f in Agenda(table, later) && f.usableAt <= at {
        AgendaFact(table, later, f);
        EligibleAre(table, at);
        ChosenIsFact(EligibleFacts(table, at), f.match_);
        ChoiceStays(table, at, later, f.match_);
      }
    }
    AscendingOnce(Until(Agenda(table, later), at), Agenda(table, at));
  }

  // ---- The stored snapshots give back the book -------------------------------------------------------

  /** An agenda on which every match has two teams, each with one match at a time. */
  ghost predicate Clean(facts: seq<Fact>) {
    && Ascending(facts)
    && (forall i :: 0 <= i < |facts| ==> Playable(facts[i]) && facts[i].radiant != facts[i].dire)
    && (forall i, j :: 0 <= i < j < |facts| && ShareTeam(facts[i], facts[j]) ==> facts[i].usableAt != facts[j].usableAt)
  }

  lemma AgendaClean(table: seq<Fact>, asOf: int)
    requires Orderly(table)
    ensures Clean(Agenda(table, asOf))
  {
    AgendaIs(table, asOf);
    var facts := Agenda(table, asOf);
    forall i | 0 <= i < |facts|
      ensures facts[i] in table && Settled(facts[i])
    {
      AgendaFact(table, asOf, facts[i]);
    }
    assert forall i, j :: 0 <= i < j < |facts| ==> facts[i].match_ != facts[j].match_;
  }

  lemma CleanInit(facts: seq<Fact>)
    requires Clean(facts) && facts != []
    ensures Clean(facts[..|facts| - 1])
  {
    InitOf(facts);
  }

  /** The snapshot was taken from a listed fact in which its team played. */
  ghost predicate FromFact(s: Snapshot, facts: seq<Fact>) {
    exists i :: 0 <= i < |facts| && Took(s, facts[i])
  }

  predicate Took(s: Snapshot, f: Fact) {
    s.source == f.id && s.cutoff == f.usableAt && (f.radiant == Some(s.team) || f.dire == Some(s.team))
  }

  ghost predicate AllFromFacts(snaps: seq<Snapshot>, facts: seq<Fact>) {
    forall k :: 0 <= k < |snaps| ==> FromFact(snaps[k], facts)
  }

  ghost predicate AllSnapped(snaps: seq<Snapshot>, facts: seq<Fact>) {
    forall i :: 0 <= i < |facts| ==> HasSnapshot(snaps, facts[i].id)
  }

  function Matches(facts: seq<Fact>): set<int> {
    set i | 0 <= i < |facts| :: facts[i].match_
  }

  lemma MatchesSnoc(facts: seq<Fact>, f: Fact)
    ensures Matches(facts + [f]) == Matches(facts) + {f.match_}
  {
    var all := facts + [f];
    forall m
      ensures m in Matches(all) <==> m in Matches(facts) || m == f.match_
    {
      if m in Matches(facts) {
        var i :| 0 <= i < |facts| && facts[i].match_ == m;
        assert all[i].match_ == m;
      }
      if m == f.match_ {
        assert all[|facts|].match_ == m;
      }
      if m in Matches(all) {
        var i :| 0 <= i < |all| && all[i].match_ == m;
        assert i < |facts| ==> facts[i].match_ == m;
      }
    }
  }

  lemma SnapshotsGrow(snaps: seq<Snapshot>, more: seq<Snapshot>, facts: seq<Fact>, f: Fact)
    requires AllFromFacts(snaps, facts) && AllSnapped(snaps, facts)
    requires more != [] && forall k :: 0 <= k < |more| ==> Took(more[k], f)
    ensures AllFromFacts(snaps + more, facts + [f]) && AllSnapped(snaps + more, facts + [f])
  {
    var all := facts + [f];
    forall k | 0 <= k < |snaps + more|
      ensures FromFact((snaps + more)[k], all)
    {
      if k < |snaps| {
        assert FromFact(snaps[k], facts);
        var i :| 0 <= i < |facts| && Took(snaps[k], facts[i]);
        assert Took(snaps[k], all[i]);
      } else {
        assert Took(more[k - |snaps|], all[|facts|]);
      }
    }
    forall i | 0 <= i < |all|
      ensures HasSnapshot(snaps + more, all[i].id)
    {
      if i < |facts| {
        StillSnapshot(snaps, more, facts[i].id);
      } else {
        assert more[0].source == f.id;
        StillSnapshot(snaps, more, f.id);
      }
    }
  }

  ghost predicate Booked(b: Book, facts: seq<Fact>) {
    b.processed == Matches(facts) && AllFromFacts(b.added, facts) && AllSnapped(b.added, facts)
  }

  lemma PlayBooks(cfg: Config, b: Book, facts: seq<Fact>, f: Fact)
    requires Booked(b, facts) && Playable(f) && f.match_ !in Matches(facts)
    ensures Booked(Play(cfg, b, f), facts + [f])
  {
    MatchesSnoc(facts, f);
    SnapshotsGrow(b.added, SnapshotsOf(cfg, b.ratings, f), facts, f);
  }

  lemma NewInAscending(facts: seq<Fact>)
    requires Ascending(facts) && facts != []
    ensures facts[|facts| - 1].match_ !in Matches(facts[..|facts| - 1])
  {
  }

  /** Replaying a clean agenda from nothing processes exactly its matches, one pair of snapshots each. */
  lemma {:induction false} ReplayFromNothing(cfg: Config, facts: seq<Fact>)
    requires Clean(facts)
    ensures Booked(Replay(cfg, Empty, facts), facts)
  {
    if facts != [] {
      var init, f := facts[..|facts| - 1], facts[|facts| - 1];
      CleanInit(facts);
      ReplayFromNothing(cfg, init);
      NewInAscending(facts);
      PlayBooks(cfg, Replay(cfg, Empty, init), init, f);
      assert facts == init + [f];
    }
  }

  /** Ratings and stored snapshots tell the same. */
  ghost predicate RatingsStored(ratings: map<int, real>, snaps: seq<Snapshot>, asOf: int) {
    && (forall t :: t in ratings <==> Latest(snaps, t, asOf).Some?)
    && (forall t :: t in ratings ==> Latest(snaps, t, asOf).value.rating == ratings[t])
  }

  /** Two newest snapshots of two teams become the latest of these teams and of no others. */
  lemma LatestOfTwo(snaps: seq<Snapshot>, s: Snapshot, r: Snapshot, team: int, asOf: int)
    requires s.team != r.team && s.cutoff <= asOf && r.cutoff <= asOf
    requires forall k :: 0 <= k < |snaps| ==>
               (snaps[k].team == s.team ==> snaps[k].cutoff < s.cutoff) && (snaps[k].team == r.team ==> snaps[k].cutoff < r.cutoff)
    ensures Latest(snaps + [s, r], team, asOf)
            == if team == s.team then Some(s) else if team == r.team then Some(r) else Latest(snaps, team, asOf)
  {
    assert (snaps + [s, r])[..|snaps| + 1] == snaps + [s];
    assert (snaps + [s])[..|snaps|] == snaps;
    var best := Latest(snaps, team, asOf);
    if best.Some? {
      var k :| 0 <= k < |snaps| && snaps[k] == best.value;
    }
  }

  /** A fact comes strictly later in time than any listed before it that shares a team. */
  lemma LaterThanShared(facts: seq<Fact>, snaps: seq<Snapshot>, k: nat, team: int)
    requires Clean(facts) && facts != [] && AllFromFacts(snaps, facts[..|facts| - 1]) && k < |snaps|
    requires snaps[k].team == team
    requires facts[|facts| - 1].radiant == Some(team) || facts[|facts| - 1].dire == Some(team)
    ensures snaps[k].cutoff < facts[|facts| - 1].usableAt
  {
    var init, f := facts[..|facts| - 1], facts[|facts| - 1];
    assert FromFact(snaps[k], init);
    var i :| 0 <= i < |init| && Took(snaps[k], init[i]);
    assert init[i] == facts[i];
    assert ShareTeam(facts[i], f) && Earlier(facts[i], f);
  }

  lemma PlayStores(cfg: Config, b: Book, facts: seq<Fact>, asOf: int)
    requires Clean(facts) && facts != [] && facts[|facts| - 1].usableAt <= asOf
    requires AllFromFacts(b.added, facts[..|facts| - 1]) && RatingsStored(b.ratings, b.added, asOf)
    requires facts[|facts| - 1].match_ !in b.processed
    ensures var c := Play(cfg, b, facts[|facts| - 1]); RatingsStored(c.ratings, c.added, asOf)
  {
    var f := facts[|facts| - 1];
    var c, snaps := Play(cfg, b, f), SnapshotsOf(cfg, b.ratings, f);
    forall k | 0 <= k < |b.added|
      ensures b.added[k].team == snaps[0].team ==> b.added[k].cutoff < f.usableAt
      ensures b.added[k].team == snaps[1].team ==> b.added[k].cutoff < f.usableAt
    {
      if b.added[k].team == snaps[0].team {
        LaterThanShared(facts, b.added, k, snaps[0].team);
      }
      if b.added[k].team == snaps[1].team {
        LaterThanShared(facts, b.added, k, snaps[1].team);
      }
    }
    assert snaps == [snaps[0], snaps[1]];
    forall t
      ensures t in c.ratings <==> Latest(c.added, t, asOf).Some?
      ensures t in c.ratings ==> Latest(c.added, t, asOf).value.rating == c.ratings[t]
    {
      LatestOfTwo(b.added, snaps[0], snaps[1], t, asOf);
    }
  }

  /** In memory and in store: the same ratings after every match of a clean agenda. */
  lemma {:induction false} ReplayStores(cfg: Config, facts: seq<Fact>, asOf: int)
    requires Clean(facts) && forall i :: 0 <= i < |facts| ==> facts[i].usableAt <= asOf
    ensures RatingsStored(Replay(cfg, Empty, facts).ratings, Replay(cfg, Empty, facts).added, asOf)
  {
    if facts != [] {
      var init, f := facts[..|facts| - 1], facts[|facts| - 1];
      CleanInit(facts);
      ReplayStores(cfg, init, asOf);
      ReplayFromNothing(cfg, init);
      assert forall i :: 0 <= i < |init| ==> facts[i].match_ != f.match_;
      PlayStores(cfg, Replay(cfg, Empty, init), facts, asOf);
    }
  }

  lemma StoredRatingsAreLatest(ratings: map<int, real>, snaps: seq<Snapshot>, asOf: int)
    requires RatingsStored(ratings, snaps, asOf)
    ensures LatestRatings(snaps, asOf) == ratings
  {
    var stored := LatestRatings(snaps, asOf);
    forall t
      ensures t in stored <==> t in ratings
    {
      if t in ratings {
        var s := Latest(snaps, t, asOf).value;
        var i :| 0 <= i < |snaps| && snaps[i] == s;
        assert snaps[i].team == t;
      }
    }
  }

  lemma StoredMatches(table: seq<Fact>, facts: seq<Fact>, snaps: seq<Snapshot>)
    requires Orderly(table) && (forall f :: f in facts ==> f in table)
    requires AllFromFacts(snaps, facts) && AllSnapped(snaps, facts)
    ensures Processed(table, snaps) == Matches(facts)
  {
    forall m
      ensures m in Processed(table, snaps) <==> m in Matches(facts)
    {
      if m in Matches(facts) {
        var i :| 0 <= i < |facts| && facts[i].match_ == m;
        assert facts[i] in table;
        var j :| 0 <= j < |table| && table[j] == facts[i];
        assert HasSnapshot(snaps, table[j].id);
      }
      if m in Processed(table, snaps) {
        var j :| 0 <= j < |table| && HasSnapshot(snaps, table[j].id) && table[j].match_ == m;
        var k :| 0 <= k < |snaps| && snaps[k].source == table[j].id;
        assert FromFact(snaps[k], facts);
        var i :| 0 <= i < |facts| && Took(snaps[k], facts[i]);
        assert facts[i] in table && table[j] in table;
      }
    }
  }

  // ---- Main results ------------------------------------------------------------------------------------

  /** Opening from nothing. */
  lemma OpeningEmpty(table: seq<Fact>, asOf: int)
    ensures Opening(table, [], asOf) == Empty
  {
    assert LatestRatings([], asOf) == map[];
    assert Processed(table, []) == {};
  }

  /** The snapshots of a first run reopen its book at any later moment. */
  lemma ReopensBook(cfg: Config, table: seq<Fact>, at: int, later: int)
    requires Orderly(table) && at <= later
    ensures var first := Close(cfg, table, [], at);
            Opening(table, first.added, later) == Book(first.ratings, first.processed, [])
  {
    var facts := Agenda(table, at);
    OpeningEmpty(table, at);
    AgendaClean(table, at);
    forall i | 0 <= i < |facts|
      ensures facts[i].usableAt <= later && facts[i] in table
    {
      AgendaFact(table, at, facts[i]);
    }
    var first := Replay(cfg, Empty, facts);
    ReplayFromNothing(cfg, facts);
    ReplayStores(cfg, facts, later);
    StoredRatingsAreLatest(first.ratings, first.added, later);
    StoredMatches(table, facts, first.added);
  }

  /** Going through a list again from the book its first part left behind adds what its second part adds. */
  lemma ResumedFold(cfg: Config, early: seq<Fact>, late: seq<Fact>, first: Book, reopened: Book)
    requires first == Replay(cfg, Empty, early) && reopened == Book(first.ratings, first.processed, [])
    requires forall i :: 0 <= i < |early| ==> early[i].match_ in first.processed
    ensures Replay(cfg, Empty, early + late).added == first.added + Replay(cfg, reopened, early + late).added
    ensures Replay(cfg, Empty, early + late).ratings == Replay(cfg, reopened, early + late).ratings
  {
    ReplayConcat(cfg, Empty, early, late);
    ReplayConcat(cfg, reopened, early, late);
    ReplaySkips(cfg, reopened, early);
    assert first == reopened.(added := first.added + reopened.added);
    ReplayFrame(cfg, reopened, first.added, late);
  }

  lemma EarlyProcessed(cfg: Config, early: seq<Fact>)
    requires Clean(early)
    ensures forall i :: 0 <= i < |early| ==> early[i].match_ in Replay(cfg, Empty, early).processed
  {
    ReplayFromNothing(cfg, early);
    assert forall i :: 0 <= i < |early| ==> early[i].match_ in Matches(early);
  }

  lemma AgendaSplits(table: seq<Fact>, at: int, later: int)
    requires at <= later && NewMatchesAfter(table, at)
    ensures Agenda(table, later) == Agenda(table, at) + Since(Agenda(table, later), at)
  {
    AgendaIs(table, later);
    SplitInTime(Agenda(table, later), at);
    AgendaIsPrefix(table, at, later);
  }

  /** Two runs split by usability time create the snapshots of one full run, and end with its ratings. */
  lemma TwoRunsEqualOne(cfg: Config, table: seq<Fact>, at: int, later: int)
    requires Orderly(table) && at <= later && NewMatchesAfter(table, at)
    ensures var first := Close(cfg, table, [], at);
            var second := Close(cfg, table, first.added, later);
            && first.added + second.added == Close(cfg, table, [], later).added
            && second.ratings == Close(cfg, table, [], later).ratings
  {
    AgendaSplits(table, at, later);
    OpeningEmpty(table, at);
    OpeningEmpty(table, later);
    AgendaClean(table, at);
    ReopensBook(cfg, table, at, later);
    var first := Close(cfg, table, [], at);
    EarlyProcessed(cfg, Agenda(table, at));
    ResumedFold(cfg, Agenda(table, at), Since(Agenda(table, later), at), first, Opening(table, first.added, later));
  }

  /** The snapshots stored after runs at the given moments. */
  function RunAt(cfg: Config, table: seq<Fact>, times: seq<int>): seq<Snapshot> {
    if times == [] then []
    else
      var stored := RunAt(cfg, table, times[..|times| - 1]);
      stored + Close(cfg, table, stored, times[|times| - 1]).added
  }

  /** Any number of runs at non-decreasing moments creates the snapshots of the last run alone. */
  lemma {:induction false} ManyRunsEqualOne(cfg: Config, table: seq<Fact>, times: seq<int>)
    requires Orderly(table) && times != []
    requires forall i, j :: 0 <= i < j < |times| ==> times[i] <= times[j]
    requires forall i :: 0 <= i < |times| ==> NewMatchesAfter(table, times[i])
    ensures RunAt(cfg, table, times) == Close(cfg, table, [], times[|times| - 1]).added
  {
    var init, last := times[..|times| - 1], times[|times| - 1];
    if init == [] {
      assert RunAt(cfg, table, init) == [];
    } else {
      ManyRunsEqualOne(cfg, table, init);
      TwoRunsEqualOne(cfg, table, init[|init| - 1], last);
    }
  }

  /** After any number of incremental runs the stored ratings of all teams still add up to the initial ones. */
  lemma StoredRatingsConserved(cfg: Config, table: seq<Fact>, times: seq<int>, teams: seq<int>)
    requires Orderly(table) && times != [] && Distinct(teams)
    requires forall i, j :: 0 <= i < j < |times| ==> times[i] <= times[j]
    requires forall i :: 0 <= i < |times| ==> NewMatchesAfter(table, times[i])
    requires forall f :: f in table && Settled(f) ==> f.radiant.value in teams && f.dire.value in teams
    ensures Total(cfg, LatestRatings(RunAt(cfg, table, times), times[|times| - 1]), teams) == Total(cfg, map[], teams)
  {
    var last := times[|times| - 1];
    ManyRunsEqualOne(cfg, table, times);
    ReopensBook(cfg, table, last, last);
    OpeningEmpty(table, last);
    var facts := Agenda(table, last);
    forall i | 0 <= i < |facts|
      ensures Plays(facts[i], teams)
    {
      AgendaFact(table, last, facts[i]);
    }
    ReplayConserves(cfg, Empty, facts, teams);
  }
}
