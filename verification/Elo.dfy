/**
 Team ratings replayed over historical matches, incrementally: every run reads the stored snapshots and rates
 the matches that have none. The expected score is an abstract function of the rating difference; match
 references are numbers in the order in which the source sorts them; times are in microseconds.
 */
module Elo {
  import opened Common
  import opened Sorting

  datatype Fact = Fact(
    id: int, provider: string, match_: int, usableAt: int, startedAt: int, canonical: bool,
    radiant: Option<int>, dire: Option<int>, winner: Option<int>, conflict: bool)

  datatype Snapshot = Snapshot(
    team: int, rating: real, before: real, opponentBefore: real, expected: real, result: real, source: int, cutoff: int)

  /** Initial rating, step size, and the expected score of a team for its rating lead. */
  datatype Config = Config(initial: real, k: real, logistic: real -> real)

  datatype Update = Update(ratingA: real, ratingB: real, expectedA: real, expectedB: real)

  /** Where a replay stands. */
  datatype Book = Book(ratings: map<int, real>, processed: set<int>, added: seq<Snapshot>)

  // ---- Specification -------------------------------------------------------------------

  function UpdateElo(cfg: Config, a: real, b: real, winnerIsA: bool): Update {
    var expectedA := cfg.logistic(a - b);
    var scoreA := if winnerIsA then 1.0 else 0.0;
    Update(a + cfg.k * (scoreA - expectedA), b + cfg.k * ((1.0 - scoreA) - (1.0 - expectedA)), expectedA, 1.0 - expectedA)
  }

  predicate Settled(f: Fact) {
    f.canonical && f.radiant.Some? && f.dire.Some? && f.winner.Some? && !f.conflict
  }

  predicate Eligible(f: Fact, asOf: int) {
    f.usableAt <= asOf && Settled(f)
  }

  function EligibleFacts(table: seq<Fact>, asOf: int): seq<Fact> {
    if table == [] then []
    else
      var before, f := EligibleFacts(table[..|table| - 1], asOf), table[|table| - 1];
      if Eligible(f, asOf) then before + [f] else before
  }

  predicate Stratz(f: Fact) {
    f.provider == "stratz"
  }

  /** The index of the entry for a match in a list with one entry per match. */
  function Find(grouped: seq<Fact>, match_: int): (r: Option<nat>)
    ensures r.Some? ==> r.value < |grouped| && grouped[r.value].match_ == match_
    ensures r.None? ==> forall i :: 0 <= i < |grouped| ==> grouped[i].match_ != match_
  {
    if grouped == [] then None
    else if grouped[|grouped| - 1].match_ == match_ then Some(|grouped| - 1)
    else Find(grouped[..|grouped| - 1], match_)
  }

  /** One fact per match, the first one unless a later one is the first from Stratz. */
  function Preferred(facts: seq<Fact>): seq<Fact> {
    if facts == [] then []
    else
      var grouped, f := Preferred(facts[..|facts| - 1]), facts[|facts| - 1];
      var current := Find(grouped, f.match_);
      if current.None? then grouped + [f]
      else if Stratz(f) && !Stratz(grouped[current.value]) then grouped[current.value := f]
      else grouped
  }

  predicate Earlier(f: Fact, g: Fact) {
    || f.usableAt < g.usableAt
    || (f.usableAt == g.usableAt && f.startedAt < g.startedAt)
    || (f.usableAt == g.usableAt && f.startedAt == g.startedAt && f.match_ <= g.match_)
  }

  function SortFacts(facts: seq<Fact>): seq<Fact> {
    SortBy(Earlier, facts)
  }

  /** The matches a run goes through, in its order. */
  function Agenda(table: seq<Fact>, asOf: int): seq<Fact> {
    SortFacts(Preferred(EligibleFacts(table, asOf)))
  }

  /** The snapshot of a team with the greatest cutoff up to a moment. */
  function Latest(snaps: seq<Snapshot>, team: int, asOf: int): (r: Option<Snapshot>)
    ensures r.Some? ==> r.value in snaps && r.value.team == team
  {
    if snaps == [] then None
    else
      var s, best := snaps[|snaps| - 1], Latest(snaps[..|snaps| - 1], team, asOf);
      if s.team == team && s.cutoff <= asOf && (best.None? || s.cutoff > best.value.cutoff) then Some(s) else best
  }

  function LatestRatings(snaps: seq<Snapshot>, asOf: int): map<int, real> {
    map t | t in (set i | 0 <= i < |snaps| :: snaps[i].team) && Latest(snaps, t, asOf).Some? ::
      Latest(snaps, t, asOf).value.rating
  }

  predicate HasSnapshot(snaps: seq<Snapshot>, id: int) {
    exists i :: 0 <= i < |snaps| && snaps[i].source == id
  }

  /** The matches that some snapshot was taken from. */
  function Processed(table: seq<Fact>, snaps: seq<Snapshot>): set<int> {
    set i | 0 <= i < |table| && HasSnapshot(snaps, table[i].id) :: table[i].match_
  }

  function RatingOf(cfg: Config, ratings: map<int, real>, team: int): real {
    if team in ratings then ratings[team] else cfg.initial
  }

  predicate Playable(f: Fact) {
    f.radiant.Some? && f.dire.Some? && f.winner.Some?
  }

  function SnapshotsOf(cfg: Config, ratings: map<int, real>, f: Fact): seq<Snapshot>
    requires Playable(f)
  {
    var a, b := RatingOf(cfg, ratings, f.radiant.value), RatingOf(cfg, ratings, f.dire.value);
    var winnerIsA := f.winner.value == f.radiant.value;
    var u := UpdateElo(cfg, a, b, winnerIsA);
    [Snapshot(f.radiant.value, u.ratingA, a, b, u.expectedA, if winnerIsA then 1.0 else 0.0, f.id, f.usableAt),
     Snapshot(f.dire.value, u.ratingB, b, a, u.expectedB, if winnerIsA then 0.0 else 1.0, f.id, f.usableAt)]
  }

  /** One match: nothing if it is processed or incomplete, else both teams' ratings and snapshots. */
  function Play(cfg: Config, b: Book, f: Fact): Book {
    if f.match_ in b.processed || !Playable(f) then b
    else
      var snaps := SnapshotsOf(cfg, b.ratings, f);
      Book(b.ratings[f.radiant.value := snaps[0].rating][f.dire.value := snaps[1].rating],
           b.processed + {f.match_}, b.added + snaps)
  }

  function Replay(cfg: Config, b: Book, facts: seq<Fact>): Book {
    if facts == [] then b else Play(cfg, Replay(cfg, b, facts[..|facts| - 1]), facts[|facts| - 1])
  }

  function Opening(table: seq<Fact>, snaps: seq<Snapshot>, asOf: int): Book {
    Book(LatestRatings(snaps, asOf), Processed(table, snaps), [])
  }

  /** The book at the end of one run. */
  function Close(cfg: Config, table: seq<Fact>, snaps: seq<Snapshot>, asOf: int): Book {
    Replay(cfg, Opening(table, snaps, asOf), Agenda(table, asOf))
  }

  // ---- The builder -----------------------------------------------------------------------

  class HistoricalFeatureBuilder {
    const cfg: Config
    var facts: seq<Fact>
    var snapshots: seq<Snapshot>

    constructor (config: Config, table: seq<Fact>)
      ensures cfg == config && facts == table && snapshots == []
    {
      cfg, facts, snapshots := config, table, [];
    }

    /** One run; answers how many snapshots it created. */
    method BuildTeamRatings(asOf: int) returns (created: nat)
      modifies this`snapshots
      ensures snapshots == old(snapshots) + Close(cfg, facts, old(snapshots), asOf).added
      ensures created == |Close(cfg, facts, old(snapshots), asOf).added|
    {
      var agenda := Agenda(facts, asOf);
      var ratings, processed := LatestRatings(snapshots, asOf), Processed(facts, snapshots);
      ghost var opening := Opening(facts, snapshots, asOf);
      var added: seq<Snapshot> := [];
      created := 0;
      for i := 0 to |agenda|
        invariant Book(ratings, processed, added) == Replay(cfg, opening, agenda[..i])
        invariant created == |added|
      {
        assert agenda[..i + 1][..i] == agenda[..i];
        var f := agenda[i];
        if f.match_ in processed {
          continue;
        }
        if f.radiant.None? || f.dire.None? || f.winner.None? {
          continue;
        }
        var radiantBefore := if f.radiant.value in ratings then ratings[f.radiant.value] else cfg.initial;
        var direBefore := if f.dire.value in ratings then ratings[f.dire.value] else cfg.initial;
        var winnerIsA := f.winner.value == f.radiant.value;
        var update := UpdateElo(cfg, radiantBefore, direBefore, winnerIsA);
        added := added + [
          Snapshot(f.radiant.value, update.ratingA, radiantBefore, direBefore, update.expectedA,
                   if winnerIsA then 1.0 else 0.0, f.id, f.usableAt),
          Snapshot(f.dire.value, update.ratingB, direBefore, radiantBefore, update.expectedB,
                   if winnerIsA then 0.0 else 1.0, f.id, f.usableAt)];
        ratings := ratings[f.radiant.value := update.ratingA];
        ratings := ratings[f.dire.value := update.ratingB];
        processed := processed + {f.match_};
        created := created + 2;
      }
      assert agenda[..|agenda|] == agenda;
      snapshots := snapshots + added;
    }
  }
}
