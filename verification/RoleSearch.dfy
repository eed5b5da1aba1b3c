/**
 The search for positions: all one-to-one assignments of five accounts to positions 1..5, of which the best
 is taken if every share is high enough and it leads by a margin.
 */
module RoleSearch {
  import opened Common
  import opened Sorting

  const MIN_ASSIGNED_POSITION_SHARE := 0.35
  const MIN_ASSIGNMENT_MARGIN := 0.20
  const POSITIONS := [1, 2, 3, 4, 5]

  /** The share of an account's history on a position. */
  type Shares = map<int, map<int, real>>

  datatype Candidate = Candidate(score: real, assignment: seq<int>)

  datatype Choice = Choice(assignment: seq<int>, margin: real)

  // ---- Permutations ------------------------------------------------------------------------

  function Prefixed(x: int, ps: seq<seq<int>>): seq<seq<int>> {
    seq(|ps|, i requires 0 <= i < |ps| => [x] + ps[i])
  }

  /** All orderings of the items, those starting with the first item first. */
  function Permutations(items: seq<int>): seq<seq<int>>
    decreases |items|, |items| + 1
  {
    if items == [] then [[]] else PermutationsFrom(items, 0)
  }

  function PermutationsFrom(items: seq<int>, k: nat): seq<seq<int>>
    requires k <= |items|
    decreases |items|, |items| - k
  {
    if k == |items| then []
    else Prefixed(items[k], Permutations(Without(items, k))) + PermutationsFrom(items, k + 1)
  }

  ghost predicate IsPermutation(items: seq<int>, p: seq<int>) {
    |p| == |items| && Distinct(p) && forall i :: 0 <= i < |p| ==> p[i] in items
  }

  lemma InPrefixed(x: int, ps: seq<seq<int>>, p: seq<int>)
    ensures p in Prefixed(x, ps) <==> p != [] && p[0] == x && p[1..] in ps
  {
    var qs := Prefixed(x, ps);
    if p in qs {
      var i :| 0 <= i < |qs| && qs[i] == p;
      assert p[1..] == ps[i];
    }
    if p != [] && p[0] == x && p[1..] in ps {
      var i :| 0 <= i < |ps| && ps[i] == p[1..];
      assert qs[i] == [x] + p[1..] == p;
    }
  }

  lemma WithoutDistinct(items: seq<int>, k: nat)
    requires Distinct(items) && k < |items|
    ensures Distinct(Without(items, k))
    ensures forall x :: x in Without(items, k) <==> x in items && x != items[k]
  {
    var rest := Without(items, k);
    forall i, j | 0 <= i < j < |rest|
      ensures rest[i] != rest[j]
    {
      assert rest[i] == items[if i < k then i else i + 1];
      assert rest[j] == items[if j < k then j else j + 1];
    }
    forall x
      ensures x in rest <==> x in items && x != items[k]
    {
      if x in rest {
        var i :| 0 <= i < |rest| && rest[i] == x;
        assert x == items[if i < k then i else i + 1];
      }
      if x in items && x != items[k] {
        var i :| 0 <= i < |items| && items[i] == x;
        assert rest[if i < k then i else i - 1] == x;
      }
    }
  }

  /** An ordering is a first item followed by an ordering of the others. */
  lemma SplitPermutation(items: seq<int>, k: nat, p: seq<int>)
    requires Distinct(items) && k < |items| && p != [] && p[0] == items[k]
    ensures IsPermutation(items, p) <==> IsPermutation(Without(items, k), p[1..])
  {
    WithoutDistinct(items, k);
    var rest, q := Without(items, k), p[1..];
    if IsPermutation(items, p) {
      forall i | 0 <= i < |q|
        ensures q[i] in rest
      {
        assert q[i] == p[i + 1] && p[0] != p[i + 1];
      }
    }
    if IsPermutation(rest, q) {
      forall i, j | 0 <= i < j < |p|
        ensures p[i] != p[j]
      {
        assert p[j] == q[j - 1] && q[j - 1] in rest;
        assert i > 0 ==> p[i] == q[i - 1];
      }
      forall i | 0 <= i < |p|
        ensures p[i] in items
      {
        assert i > 0 ==> p[i] == q[i - 1] && q[i - 1] in rest;
      }
    }
  }

  lemma DistinctConcat(xs: seq<seq<int>>, ys: seq<seq<int>>)
    requires Distinct(xs) && Distinct(ys) && forall p :: p in xs ==> p !in ys
    ensures Distinct(xs + ys)
  {
    var zs := xs + ys;
    forall i, j | 0 <= i < j < |zs|
      ensures zs[i] != zs[j]
    {
      if i < |xs| <= j {
        assert zs[i] in xs && zs[j] in ys;
      }
    }
  }

  lemma PrefixedDistinct(x: int, ps: seq<seq<int>>)
    requires Distinct(ps)
    ensures Distinct(Prefixed(x, ps))
  {
    var qs := Prefixed(x, ps);
    forall i, j | 0 <= i < j < |qs|
      ensures qs[i] != qs[j]
    {
      assert qs[i][1..] == ps[i] && qs[j][1..] == ps[j];
    }
  }

  lemma {:induction false} PermutationsFromAreAll(items: seq<int>, k: nat)
    requires Distinct(items) && k <= |items|
    ensures Distinct(PermutationsFrom(items, k))
    ensures forall p :: p in PermutationsFrom(items, k) <==> p != [] && IsPermutation(items, p) && p[0] in items[k..]
    decreases |items|, |items| - k
  {
    if k < |items| {
      var rest := Without(items, k);
      WithoutDistinct(items, k);
      PermutationsAreAll(rest);
      PermutationsFromAreAll(items, k + 1);
      var block, others := Prefixed(items[k], Permutations(rest)), PermutationsFrom(items, k + 1);
      forall p
        ensures p in block <==> p != [] && IsPermutation(items, p) && p[0] == items[k]
      {
        InPrefixed(items[k], Permutations(rest), p);
        if p != [] && p[0] == items[k] {
          SplitPermutation(items, k, p);
        }
      }
      assert forall x :: x in items[k..] <==> x == items[k] || x in items[k + 1..];
      assert items[k] !in items[k + 1..];
      PrefixedDistinct(items[k], Permutations(rest));
      DistinctConcat(block, others);
    }
  }

  /** The enumeration holds every ordering exactly once. */
  lemma {:induction false} PermutationsAreAll(items: seq<int>)
    requires Distinct(items)
    ensures Distinct(Permutations(items))
    ensures forall p :: p in Permutations(items) <==> IsPermutation(items, p)
    decreases |items|, |items| + 1
  {
    if items != [] {
      PermutationsFromAreAll(items, 0);
      assert items[0..] == items;
    }
  }

  /** As many distinct values as items, all of them items: every item occurs. */
  lemma {:induction false} PermutationCovers(items: seq<int>, p: seq<int>)
    requires Distinct(items) && IsPermutation(items, p)
    ensures forall x :: x in items ==> x in p
    decreases |items|
  {
    if items != [] {
      assert p[0] in items;
      var k :| 0 <= k < |items| && items[k] == p[0];
      SplitPermutation(items, k, p);
      WithoutDistinct(items, k);
      PermutationCovers(Without(items, k), p[1..]);
      forall x | x in items
        ensures x in p
      {
        assert x != items[k] ==> x in p[1..];
      }
    }
  }

  // ---- Scores --------------------------------------------------------------------------------

  function ShareAt(shares: Shares, account: int, position: int): real {
    if account in shares && position in shares[account] then shares[account][position] else 0.0
  }

  function ScoreUpTo(accounts: seq<int>, shares: Shares, a: seq<int>, end: nat): real
    requires end <= |accounts| == |a|
  {
    if end == 0 then 0.0
    else ScoreUpTo(accounts, shares, a, end - 1) + ShareAt(shares, accounts[end - 1], a[end - 1])
  }

  function Score(accounts: seq<int>, shares: Shares, a: seq<int>): real
    requires |accounts| == |a|
  {
    ScoreUpTo(accounts, shares, a, |a|)
  }

  predicate Admissible(accounts: seq<int>, shares: Shares, a: seq<int>) {
    |accounts| == |a| && forall i :: 0 <= i < |a| ==> ShareAt(shares, accounts[i], a[i]) >= MIN_ASSIGNED_POSITION_SHARE
  }

  function Candidates(accounts: seq<int>, shares: Shares, ps: seq<seq<int>>): seq<Candidate> {
    if ps == [] then []
    else
      var before, a := Candidates(accounts, shares, ps[..|ps| - 1]), ps[|ps| - 1];
      if Admissible(accounts, shares, a) then before + [Candidate(Score(accounts, shares, a), a)] else before
  }

  // ---- Ranking -------------------------------------------------------------------------------

  predicate NoWorse(c: Candidate, d: Candidate) {
    c.score >= d.score
  }

  /** By falling score; candidates of equal score keep their order. */
  ghost predicate FallingScores(cs: seq<Candidate>) {
    SortedBy(NoWorse, cs)
  }

  function Ranked(cs: seq<Candidate>): seq<Candidate> {
    SortBy(NoWorse, cs)
  }

  // ---- The decision --------------------------------------------------------------------------

  function Decide(ranked: seq<Candidate>): Option<Choice> {
    if ranked == [] then None
    else
      var margin := ranked[0].score - if |ranked| > 1 then ranked[1].score else 0.0;
      if |ranked| > 1 && margin < MIN_ASSIGNMENT_MARGIN then None else Some(Choice(ranked[0].assignment, margin))
  }

  function Search(accounts: seq<int>, shares: Shares): Option<Choice> {
    Decide(Ranked(Candidates(accounts, shares, Permutations(POSITIONS))))
  }

  /** The score of one assignment, given up at the first share that is too low. */
  method Rate(accounts: seq<int>, shares: Shares, a: seq<int>) returns (score: real, valid: bool)
    requires |accounts| == |a|
    ensures valid <==> Admissible(accounts, shares, a)
    ensures valid ==> score == Score(accounts, shares, a)
  {
    score := 0.0;
    for i := 0 to |a|
      invariant score == ScoreUpTo(accounts, shares, a, i)
      invariant forall j :: 0 <= j < i ==> ShareAt(shares, accounts[j], a[j]) >= MIN_ASSIGNED_POSITION_SHARE
    {
      var share := ShareAt(shares, accounts[i], a[i]);
      if share < MIN_ASSIGNED_POSITION_SHARE {
        return score, false;
      }
      score := score + share;
    }
    valid := true;
  }

  method RateAll(accounts: seq<int>, shares: Shares, ps: seq<seq<int>>) returns (candidates: seq<Candidate>)
    requires forall k :: 0 <= k < |ps| ==> |ps[k]| == |accounts|
    ensures candidates == Candidates(accounts, shares, ps)
  {
    candidates := [];
    for k := 0 to |ps|
      invariant candidates == Candidates(accounts, shares, ps[..k])
    {
      assert ps[..k + 1][..k] == ps[..k];
      var score, valid := Rate(accounts, shares, ps[k]);
      if valid {
        candidates := candidates + [Candidate(score, ps[k])];
      }
    }
    assert ps[..|ps|] == ps;
  }

  method FindAssignment(accounts: seq<int>, shares: Shares) returns (r: Option<Choice>)
    requires |accounts| == 5
    ensures r == Search(accounts, shares)
  {
    PositionsPermute();
    var ps := Permutations(POSITIONS);
    forall k | 0 <= k < |ps|
      ensures |ps[k]| == 5
    {
      assert IsPermutation(POSITIONS, ps[k]);
    }
    var candidates := RateAll(accounts, shares, ps);
    r := Decide(Ranked(candidates));
  }

  lemma PositionsPermute()
    ensures Distinct(POSITIONS) && Distinct(Permutations(POSITIONS))
    ensures forall p :: p in Permutations(POSITIONS) <==> IsPermutation(POSITIONS, p)
  {
    PermutationsAreAll(POSITIONS);
  }

  // ---- What the decision means ---------------------------------------------------------------

  /** A one-to-one assignment with every share high enough. */
  ghost predicate Eligible(accounts: seq<int>, shares: Shares, a: seq<int>) {
    IsPermutation(POSITIONS, a) && Admissible(accounts, shares, a)
  }

  /** Eligible, and every other eligible assignment trails by at least the margin. */
  ghost predicate Dominant(accounts: seq<int>, shares: Shares, a: seq<int>) {
    && Eligible(accounts, shares, a)
    && forall b :: Eligible(accounts, shares, b) && b != a ==>
                     Score(accounts, shares, b) + MIN_ASSIGNMENT_MARGIN <= Score(accounts, shares, a)
  }

  ghost predicate Rival(accounts: seq<int>, shares: Shares, a: seq<int>, b: seq<int>) {
    Eligible(accounts, shares, b) && b != a
  }

  ghost predicate HasRival(accounts: seq<int>, shares: Shares, a: seq<int>) {
    exists b :: Rival(accounts, shares, a, b)
  }

  ghost predicate LeadsBy(accounts: seq<int>, shares: Shares, a: seq<int>, margin: real)
    requires |a| == |accounts|
  {
    && (exists b :: Rival(accounts, shares, a, b) && Score(accounts, shares, b) + margin == Score(accounts, shares, a))
    && (forall b :: Rival(accounts, shares, a, b) ==> Score(accounts, shares, b) + margin <= Score(accounts, shares, a))
  }

  /** The lead over the best rival, or the whole score when there is none. */
  ghost predicate Leads(accounts: seq<int>, shares: Shares, a: seq<int>, margin: real)
    requires |a| == |accounts|
  {
    if HasRival(accounts, shares, a) then LeadsBy(accounts, shares, a, margin) else margin == Score(accounts, shares, a)
  }

  ghost predicate Lists(accounts: seq<int>, shares: Shares, cs: seq<Candidate>, ps: seq<seq<int>>) {
    && (forall i :: 0 <= i < |cs| ==>
          Admissible(accounts, shares, cs[i].assignment) && cs[i].assignment in ps
          && cs[i].score == Score(accounts, shares, cs[i].assignment))
    && (forall a :: a in ps && Admissible(accounts, shares, a) ==> Candidate(Score(accounts, shares, a), a) in cs)
    && (forall i, j :: 0 <= i < j < |cs| ==> cs[i].assignment != cs[j].assignment)
  }

  lemma {:induction false} CandidatesList(accounts: seq<int>, shares: Shares, ps: seq<seq<int>>)
    requires Distinct(ps)
    ensures Lists(accounts, shares, Candidates(accounts, shares, ps), ps)
  {
    if ps != [] {
      var init, a := ps[..|ps| - 1], ps[|ps| - 1];
      assert ps == init + [a] && a !in init;
      CandidatesList(accounts, shares, init);
    }
  }

  /** Ranking loses no candidate and repeats none. */
  lemma RankedStillLists(accounts: seq<int>, shares: Shares, cs: seq<Candidate>, ps: seq<seq<int>>)
    requires Lists(accounts, shares, cs, ps)
    ensures Lists(accounts, shares, Ranked(cs), ps) && FallingScores(Ranked(cs))
  {
    SortSorts(NoWorse, cs);
    PermutedDistinct(cs, Ranked(cs));
    SameCandidatesList(accounts, shares, cs, Ranked(cs), ps);
  }

  lemma SameCandidatesList(accounts: seq<int>, shares: Shares, cs: seq<Candidate>, rs: seq<Candidate>, ps: seq<seq<int>>)
    requires Lists(accounts, shares, cs, ps) && Distinct(rs) && forall c :: c in rs <==> c in cs
    ensures Lists(accounts, shares, rs, ps)
  {
    forall i | 0 <= i < |rs|
      ensures rs[i] in cs
    {
      assert rs[i] in rs;
    }
    forall i, j | 0 <= i < j < |rs|
      ensures rs[i].assignment != rs[j].assignment
    {
      assert rs[i] in cs && rs[j] in cs && rs[i] != rs[j];
    }
  }

  ghost function Ranking(accounts: seq<int>, shares: Shares): seq<Candidate> {
    Ranked(Candidates(accounts, shares, Permutations(POSITIONS)))
  }

  /** The ranking lists every eligible assignment once, by falling score. */
  ghost predicate Complete(accounts: seq<int>, shares: Shares, rs: seq<Candidate>) {
    && FallingScores(rs)
    && (forall i :: 0 <= i < |rs| ==>
          Eligible(accounts, shares, rs[i].assignment) && rs[i].score == Score(accounts, shares, rs[i].assignment))
    && (forall a :: Eligible(accounts, shares, a) ==> Candidate(Score(accounts, shares, a), a) in rs)
    && (forall i, j :: 0 <= i < j < |rs| ==> rs[i].assignment != rs[j].assignment)
  }

  lemma ListIsComplete(accounts: seq<int>, shares: Shares, rs: seq<Candidate>, ps: seq<seq<int>>)
    requires forall p :: p in ps <==> IsPermutation(POSITIONS, p)
    requires Lists(accounts, shares, rs, ps) && FallingScores(rs)
    ensures Complete(accounts, shares, rs)
  {
  }

  lemma RankingIsComplete(accounts: seq<int>, shares: Shares, ps: seq<seq<int>>)
    requires Distinct(ps) && forall p :: p in ps <==> IsPermutation(POSITIONS, p)
    ensures Complete(accounts, shares, Ranked(Candidates(accounts, shares, ps)))
  {
    var cs := Candidates(accounts, shares, ps);
    CandidatesList(accounts, shares, ps);
    RankedStillLists(accounts, shares, cs, ps);
    ListIsComplete(accounts, shares, Ranked(cs), ps);
  }

  /** All rivals of the first of the ranking score no more than the second. */
  lemma RivalsTrail(accounts: seq<int>, shares: Shares, rs: seq<Candidate>, b: seq<int>)
    requires Complete(accounts, shares, rs) && rs != [] && Eligible(accounts, shares, b) && b != rs[0].assignment
    ensures |rs| > 1 && Score(accounts, shares, b) <= rs[1].score
  {
    var i :| 0 <= i < |rs| && rs[i] == Candidate(Score(accounts, shares, b), b);
    assert i >= 1;
  }

  lemma DecisionDominates(accounts: seq<int>, shares: Shares, rs: seq<Candidate>)
    requires Complete(accounts, shares, rs) && Decide(rs).Some?
    ensures Dominant(accounts, shares, Decide(rs).value.assignment)
    ensures Leads(accounts, shares, Decide(rs).value.assignment, Decide(rs).value.margin)
  {
    var best := rs[0].assignment;
    forall b | Rival(accounts, shares, best, b)
      ensures |rs| > 1 && Score(accounts, shares, b) <= rs[1].score
    {
      RivalsTrail(accounts, shares, rs, b);
    }
    if |rs| > 1 {
      assert Rival(accounts, shares, best, rs[1].assignment);
    }
    forall b | Eligible(accounts, shares, b) && b != best
      ensures Score(accounts, shares, b) + MIN_ASSIGNMENT_MARGIN <= Score(accounts, shares, best)
    {
      assert Rival(accounts, shares, best, b);
    }
  }

  lemma DominantIsDecided(accounts: seq<int>, shares: Shares, rs: seq<Candidate>, a: seq<int>)
    requires Complete(accounts, shares, rs) && Dominant(accounts, shares, a)
    ensures Decide(rs).Some? && Decide(rs).value.assignment == a
  {
    assert Candidate(Score(accounts, shares, a), a) in rs;
    var best := rs[0].assignment;
    assert Eligible(accounts, shares, best);
    if a != best {
      RivalsTrail(accounts, shares, rs, a);
    }
    assert a == best;
    if |rs| > 1 {
      assert Eligible(accounts, shares, rs[1].assignment) && rs[1].assignment != rs[0].assignment;
    }
  }

  /** The search answers with an assignment exactly when that assignment dominates, and reports its lead. */
  lemma SearchFindsDominant(accounts: seq<int>, shares: Shares, a: seq<int>)
    ensures Search(accounts, shares).Some? && Search(accounts, shares).value.assignment == a <==> Dominant(accounts, shares, a)
    ensures Dominant(accounts, shares, a) ==> Leads(accounts, shares, a, Search(accounts, shares).value.margin)
  {
    PositionsPermute();
    RankingIsComplete(accounts, shares, Permutations(POSITIONS));
    var rs := Ranking(accounts, shares);
    if Decide(rs).Some? {
      DecisionDominates(accounts, shares, rs);
    }
    if Dominant(accounts, shares, a) {
      DominantIsDecided(accounts, shares, rs, a);
    }
  }
}
