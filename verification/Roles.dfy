/**
 Position assignment of a draft from the players' recent maps: the evidence loop, shares per position,
 the two sides, and the validation of the result. Times are in microseconds, shares exact reals.
 */
module Roles {
  import opened Common
  import opened RoleSearch

  const MAX_HISTORY := 40
  const MIN_HISTORY := 4

  datatype Side = Dire | Radiant

  datatype Pick = Pick(side: Side, account: Option<int>, hero: Option<int>)

  /** A historical map of a player, joined with the map itself. */
  datatype Row = Row(account: int, position: int, usableAt: int, mapUsableAt: int, match_: string, conflict: bool)

  datatype Slot = Slot(side: Side, position: int, account: int, hero: int, confidence: real)

  datatype SideResult = SideResult(slots: seq<Slot>, cutoff: int)

  // ---- Evidence: specification ---------------------------------------------------------------

  /** The rows the query returns for one account. */
  predicate Usable(r: Row, account: int, observedAt: int) {
    && r.account == account && 1 <= r.position <= 5
    && r.usableAt <= observedAt && r.mapUsableAt <= observedAt && !r.conflict
  }

  function Filtered(rows: seq<Row>, account: int, observedAt: int): seq<Row> {
    if rows == [] then []
    else
      var before, r := Filtered(rows[..|rows| - 1], account, observedAt), rows[|rows| - 1];
      if Usable(r, account, observedAt) then before + [r] else before
  }

  predicate HasMatch(rows: seq<Row>, match_: string) {
    exists i :: 0 <= i < |rows| && rows[i].match_ == match_
  }

  /** The first row of every match. */
  function Deduped(rows: seq<Row>): seq<Row> {
    if rows == [] then []
    else
      var before, r := Deduped(rows[..|rows| - 1]), rows[|rows| - 1];
      if HasMatch(before, r.match_) then before else before + [r]
  }

  function First(rows: seq<Row>, n: nat): seq<Row> {
    if |rows| <= n then rows else rows[..n]
  }

  /** Filter, then one row per match, then the first forty. */
  function EvidenceOf(rows: seq<Row>, account: int, observedAt: int): seq<Row> {
    First(Deduped(Filtered(rows, account, observedAt)), MAX_HISTORY)
  }

  // ---- Evidence: the loop --------------------------------------------------------------------

  ghost predicate SeenAre(seen: set<string>, rows: seq<Row>) {
    forall k :: k in seen <==> HasMatch(rows, k)
  }

  /** One row more: skipped if its match was seen or the account has forty maps already. */
  lemma EvidenceSnoc(rows: seq<Row>, r: Row, account: int, observedAt: int)
    ensures EvidenceOf(rows + [r], account, observedAt)
            == var old_ := EvidenceOf(rows, account, observedAt);
               if Usable(r, account, observedAt) && !HasMatch(old_, r.match_) && |old_| < MAX_HISTORY then old_ + [r] else old_
  {
    assert (rows + [r])[..|rows|] == rows;
    var f := Filtered(rows, account, observedAt);
    assert (f + [r])[..|f|] == f;
  }

  lemma SeenSnoc(seen: set<string>, rows: seq<Row>, r: Row)
    requires SeenAre(seen, rows)
    ensures SeenAre(seen + {r.match_}, rows + [r])
  {
    var rows' := rows + [r];
    forall k
      ensures k in seen + {r.match_} <==> HasMatch(rows', k)
    {
      if HasMatch(rows, k) {
        var i :| 0 <= i < |rows| && rows[i].match_ == k;
        assert rows'[i].match_ == k;
      }
      if k == r.match_ {
        assert rows'[|rows|].match_ == k;
      }
      if HasMatch(rows', k) {
        var i :| 0 <= i < |rows'| && rows'[i].match_ == k;
        assert i < |rows| ==> rows[i].match_ == k;
      }
    }
  }

  /** Where the loop stands after the rows so far. */
  ghost predicate Collected(
    evidence: map<int, seq<Row>>, seen: map<int, set<string>>, accounts: set<int>, rows: seq<Row>, observedAt: int)
  {
    && evidence.Keys == accounts == seen.Keys
    && (forall x :: x in accounts ==> evidence[x] == EvidenceOf(rows, x, observedAt))
    && (forall x :: x in accounts ==> SeenAre(seen[x], evidence[x]))
  }

  lemma SkipKeepsCollected(
    evidence: map<int, seq<Row>>, seen: map<int, set<string>>, accounts: set<int>, rows: seq<Row>, observedAt: int, r: Row)
    requires Collected(evidence, seen, accounts, rows, observedAt)
    requires r.account in accounts && Usable(r, r.account, observedAt) && r.match_ !in seen[r.account] ==>
               |evidence[r.account]| >= MAX_HISTORY
    ensures Collected(evidence, seen, accounts, rows + [r], observedAt)
  {
    forall x | x in accounts
      ensures evidence[x] == EvidenceOf(rows + [r], x, observedAt)
    {
      EvidenceSnoc(rows, r, x, observedAt);
      assert SeenAre(seen[x], evidence[x]);
    }
  }

  lemma AddKeepsCollected(
    evidence: map<int, seq<Row>>, seen: map<int, set<string>>, accounts: set<int>, rows: seq<Row>, observedAt: int, r: Row)
    requires Collected(evidence, seen, accounts, rows, observedAt)
    requires r.account in accounts && Usable(r, r.account, observedAt)
    requires r.match_ !in seen[r.account] && |evidence[r.account]| < MAX_HISTORY
    ensures Collected(evidence[r.account := evidence[r.account] + [r]], seen[r.account := seen[r.account] + {r.match_}],
                      accounts, rows + [r], observedAt)
  {
    var evidence' := evidence[r.account := evidence[r.account] + [r]];
    SeenSnoc(seen[r.account], evidence[r.account], r);
    forall x | x in accounts
      ensures evidence'[x] == EvidenceOf(rows + [r], x, observedAt)
    {
      EvidenceSnoc(rows, r, x, observedAt);
      assert SeenAre(seen[x], evidence[x]);
    }
  }

  /** One pass over the rows, most recent first, for all accounts at once. */
  method CollectEvidence(rows: seq<Row>, accounts: set<int>, observedAt: int) returns (evidence: map<int, seq<Row>>)
    ensures evidence == map x | x in accounts :: EvidenceOf(rows, x, observedAt)
  {
    evidence := map x | x in accounts :: [];
    var seen: map<int, set<string>> := map x | x in accounts :: {};
    for i := 0 to |rows|
      invariant Collected(evidence, seen, accounts, rows[..i], observedAt)
    {
      var r := rows[i];
      assert rows[..i + 1] == rows[..i] + [r];
      if r.account !in evidence || !Usable(r, r.account, observedAt) {
        SkipKeepsCollected(evidence, seen, accounts, rows[..i], observedAt, r);
      } else if r.match_ in seen[r.account] {
        SkipKeepsCollected(evidence, seen, accounts, rows[..i], observedAt, r);
      } else if |evidence[r.account]| >= MAX_HISTORY {
        SkipKeepsCollected(evidence, seen, accounts, rows[..i], observedAt, r);
      } else {
        AddKeepsCollected(evidence, seen, accounts, rows[..i], observedAt, r);
        seen := seen[r.account := seen[r.account] + {r.match_}];
        evidence := evidence[r.account := evidence[r.account] + [r]];
      }
    }
    assert rows[..|rows|] == rows;
  }

  ghost predicate EvidenceOk(evidence: seq<Row>, account: int, observedAt: int) {
    && |evidence| <= 40
    && (forall i :: 0 <= i < |evidence| ==>
          && evidence[i].account == account && 1 <= evidence[i].position <= 5 && !evidence[i].conflict
          && evidence[i].usableAt <= observedAt && evidence[i].mapUsableAt <= observedAt)
    && (forall i, j :: 0 <= i < j < |evidence| ==> evidence[i].match_ != evidence[j].match_)
  }

  lemma {:induction false} FilteredUsable(rows: seq<Row>, account: int, observedAt: int)
    ensures forall i :: 0 <= i < |Filtered(rows, account, observedAt)| ==>
              Usable(Filtered(rows, account, observedAt)[i], account, observedAt)
  {
    if rows != [] {
      FilteredUsable(rows[..|rows| - 1], account, observedAt);
    }
  }

  lemma {:induction false} DedupedDistinct(rows: seq<Row>)
    ensures forall i, j :: 0 <= i < j < |Deduped(rows)| ==> Deduped(rows)[i].match_ != Deduped(rows)[j].match_
    ensures forall i :: 0 <= i < |Deduped(rows)| ==> Deduped(rows)[i] in rows
    ensures forall i :: 0 <= i < |rows| ==> HasMatch(Deduped(rows), rows[i].match_)
  {
    if rows != [] {
      var init, r := rows[..|rows| - 1], rows[|rows| - 1];
      DedupedDistinct(init);
      var before, d := Deduped(init), Deduped(rows);
      forall i | 0 <= i < |rows|
        ensures HasMatch(d, rows[i].match_)
      {
        if i < |init| {
          assert init[i] == rows[i] && HasMatch(before, rows[i].match_);
          var j :| 0 <= j < |before| && before[j].match_ == rows[i].match_;
          assert d[j] == before[j];
        } else if !HasMatch(before, r.match_) {
          assert d[|before|] == r;
        }
      }
    }
  }

  /** What counts as evidence was usable when observed, and no match counts twice. */
  lemma EvidenceIsOk(rows: seq<Row>, account: int, observedAt: int)
    ensures EvidenceOk(EvidenceOf(rows, account, observedAt), account, observedAt)
  {
    FilteredUsable(rows, account, observedAt);
    var f := Filtered(rows, account, observedAt);
    DedupedDistinct(f);
    forall i | 0 <= i < |Deduped(f)|
      ensures Usable(Deduped(f)[i], account, observedAt)
    {
      assert Deduped(f)[i] in f;
    }
  }

  // ---- Shares --------------------------------------------------------------------------------

  /** Recent maps weigh more. */
  function Weight(index: nat): real {
    if index < 5 then 1.0 else if index < 15 then 0.70 else 0.40
  }

  function WeightOn(rows: seq<Row>, position: int): real {
    if rows == [] then 0.0
    else
      var n := |rows| - 1;
      WeightOn(rows[..n], position) + if rows[n].position == position then Weight(n) else 0.0
  }

  function TotalWeight(rows: seq<Row>): real {
    WeightOn(rows, 1) + WeightOn(rows, 2) + WeightOn(rows, 3) + WeightOn(rows, 4) + WeightOn(rows, 5)
  }

  ghost predicate PositionsOk(rows: seq<Row>) {
    forall i :: 0 <= i < |rows| ==> 1 <= rows[i].position <= 5
  }

  lemma {:induction false} WeightNonNegative(rows: seq<Row>, position: int)
    ensures WeightOn(rows, position) >= 0.0
  {
    if rows != [] {
      WeightNonNegative(rows[..|rows| - 1], position);
    }
  }

  lemma {:induction false} WeightPositive(rows: seq<Row>)
    requires PositionsOk(rows)
    ensures rows != [] ==> TotalWeight(rows) > 0.0
    ensures rows == [] ==> TotalWeight(rows) == 0.0
  {
    if rows != [] {
      WeightPositive(rows[..|rows| - 1]);
    }
  }

  function ShareMap(rows: seq<Row>): map<int, real>
    requires PositionsOk(rows) && rows != []
  {
    WeightPositive(rows);
    map p | 1 <= p <= 5 :: WeightOn(rows, p) / TotalWeight(rows)
  }

  lemma QuotientWithin(x: real, total: real)
    requires 0.0 <= x <= total && total > 0.0
    ensures 0.0 <= x / total <= 1.0
  {
  }

  lemma SharesWithin(rows: seq<Row>, position: int)
    requires PositionsOk(rows) && rows != [] && 1 <= position <= 5
    ensures 0.0 <= ShareMap(rows)[position] <= 1.0
  {
    WeightPositive(rows);
    WeightNonNegative(rows, 1);
    WeightNonNegative(rows, 2);
    WeightNonNegative(rows, 3);
    WeightNonNegative(rows, 4);
    WeightNonNegative(rows, 5);
    QuotientWithin(WeightOn(rows, position), TotalWeight(rows));
  }

  // ---- Three tiers ---------------------------------------------------------------------------

  function On(position: int): Row -> int {
    (r: Row) => if r.position == position then 1 else 0
  }

  /** The rows from one index to another, as far as there are any. */
  function Tier(rows: seq<Row>, from: nat, to: nat): seq<Row>
    requires from <= to
  {
    rows[Min(from, |rows|)..Min(to, |rows|)]
  }

  /** The five latest maps count in full, the next ten at seven tenths, all older ones at four tenths. */
  function Tiered(latest: int, next: int, older: int): real {
    latest as real + 0.7 * next as real + 0.4 * older as real
  }

  function TieredOn(rows: seq<Row>, position: int): real {
    Tiered(SumBy(On(position), Tier(rows, 0, 5)), SumBy(On(position), Tier(rows, 5, 15)),
           SumBy(On(position), rows[Min(15, |rows|)..]))
  }

  lemma TierSnoc(rows: seq<Row>, r: Row, from: nat, to: nat)
    requires from <= to
    ensures Tier(rows + [r], from, to) == if from <= |rows| < to then Tier(rows, from, to) + [r] else Tier(rows, from, to)
  {
  }

  lemma TieredSnoc(rows: seq<Row>, r: Row, position: int)
    ensures TieredOn(rows + [r], position)
            == TieredOn(rows, position)
               + if r.position != position then 0.0 else if |rows| < 5 then 1.0 else if |rows| < 15 then 0.7 else 0.4
  {
    TierSnoc(rows, r, 0, 5);
    TierSnoc(rows, r, 5, 15);
    var older := rows[Min(15, |rows|)..];
    assert (rows + [r])[Min(15, |rows + [r]|)..] == if |rows| < 15 then older else older + [r];
    assert |rows| < 15 ==> older == [];
    SumSnoc(On(position), Tier(rows, 0, 5), r);
    SumSnoc(On(position), Tier(rows, 5, 15), r);
    SumSnoc(On(position), older, r);
  }

  lemma {:induction false} WeightIsTiered(rows: seq<Row>, position: int)
    ensures WeightOn(rows, position) == TieredOn(rows, position)
  {
    if rows != [] {
      var n := |rows| - 1;
      assert rows == rows[..n] + [rows[n]];
      WeightIsTiered(rows[..n], position);
      TieredSnoc(rows[..n], rows[n], position);
    }
  }

  lemma {:induction false} TotalIsTiered(rows: seq<Row>)
    requires PositionsOk(rows)
    ensures TotalWeight(rows) == Tiered(Min(|rows|, 5), Max(0, Min(|rows|, 15) - 5), Max(0, |rows| - 15))
  {
    if rows != [] {
      TotalIsTiered(rows[..|rows| - 1]);
    }
  }

  /** The share of a position: its maps in the three tiers over all maps in them. */
  lemma SharesAreTiered(rows: seq<Row>, position: int)
    requires PositionsOk(rows) && rows != [] && 1 <= position <= 5
    ensures var total := Tiered(Min(|rows|, 5), Max(0, Min(|rows|, 15) - 5), Max(0, |rows| - 15));
            total > 0.0 && ShareMap(rows)[position] == TieredOn(rows, position) / total
  {
    WeightIsTiered(rows, position);
    WeightPositive(rows);
    TotalIsTiered(rows);
  }

  /** Sums the weights of a player's maps position by position. */
  method WeighPositions(rows: seq<Row>) returns (shares: map<int, real>)
    requires PositionsOk(rows) && rows != []
    ensures shares == ShareMap(rows)
  {
    var weighted: map<int, real> := map[1 := 0.0, 2 := 0.0, 3 := 0.0, 4 := 0.0, 5 := 0.0];
    for i := 0 to |rows|
      invariant weighted.Keys == {1, 2, 3, 4, 5}
      invariant forall p :: 1 <= p <= 5 ==> weighted[p] == WeightOn(rows[..i], p)
    {
      assert rows[..i + 1][..i] == rows[..i];
      var weight := if i < 5 then 1.0 else if i < 15 then 0.70 else 0.40;
      weighted := weighted[rows[i].position := weighted[rows[i].position] + weight];
    }
    assert rows[..|rows|] == rows;
    var total := weighted[1] + weighted[2] + weighted[3] + weighted[4] + weighted[5];
    WeightPositive(rows);
    shares := map p | 1 <= p <= 5 :: weighted[p] / total;
  }

  // ---- One side ------------------------------------------------------------------------------

  function AccountsOf(picks: seq<Pick>): seq<int>
    requires forall i :: 0 <= i < |picks| ==> picks[i].account.Some?
  {
    seq(|picks|, i requires 0 <= i < |picks| => picks[i].account.value)
  }

  predicate Identified(picks: seq<Pick>) {
    forall i :: 0 <= i < |picks| ==> picks[i].account.Some? && picks[i].hero.Some?
  }

  function RowsFor(evidence: map<int, seq<Row>>, account: int): seq<Row> {
    if account in evidence then evidence[account] else []
  }

  predicate EnoughHistory(accounts: seq<int>, evidence: map<int, seq<Row>>) {
    forall i :: 0 <= i < |accounts| ==> |RowsFor(evidence, accounts[i])| >= MIN_HISTORY
  }

  ghost predicate AllPositionsOk(evidence: map<int, seq<Row>>) {
    forall x :: x in evidence ==> PositionsOk(evidence[x])
  }

  function SharesOf(accounts: seq<int>, evidence: map<int, seq<Row>>): Shares
    requires AllPositionsOk(evidence) && EnoughHistory(accounts, evidence)
  {
    map x | x in accounts :: ShareMap(RowsFor(evidence, x))
  }

  function LatestUsable(rows: seq<Row>): int
    requires rows != []
  {
    if |rows| == 1 then rows[0].usableAt else Max(LatestUsable(rows[..|rows| - 1]), rows[|rows| - 1].usableAt)
  }

  /** The latest moment at which evidence of the first accounts became usable. */
  function CutoffUpTo(accounts: seq<int>, evidence: map<int, seq<Row>>, end: nat): int
    requires 0 < end <= |accounts| && EnoughHistory(accounts[..end], evidence)
  {
    assert accounts[..end][end - 1] == accounts[end - 1];
    assert end > 1 ==> forall j :: 0 <= j < end - 1 ==> accounts[..end][j] == accounts[..end - 1][j];
    var latest := LatestUsable(RowsFor(evidence, accounts[end - 1]));
    if end == 1 then latest else Max(CutoffUpTo(accounts, evidence, end - 1), latest)
  }

  function Cutoff(accounts: seq<int>, evidence: map<int, seq<Row>>): int
    requires accounts != [] && EnoughHistory(accounts, evidence)
  {
    assert accounts[..|accounts|] == accounts;
    CutoffUpTo(accounts, evidence, |accounts|)
  }

  function Uncapped(share: real, sample: nat, margin: real): real {
    0.55 + 0.25 * share + 0.10 * MinReal(sample as real / 20.0, 1.0) + 0.05 * MinReal(margin, 1.0)
  }

  function SlotFor(pick: Pick, position: int, evidence: map<int, seq<Row>>, shares: Shares, margin: real): Slot
    requires pick.account.Some? && pick.hero.Some?
  {
    var account := pick.account.value;
    Slot(pick.side, position, account, pick.hero.value,
         MinReal(0.95, Uncapped(ShareAt(shares, account, position), |RowsFor(evidence, account)|, margin)))
  }

  function SlotsFor(picks: seq<Pick>, a: seq<int>, evidence: map<int, seq<Row>>, shares: Shares, margin: real): seq<Slot>
    requires Identified(picks) && |a| == |picks|
  {
    seq(|picks|, i requires 0 <= i < |picks| => SlotFor(picks[i], a[i], evidence, shares, margin))
  }

  function ResolveSide(picks: seq<Pick>, evidence: map<int, seq<Row>>): Option<SideResult>
    requires AllPositionsOk(evidence)
  {
    if |picks| != 5 || !Identified(picks) || !EnoughHistory(AccountsOf(picks), evidence) then None
    else
      var accounts := AccountsOf(picks);
      var shares := SharesOf(accounts, evidence);
      var choice := Search(accounts, shares);
      SearchLength(accounts, shares);
      if choice.None? then None
      else
        Some(SideResult(SlotsFor(picks, choice.value.assignment, evidence, shares, choice.value.margin),
                        Cutoff(accounts, evidence)))
  }

  lemma SearchLength(accounts: seq<int>, shares: Shares)
    ensures Search(accounts, shares).Some? ==> |Search(accounts, shares).value.assignment| == 5
  {
    if Search(accounts, shares).Some? {
      SearchFindsDominant(accounts, shares, Search(accounts, shares).value.assignment);
    }
  }

  /** Shares and cutoff of the accounts, unless one of them has too few maps. */
  method Gather(accounts: seq<int>, evidence: map<int, seq<Row>>) returns (enough: bool, shares: Shares, cutoff: int)
    requires AllPositionsOk(evidence) && accounts != []
    ensures enough <==> EnoughHistory(accounts, evidence)
    ensures enough ==> shares == SharesOf(accounts, evidence) && cutoff == Cutoff(accounts, evidence)
  {
    enough := HaveEnough(accounts, evidence);
    if !enough {
      return false, map[], 0;
    }
    shares := GatherShares(accounts, evidence);
    cutoff := GatherCutoff(accounts, evidence);
  }

  method HaveEnough(accounts: seq<int>, evidence: map<int, seq<Row>>) returns (enough: bool)
    ensures enough <==> EnoughHistory(accounts, evidence)
  {
    for i := 0 to |accounts|
      invariant forall j :: 0 <= j < i ==> |RowsFor(evidence, accounts[j])| >= MIN_HISTORY
    {
      if |RowsFor(evidence, accounts[i])| < MIN_HISTORY {
        return false;
      }
    }
    return true;
  }

  method GatherShares(accounts: seq<int>, evidence: map<int, seq<Row>>) returns (shares: Shares)
    requires AllPositionsOk(evidence) && EnoughHistory(accounts, evidence)
    ensures shares == SharesOf(accounts, evidence)
  {
    shares := map[];
    for i := 0 to |accounts|
      invariant shares.Keys == set j | 0 <= j < i :: accounts[j]
      invariant forall x :: x in shares ==> x in accounts && shares[x] == ShareMap(RowsFor(evidence, x))
    {
      var share := WeighPositions(RowsFor(evidence, accounts[i]));
      shares := shares[accounts[i] := share];
    }
  }

  method GatherCutoff(accounts: seq<int>, evidence: map<int, seq<Row>>) returns (cutoff: int)
    requires accounts != [] && EnoughHistory(accounts, evidence)
    ensures cutoff == Cutoff(accounts, evidence)
  {
    assert forall n :: 0 <= n <= |accounts| ==> EnoughHistory(accounts[..n], evidence);
    cutoff := LatestUsable(RowsFor(evidence, accounts[0]));
    for i := 1 to |accounts|
      invariant cutoff == CutoffUpTo(accounts, evidence, i)
    {
      cutoff := Max(cutoff, LatestUsable(RowsFor(evidence, accounts[i])));
    }
  }

  method Assemble(picks: seq<Pick>, a: seq<int>, evidence: map<int, seq<Row>>, shares: Shares, margin: real)
    returns (slots: seq<Slot>)
    requires Identified(picks) && |a| == |picks|
    ensures slots == SlotsFor(picks, a, evidence, shares, margin)
  {
    slots := [];
    for i := 0 to |picks|
      invariant |slots| == i
      invariant forall j :: 0 <= j < i ==> slots[j] == SlotFor(picks[j], a[j], evidence, shares, margin)
    {
      slots := slots + [SlotFor(picks[i], a[i], evidence, shares, margin)];
    }
  }

  method ResolveSideFromHistory(picks: seq<Pick>, evidence: map<int, seq<Row>>) returns (r: Option<SideResult>)
    requires AllPositionsOk(evidence)
    ensures r == ResolveSide(picks, evidence)
  {
    if |picks| != 5 || !Identified(picks) {
      return None;
    }
    var accounts := AccountsOf(picks);
    var enough, shares, cutoff := Gather(accounts, evidence);
    if !enough {
      return None;
    }
    var choice := FindAssignment(accounts, shares);
    if choice.None? {
      return None;
    }
    SearchLength(accounts, shares);
    var slots := Assemble(picks, choice.value.assignment, evidence, shares, choice.value.margin);
    return Some(SideResult(slots, cutoff));
  }

  // ---- What a side's answer guarantees -------------------------------------------------------

  lemma ConfidenceInRange(share: real, sample: nat, margin: real)
    requires MIN_ASSIGNED_POSITION_SHARE <= share <= 1.0 && margin >= 0.0
    ensures 0.55 <= Uncapped(share, sample, margin) <= 0.95
  {
    assert 0.0 <= sample as real / 20.0;
  }

  lemma {:induction false} ScoreAtLeast(accounts: seq<int>, shares: Shares, a: seq<int>, end: nat)
    requires Admissible(accounts, shares, a) && end <= |a|
    ensures ScoreUpTo(accounts, shares, a, end) >= 0.0
  {
    if end > 0 {
      ScoreAtLeast(accounts, shares, a, end - 1);
    }
  }

  lemma ShareBounds(accounts: seq<int>, evidence: map<int, seq<Row>>, account: int, position: int)
    requires AllPositionsOk(evidence) && EnoughHistory(accounts, evidence) && account in accounts && 1 <= position <= 5
    ensures 0.0 <= ShareAt(SharesOf(accounts, evidence), account, position) <= 1.0
  {
    SharesWithin(RowsFor(evidence, account), position);
  }

  lemma MarginNonNegative(accounts: seq<int>, shares: Shares)
    requires |accounts| == 5 && Search(accounts, shares).Some?
    ensures Search(accounts, shares).value.margin >= 0.0
  {
    var c := Search(accounts, shares).value;
    SearchFindsDominant(accounts, shares, c.assignment);
    if HasRival(accounts, shares, c.assignment) {
      var b :| Rival(accounts, shares, c.assignment, b) && Score(accounts, shares, b) + c.margin == Score(accounts, shares, c.assignment);
    } else {
      ScoreAtLeast(accounts, shares, c.assignment, 5);
    }
  }

  /** The account, side and hero of the pick stand in its slot, and its confidence does not need the cap. */
  ghost predicate SlotOk(pick: Pick, slot: Slot, evidence: map<int, seq<Row>>, shares: Shares, margin: real)
    requires pick.account.Some? && pick.hero.Some?
  {
    && slot.account == pick.account.value && slot.side == pick.side && slot.hero == pick.hero.value
    && slot.confidence
       == 0.55 + 0.25 * ShareAt(shares, slot.account, slot.position)
          + 0.10 * MinReal(|RowsFor(evidence, slot.account)| as real / 20.0, 1.0) + 0.05 * MinReal(margin, 1.0)
    && 0.55 <= slot.confidence <= 0.95
  }

  lemma SlotIsOk(
    picks: seq<Pick>, i: nat, position: int, evidence: map<int, seq<Row>>, accounts: seq<int>, shares: Shares, margin: real)
    requires Identified(picks) && i < |picks| == 5 && accounts == AccountsOf(picks)
    requires AllPositionsOk(evidence) && EnoughHistory(accounts, evidence) && shares == SharesOf(accounts, evidence)
    requires margin >= 0.0 && 1 <= position <= 5
    requires ShareAt(shares, accounts[i], position) >= MIN_ASSIGNED_POSITION_SHARE
    ensures SlotOk(picks[i], SlotFor(picks[i], position, evidence, shares, margin), evidence, shares, margin)
  {
    assert accounts[i] in accounts;
    ShareBounds(accounts, evidence, accounts[i], position);
    ConfidenceInRange(ShareAt(shares, accounts[i], position), |RowsFor(evidence, accounts[i])|, margin);
  }

  lemma DominantCovers(accounts: seq<int>, shares: Shares, a: seq<int>)
    requires Dominant(accounts, shares, a)
    ensures |a| == 5 && forall p :: 1 <= p <= 5 ==> p in a
    ensures forall i :: 0 <= i < 5 ==> 1 <= a[i] <= 5
  {
    PermutationCovers(POSITIONS, a);
    forall p | 1 <= p <= 5
      ensures p in a
    {
      assert POSITIONS[p - 1] == p;
    }
    forall i | 0 <= i < 5
      ensures 1 <= a[i] <= 5
    {
      assert a[i] in POSITIONS;
    }
  }

  /** What a resolved side consists of. */
  lemma SideParts(picks: seq<Pick>, evidence: map<int, seq<Row>>)
    requires AllPositionsOk(evidence) && ResolveSide(picks, evidence).Some?
    ensures |picks| == 5 && Identified(picks) && EnoughHistory(AccountsOf(picks), evidence)
    ensures var shares := SharesOf(AccountsOf(picks), evidence);
            var found := Search(AccountsOf(picks), shares);
            && found.Some? && Dominant(AccountsOf(picks), shares, found.value.assignment)
            && ResolveSide(picks, evidence).value
               == SideResult(SlotsFor(picks, found.value.assignment, evidence, shares, found.value.margin),
                             Cutoff(AccountsOf(picks), evidence))
  {
    var accounts := AccountsOf(picks);
    var shares := SharesOf(accounts, evidence);
    SearchFindsDominant(accounts, shares, Search(accounts, shares).value.assignment);
  }

  lemma SlotsAreOk(
    picks: seq<Pick>, evidence: map<int, seq<Row>>, accounts: seq<int>, shares: Shares, a: seq<int>, margin: real)
    requires |picks| == 5 && Identified(picks) && accounts == AccountsOf(picks)
    requires AllPositionsOk(evidence) && EnoughHistory(accounts, evidence) && shares == SharesOf(accounts, evidence)
    requires margin >= 0.0 && Admissible(accounts, shares, a) && forall i :: 0 <= i < |a| ==> 1 <= a[i] <= 5
    ensures var slots := SlotsFor(picks, a, evidence, shares, margin);
            && PositionsOf(slots) == a
            && forall i :: 0 <= i < 5 ==> SlotOk(picks[i], slots[i], evidence, shares, margin)
  {
    var slots := SlotsFor(picks, a, evidence, shares, margin);
    forall i | 0 <= i < 5
      ensures SlotOk(picks[i], slots[i], evidence, shares, margin)
    {
      SlotIsOk(picks, i, a[i], evidence, accounts, shares, margin);
    }
  }

  /**
   When a side is resolved, its positions are a one-to-one assignment onto 1 to 5 that dominates every other
   eligible one, and every confidence lies between 0.55 and 0.95 without the cap.
   */
  lemma SideIsDominant(picks: seq<Pick>, evidence: map<int, seq<Row>>) returns (margin: real)
    requires AllPositionsOk(evidence) && ResolveSide(picks, evidence).Some?
    ensures |picks| == 5 && Identified(picks) && EnoughHistory(AccountsOf(picks), evidence)
    ensures var slots, accounts := ResolveSide(picks, evidence).value.slots, AccountsOf(picks);
            var shares := SharesOf(accounts, evidence);
            && |slots| == 5
            && Dominant(accounts, shares, PositionsOf(slots)) && Leads(accounts, shares, PositionsOf(slots), margin)
            && (forall p :: 1 <= p <= 5 ==> p in PositionsOf(slots))
            && (forall i :: 0 <= i < 5 ==> SlotOk(picks[i], slots[i], evidence, shares, margin))
  {
    SideParts(picks, evidence);
    var accounts := AccountsOf(picks);
    var shares := SharesOf(accounts, evidence);
    var a := Search(accounts, shares).value.assignment;
    margin := Search(accounts, shares).value.margin;
    DominantCovers(accounts, shares, a);
    MarginNonNegative(accounts, shares);
    SearchFindsDominant(accounts, shares, a);
    SlotsAreOk(picks, evidence, accounts, shares, a, margin);
  }

  /** The score of an assignment is the sum of the five shares it uses. */
  lemma ScoreIsSum(accounts: seq<int>, shares: Shares, a: seq<int>)
    requires |accounts| == 5 == |a|
    ensures Score(accounts, shares, a)
            == ShareAt(shares, accounts[0], a[0]) + ShareAt(shares, accounts[1], a[1]) + ShareAt(shares, accounts[2], a[2])
               + ShareAt(shares, accounts[3], a[3]) + ShareAt(shares, accounts[4], a[4])
  {
    assert ScoreUpTo(accounts, shares, a, 1) == ShareAt(shares, accounts[0], a[0]);
    assert ScoreUpTo(accounts, shares, a, 2) == ScoreUpTo(accounts, shares, a, 1) + ShareAt(shares, accounts[1], a[1]);
    assert ScoreUpTo(accounts, shares, a, 3) == ScoreUpTo(accounts, shares, a, 2) + ShareAt(shares, accounts[2], a[2]);
    assert ScoreUpTo(accounts, shares, a, 4) == ScoreUpTo(accounts, shares, a, 3) + ShareAt(shares, accounts[3], a[3]);
  }

  /** The account has at least four maps of evidence. */
  predicate Experienced(evidence: map<int, seq<Row>>, account: int) {
    account in evidence && |evidence[account]| >= 4
  }

  ghost predicate SomeDominant(accounts: seq<int>, shares: Shares) {
    exists a :: Dominant(accounts, shares, a)
  }

  lemma EnoughMeans(accounts: seq<int>, evidence: map<int, seq<Row>>)
    ensures EnoughHistory(accounts, evidence) <==> forall i :: 0 <= i < |accounts| ==> Experienced(evidence, accounts[i])
  {
    forall i | 0 <= i < |accounts|
      ensures Experienced(evidence, accounts[i]) <==> |RowsFor(evidence, accounts[i])| >= MIN_HISTORY
    {
    }
  }

  /** A side is answered exactly when it has five known players with at least four maps each and some assignment dominates. */
  lemma {:induction false} SideAnswersExactly(picks: seq<Pick>, evidence: map<int, seq<Row>>)
    requires AllPositionsOk(evidence)
    ensures ResolveSide(picks, evidence).Some?
            <==> |picks| == 5 && Identified(picks) && EnoughHistory(AccountsOf(picks), evidence)
                 && SomeDominant(AccountsOf(picks), SharesOf(AccountsOf(picks), evidence))
  {
    if |picks| == 5 && Identified(picks) && EnoughHistory(AccountsOf(picks), evidence) {
      FoundIffDominant(AccountsOf(picks), SharesOf(AccountsOf(picks), evidence));
    }
  }

  lemma FoundIffDominant(accounts: seq<int>, shares: Shares)
    ensures Search(accounts, shares).Some? <==> SomeDominant(accounts, shares)
  {
    if Search(accounts, shares).Some? {
      SearchFindsDominant(accounts, shares, Search(accounts, shares).value.assignment);
    }
    if SomeDominant(accounts, shares) {
      var a :| Dominant(accounts, shares, a);
      SearchFindsDominant(accounts, shares, a);
    }
  }

  function PositionsOf(slots: seq<Slot>): seq<int> {
    seq(|slots|, i requires 0 <= i < |slots| => slots[i].position)
  }

  ghost predicate RowsBy(rows: seq<Row>, at: int) {
    forall i :: 0 <= i < |rows| ==> rows[i].usableAt <= at
  }

  lemma {:induction false} LatestIsLeast(rows: seq<Row>, at: int)
    requires rows != []
    ensures RowsBy(rows, at) <==> LatestUsable(rows) <= at
  {
    if |rows| > 1 {
      LatestIsLeast(rows[..|rows| - 1], at);
    }
  }

  /** No evidence of these accounts became usable later. */
  ghost predicate UsableBy(accounts: seq<int>, evidence: map<int, seq<Row>>, at: int) {
    forall x :: x in accounts ==> RowsBy(RowsFor(evidence, x), at)
  }

  /** The cutoff is the least moment by which all evidence was usable. */
  lemma {:induction false} CutoffIsLeast(accounts: seq<int>, evidence: map<int, seq<Row>>, end: nat, at: int)
    requires 0 < end <= |accounts| && EnoughHistory(accounts[..end], evidence)
    ensures UsableBy(accounts[..end], evidence, at) <==> CutoffUpTo(accounts, evidence, end) <= at
  {
    var first, last := accounts[..end - 1], accounts[end - 1];
    assert accounts[..end] == first + [last];
    assert accounts[..end][end - 1] == last;
    LatestIsLeast(RowsFor(evidence, last), at);
    if end > 1 {
      assert forall j :: 0 <= j < end - 1 ==> accounts[..end][j] == first[j];
      CutoffIsLeast(accounts, evidence, end - 1, at);
    }
  }
}
