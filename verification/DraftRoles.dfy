/** The historical resolution of a whole draft, its validation, and its independence of the order of picks. */
module DraftRoles {
  import opened Common
  import opened Sorting
  import opened RoleSearch
  import opened RoleOrder
  import opened Roles

  // ---- A side in two orders ------------------------------------------------------------------

  /** The same picks in two orders, with distinct accounts. */
  ghost predicate SamePicks(ps: seq<Pick>, qs: seq<Pick>) {
    && |ps| == |qs| && (forall p :: p in ps <==> p in qs)
    && (forall i, j :: 0 <= i < j < |ps| && ps[i].account.Some? ==> ps[i].account != ps[j].account)
    && (forall i, j :: 0 <= i < j < |qs| && qs[i].account.Some? ==> qs[i].account != qs[j].account)
  }

  lemma SamePicksIdentified(ps: seq<Pick>, qs: seq<Pick>)
    requires SamePicks(ps, qs)
    ensures Identified(ps) <==> Identified(qs)
  {
    assert Identified(ps) <==> forall p :: p in ps ==> p.account.Some? && p.hero.Some?;
    assert Identified(qs) <==> forall p :: p in qs ==> p.account.Some? && p.hero.Some?;
  }

  lemma SamePicksSameAccounts(ps: seq<Pick>, qs: seq<Pick>)
    requires SamePicks(ps, qs) && |ps| == 5 && Identified(ps) && Identified(qs)
    ensures SameAccounts(AccountsOf(ps), AccountsOf(qs))
  {
    var xs, ys := AccountsOf(ps), AccountsOf(qs);
    forall x
      ensures x in xs <==> x in ys
    {
      if x in xs {
        var i :| 0 <= i < |xs| && xs[i] == x;
        assert ps[i] in qs;
        var j :| 0 <= j < |qs| && qs[j] == ps[i];
        assert ys[j] == x;
      }
      if x in ys {
        var i :| 0 <= i < |ys| && ys[i] == x;
        assert qs[i] in ps;
        var j :| 0 <= j < |ps| && ps[j] == qs[i];
        assert xs[j] == x;
      }
    }
  }

  lemma SameHistory(xs: seq<int>, ys: seq<int>, evidence: map<int, seq<Row>>)
    requires SameAccounts(xs, ys) && AllPositionsOk(evidence)
    ensures EnoughHistory(xs, evidence) <==> EnoughHistory(ys, evidence)
    ensures EnoughHistory(xs, evidence) ==> SharesOf(xs, evidence) == SharesOf(ys, evidence)
  {
    assert EnoughHistory(xs, evidence) <==> forall x :: x in xs ==> |RowsFor(evidence, x)| >= MIN_HISTORY;
    assert EnoughHistory(ys, evidence) <==> forall x :: x in ys ==> |RowsFor(evidence, x)| >= MIN_HISTORY;
  }

  lemma SameCutoff(xs: seq<int>, ys: seq<int>, evidence: map<int, seq<Row>>)
    requires SameAccounts(xs, ys) && EnoughHistory(xs, evidence) && EnoughHistory(ys, evidence)
    ensures Cutoff(xs, evidence) == Cutoff(ys, evidence)
  {
    assert xs[..5] == xs && ys[..5] == ys;
    var c, d := CutoffUpTo(xs, evidence, 5), CutoffUpTo(ys, evidence, 5);
    CutoffIsLeast(xs, evidence, 5, c);
    CutoffIsLeast(xs, evidence, 5, d);
    CutoffIsLeast(ys, evidence, 5, c);
    CutoffIsLeast(ys, evidence, 5, d);
  }

  /** Each slot of one order is a slot of the other. */
  lemma SlotsTransfer(
    ps: seq<Pick>, qs: seq<Pick>, a: seq<int>, evidence: map<int, seq<Row>>, shares: Shares, margin: real, i: nat)
    requires SamePicks(ps, qs) && |ps| == 5 && Identified(ps) && Identified(qs)
    requires SameAccounts(AccountsOf(ps), AccountsOf(qs)) && |a| == 5 && i < 5
    ensures SlotsFor(ps, a, evidence, shares, margin)[i]
            in SlotsFor(qs, Transfer(AccountsOf(ps), AccountsOf(qs), a), evidence, shares, margin)
  {
    var xs, ys := AccountsOf(ps), AccountsOf(qs);
    assert ps[i] in qs;
    var j :| 0 <= j < 5 && qs[j] == ps[i];
    var b := Transfer(xs, ys, a);
    assert ys[j] == xs[i];
    assert b[j] == a[IndexOf(xs, ys[j])] && IndexOf(xs, xs[i]) == i;
    assert SlotsFor(qs, b, evidence, shares, margin)[j] == SlotFor(qs[j], b[j], evidence, shares, margin);
  }

  lemma AllSlotsTransfer(
    ps: seq<Pick>, qs: seq<Pick>, a: seq<int>, evidence: map<int, seq<Row>>, shares: Shares, margin: real)
    requires SamePicks(ps, qs) && |ps| == 5 && Identified(ps) && Identified(qs)
    requires SameAccounts(AccountsOf(ps), AccountsOf(qs)) && |a| == 5
    ensures forall s :: s in SlotsFor(ps, a, evidence, shares, margin) ==>
              s in SlotsFor(qs, Transfer(AccountsOf(ps), AccountsOf(qs), a), evidence, shares, margin)
  {
    var slots := SlotsFor(ps, a, evidence, shares, margin);
    forall s | s in slots
      ensures s in SlotsFor(qs, Transfer(AccountsOf(ps), AccountsOf(qs), a), evidence, shares, margin)
    {
      var i :| 0 <= i < |slots| && slots[i] == s;
      SlotsTransfer(ps, qs, a, evidence, shares, margin, i);
    }
  }

  /** When the search over the accounts of the picks answers, so does the side. */
  lemma SideFound(picks: seq<Pick>, evidence: map<int, seq<Row>>, accounts: seq<int>, shares: Shares, c: Choice)
    requires AllPositionsOk(evidence) && |picks| == 5 && Identified(picks) && accounts == AccountsOf(picks)
    requires EnoughHistory(accounts, evidence) && shares == SharesOf(accounts, evidence)
    requires Search(accounts, shares) == Some(c) && |c.assignment| == 5
    ensures ResolveSide(picks, evidence)
            == Some(SideResult(SlotsFor(picks, c.assignment, evidence, shares, c.margin), Cutoff(accounts, evidence)))
  {
  }

  /** The search answers in both orders, with the positions carried over. */
  lemma BothFound(xs: seq<int>, ys: seq<int>, shares: Shares, c: Choice)
    requires SameAccounts(xs, ys) && Search(xs, shares) == Some(c)
    ensures |c.assignment| == 5 && Search(ys, shares) == Some(Choice(Transfer(xs, ys, c.assignment), c.margin))
  {
    SearchIgnoresOrder(xs, ys, shares);
  }

  ghost predicate SameAnswer(r: Option<SideResult>, t: Option<SideResult>) {
    && r.Some? && t.Some? && r.value.cutoff == t.value.cutoff
    && forall s :: s in r.value.slots ==> s in t.value.slots
  }

  /** A side's answer in one order gives the other order's: the same slots, and the same cutoff. */
  lemma SideGoesOver(ps: seq<Pick>, qs: seq<Pick>, evidence: map<int, seq<Row>>, xs: seq<int>, ys: seq<int>, shares: Shares, c: Choice)
    requires AllPositionsOk(evidence) && SamePicks(ps, qs) && |ps| == 5 && Identified(ps) && Identified(qs)
    requires xs == AccountsOf(ps) && ys == AccountsOf(qs) && SameAccounts(xs, ys)
    requires EnoughHistory(xs, evidence) && EnoughHistory(ys, evidence)
    requires shares == SharesOf(xs, evidence) == SharesOf(ys, evidence) && Search(xs, shares) == Some(c)
    ensures SameAnswer(ResolveSide(ps, evidence), ResolveSide(qs, evidence))
  {
    BothFound(xs, ys, shares, c);
    SideFound(ps, evidence, xs, shares, c);
    SideFound(qs, evidence, ys, shares, Choice(Transfer(xs, ys, c.assignment), c.margin));
    SameCutoff(xs, ys, evidence);
    AllSlotsTransfer(ps, qs, c.assignment, evidence, shares, c.margin);
  }

  lemma SideAnswersBoth(ps: seq<Pick>, qs: seq<Pick>, evidence: map<int, seq<Row>>)
    requires AllPositionsOk(evidence) && SamePicks(ps, qs) && ResolveSide(ps, evidence).Some?
    ensures SameAnswer(ResolveSide(ps, evidence), ResolveSide(qs, evidence))
  {
    SideParts(ps, evidence);
    SamePicksIdentified(ps, qs);
    SamePicksSameAccounts(ps, qs);
    var xs, ys := AccountsOf(ps), AccountsOf(qs);
    SameHistory(xs, ys, evidence);
    var shares := SharesOf(xs, evidence);
    SideGoesOver(ps, qs, evidence, xs, ys, shares, Search(xs, shares).value);
  }

  /** The answer for a side is the same for every ordering of its picks. */
  lemma SideIgnoresOrder(ps: seq<Pick>, qs: seq<Pick>, evidence: map<int, seq<Row>>)
    requires AllPositionsOk(evidence) && SamePicks(ps, qs)
    ensures ResolveSide(ps, evidence).Some? <==> ResolveSide(qs, evidence).Some?
    ensures ResolveSide(ps, evidence).Some? ==>
              var r, s := ResolveSide(ps, evidence).value, ResolveSide(qs, evidence).value;
              r.cutoff == s.cutoff && forall x :: x in r.slots <==> x in s.slots
  {
    if ResolveSide(ps, evidence).Some? {
      SideAnswersBoth(ps, qs, evidence);
    }
    if ResolveSide(qs, evidence).Some? {
      SideAnswersBoth(qs, ps, evidence);
    }
  }

  // ---- Validation ----------------------------------------------------------------------------

  function OfSide(slots: seq<Slot>, side: Side): seq<Slot> {
    if slots == [] then []
    else
      var before, s := OfSide(slots[..|slots| - 1], side), slots[|slots| - 1];
      if s.side == side then before + [s] else before
  }

  function PositionSet(slots: seq<Slot>): set<int> {
    set i | 0 <= i < |slots| :: slots[i].position
  }

  predicate SideComplete(slots: seq<Slot>, side: Side) {
    |OfSide(slots, side)| == 5 && PositionSet(OfSide(slots, side)) == {1, 2, 3, 4, 5}
  }

  predicate IsComplete(slots: seq<Slot>) {
    |slots| == 10 && SideComplete(slots, Radiant) && SideComplete(slots, Dire)
  }

  /** Sorted by side, "dire" before "radiant", then by position. */
  predicate SlotBefore(a: Slot, b: Slot) {
    (a.side == Dire && b.side == Radiant) || (a.side == b.side && a.position <= b.position)
  }

  function SortSlots(slots: seq<Slot>): seq<Slot> {
    SortBy(SlotBefore, slots)
  }

  /** The ten slots of a complete draft in their order: Dire 1 to 5, then Radiant 1 to 5. */
  ghost predicate LaidOut(slots: seq<Slot>) {
    && |slots| == 10
    && forall k :: 0 <= k < 10 ==> slots[k].side == (if k < 5 then Dire else Radiant) && slots[k].position == k % 5 + 1
  }

  lemma SortSlotsSorts(slots: seq<Slot>)
    ensures SortedBy(SlotBefore, SortSlots(slots)) && |SortSlots(slots)| == |slots|
    ensures forall s :: s in SortSlots(slots) <==> s in slots
  {
    SortSorts(SlotBefore, slots);
  }

  lemma {:induction false} InSide(slots: seq<Slot>, side: Side)
    ensures forall s :: s in OfSide(slots, side) <==> s in slots && s.side == side
  {
    if slots != [] {
      InSide(slots[..|slots| - 1], side);
      assert slots == slots[..|slots| - 1] + [slots[|slots| - 1]];
    }
  }

  /** A rising list of `|s|` numbers that holds `a`, `a + 1`, ... as many of them, is that list. */
  lemma {:induction false} RisingCover(s: seq<int>, a: int)
    requires forall i, j :: 0 <= i < j < |s| ==> s[i] <= s[j]
    requires forall v :: a <= v < a + |s| ==> v in s
    ensures forall k :: 0 <= k < |s| ==> s[k] == a + k
  {
    if s != [] {
      var rest := s[1..];
      assert a in s;
      forall v | a + 1 <= v < a + 1 + |rest|
        ensures v in rest
      {
        assert v in s && s[0] <= a;
        var i :| 0 <= i < |s| && s[i] == v;
        assert rest[i - 1] == v;
      }
      RisingCover(rest, a + 1);
      assert a !in rest;
      assert forall k :: 1 <= k < |s| ==> s[k] == rest[k - 1];
    }
  }

  function SlotKey(s: Slot): int {
    (if s.side == Dire then 0 else 5) + s.position - 1
  }

  lemma PositionsInRange(slots: seq<Slot>, s: Slot)
    requires IsComplete(slots) && s in slots
    ensures 1 <= s.position <= 5
  {
    InSide(slots, s.side);
    var side := OfSide(slots, s.side);
    var i :| 0 <= i < |side| && side[i] == s;
    assert s.position in PositionSet(side);
  }

  lemma HasKey(slots: seq<Slot>, v: int)
    requires IsComplete(slots) && 0 <= v < 10
    ensures exists s :: s in slots && SlotKey(s) == v
  {
    var side := if v < 5 then Dire else Radiant;
    InSide(slots, side);
    var own := OfSide(slots, side);
    assert v % 5 + 1 in PositionSet(own);
    var i :| 0 <= i < |own| && own[i].position == v % 5 + 1;
    assert own[i] in slots;
  }

  /** A complete draft, sorted, has exactly one slot for each side and position. */
  lemma CompleteIsLaidOut(slots: seq<Slot>)
    requires IsComplete(slots)
    ensures LaidOut(SortSlots(slots))
  {
    SortSlotsSorts(slots);
    var sorted := SortSlots(slots);
    var keys := seq(10, i requires 0 <= i < 10 => SlotKey(sorted[i]));
    forall i, j | 0 <= i < j < 10
      ensures keys[i] <= keys[j]
    {
      assert SlotBefore(sorted[i], sorted[j]) && sorted[i] in slots && sorted[j] in slots;
      PositionsInRange(slots, sorted[i]);
      PositionsInRange(slots, sorted[j]);
    }
    forall v | 0 <= v < 10
      ensures v in keys
    {
      HasKey(slots, v);
      var s :| s in slots && SlotKey(s) == v;
      var i :| 0 <= i < 10 && sorted[i] == s;
      assert keys[i] == v;
    }
    RisingCover(keys, 0);
    forall k | 0 <= k < 10
      ensures sorted[k].side == (if k < 5 then Dire else Radiant) && sorted[k].position == k % 5 + 1
    {
      assert sorted[k] in slots;
      PositionsInRange(slots, sorted[k]);
      assert keys[k] == k;
    }
  }

  // ---- The whole draft -----------------------------------------------------------------------

  datatype Resolution = Resolution(slots: seq<Slot>, cutoff: int)

  function SidePicks(picks: seq<Pick>, side: Side): seq<Pick> {
    if picks == [] then []
    else
      var before, p := SidePicks(picks[..|picks| - 1], side), picks[|picks| - 1];
      if p.side == side then before + [p] else before
  }

  function AccountIds(picks: seq<Pick>): seq<int> {
    if picks == [] then []
    else
      var before, p := AccountIds(picks[..|picks| - 1]), picks[|picks| - 1];
      if p.account.Some? then before + [p.account.value] else before
  }

  function Values(s: seq<int>): set<int> {
    set i | 0 <= i < |s| :: s[i]
  }

  function EvidenceMap(rows: seq<Row>, accounts: set<int>, observedAt: int): (evidence: map<int, seq<Row>>)
    ensures AllPositionsOk(evidence)
  {
    EvidenceMapOk(rows, accounts, observedAt);
    map x | x in accounts :: EvidenceOf(rows, x, observedAt)
  }

  lemma EvidenceMapOk(rows: seq<Row>, accounts: set<int>, observedAt: int)
    ensures AllPositionsOk(map x | x in accounts :: EvidenceOf(rows, x, observedAt))
  {
    forall x | x in accounts
      ensures PositionsOk(EvidenceOf(rows, x, observedAt))
    {
      EvidenceIsOk(rows, x, observedAt);
    }
  }

  function Combine(radiant: Option<SideResult>, dire: Option<SideResult>): Option<Resolution> {
    if radiant.None? || dire.None? then None
    else
      var slots := radiant.value.slots + dire.value.slots;
      if IsComplete(slots) then Some(Resolution(SortSlots(slots), Max(radiant.value.cutoff, dire.value.cutoff))) else None
  }

  function ResolveHistorical(picks: seq<Pick>, rows: seq<Row>, observedAt: int): Option<Resolution> {
    var ids := AccountIds(picks);
    if |ids| != 10 || |Values(ids)| != 10 then None
    else
      var evidence := EvidenceMap(rows, Values(ids), observedAt);
      Combine(ResolveSide(SidePicks(picks, Radiant), evidence), ResolveSide(SidePicks(picks, Dire), evidence))
  }

  method ResolveFromHistory(picks: seq<Pick>, rows: seq<Row>, observedAt: int) returns (r: Option<Resolution>)
    ensures r == ResolveHistorical(picks, rows, observedAt)
  {
    var ids := AccountIds(picks);
    if |ids| != 10 || |Values(ids)| != 10 {
      return None;
    }
    var evidence := CollectEvidence(rows, Values(ids), observedAt);
    EvidenceMapOk(rows, Values(ids), observedAt);
    var radiant := ResolveSideFromHistory(SidePicks(picks, Radiant), evidence);
    if radiant.None? {
      return None;
    }
    var dire := ResolveSideFromHistory(SidePicks(picks, Dire), evidence);
    if dire.None? {
      return None;
    }
    return Combine(radiant, dire);
  }

  // ---- What the answer guarantees ------------------------------------------------------------

  lemma {:induction false} PicksOfSide(picks: seq<Pick>, side: Side)
    ensures forall p :: p in SidePicks(picks, side) <==> p in picks && p.side == side
  {
    if picks != [] {
      PicksOfSide(picks[..|picks| - 1], side);
      assert picks == picks[..|picks| - 1] + [picks[|picks| - 1]];
    }
  }

  lemma {:induction false} OfSideConcat(a: seq<Slot>, b: seq<Slot>, side: Side)
    ensures OfSide(a + b, side) == OfSide(a, side) + OfSide(b, side)
  {
    if b == [] {
      assert a + b == a;
    } else {
      assert (a + b)[..|a + b| - 1] == a + b[..|b| - 1];
      OfSideConcat(a, b[..|b| - 1], side);
    }
  }

  lemma {:induction false} AllOfSide(slots: seq<Slot>, side: Side, other: Side)
    requires forall i :: 0 <= i < |slots| ==> slots[i].side == side
    ensures OfSide(slots, other) == if other == side then slots else []
  {
    if slots != [] {
      AllOfSide(slots[..|slots| - 1], side, other);
      assert slots == slots[..|slots| - 1] + [slots[|slots| - 1]];
    }
  }

  /** The slots of one resolved side: all of that side, on the positions 1 to 5. */
  ghost predicate SideSlots(slots: seq<Slot>, side: Side) {
    && |slots| == 5 && PositionSet(slots) == {1, 2, 3, 4, 5}
    && forall i :: 0 <= i < 5 ==> slots[i].side == side
  }

  lemma SlotsOfSide(own: seq<Pick>, slots: seq<Slot>, a: seq<int>, evidence: map<int, seq<Row>>, shares: Shares, margin: real, side: Side)
    requires |own| == 5 && Identified(own) && |a| == 5 && slots == SlotsFor(own, a, evidence, shares, margin)
    requires forall p :: p in own ==> p.side == side
    requires forall p :: 1 <= p <= 5 ==> p in a
    requires forall i :: 0 <= i < 5 ==> 1 <= a[i] <= 5
    ensures SideSlots(slots, side)
  {
    forall i | 0 <= i < 5
      ensures slots[i].side == side
    {
      assert own[i] in own;
    }
    forall p | 1 <= p <= 5
      ensures p in PositionSet(slots)
    {
      assert p in a;
      var i :| 0 <= i < 5 && a[i] == p;
      assert slots[i].position == p;
    }
    forall p | p in PositionSet(slots)
      ensures p in {1, 2, 3, 4, 5}
    {
      var i :| 0 <= i < 5 && slots[i].position == p;
      assert a[i] == p;
    }
  }

  lemma ResolvedSideSlots(picks: seq<Pick>, evidence: map<int, seq<Row>>, side: Side)
    requires AllPositionsOk(evidence) && ResolveSide(SidePicks(picks, side), evidence).Some?
    ensures SideSlots(ResolveSide(SidePicks(picks, side), evidence).value.slots, side)
  {
    var own := SidePicks(picks, side);
    SideParts(own, evidence);
    var accounts := AccountsOf(own);
    var shares := SharesOf(accounts, evidence);
    var c := Search(accounts, shares).value;
    PicksOfSide(picks, side);
    DominantCovers(accounts, shares, c.assignment);
    SlotsOfSide(own, ResolveSide(own, evidence).value.slots, c.assignment, evidence, shares, c.margin, side);
  }

  lemma BothSidesComplete(radiant: seq<Slot>, dire: seq<Slot>)
    requires SideSlots(radiant, Radiant) && SideSlots(dire, Dire)
    ensures IsComplete(radiant + dire)
  {
    OfSideConcat(radiant, dire, Radiant);
    OfSideConcat(radiant, dire, Dire);
    AllOfSide(radiant, Radiant, Radiant);
    AllOfSide(radiant, Radiant, Dire);
    AllOfSide(dire, Dire, Radiant);
    AllOfSide(dire, Dire, Dire);
    assert radiant + [] == radiant && [] + dire == dire;
  }

  lemma AllUsable(xs: seq<int>, rows: seq<Row>, accounts: set<int>, observedAt: int)
    ensures UsableBy(xs, EvidenceMap(rows, accounts, observedAt), observedAt)
  {
    var evidence := EvidenceMap(rows, accounts, observedAt);
    forall x | x in xs
      ensures RowsBy(RowsFor(evidence, x), observedAt)
    {
      EvidenceIsOk(rows, x, observedAt);
    }
  }

  lemma CutoffNotLater(xs: seq<int>, evidence: map<int, seq<Row>>, at: int)
    requires xs != [] && EnoughHistory(xs, evidence) && UsableBy(xs, evidence, at)
    ensures Cutoff(xs, evidence) <= at
  {
    assert xs[..|xs|] == xs;
    CutoffIsLeast(xs, evidence, |xs|, at);
  }

  lemma SideCutoff(picks: seq<Pick>, rows: seq<Row>, accounts: set<int>, observedAt: int)
    requires ResolveSide(picks, EvidenceMap(rows, accounts, observedAt)).Some?
    ensures ResolveSide(picks, EvidenceMap(rows, accounts, observedAt)).value.cutoff <= observedAt
  {
    var evidence := EvidenceMap(rows, accounts, observedAt);
    SideParts(picks, evidence);
    AllUsable(AccountsOf(picks), rows, accounts, observedAt);
    CutoffNotLater(AccountsOf(picks), evidence, observedAt);
  }

  lemma CombineIsSound(radiant: Option<SideResult>, dire: Option<SideResult>, at: int)
    requires radiant.Some? ==> SideSlots(radiant.value.slots, Radiant) && radiant.value.cutoff <= at
    requires dire.Some? ==> SideSlots(dire.value.slots, Dire) && dire.value.cutoff <= at
    ensures Combine(radiant, dire).Some? <==> radiant.Some? && dire.Some?
    ensures Combine(radiant, dire).Some? ==>
              && LaidOut(Combine(radiant, dire).value.slots) && Combine(radiant, dire).value.cutoff <= at
              && IsComplete(radiant.value.slots + dire.value.slots)
  {
    if radiant.Some? && dire.Some? {
      BothSidesComplete(radiant.value.slots, dire.value.slots);
      CompleteIsLaidOut(radiant.value.slots + dire.value.slots);
    }
  }

  lemma SideIsSound(picks: seq<Pick>, rows: seq<Row>, accounts: set<int>, observedAt: int, side: Side)
    ensures var r := ResolveSide(SidePicks(picks, side), EvidenceMap(rows, accounts, observedAt));
            r.Some? ==> SideSlots(r.value.slots, side) && r.value.cutoff <= observedAt
  {
    var evidence := EvidenceMap(rows, accounts, observedAt);
    if ResolveSide(SidePicks(picks, side), evidence).Some? {
      ResolvedSideSlots(picks, evidence, side);
      SideCutoff(SidePicks(picks, side), rows, accounts, observedAt);
    }
  }

  /**
   Two resolved sides always make a complete draft, so validation never turns an answer down; the draft has
   one slot per side and position in order, and its evidence was usable when observed.
   */
  lemma HistoricalIsSound(picks: seq<Pick>, rows: seq<Row>, observedAt: int)
    ensures var ids := AccountIds(picks);
            var evidence := EvidenceMap(rows, Values(ids), observedAt);
            ResolveHistorical(picks, rows, observedAt).Some? <==>
              && |ids| == 10 && |Values(ids)| == 10
              && ResolveSide(SidePicks(picks, Radiant), evidence).Some? && ResolveSide(SidePicks(picks, Dire), evidence).Some?
    ensures var r := ResolveHistorical(picks, rows, observedAt);
            r.Some? ==> LaidOut(r.value.slots) && r.value.cutoff <= observedAt
  {
    var ids := AccountIds(picks);
    var evidence := EvidenceMap(rows, Values(ids), observedAt);
    SideIsSound(picks, rows, Values(ids), observedAt, Radiant);
    SideIsSound(picks, rows, Values(ids), observedAt, Dire);
    CombineIsSound(ResolveSide(SidePicks(picks, Radiant), evidence), ResolveSide(SidePicks(picks, Dire), evidence), observedAt);
  }

  /** The cutoff of a draft is the later one of its sides. */
  lemma HistoricalCutoffIs(picks: seq<Pick>, rows: seq<Row>, observedAt: int)
    requires ResolveHistorical(picks, rows, observedAt).Some?
    ensures var evidence := EvidenceMap(rows, Values(AccountIds(picks)), observedAt);
            var r, d := ResolveSide(SidePicks(picks, Radiant), evidence), ResolveSide(SidePicks(picks, Dire), evidence);
            var c := ResolveHistorical(picks, rows, observedAt).value.cutoff;
            r.Some? && d.Some? && r.value.cutoff <= c && d.value.cutoff <= c && (c == r.value.cutoff || c == d.value.cutoff)
  {
  }

  // ---- Independence of the order of picks ------------------------------------------------------

  lemma {:induction false} LengthsAreCounts(picks: seq<Pick>, side: Side)
    ensures |SidePicks(picks, side)| == SumBy((p: Pick) => if p.side == side then 1 else 0, picks)
    ensures |AccountIds(picks)| == SumBy((p: Pick) => if p.account.Some? then 1 else 0, picks)
    ensures forall x :: x in AccountIds(picks) <==> exists p :: p in picks && p.account == Some(x)
  {
    if picks != [] {
      var init, last := picks[..|picks| - 1], picks[|picks| - 1];
      LengthsAreCounts(init, side);
      assert picks == init + [last];
    }
  }

  lemma {:induction false} AsManyValues(s: seq<int>)
    ensures |Values(s)| <= |s|
    ensures |Values(s)| == |s| ==> Distinct(s)
  {
    if s != [] {
      var init, last := s[..|s| - 1], s[|s| - 1];
      AsManyValues(init);
      assert s == init + [last];
      assert Values(s) == Values(init) + {last};
      if last in Values(init) {
        assert Values(s) == Values(init);
      } else {
        assert last !in init;
      }
    }
  }

  lemma {:induction false} AccountListed(picks: seq<Pick>, p: Pick)
    requires p in picks && p.account.Some?
    ensures p.account.value in AccountIds(picks)
  {
    var init, last := picks[..|picks| - 1], picks[|picks| - 1];
    assert picks == init + [last];
    if p in init {
      AccountListed(init, p);
    }
  }

  lemma {:induction false} SideAccountsDistinct(picks: seq<Pick>, side: Side)
    requires Distinct(AccountIds(picks))
    ensures var own := SidePicks(picks, side);
            forall i, j :: 0 <= i < j < |own| && own[i].account.Some? ==> own[i].account != own[j].account
  {
    if picks != [] {
      var init, last := picks[..|picks| - 1], picks[|picks| - 1];
      var ids, earlier := AccountIds(picks), AccountIds(init);
      assert forall i :: 0 <= i < |earlier| ==> earlier[i] == ids[i];
      SideAccountsDistinct(init, side);
      LengthsAreCounts(init, side);
      PicksOfSide(init, side);
      var before := SidePicks(init, side);
      if last.account.Some? {
        assert ids[|earlier|] == last.account.value;
        assert last.account.value !in earlier;
      }
      forall i | 0 <= i < |before| && before[i].account.Some?
        ensures before[i].account != last.account
      {
        assert before[i] in init && before[i].account == Some(before[i].account.value);
        AccountListed(init, before[i]);
      }
    }
  }

  lemma SidesSamePicks(ps: seq<Pick>, qs: seq<Pick>, side: Side)
    requires multiset(ps) == multiset(qs) && Distinct(AccountIds(ps)) && Distinct(AccountIds(qs))
    ensures SamePicks(SidePicks(ps, side), SidePicks(qs, side))
  {
    LengthsAreCounts(ps, side);
    LengthsAreCounts(qs, side);
    SumsIgnoreOrder((p: Pick) => if p.side == side then 1 else 0, (p: Pick) => 0.0, ps, qs);
    PicksOfSide(ps, side);
    PicksOfSide(qs, side);
    assert forall p :: p in ps <==> p in multiset(ps);
    assert forall p :: p in qs <==> p in multiset(qs);
    SideAccountsDistinct(ps, side);
    SideAccountsDistinct(qs, side);
  }

  lemma SameIds(ps: seq<Pick>, qs: seq<Pick>)
    requires multiset(ps) == multiset(qs)
    ensures |AccountIds(ps)| == |AccountIds(qs)| && Values(AccountIds(ps)) == Values(AccountIds(qs))
  {
    LengthsAreCounts(ps, Dire);
    LengthsAreCounts(qs, Dire);
    SumsIgnoreOrder((p: Pick) => if p.account.Some? then 1 else 0, (p: Pick) => 0.0, ps, qs);
    assert forall p :: p in ps <==> p in multiset(ps);
    assert forall p :: p in qs <==> p in multiset(qs);
    forall x
      ensures x in Values(AccountIds(ps)) <==> x in Values(AccountIds(qs))
    {
      assert x in Values(AccountIds(ps)) <==> x in AccountIds(ps);
      assert x in Values(AccountIds(qs)) <==> x in AccountIds(qs);
    }
  }

  lemma LaidOutOnce(a: seq<Slot>, b: seq<Slot>)
    requires LaidOut(a) && LaidOut(b) && forall s :: s in a ==> s in b
    ensures a == b
  {
    forall k | 0 <= k < 10
      ensures a[k] == b[k]
    {
      assert a[k] in b;
      var i :| 0 <= i < 10 && b[i] == a[k];
    }
  }

  lemma SortedAlike(r: SideResult, d: SideResult, r': SideResult, d': SideResult)
    requires IsComplete(r.slots + d.slots) && IsComplete(r'.slots + d'.slots)
    requires (forall s :: s in r.slots <==> s in r'.slots) && (forall s :: s in d.slots <==> s in d'.slots)
    ensures SortSlots(r.slots + d.slots) == SortSlots(r'.slots + d'.slots)
  {
    CompleteIsLaidOut(r.slots + d.slots);
    CompleteIsLaidOut(r'.slots + d'.slots);
    SortSlotsSorts(r.slots + d.slots);
    SortSlotsSorts(r'.slots + d'.slots);
    LaidOutOnce(SortSlots(r.slots + d.slots), SortSlots(r'.slots + d'.slots));
  }

  /** The resolution of a draft is the same for every ordering of its picks. */
  lemma HistoricalIgnoresOrder(ps: seq<Pick>, qs: seq<Pick>, rows: seq<Row>, observedAt: int)
    requires multiset(ps) == multiset(qs)
    ensures ResolveHistorical(ps, rows, observedAt) == ResolveHistorical(qs, rows, observedAt)
  {
    SameIds(ps, qs);
    var ids := AccountIds(ps);
    if |ids| == 10 && |Values(ids)| == 10 {
      AsManyValues(ids);
      AsManyValues(AccountIds(qs));
      SidesSamePicks(ps, qs, Radiant);
      SidesSamePicks(ps, qs, Dire);
      var evidence := EvidenceMap(rows, Values(ids), observedAt);
      SideIgnoresOrder(SidePicks(ps, Radiant), SidePicks(qs, Radiant), evidence);
      SideIgnoresOrder(SidePicks(ps, Dire), SidePicks(qs, Dire), evidence);
      HistoricalIsSound(ps, rows, observedAt);
      HistoricalIsSound(qs, rows, observedAt);
      var r, d := ResolveSide(SidePicks(ps, Radiant), evidence), ResolveSide(SidePicks(ps, Dire), evidence);
      var r', d' := ResolveSide(SidePicks(qs, Radiant), evidence), ResolveSide(SidePicks(qs, Dire), evidence);
      if r.Some? && d.Some? {
        SortedAlike(r.value, d.value, r'.value, d'.value);
      }
    }
  }
}
