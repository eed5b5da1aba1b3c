/** The equity curve replayed from the journal, grouped by the time each entry occurred. */
module EquityCurve {
  import opened Common
  import opened Money
  import opened Portfolio
  import opened PortfolioLaws

  datatype PointType = Single(kind: EntryType) | SettlementBatch

  datatype Point = Point(occurredAt: int, kind: PointType, equity: int, cash: int, locked: int, realized: int)

  // ---- Sums over the entries a condition selects ---------------------------------------

  function Where<T>(f: T -> int, p: T -> bool): T -> int {
    (x: T) => if p(x) then f(x) else 0
  }

  function Select<T>(p: T -> bool, s: seq<T>): seq<T> {
    if s == [] then []
    else Select(p, s[..|s| - 1]) + if p(s[|s| - 1]) then [s[|s| - 1]] else []
  }

  function At(t: int): Entry -> bool { (e: Entry) => e.occurredAt == t }
  function UpTo(t: int): Entry -> bool { (e: Entry) => e.occurredAt <= t }
  function During(ts: set<int>): Entry -> bool { (e: Entry) => e.occurredAt in ts }

  lemma {:induction false} SelectSum<T>(f: T -> int, p: T -> bool, s: seq<T>)
    ensures SumBy(f, Select(p, s)) == SumBy(Where(f, p), s)
  {
    if s != [] {
      SelectSum(f, p, s[..|s| - 1]);
      SumConcat(f, Select(p, s[..|s| - 1]), if p(s[|s| - 1]) then [s[|s| - 1]] else []);
      SumSnoc(f, [], s[|s| - 1]);
      assert [] + [s[|s| - 1]] == [s[|s| - 1]];
    }
  }

  lemma {:induction false} SelectMembers<T>(p: T -> bool, s: seq<T>)
    ensures forall x :: x in Select(p, s) <==> x in s && p(x)
  {
    if s != [] {
      SelectMembers(p, s[..|s| - 1]);
      assert s == s[..|s| - 1] + [s[|s| - 1]];
    }
  }

  /** If `f` is `g` plus `h` on every element, the sums add up the same way. */
  lemma {:induction false} SumSplit<T>(f: T -> int, g: T -> int, h: T -> int, s: seq<T>)
    requires forall i :: 0 <= i < |s| ==> f(s[i]) == g(s[i]) + h(s[i])
    ensures SumBy(f, s) == SumBy(g, s) + SumBy(h, s)
  {
    if s != [] {
      SumSplit(f, g, h, s[..|s| - 1]);
    }
  }

  lemma {:induction false} SumSame<T>(f: T -> int, g: T -> int, s: seq<T>)
    requires forall i :: 0 <= i < |s| ==> f(s[i]) == g(s[i])
    ensures SumBy(f, s) == SumBy(g, s)
  {
    if s != [] {
      SumSame(f, g, s[..|s| - 1]);
    }
  }

  // ---- What the curve is ---------------------------------------------------------------

  function Visible(e: Entry): bool {
    e.kind != BetPlaced
  }

  predicate VisibleAt(l: seq<Entry>, t: int) {
    exists i :: 0 <= i < |l| && l[i].occurredAt == t && Visible(l[i])
  }

  /** One type if all visible entries of the moment share it, a batch otherwise. */
  ghost predicate TypeAt(l: seq<Entry>, t: int, kind: PointType) {
    match kind
    case Single(k) => forall e :: e in l && e.occurredAt == t && Visible(e) ==> e.kind == k
    case SettlementBatch =>
      exists e, e' :: e in l && e' in l && e.occurredAt == e'.occurredAt == t && Visible(e) && Visible(e') && e.kind != e'.kind
  }

  ghost predicate IsPoint(p: Point, l: seq<Entry>) {
    && VisibleAt(l, p.occurredAt)
    && TypeAt(l, p.occurredAt, p.kind)
    && p.cash == SumBy(Where(CashDelta, UpTo(p.occurredAt)), l)
    && p.locked == SumBy(Where(LockedDelta, UpTo(p.occurredAt)), l)
    && p.equity == p.cash + p.locked
    && p.realized == SumBy(Where(PnlDelta, At(p.occurredAt)), l)
  }

  /** One point per moment with a visible entry, in time order, each with the totals up to that moment. */
  ghost predicate IsCurve(curve: seq<Point>, l: seq<Entry>) {
    && (forall i, j :: 0 <= i < j < |curve| ==> curve[i].occurredAt < curve[j].occurredAt)
    && (forall i :: 0 <= i < |curve| ==> IsPoint(curve[i], l))
    && (forall t :: VisibleAt(l, t) ==> OnCurve(curve, t))
  }

  // ---- The replay ----------------------------------------------------------------------

  predicate Occurs(entries: seq<Entry>, t: int) {
    exists i :: 0 <= i < |entries| && entries[i].occurredAt == t
  }

  lemma OccursSnoc(entries: seq<Entry>, e: Entry)
    ensures forall t :: Occurs(entries + [e], t) <==> Occurs(entries, t) || t == e.occurredAt
  {
    var all := entries + [e];
    assert all[|entries|] == e;
    forall t | Occurs(entries, t)
      ensures Occurs(all, t)
    {
      var i :| 0 <= i < |entries| && entries[i].occurredAt == t;
      assert all[i].occurredAt == t;
    }
  }

  /** The journal by moments, each group in the order of its rows. */
  ghost predicate GroupedAt(grouped: map<int, seq<Entry>>, entries: seq<Entry>, t: int) {
    && (t in grouped <==> Occurs(entries, t))
    && Select(At(t), entries) == if t in grouped then grouped[t] else []
  }

  lemma SelectSnoc(t: int, entries: seq<Entry>, e: Entry)
    ensures Select(At(t), entries + [e])
            == if e.occurredAt == t then Select(At(t), entries) + [e] else Select(At(t), entries)
  {
    assert (entries + [e])[..|entries|] == entries;
  }

  ghost predicate IsGrouping(grouped: map<int, seq<Entry>>, entries: seq<Entry>) {
    forall t :: GroupedAt(grouped, entries, t)
  }

  lemma GroupedSnoc(grouped: map<int, seq<Entry>>, entries: seq<Entry>, e: Entry, batch: seq<Entry>)
    requires IsGrouping(grouped, entries)
    requires batch == if e.occurredAt in grouped then grouped[e.occurredAt] else []
    ensures IsGrouping(grouped[e.occurredAt := batch + [e]], entries + [e])
  {
    OccursSnoc(entries, e);
    var grouped', entries' := grouped[e.occurredAt := batch + [e]], entries + [e];
    forall t
      ensures GroupedAt(grouped', entries', t)
    {
      assert GroupedAt(grouped, entries, t);
      SelectSnoc(t, entries, e);
    }
  }

  lemma GroupingIs(grouped: map<int, seq<Entry>>, entries: seq<Entry>)
    requires IsGrouping(grouped, entries)
    ensures forall t :: t in grouped <==> Occurs(entries, t)
    ensures forall t :: t in grouped ==> grouped[t] == Select(At(t), entries)
  {
    forall t
      ensures t in grouped <==> Occurs(entries, t)
      ensures t in grouped ==> grouped[t] == Select(At(t), entries)
    {
      assert GroupedAt(grouped, entries, t);
    }
  }

  method Group(entries: seq<Entry>) returns (grouped: map<int, seq<Entry>>)
    ensures forall t :: t in grouped <==> Occurs(entries, t)
    ensures forall t :: t in grouped ==> grouped[t] == Select(At(t), entries)
  {
    grouped := map[];
    for i := 0 to |entries|
      invariant IsGrouping(grouped, entries[..i])
    {
      var e := entries[i];
      assert entries[..i + 1] == entries[..i] + [e];
      var batch := if e.occurredAt in grouped then grouped[e.occurredAt] else [];
      GroupedSnoc(grouped, entries[..i], e, batch);
      grouped := grouped[e.occurredAt := batch + [e]];
    }
    assert entries[..|entries|] == entries;
    GroupingIs(grouped, entries);
  }

  method LeastOf(ts: set<int>) returns (t: int)
    requires ts != {}
    ensures t in ts && forall x :: x in ts ==> t <= x
  {
    HasMember(ts);
    t :| t in ts;
    var rest := ts - {t};
    while rest != {}
      invariant rest < ts && t in ts
      invariant forall x :: x in ts && x !in rest ==> t <= x
      decreases rest
    {
      HasMember(rest);
      var x :| x in rest;
      if x < t {
        t := x;
      }
      rest := rest - {x};
    }
  }

  /** The type shown for one group, if anything in it is shown. */
  method ShownType(batch: seq<Entry>) returns (kind: Option<PointType>)
    ensures kind.None? <==> forall e :: e in batch ==> !Visible(e)
    ensures kind.Some? && kind.value.Single? ==> forall e :: e in batch && Visible(e) ==> e.kind == kind.value.kind
    ensures kind.Some? && kind.value.SettlementBatch? ==>
              exists e, e' :: e in batch && e' in batch && Visible(e) && Visible(e') && e.kind != e'.kind
  {
    kind := None;
    ghost var first := 0;
    for i := 0 to |batch|
      invariant kind.None? <==> forall e :: e in batch[..i] ==> !Visible(e)
      invariant kind.Some? ==> 0 <= first < i && Visible(batch[first])
      invariant kind.Some? && kind.value.Single? ==>
                  batch[first].kind == kind.value.kind && forall e :: e in batch[..i] && Visible(e) ==> e.kind == kind.value.kind
      invariant kind.Some? && kind.value.SettlementBatch? ==>
                  exists e, e' :: e in batch && e' in batch && Visible(e) && Visible(e') && e.kind != e'.kind
    {
      assert batch[..i + 1] == batch[..i] + [batch[i]];
      if Visible(batch[i]) {
        if kind.None? {
          kind := Some(Single(batch[i].kind));
          first := i;
        } else if kind.value.Single? && kind.value.kind != batch[i].kind {
          assert batch[first] in batch && batch[i] in batch;
          kind := Some(SettlementBatch);
        }
      }
    }
    assert batch[..|batch|] == batch;
  }

  /** Adding the group at `t` to everything earlier gives everything up to `t`. */
  lemma GroupCompletes(f: Entry -> int, l: seq<Entry>, done: set<int>, t: int)
    requires t !in done && forall i :: 0 <= i < |l| ==> (l[i].occurredAt in done <==> l[i].occurredAt < t)
    ensures SumBy(Where(f, UpTo(t)), l) == SumBy(Where(f, During(done)), l) + SumBy(f, Select(At(t), l))
    ensures SumBy(Where(f, During(done + {t})), l) == SumBy(Where(f, UpTo(t)), l)
  {
    SelectSum(f, At(t), l);
    SumSplit(Where(f, UpTo(t)), Where(f, During(done)), Where(f, At(t)), l);
    SumSame(Where(f, During(done + {t})), Where(f, UpTo(t)), l);
  }

  lemma {:induction false} NothingDuringNothing(f: Entry -> int, l: seq<Entry>)
    ensures SumBy(Where(f, During({})), l) == 0
  {
    if l != [] {
      NothingDuringNothing(f, l[..|l| - 1]);
    }
  }

  lemma ShownIsVisible(l: seq<Entry>, t: int, batch: seq<Entry>)
    requires batch == Select(At(t), l)
    ensures VisibleAt(l, t) <==> exists e :: e in batch && Visible(e)
  {
    SelectMembers(At(t), l);
    if VisibleAt(l, t) {
      var i :| 0 <= i < |l| && l[i].occurredAt == t && Visible(l[i]);
      assert l[i] in batch;
    }
  }

  /** The curve as far as the moments in `done`. */
  ghost predicate Covers(curve: seq<Point>, l: seq<Entry>, done: set<int>) {
    && (forall i :: 0 <= i < |curve| ==> curve[i].occurredAt in done && IsPoint(curve[i], l))
    && (forall i, j :: 0 <= i < j < |curve| ==> curve[i].occurredAt < curve[j].occurredAt)
    && (forall t :: t in done && VisibleAt(l, t) ==> OnCurve(curve, t))
  }

  ghost predicate OnCurve(curve: seq<Point>, t: int) {
    exists i :: 0 <= i < |curve| && curve[i].occurredAt == t
  }

  lemma CoversHidden(curve: seq<Point>, l: seq<Entry>, done: set<int>, t: int)
    requires Covers(curve, l, done) && !VisibleAt(l, t)
    ensures Covers(curve, l, done + {t})
  {
  }

  lemma CoversPoint(curve: seq<Point>, l: seq<Entry>, done: set<int>, p: Point)
    requires Covers(curve, l, done) && IsPoint(p, l) && forall x :: x in done ==> x < p.occurredAt
    ensures Covers(curve + [p], l, done + {p.occurredAt})
  {
    var curve' := curve + [p];
    assert curve'[|curve|] == p;
    forall t | t in done && VisibleAt(l, t)
      ensures OnCurve(curve', t)
    {
      var i :| 0 <= i < |curve| && curve[i].occurredAt == t;
      assert curve'[i].occurredAt == t;
    }
  }

  /** The shown type of a group is the type of its moment, and a group without one is hidden. */
  lemma TypeOfGroup(l: seq<Entry>, t: int, batch: seq<Entry>, kind: Option<PointType>)
    requires batch == Select(At(t), l)
    requires kind.None? <==> forall e :: e in batch ==> !Visible(e)
    requires kind.Some? && kind.value.Single? ==> forall e :: e in batch && Visible(e) ==> e.kind == kind.value.kind
    requires kind.Some? && kind.value.SettlementBatch? ==>
               exists e, e' :: e in batch && e' in batch && Visible(e) && Visible(e') && e.kind != e'.kind
    ensures VisibleAt(l, t) <==> kind.Some?
    ensures kind.Some? ==> TypeAt(l, t, kind.value)
  {
    SelectMembers(At(t), l);
    ShownIsVisible(l, t, batch);
  }

  /** The moments gone through are exactly those of entries before `t`. */
  ghost predicate DoneBefore(l: seq<Entry>, done: set<int>, t: int) {
    forall i :: 0 <= i < |l| ==> (l[i].occurredAt in done <==> l[i].occurredAt < t)
  }

  lemma AllCovered(l: seq<Entry>, curve: seq<Point>, done: set<int>)
    requires Covers(curve, l, done) && forall t :: Occurs(l, t) ==> t in done
    ensures IsCurve(curve, l)
  {
    forall t | VisibleAt(l, t)
      ensures OnCurve(curve, t)
    {
      var i :| 0 <= i < |l| && l[i].occurredAt == t && Visible(l[i]);
      assert Occurs(l, t);
    }
  }

  /** One group of the replay: totals move on, and a point is added if anything in the group is shown. */
  method Advance(
    ghost l: seq<Entry>, ghost done: set<int>, curve: seq<Point>, cash: int, locked: int, t: int, batch: seq<Entry>)
    returns (curve': seq<Point>, cash': int, locked': int)
    requires batch == Select(At(t), l) && Covers(curve, l, done)
    requires DoneBefore(l, done, t)
    requires t !in done && forall x :: x in done ==> x < t
    requires Totals(l, done, cash, locked)
    ensures Covers(curve', l, done + {t}) && Totals(l, done + {t}, cash', locked')
  {
    GroupCompletes(CashDelta, l, done, t);
    GroupCompletes(LockedDelta, l, done, t);
    SelectSum(PnlDelta, At(t), l);
    cash' := cash + SumBy(CashDelta, batch);
    locked' := locked + SumBy(LockedDelta, batch);
    var realized := SumBy(PnlDelta, batch);
    var kind := ShownType(batch);
    TypeOfGroup(l, t, batch, kind);
    curve' := curve;
    if kind.Some? {
      var point := Point(t, kind.value, cash' + locked', cash', locked', realized);
      CoversPoint(curve, l, done, point);
      curve' := curve + [point];
    } else {
      CoversHidden(curve, l, done, t);
    }
  }

  /** The moments gone through and those left: all of the journal's, the former before the latter. */
  ghost predicate Cut(l: seq<Entry>, done: set<int>, left: set<int>) {
    && (forall t :: Occurs(l, t) <==> t in done || t in left)
    && (forall x, y :: x in done && y in left ==> x < y)
  }

  ghost predicate Totals(l: seq<Entry>, done: set<int>, cash: int, locked: int) {
    cash == SumBy(Where(CashDelta, During(done)), l) && locked == SumBy(Where(LockedDelta, During(done)), l)
  }

  /** Taking the least moment left keeps the cut. */
  lemma CutMoves(l: seq<Entry>, done: set<int>, left: set<int>, t: int)
    requires Cut(l, done, left) && t in left && forall y :: y in left ==> t <= y
    ensures DoneBefore(l, done, t) && t !in done && (forall x :: x in done ==> x < t)
    ensures Cut(l, done + {t}, left - {t})
  {
    assert forall i :: 0 <= i < |l| ==> Occurs(l, l[i].occurredAt);
  }

  lemma TotalsAtStart(l: seq<Entry>)
    ensures Totals(l, {}, 0, 0)
  {
    NothingDuringNothing(CashDelta, l);
    NothingDuringNothing(LockedDelta, l);
  }

  /** Replays the journal of one account; the order of the rows it is given does not matter. */
  method Replay(entries: seq<Entry>) returns (curve: seq<Point>)
    ensures IsCurve(curve, entries)
  {
    var grouped := Group(entries);
    var cash, locked := 0, 0;
    curve := [];
    var left := grouped.Keys;
    ghost var done: set<int> := {};
    TotalsAtStart(entries);
    while left != {}
      invariant Cut(entries, done, left) && left <= grouped.Keys
      invariant Totals(entries, done, cash, locked)
      invariant Covers(curve, entries, done)
      decreases left
    {
      var t := LeastOf(left);
      CutMoves(entries, done, left, t);
      curve, cash, locked := Advance(entries, done, curve, cash, locked, t, grouped[t]);
      left, done := left - {t}, done + {t};
    }
    AllCovered(entries, curve, done);
  }

  // ---- What the curve shows of a run's journal -----------------------------------------

  function EquityDelta(e: Entry): int {
    e.cashDelta + e.lockedDelta
  }

  function Funding(e: Entry): int {
    if e.kind == EventFunded then e.cashDelta else 0
  }

  /** A moment with placements only is hidden, and hides nothing: it never changes equity. */
  lemma HiddenMomentsAreFlat(l: seq<Entry>, t: int, initial: int)
    requires LedgerOk(l, initial) && !VisibleAt(l, t)
    ensures SumBy(Where(EquityDelta, At(t)), l) == 0
  {
    SumSame(Where(EquityDelta, At(t)), Where(EquityDelta, During({})), l);
    NothingDuringNothing(EquityDelta, l);
  }

  lemma EquityUpTo(l: seq<Entry>, t: int, initial: int)
    requires LedgerOk(l, initial)
    ensures SumBy(Where(CashDelta, UpTo(t)), l) + SumBy(Where(LockedDelta, UpTo(t)), l)
         == SumBy(Where(PnlDelta, UpTo(t)), l) + if l[0].occurredAt <= t then initial else 0
  {
    SumSplit(Where(EquityDelta, UpTo(t)), Where(CashDelta, UpTo(t)), Where(LockedDelta, UpTo(t)), l);
    SumSplit(Where(EquityDelta, UpTo(t)), Where(PnlDelta, UpTo(t)), Where(Funding, UpTo(t)), l);
    FundingUpTo(l, t, initial, |l|);
    assert l[..|l|] == l;
  }

  lemma {:induction false} FundingUpTo(l: seq<Entry>, t: int, initial: int, n: nat)
    requires LedgerOk(l, initial) && 1 <= n <= |l|
    ensures SumBy(Where(Funding, UpTo(t)), l[..n]) == if l[0].occurredAt <= t then initial else 0
  {
    assert l[..n][..n - 1] == l[..n - 1];
    if n > 1 {
      FundingUpTo(l, t, initial, n - 1);
    }
  }

  /** Between two neighbouring points only hidden moments lie, so realised profit moves at the later one only. */
  lemma RealizedBetween(curve: seq<Point>, l: seq<Entry>, i: nat, initial: int)
    requires LedgerOk(l, initial) && IsCurve(curve, l) && 0 < i < |curve|
    ensures SumBy(Where(PnlDelta, UpTo(curve[i].occurredAt)), l)
         == SumBy(Where(PnlDelta, UpTo(curve[i - 1].occurredAt)), l) + curve[i].realized
  {
    var t0, t1 := curve[i - 1].occurredAt, curve[i].occurredAt;
    forall j | 0 <= j < |l| && t0 < l[j].occurredAt < t1
      ensures PnlDelta(l[j]) == 0
    {
      assert !OnCurve(curve, l[j].occurredAt);
    }
    SumSplit(Where(PnlDelta, UpTo(t1)), Where(PnlDelta, UpTo(t0)), Where(PnlDelta, At(t1)), l);
  }

  /**
   Each later point's equity is the previous one plus its batch's realised profit, exactly when
   that batch is not the one carrying the funding entry (or nothing was funded).
   */
  lemma CurveStep(curve: seq<Point>, l: seq<Entry>, i: nat, initial: int)
    requires LedgerOk(l, initial) && IsCurve(curve, l) && 0 < i < |curve|
    ensures curve[i].equity == curve[i - 1].equity + curve[i].realized
                               + if curve[i].occurredAt == l[0].occurredAt then initial else 0
    ensures curve[i].equity == curve[i - 1].equity + curve[i].realized
       <==> curve[i].occurredAt != l[0].occurredAt || initial == 0
  {
    RealizedBetween(curve, l, i, initial);
    EquityUpTo(l, curve[i].occurredAt, initial);
    EquityUpTo(l, curve[i - 1].occurredAt, initial);
    assert VisibleAt(l, l[0].occurredAt);
    var m :| 0 <= m < |curve| && curve[m].occurredAt == l[0].occurredAt;
    assert m < i - 1 || m == i - 1 || m == i || m > i;
  }

  // ---- Which curves move by realised profit alone ------------------------------------------

  ghost predicate MovesByProfit(curve: seq<Point>) {
    forall i :: 0 < i < |curve| ==> ByProfitAt(curve, i)
  }

  predicate ByProfitAt(curve: seq<Point>, i: nat)
    requires 0 < i < |curve|
  {
    curve[i].equity == curve[i - 1].equity + curve[i].realized
  }

  /** No visible entry is dated before the funding entry. */
  predicate FundedFirst(l: seq<Entry>)
    requires l != []
  {
    forall i :: 0 <= i < |l| && Visible(l[i]) ==> l[0].occurredAt <= l[i].occurredAt
  }

  /** The whole curve moves by realised profit alone exactly when nothing visible precedes the funding. */
  lemma CurveMovesByProfit(curve: seq<Point>, l: seq<Entry>, initial: int)
    requires LedgerOk(l, initial) && IsCurve(curve, l)
    ensures MovesByProfit(curve) <==> FundedFirst(l) || initial == 0
  {
    assert VisibleAt(l, l[0].occurredAt);
    var m :| 0 <= m < |curve| && curve[m].occurredAt == l[0].occurredAt;
    forall i | 0 < i < |curve|
      ensures ByProfitAt(curve, i) <==> i != m || initial == 0
    {
      CurveStep(curve, l, i, initial);
      assert i < m || i == m || i > m;
    }
    FundedFirstIsFirstPoint(curve, l, m);
    assert m > 0 ==> (ByProfitAt(curve, m) <==> initial == 0);
  }

  lemma FundedFirstIsFirstPoint(curve: seq<Point>, l: seq<Entry>, m: nat)
    requires l != [] && IsCurve(curve, l) && m < |curve| && curve[m].occurredAt == l[0].occurredAt
    ensures FundedFirst(l) <==> m == 0
  {
    if m == 0 {
      forall i | 0 <= i < |l| && Visible(l[i])
        ensures l[0].occurredAt <= l[i].occurredAt
      {
        assert VisibleAt(l, l[i].occurredAt);
        var n :| 0 <= n < |curve| && curve[n].occurredAt == l[i].occurredAt;
      }
    } else {
      assert IsPoint(curve[0], l);
      var i :| 0 <= i < |l| && l[i].occurredAt == curve[0].occurredAt && Visible(l[i]);
      assert curve[0].occurredAt < curve[m].occurredAt;
    }
  }

  /** In every run, for every account: its curve moves by realised profit exactly if nothing was settled before the funding. */
  lemma RunMovesByProfit(calls: seq<Call>, k: AccountKey, initial: int, curve: seq<Point>)
    requires initial >= 0 && k in Run(calls, initial) && IsCurve(curve, Run(calls, initial)[k].ledger)
    ensures Run(calls, initial)[k].ledger != []
    ensures MovesByProfit(curve) <==> FundedFirst(Run(calls, initial)[k].ledger) || initial == 0
  {
    EveryRunBalances(calls, initial);
    assert DeskOk(k, Run(calls, initial)[k], initial);
    CurveMovesByProfit(curve, Run(calls, initial)[k].ledger, initial);
  }

  // ---- Settlements dated from a moment on --------------------------------------------------

  /** Every settlement the call may make is dated no earlier than `t`. */
  predicate DatedFrom(c: Call, t: int) {
    match c
    case RecordCall(r) => r.result.Some? ==> t <= r.result.value.settledAt
    case SettleCall(s) => t <= s.at
  }

  /** Beyond the funding entry, what the journal shows is dated no earlier than `t`. */
  predicate ShownFrom(l: seq<Entry>, t: int) {
    forall i :: 0 <= i < |l| && Visible(l[i]) && l[i].kind != EventFunded ==> t <= l[i].occurredAt
  }

  lemma {:induction false} ReleaseShownFrom(a: Account, ledger: seq<Entry>, ps: seq<Position>, s: Settlement, t: int)
    requires ShownFrom(ledger, t) && t <= s.at
    ensures ShownFrom(Release(a, ledger, ps, s).ledger, t)
  {
    if ps != [] {
      ReleaseShownFrom(a, ledger, ps[..|ps| - 1], s, t);
    }
  }

  ghost predicate BookShownFrom(b: Book, t: int) {
    forall k :: k in b ==> ShownFrom(b[k].ledger, t)
  }

  lemma SettleShownFrom(b: Book, s: Settlement, t: int)
    requires BookShownFrom(b, t) && t <= s.at
    ensures BookShownFrom(SettleBook(b, s), t)
  {
    forall k | k in b
      ensures ShownFrom(SettleBook(b, s)[k].ledger, t)
    {
      ReleaseShownFrom(b[k].account, b[k].ledger, b[k].positions, s, t);
    }
  }

  lemma PlaceShownFrom(b: Book, r: Request, initial: int, t: int)
    requires BookShownFrom(b, t)
    ensures BookShownFrom(Place(b, r, initial), t)
  {
    if Adds(b, r) {
      var b', k := Funded(b, r, initial), KeyOf(r);
      assert BookShownFrom(b', t);
      assert ShownFrom(PlaceOnDesk(b'[k], PositionFor(b'[k].account, r)).ledger, t);
    }
  }

  lemma {:induction false} RunShownFrom(calls: seq<Call>, initial: int, t: int)
    requires forall i :: 0 <= i < |calls| ==> DatedFrom(calls[i], t)
    ensures BookShownFrom(Run(calls, initial), t)
  {
    if calls != [] {
      var n := |calls| - 1;
      RunShownFrom(calls[..n], initial, t);
      var b := Run(calls[..n], initial);
      match calls[n]
      case SettleCall(s) => SettleShownFrom(b, s, t);
      case RecordCall(r) =>
        PlaceShownFrom(b, r, initial, t);
        if SettlesAtOnce(b, r, initial) {
          SettleShownFrom(Place(b, r, initial), StoredSettlement(r), t);
        }
    }
  }

  /** If every settlement of a run is dated no earlier than the account's funding, its curve moves by realised profit alone. */
  lemma LateSettlementsMoveByProfit(calls: seq<Call>, k: AccountKey, initial: int, curve: seq<Point>)
    requires initial >= 0 && k in Run(calls, initial) && Run(calls, initial)[k].ledger != []
    requires forall i :: 0 <= i < |calls| ==> DatedFrom(calls[i], Run(calls, initial)[k].ledger[0].occurredAt)
    requires IsCurve(curve, Run(calls, initial)[k].ledger)
    ensures MovesByProfit(curve)
  {
    var l := Run(calls, initial)[k].ledger;
    RunShownFrom(calls, initial, l[0].occurredAt);
    EveryRunBalances(calls, initial);
    assert DeskOk(k, Run(calls, initial)[k], initial);
    assert FundedFirst(l);
    RunMovesByProfit(calls, k, initial, curve);
  }

  // ---- A run whose curve does not ----------------------------------------------------------

  /** A decision made at 100 on a market that cannot be traded: it funds the account and is rejected. */
  function LaterDecision(x: Experiment, event: string): Request {
    Request(1, true, Buy(BuyA), Some(10.0), x, 100, Some(Scope(event, 1, Teams(1, 2))),
            Some(Snapshot(100, true, false, [])), None, None)
  }

  /** A decision made at 50, recorded after it, on a map whose result is settled at 80. */
  function EarlierDecision(x: Experiment, event: string): Request {
    Request(2, true, Buy(BuyA), Some(10.0), x, 50, Some(Scope(event, 2, Teams(1, 2))),
            Some(Snapshot(50, true, true, [Observation(Some(1), Some(2.0))])), None,
            Some(MapResult(Some(1), false, 70, 80)))
  }

  function SwappedRun(x: Experiment, event: string): seq<Call> {
    [RecordCall(LaterDecision(x, event)), RecordCall(EarlierDecision(x, event))]
  }

  lemma LaterDecisionFunds(x: Experiment, event: string, initial: int)
    ensures var b, k := Step(map[], RecordCall(LaterDecision(x, event)), initial), AccountKey(event, x);
            && b.Keys == {k} && b[k].ledger == NewDesk(k, initial, 100).ledger
            && b[k].account.cash == initial && !Recorded(b, 2) && !HasOpen(b[k].positions, 2)
  {
    var r, k := LaterDecision(x, event), AccountKey(event, x);
    var d := NewDesk(k, initial, 100);
    var p := PositionFor(d.account, r);
    assert p.status.Rejected?;
    var b := Step(map[], RecordCall(r), initial);
    assert b == map[k := PlaceOnDesk(d, p)];
    assert b[k].positions == [p] && p.decision == 1 && p.mapId == 1;
  }

  lemma EarlierDecisionSettles(b: Book, x: Experiment, event: string, initial: int)
    requires var k := AccountKey(event, x);
             k in b && |b[k].ledger| == 1 && b[k].account.cash >= 10 && !Recorded(b, 2) && !HasOpen(b[k].positions, 2)
    ensures var b', k := Step(b, RecordCall(EarlierDecision(x, event)), initial), AccountKey(event, x);
            && k in b' && |b'[k].ledger| == 3 && b'[k].ledger[0] == b[k].ledger[0]
            && Visible(b'[k].ledger[2]) && b'[k].ledger[2].occurredAt == 80
  {
    var r, k := EarlierDecision(x, event), AccountKey(event, x);
    RoundWhole(10);
    var p := PositionFor(b[k].account, r);
    assert p.status == Open && p.mapId == 2;
    var d := PlaceOnDesk(b[k], p);
    var s := StoredSettlement(r);
    assert Place(b, r, initial) == b[k := d];
    assert SettlesAtOnce(b, r, initial);
    assert d.positions[..|d.positions| - 1] == b[k].positions;
    assert d.positions[|b[k].positions|] == p;
    ReleaseShape(d.account, d.ledger, b[k].positions, s);
    assert Release(d.account, d.ledger, d.positions, s).ledger
           == d.ledger + [SettledEntry(d.account, p, s)];
  }

  /** Recorded in this order, the settlement at 80 comes before the funding at 100, and the curve jumps by the bankroll. */
  lemma SwappedRunJumps(x: Experiment, event: string, initial: int, curve: seq<Point>)
    requires initial >= 10
    ensures var b, k := Run(SwappedRun(x, event), initial), AccountKey(event, x);
            && k in b && |b[k].ledger| == 3 && b[k].ledger[0].occurredAt == 100 && b[k].ledger[2].occurredAt == 80
            && (IsCurve(curve, b[k].ledger) ==> !MovesByProfit(curve))
  {
    var calls, k := SwappedRun(x, event), AccountKey(event, x);
    assert calls[..1] == [calls[0]] && [calls[0]][..0] == [];
    assert Run([calls[0]], initial) == Step(map[], calls[0], initial);
    LaterDecisionFunds(x, event, initial);
    var b := Run(calls[..1], initial);
    EarlierDecisionSettles(b, x, event, initial);
    var l := Run(calls, initial)[k].ledger;
    assert l[2].occurredAt < l[0].occurredAt && !FundedFirst(l);
    if IsCurve(curve, l) {
      RunMovesByProfit(calls, k, initial, curve);
    }
  }

  /** The curve is never empty and ends at the account's own equity. */
  lemma CurveEndsAtAccount(curve: seq<Point>, d: Desk, initial: int)
    requires JournalOk(d, initial) && IsCurve(curve, d.ledger)
    ensures curve != [] && curve[|curve| - 1].equity == Equity(d.account)
  {
    var l := d.ledger;
    assert VisibleAt(l, l[0].occurredAt);
    var t := curve[|curve| - 1].occurredAt;
    forall j | 0 <= j < |l| && l[j].occurredAt > t
      ensures !Visible(l[j])
    {
      assert !OnCurve(curve, l[j].occurredAt);
    }
    SumSplit(Where(EquityDelta, UpTo(t)), Where(CashDelta, UpTo(t)), Where(LockedDelta, UpTo(t)), l);
    SumSame(Where(EquityDelta, UpTo(t)), EquityDelta, l);
    SumSplit(EquityDelta, CashDelta, LockedDelta, l);
  }
}
