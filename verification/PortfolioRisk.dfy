/** The online peak and drawdown columns against their definition over the sampled equities. */
module PortfolioRisk {
  import opened Common
  import opened Portfolio
  import opened PortfolioLaws

  // ---- The series a run samples --------------------------------------------------------

  /** What one settlement adds to an account's equity series: a sample iff it settled something there. */
  function SampleOf(b: Book, k: AccountKey, s: Settlement): seq<int> {
    if k in b && HasOpen(b[k].positions, s.mapId) then [Equity(SettleDesk(b[k], s).account)] else []
  }

  function CallSample(b: Book, c: Call, k: AccountKey, initial: int): seq<int> {
    match c
    case SettleCall(s) => SampleOf(b, k, s)
    case RecordCall(r) =>
      if SettlesAtOnce(b, r, initial) then SampleOf(Place(b, r, initial), k, StoredSettlement(r)) else []
  }

  /** The account's equity at funding and after each of its settlements. */
  function Equities(calls: seq<Call>, k: AccountKey, initial: int): (s: seq<int>)
    ensures s != []
  {
    if calls == [] then [initial]
    else
      var n := |calls| - 1;
      Equities(calls[..n], k, initial) + CallSample(Run(calls[..n], initial), calls[n], k, initial)
  }

  // ---- Definition ----------------------------------------------------------------------

  /** The fall from the i-th to the j-th sample as a fraction of the i-th. */
  function Fall(e: seq<int>, i: nat, j: nat): real
    requires i < |e| && j < |e|
  {
    if e[i] > 0 then (e[i] - e[j]) as real / e[i] as real else 0.0
  }

  ghost predicate IsPeak(peak: int, e: seq<int>) {
    (forall i :: 0 <= i < |e| ==> e[i] <= peak) && peak in e
  }

  ghost predicate IsMaxDrawdown(drawdown: int, e: seq<int>) {
    && (forall i, j :: 0 <= i <= j < |e| ==> e[i] - e[j] <= drawdown)
    && (exists i, j :: 0 <= i <= j < |e| && e[i] - e[j] == drawdown)
  }

  ghost predicate IsMaxFall(pct: real, e: seq<int>) {
    && (forall i, j :: 0 <= i <= j < |e| ==> Fall(e, i, j) <= pct)
    && (exists i, j :: 0 <= i <= j < |e| && Fall(e, i, j) == pct)
  }

  ghost predicate RiskOk(a: Account, e: seq<int>) {
    && (forall i :: 0 <= i < |e| ==> e[i] >= 0)
    && IsPeak(a.peak, e)
    && IsMaxDrawdown(a.maxDrawdown, e)
    && IsMaxFall(a.maxDrawdownPct, e)
    && 0.0 <= a.maxDrawdownPct <= 1.0
  }

  // ---- One sample ----------------------------------------------------------------------

  lemma FractionMonotone(x: int, p: int, e: int)
    requires 0 < x <= p && 0 <= e
    ensures (x - e) as real / x as real <= (p - e) as real / p as real
  {
    assert (x - e) as real * p as real <= (p - e) as real * x as real by {
      assert e * x <= e * p;
      assert (x - e) * p <= (p - e) * x;
    }
    FractionOrder((x - e) as real, x as real, (p - e) as real, p as real);
  }

  /** Fractions with positive denominators compare as their cross products do. */
  lemma FractionOrder(a: real, x: real, b: real, p: real)
    requires x > 0.0 && p > 0.0 && a * p <= b * x
    ensures a / x <= b / p
  {
    var u, v := a / x, b / p;
    assert u * x == a && v * p == b;
    assert (v - u) * (x * p) == b * x - a * p;
  }

  lemma FallInUnit(p: int, e: int)
    requires 0 < p && 0 <= e <= p
    ensures 0.0 <= (p - e) as real / p as real <= 1.0
  {
  }

  lemma PeakStep(a: Account, e: seq<int>)
    requires IsPeak(a.peak, e)
    ensures IsPeak(WithRisk(a).peak, e + [Equity(a)])
  {
    var e' := e + [Equity(a)];
    assert e'[|e|] == Equity(a);
    var i :| 0 <= i < |e| && e[i] == a.peak;
    assert e'[i] == a.peak;
  }

  /** Against the new sample nothing falls further than the running peak, and the peak does fall that far. */
  lemma DrawdownStep(a: Account, e: seq<int>)
    requires IsPeak(a.peak, e) && IsMaxDrawdown(a.maxDrawdown, e)
    ensures IsMaxDrawdown(WithRisk(a).maxDrawdown, e + [Equity(a)])
  {
    var e', n := e + [Equity(a)], |e|;
    PeakStep(a, e);
    var p :| 0 <= p < |e'| && e'[p] == WithRisk(a).peak;
    assert e'[p] - e'[n] == Drawdown(a);
    var i, j :| 0 <= i <= j < n && e[i] - e[j] == a.maxDrawdown;
    assert e'[i] - e'[j] == a.maxDrawdown;
  }

  lemma FallStep(a: Account, e: seq<int>)
    requires Equity(a) >= 0 && forall i :: 0 <= i < |e| ==> e[i] >= 0
    requires IsPeak(a.peak, e) && IsMaxFall(a.maxDrawdownPct, e) && 0.0 <= a.maxDrawdownPct <= 1.0
    ensures IsMaxFall(WithRisk(a).maxDrawdownPct, e + [Equity(a)])
    ensures 0.0 <= WithRisk(a).maxDrawdownPct <= 1.0
  {
    var e', n, peak := e + [Equity(a)], |e|, WithRisk(a).peak;
    PeakStep(a, e);
    var p :| 0 <= p < |e'| && e'[p] == peak;
    var last := Fall(e', p, n);
    assert last == if peak > 0 then Drawdown(a) as real / peak as real else 0.0;
    if peak > 0 {
      FallInUnit(peak, Equity(a));
    }
    forall i, j | 0 <= i <= j < n + 1
      ensures Fall(e', i, j) <= WithRisk(a).maxDrawdownPct
    {
      if j < n {
        assert Fall(e', i, j) == Fall(e, i, j);
      } else if e'[i] > 0 {
        FractionMonotone(e'[i], peak, Equity(a));
      }
    }
    if last > a.maxDrawdownPct {
      assert Fall(e', p, n) == WithRisk(a).maxDrawdownPct;
    } else {
      var i, j :| 0 <= i <= j < n && Fall(e, i, j) == a.maxDrawdownPct;
      assert Fall(e', i, j) == WithRisk(a).maxDrawdownPct;
    }
  }

  // ---- Runs ----------------------------------------------------------------------------

  /** The online update of one account is right for the series with its new equity. */
  lemma RiskStep(a: Account, e: seq<int>)
    requires RiskOk(a, e) && Equity(a) >= 0
    ensures RiskOk(WithRisk(a), e + [Equity(a)])
  {
    PeakStep(a, e);
    DrawdownStep(a, e);
    FallStep(a, e);
  }

  lemma SettledEquity(k: AccountKey, d: Desk, s: Settlement, initial: int)
    requires DeskOk(k, d, initial)
    ensures Equity(SettleDesk(d, s).account) >= 0
  {
    SettleKeepsDesk(k, d, s, initial);
    var after := SettleDesk(d, s);
    assert forall j :: 0 <= j < |after.positions| ==> OpenStake(after.positions[j]) >= 0;
    SumNonNegative(OpenStake, after.positions);
  }

  lemma SameColumnsSameRisk(a: Account, r: Account, e: seq<int>)
    requires RiskOk(a, e) && r.peak == a.peak && r.maxDrawdown == a.maxDrawdown && r.maxDrawdownPct == a.maxDrawdownPct
    ensures RiskOk(r, e)
  {
  }

  /** Settling releases money first and updates the risk columns from the equity it leaves. */
  lemma SettleKeepsRisk(b: Book, k: AccountKey, s: Settlement, e: seq<int>, initial: int)
    requires BookOk(b, initial) && k in b && RiskOk(b[k].account, e)
    ensures RiskOk(SettleBook(b, s)[k].account, e + SampleOf(b, k, s))
  {
    var d := b[k];
    SettledEquity(k, d, s, initial);
    if HasOpen(d.positions, s.mapId) {
      var released := Release(d.account, d.ledger, d.positions, s).account;
      ReleaseKeepsRiskColumns(d.account, d.ledger, d.positions, s);
      SameColumnsSameRisk(d.account, released, e);
      assert SettleDesk(d, s).account == WithRisk(released);
      assert Equity(WithRisk(released)) == Equity(released);
      RiskStep(released, e);
    } else {
      assert e + SampleOf(b, k, s) == e;
    }
  }

  lemma {:induction false} ReleaseKeepsRiskColumns(a: Account, ledger: seq<Entry>, ps: seq<Position>, s: Settlement)
    ensures var r := Release(a, ledger, ps, s).account;
            r.peak == a.peak && r.maxDrawdown == a.maxDrawdown && r.maxDrawdownPct == a.maxDrawdownPct
  {
    if ps != [] {
      ReleaseKeepsRiskColumns(a, ledger, ps[..|ps| - 1], s);
    }
  }

  lemma NewAccountRisk(k: AccountKey, initial: int, fundedAt: int)
    requires initial >= 0
    ensures RiskOk(NewDesk(k, initial, fundedAt).account, [initial])
  {
    var e := [initial];
    assert e[0] - e[0] == 0 && Fall(e, 0, 0) == 0.0;
  }

  /** A placement moves money inside the account: its risk columns and its series stay as they are. */
  lemma PlaceKeepsRisk(b: Book, k: AccountKey, r: Request, e: seq<int>, initial: int)
    requires initial >= 0
    requires if k in b then RiskOk(b[k].account, e) else e == [initial]
    ensures k in Place(b, r, initial) ==> RiskOk(Place(b, r, initial)[k].account, e)
    ensures k in b ==> k in Place(b, r, initial)
  {
    if Adds(b, r) && k == KeyOf(r) && k !in b {
      NewAccountRisk(k, initial, FundedAt(r.eventStartedAt, r.snapshot.value.decisionAt));
    }
  }

  lemma {:induction false} UnfundedHasNoSamples(calls: seq<Call>, k: AccountKey, initial: int)
    requires initial >= 0 && k !in Run(calls, initial)
    ensures Equities(calls, k, initial) == [initial]
  {
    if calls != [] {
      var n := |calls| - 1;
      EveryRunBalances(calls[..n], initial);
      StepExtends(Run(calls[..n], initial), calls[n], initial);
      UnfundedHasNoSamples(calls[..n], k, initial);
    }
  }

  /**
   In every run and on every account: the stored peak is the largest sampled equity, the stored
   drawdown the largest fall between two samples in order, and the stored percentage the largest
   relative fall, which lies between zero and one.
   */
  lemma {:induction false} RiskMatchesDefinition(calls: seq<Call>, k: AccountKey, initial: int)
    requires initial >= 0 && k in Run(calls, initial)
    ensures RiskOk(Run(calls, initial)[k].account, Equities(calls, k, initial))
  {
    var n := |calls| - 1;
    var b, c, e := Run(calls[..n], initial), calls[n], Equities(calls[..n], k, initial);
    EveryRunBalances(calls[..n], initial);
    if k in b {
      RiskMatchesDefinition(calls[..n], k, initial);
    } else {
      UnfundedHasNoSamples(calls[..n], k, initial);
    }
    match c
    case SettleCall(s) => SettleKeepsRisk(b, k, s, e, initial);
    case RecordCall(r) =>
      PlaceKeepsRisk(b, k, r, e, initial);
      if SettlesAtOnce(b, r, initial) {
        PlaceKeepsBook(b, r, initial);
        SettleKeepsRisk(Place(b, r, initial), k, StoredSettlement(r), e, initial);
      } else {
        assert e + [] == e;
      }
  }
}
