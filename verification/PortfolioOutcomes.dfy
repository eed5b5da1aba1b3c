/** What a settlement pays: whoever backed the named winner, and nobody else. */
module PortfolioOutcomes {
  import opened Common
  import opened Money
  import opened Portfolio
  import opened PortfolioLaws

  // ---- Settling ------------------------------------------------------------------------------

  /** A result without conflict that names one of the two teams. */
  predicate Decides(s: Settlement) {
    !s.conflict && (s.winner == Some(s.teams.a) || s.winner == Some(s.teams.b))
  }

  /** The position was bought on the team that won. */
  predicate Backed(p: Position, s: Settlement) {
    || (p.side == BuyA && s.winner == Some(s.teams.a))
    || (p.side == BuyB && s.winner == Some(s.teams.b))
  }

  /** What a stake returns at the given odds, to the cent. */
  function Return(stake: int, odds: real): int {
    RoundHalfUp(stake as real * odds)
  }

  /** A closed row with the status, payout and profit that the settlement calls for. */
  predicate Follows(p: Position, s: Settlement) {
    && p.mapId == s.mapId && p.settledAt == Some(s.at)
    && (p.status == Void <==> !Decides(s))
    && (p.status == Won <==> Decides(s) && Backed(p, s))
    && (p.status == Lost <==> Decides(s) && !Backed(p, s))
    && (p.status == Void ==> p.payout == Some(p.stake) && p.pnl == Some(0))
    && (p.status == Won ==>
          && p.odds.Some? && p.payout == Some(Return(p.stake, p.odds.value))
          && p.pnl == Some(Return(p.stake, p.odds.value) - p.stake))
    && (p.status == Lost ==> p.payout == Some(0) && p.pnl == Some(-p.stake))
  }

  /** What was agreed when the position was opened. */
  predicate SameBet(p: Position, q: Position) {
    && q.decision == p.decision && q.mapId == p.mapId && q.side == p.side && q.cashBefore == p.cashBefore
    && q.stake == p.stake && q.odds == p.odds && q.openedAt == p.openedAt
  }

  lemma SettledFollows(p: Position, s: Settlement)
    requires Settles(p, s.mapId) && p.odds.Some?
    ensures Follows(SettledPosition(p, s), s) && SameBet(p, SettledPosition(p, s))
  {
    var p' := SettledPosition(p, s);
    assert p'.status == Void <==> !Decides(s);
    assert p'.status == Won <==> Decides(s) && Backed(p', s);
    assert p'.payout == Some(Payout(p, s)) && p'.pnl == Some(Payout(p, s) - p.stake);
    if p'.status == Won {
      assert Payout(p, s) == Return(p.stake, p.odds.value);
      assert p'.stake == p.stake && p'.odds == p.odds;
    }
  }

  /**
   A settlement closes exactly the open rows of its map: void with the stake back on a conflict or without a winner
   among the teams, won at the decision's odds for whoever backed the winner, lost for the other side.
   */
  lemma SettlementFollowsWinner(b: Book, s: Settlement, k: AccountKey, i: nat, initial: int)
    requires BookOk(b, initial) && k in b && i < |b[k].positions|
    ensures k in SettleBook(b, s) && |SettleBook(b, s)[k].positions| == |b[k].positions|
    ensures var p, p' := b[k].positions[i], SettleBook(b, s)[k].positions[i];
            if p.status == Open && p.mapId == s.mapId then Follows(p', s) && SameBet(p, p') else p' == p
  {
    ReleaseShape(b[k].account, b[k].ledger, b[k].positions, s);
    var p := b[k].positions[i];
    assert DeskOk(k, b[k], initial) && RowOk(p);
    if Settles(p, s.mapId) {
      assert HasOpen(b[k].positions, s.mapId);
      SettledFollows(p, s);
    }
  }

  // ---- Over whole runs -----------------------------------------------------------------------

  /** The settlement a call hands over: its own, or the stored result of a recorded decision. */
  predicate Names(c: Call, s: Settlement) {
    match c
    case SettleCall(t) => s == t
    case RecordCall(r) => r.scope.Some? && r.result.Some? && s == StoredSettlement(r)
  }

  ghost predicate NamedIn(calls: seq<Call>, s: Settlement) {
    exists i :: 0 <= i < |calls| && Names(calls[i], s)
  }

  /** Open and rejected rows have no payout, and a closed one follows a settlement of the run. */
  ghost predicate Explained(p: Position, calls: seq<Call>) {
    p.status == Open || p.status.Rejected? || exists s :: NamedIn(calls, s) && Follows(p, s)
  }

  ghost predicate AllExplained(b: Book, calls: seq<Call>) {
    forall k, i :: k in b && 0 <= i < |b[k].positions| ==> Explained(b[k].positions[i], calls)
  }

  lemma NamedLater(calls: seq<Call>, c: Call, s: Settlement)
    requires NamedIn(calls, s)
    ensures NamedIn(calls + [c], s)
  {
    var i :| 0 <= i < |calls| && Names(calls[i], s);
    assert Names((calls + [c])[i], s);
  }

  lemma ExplainedLater(b: Book, calls: seq<Call>, c: Call)
    requires AllExplained(b, calls)
    ensures AllExplained(b, calls + [c])
  {
    forall k, i | k in b && 0 <= i < |b[k].positions|
      ensures Explained(b[k].positions[i], calls + [c])
    {
      var p := b[k].positions[i];
      assert Explained(p, calls);
      if p.status != Open && !p.status.Rejected? {
        var s :| NamedIn(calls, s) && Follows(p, s);
        NamedLater(calls, c, s);
      }
    }
  }

  lemma SettleExplains(b: Book, s: Settlement, calls: seq<Call>, initial: int)
    requires BookOk(b, initial) && AllExplained(b, calls) && NamedIn(calls, s)
    ensures AllExplained(SettleBook(b, s), calls)
  {
    var b' := SettleBook(b, s);
    forall k, i | k in b' && 0 <= i < |b'[k].positions|
      ensures Explained(b'[k].positions[i], calls)
    {
      ReleaseShape(b[k].account, b[k].ledger, b[k].positions, s);
      SettlementFollowsWinner(b, s, k, i, initial);
      assert Explained(b[k].positions[i], calls);
    }
  }

  lemma PlaceExplains(b: Book, r: Request, calls: seq<Call>, initial: int)
    requires AllExplained(b, calls)
    ensures AllExplained(Place(b, r, initial), calls)
  {
    if Adds(b, r) {
      var b1, k := Funded(b, r, initial), KeyOf(r);
      assert AllExplained(b1, calls);
      var p := PositionFor(b1[k].account, r);
      assert PlaceOnDesk(b1[k], p).positions == b1[k].positions + [p];
      assert Explained(p, calls);
    }
  }

  /** Every position that any run has won, lost or voided follows the winner that a settlement of the run named. */
  lemma {:induction false} ClosedRowsFollowWinners(calls: seq<Call>, initial: int)
    requires initial >= 0
    ensures AllExplained(Run(calls, initial), calls)
  {
    if calls != [] {
      var before, c := calls[..|calls| - 1], calls[|calls| - 1];
      assert calls == before + [c];
      var b := Run(before, initial);
      ClosedRowsFollowWinners(before, initial);
      EveryRunBalances(before, initial);
      ExplainedLater(b, before, c);
      assert calls[|before|] == c;
      match c
      case SettleCall(s) =>
        assert Names(c, s);
        SettleExplains(b, s, calls, initial);
      case RecordCall(r) =>
        PlaceExplains(b, r, calls, initial);
        if SettlesAtOnce(b, r, initial) {
          PlaceKeepsBook(b, r, initial);
          assert Names(c, StoredSettlement(r));
          SettleExplains(Place(b, r, initial), StoredSettlement(r), calls, initial);
        }
    }
  }

  // ---- Placing -------------------------------------------------------------------------------

  /** The first observation of the team carries this price, and it is above one. */
  predicate Quoted(observations: seq<Observation>, team: int, price: real) {
    exists i :: 0 <= i < |observations| && observations[i] == Observation(Some(team), Some(price)) && price > 1.0
      && forall j :: 0 <= j < i ==> observations[j].team != Some(team)
  }

  lemma {:induction false} OddsAreQuoted(observations: seq<Observation>, team: int)
    ensures forall v :: SelectedOdds(observations, team) == Some(v) <==> Quoted(observations, team, v)
  {
    if observations != [] {
      var rest := observations[1..];
      OddsAreQuoted(rest, team);
      forall v
        ensures SelectedOdds(observations, team) == Some(v) <==> Quoted(observations, team, v)
      {
        if observations[0].team != Some(team) {
          if Quoted(rest, team, v) {
            var i :| 0 <= i < |rest| && rest[i] == Observation(Some(team), Some(v)) && v > 1.0
              && forall j :: 0 <= j < i ==> rest[j].team != Some(team);
            assert observations[i + 1] == rest[i];
            assert forall j :: 1 <= j < i + 1 ==> observations[j] == rest[j - 1];
          }
          if Quoted(observations, team, v) {
            var i :| 0 <= i < |observations| && observations[i] == Observation(Some(team), Some(v)) && v > 1.0
              && forall j :: 0 <= j < i ==> observations[j].team != Some(team);
            assert rest[i - 1] == observations[i];
            assert forall j :: 0 <= j < i - 1 ==> rest[j] == observations[j + 1];
          }
        } else if observations[0] == Observation(Some(team), Some(v)) && v > 1.0 {
          assert Quoted(observations, team, v);
        }
      }
    }
  }

  /** The team a decision bets on. */
  function BackedTeam(side: Side, teams: Teams): int {
    match side case BuyA => teams.a case BuyB => teams.b
  }

  /** Everything a placement needs to be accepted. */
  ghost predicate Executable(r: Request, cash: int)
    requires Wants(r) && r.scope.Some? && r.snapshot.Some?
  {
    && (r.result.Some? ==> r.availableAt < r.result.value.basicUsableAt)
    && r.snapshot.value.snapshotEligible && r.snapshot.value.marketEligible
    && (exists v :: Quoted(r.snapshot.value.observations, BackedTeam(r.action.side, r.scope.value.teams), v))
    && r.stake.value < cash as real + 0.5
  }

  lemma NewRowIs(a: Account, r: Request)
    requires Wants(r) && r.scope.Some? && r.snapshot.Some? && a.cash >= 0
    ensures var p, team := PositionFor(a, r), BackedTeam(r.action.side, r.scope.value.teams);
            && p.side == r.action.side && p.mapId == r.scope.value.mapId && p.stake == RoundHalfUp(r.stake.value)
            && (forall v :: p.odds == Some(v) <==> Quoted(r.snapshot.value.observations, team, v))
            && (p.status == Open <==> Executable(r, a.cash))
  {
    var p, team := PositionFor(a, r), BackedTeam(r.action.side, r.scope.value.teams);
    OddsAreQuoted(r.snapshot.value.observations, team);
    RoundExceeds(r.stake.value, a.cash);
    assert p.odds.Some? ==> Quoted(r.snapshot.value.observations, team, p.odds.value);
  }

  /**
   A new decision adds one row at the end of its account, backing its own side of its own map at the first price
   quoted for that side; it is opened exactly when everything it needs is there, and then its stake moves from cash
   to locked.
   */
  lemma PlacementIs(b: Book, r: Request, initial: int)
    requires BookOk(b, initial) && initial >= 0 && Adds(b, r)
    ensures var b1, b', k := Funded(b, r, initial), Place(b, r, initial), KeyOf(r);
            var n, team := |b1[k].positions|, BackedTeam(r.action.side, r.scope.value.teams);
            && |b'[k].positions| == n + 1 && b'[k].positions[..n] == b1[k].positions
            && var p, a, a' := b'[k].positions[n], b1[k].account, b'[k].account;
               && p.decision == r.id && p.side == r.action.side && p.mapId == r.scope.value.mapId
               && (forall v :: p.odds == Some(v) <==> Quoted(r.snapshot.value.observations, team, v))
               && (p.status == Open <==> Executable(r, a.cash))
               && (p.status == Open ==> a'.cash == a.cash - p.stake && a'.locked == a.locked + p.stake)
               && (p.status != Open ==> a' == a)
  {
    var b1, k := Funded(b, r, initial), KeyOf(r);
    assert b1[k].account.cash >= 0 by {
      if k in b {
        assert DeskOk(k, b[k], initial);
      }
    }
    NewRowIs(b1[k].account, r);
    var p := PositionFor(b1[k].account, r);
    assert PlaceOnDesk(b1[k], p).positions == b1[k].positions + [p];
  }

  // ---- The journal of a placement and of a settlement --------------------------------------------

  /** The journal entry that a closed row calls for. */
  predicate Tells(e: Entry, p: Position) {
    && e.key == SettleKey(p.decision) && p.settledAt == Some(e.occurredAt)
    && p.payout == Some(e.cashDelta) && e.lockedDelta == -p.stake && p.pnl == Some(e.pnlDelta)
    && (e.kind == BetSettledWin <==> p.status == Won) && (e.kind == BetSettledLoss <==> p.status == Lost)
    && (e.kind == BetVoid <==> p.status == Void)
  }

  /** The journal entry that a placed row calls for. */
  predicate Announces(e: Entry, p: Position) {
    && e.kind == BetPlaced && e.key == PlaceKey(p.decision) && e.occurredAt == p.openedAt
    && e.cashDelta == -p.stake && e.lockedDelta == p.stake && e.pnlDelta == 0
  }

  ghost predicate Told(l: seq<Entry>, p: Position) {
    && (!p.status.Rejected? ==> exists e :: e in l && Announces(e, p))
    && (!p.status.Rejected? && p.status != Open ==> exists e :: e in l && Tells(e, p))
  }

  ghost predicate AllTold(l: seq<Entry>, ps: seq<Position>) {
    forall i :: 0 <= i < |ps| ==> Told(l, ps[i])
  }

  lemma ToldLater(l: seq<Entry>, more: seq<Entry>, p: Position)
    requires Told(l, p)
    ensures Told(l + more, p)
  {
    if !p.status.Rejected? {
      var e :| e in l && Announces(e, p);
      assert e in l + more;
      if p.status != Open {
        var f :| f in l && Tells(f, p);
        assert f in l + more;
      }
    }
  }

  lemma AllToldLater(l: seq<Entry>, more: seq<Entry>, ps: seq<Position>)
    requires AllTold(l, ps)
    ensures AllTold(l + more, ps)
  {
    forall i | 0 <= i < |ps|
      ensures Told(l + more, ps[i])
    {
      ToldLater(l, more, ps[i]);
    }
  }

  lemma AllToldSnoc(l: seq<Entry>, ps: seq<Position>, p: Position)
    requires AllTold(l, ps) && Told(l, p)
    ensures AllTold(l, ps + [p])
  {
  }

  lemma SettledTold(l: seq<Entry>, a: Account, p: Position, s: Settlement)
    requires Told(l, p) && p.status == Open && p.odds.Some?
    ensures Told(l + [SettledEntry(a, p, s)], SettledPosition(p, s))
  {
    var p', l' := SettledPosition(p, s), l + [SettledEntry(a, p, s)];
    var e :| e in l && Announces(e, p);
    assert e in l' && Announces(e, p');
    assert l'[|l|] in l' && Tells(l'[|l|], p');
  }

  lemma {:induction false} ReleaseTold(a: Account, l: seq<Entry>, ps: seq<Position>, s: Settlement)
    requires AllTold(l, ps) && forall i :: 0 <= i < |ps| ==> RowOk(ps[i])
    ensures AllTold(Release(a, l, ps, s).ledger, Release(a, l, ps, s).positions)
    ensures l <= Release(a, l, ps, s).ledger
  {
    if ps != [] {
      var n := |ps| - 1;
      ReleaseTold(a, l, ps[..n], s);
      var done := Release(a, l, ps[..n], s);
      assert done.ledger == l + done.ledger[|l|..];
      ToldLater(l, done.ledger[|l|..], ps[n]);
      if Settles(ps[n], s.mapId) {
        var e := SettledEntry(done.account, ps[n], s);
        SettledTold(done.ledger, done.account, ps[n], s);
        AllToldLater(done.ledger, [e], done.positions);
        AllToldSnoc(done.ledger + [e], done.positions, SettledPosition(ps[n], s));
      } else {
        AllToldSnoc(done.ledger, done.positions, ps[n]);
      }
    }
  }

  lemma PlaceTold(d: Desk, p: Position)
    requires AllTold(d.ledger, d.positions) && (p.status == Open || p.status.Rejected?)
    ensures AllTold(PlaceOnDesk(d, p).ledger, PlaceOnDesk(d, p).positions)
  {
    var d' := PlaceOnDesk(d, p);
    if p.status == Open {
      var e := d'.ledger[|d.ledger|];
      AllToldLater(d.ledger, [e], d.positions);
      assert e in d'.ledger && Announces(e, p);
    }
    AllToldSnoc(d'.ledger, d.positions, p);
  }

  ghost predicate BookTold(b: Book) {
    forall k :: k in b ==> AllTold(b[k].ledger, b[k].positions)
  }

  lemma SettleBookTold(b: Book, s: Settlement, initial: int)
    requires BookOk(b, initial) && BookTold(b)
    ensures BookTold(SettleBook(b, s))
  {
    forall k | k in b
      ensures AllTold(SettleBook(b, s)[k].ledger, SettleBook(b, s)[k].positions)
    {
      assert DeskOk(k, b[k], initial);
      ReleaseTold(b[k].account, b[k].ledger, b[k].positions, s);
    }
  }

  lemma PlaceBookTold(b: Book, r: Request, initial: int)
    requires BookTold(b)
    ensures BookTold(Place(b, r, initial))
  {
    if Adds(b, r) {
      var b1, k := Funded(b, r, initial), KeyOf(r);
      assert BookTold(b1);
      PlaceTold(b1[k], PositionFor(b1[k].account, r));
    }
  }

  /** In every run the journal tells of each accepted position when and for how much it was placed, and how it was settled. */
  lemma {:induction false} JournalTellsAll(calls: seq<Call>, initial: int)
    requires initial >= 0
    ensures BookTold(Run(calls, initial))
  {
    if calls != [] {
      var before, c := calls[..|calls| - 1], calls[|calls| - 1];
      var b := Run(before, initial);
      JournalTellsAll(before, initial);
      EveryRunBalances(before, initial);
      match c
      case SettleCall(s) => SettleBookTold(b, s, initial);
      case RecordCall(r) =>
        PlaceBookTold(b, r, initial);
        if SettlesAtOnce(b, r, initial) {
          PlaceKeepsBook(b, r, initial);
          SettleBookTold(Place(b, r, initial), StoredSettlement(r), initial);
        }
    }
  }

  /** A new account starts with the whole bankroll in cash, funded when its event started or the decision was made, whichever came first. */
  lemma FundingIs(b: Book, r: Request, initial: int)
    requires Adds(b, r) && KeyOf(r) !in b
    ensures var d, at := Funded(b, r, initial)[KeyOf(r)], r.snapshot.value.decisionAt;
            && d.account.cash == initial && d.account.locked == 0 && d.account.pnl == 0 && d.account.status == Active
            && d.positions == [] && |d.ledger| == 1 && d.ledger[0].kind == EventFunded && d.ledger[0].cashDelta == initial
            && d.ledger[0].occurredAt <= at && (d.ledger[0].occurredAt == at || r.eventStartedAt == Some(d.ledger[0].occurredAt))
            && (r.eventStartedAt.Some? ==> d.ledger[0].occurredAt <= r.eventStartedAt.value)
  {
  }

  lemma BalancesNotNegative(k: AccountKey, d: Desk, initial: int)
    requires DeskOk(k, d, initial)
    ensures d.account.cash >= 0 && d.account.locked >= 0
  {
    forall j | 0 <= j < |d.positions|
      ensures OpenStake(d.positions[j]) >= 0
    {
      assert RowOk(d.positions[j]);
    }
    SumNonNegative(OpenStake, d.positions);
  }

  /** After a settlement that closes a row an account is bankrupt exactly if nothing is left in cash or locked. */
  lemma BankruptExactly(k: AccountKey, d: Desk, s: Settlement, initial: int)
    requires DeskOk(k, d, initial) && HasOpen(d.positions, s.mapId)
    ensures var a := SettleDesk(d, s).account;
            a.status == Bankrupt <==> a.cash == 0 && a.locked == 0
  {
    SettleKeepsDesk(k, d, s, initial);
    BalancesNotNegative(k, SettleDesk(d, s), initial);
  }
}
