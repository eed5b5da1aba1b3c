/** What every run of placements and settlements keeps, on any number of accounts. */
module PortfolioLaws {
  import opened Common
  import opened Money
  import opened Portfolio

  datatype Call = RecordCall(r: Request) | SettleCall(s: Settlement)

  function Step(b: Book, c: Call, initial: int): Book {
    match c
    case RecordCall(r) => Record(b, r, initial)
    case SettleCall(s) => SettleBook(b, s)
  }

  /** The book after the calls, each one atomic, from an empty database. */
  function Run(calls: seq<Call>, initial: int): Book {
    if calls == [] then map[] else Step(Run(calls[..|calls| - 1], initial), calls[|calls| - 1], initial)
  }

  // ---- Invariant of one account --------------------------------------------------------

  function OpenStake(p: Position): int {
    if p.status == Open then p.stake else 0
  }

  function RealizedPnl(p: Position): int {
    if p.pnl.Some? then p.pnl.value else 0
  }

  function CashDelta(e: Entry): int { e.cashDelta }
  function LockedDelta(e: Entry): int { e.lockedDelta }
  function PnlDelta(e: Entry): int { e.pnlDelta }

  /** A row's own figures: accepted rows carry odds of at least one, and a win never pays below its stake. */
  predicate RowOk(p: Position) {
    && p.stake >= 0
    && (!p.status.Rejected? ==> p.odds.Some? && p.odds.value >= 1.0)
    && match p.status
       case Open => p.payout == None && p.pnl == None
       case Rejected(_) => p.payout == None && p.pnl == None
       case Won => p.payout.Some? && p.payout.value >= p.stake && p.pnl == Some(p.payout.value - p.stake)
       case Lost => p.payout == Some(0) && p.pnl == Some(-p.stake)
       case Void => p.payout == Some(p.stake) && p.pnl == Some(0)
  }

  /** Double entry: nothing is created or lost except realised profit, and locked money is exactly the open stakes. */
  ghost predicate BalancesOk(d: Desk, initial: int) {
    && d.account.initial == initial >= 0
    && d.account.cash + d.account.locked == initial + d.account.pnl
    && d.account.cash >= 0
    && d.account.locked == SumBy(OpenStake, d.positions)
    && d.account.pnl == SumBy(RealizedPnl, d.positions)
    && (forall i :: 0 <= i < |d.positions| ==> RowOk(d.positions[i]))
    && (d.account.status == Bankrupt ==> d.account.cash == 0 && d.account.locked == 0)
  }

  predicate EntryOk(e: Entry, initial: int) {
    && e.equityAfter == e.cashAfter + e.lockedAfter
    && match e.kind
       case EventFunded => e.cashDelta == initial && e.lockedDelta == 0 && e.pnlDelta == 0
       case BetPlaced => e.cashDelta == -e.lockedDelta <= 0 && e.pnlDelta == 0
       case _ => e.cashDelta + e.lockedDelta == e.pnlDelta && e.cashDelta >= 0 && e.lockedDelta <= 0
  }

  /** The journal in insertion order: funding first, and every "after" column is the running total. */
  ghost predicate LedgerOk(l: seq<Entry>, initial: int) {
    && l != []
    && (forall i :: 0 <= i < |l| ==> EntryOk(l[i], initial) && (l[i].kind == EventFunded <==> i == 0))
    && (forall i :: 0 <= i < |l| ==> RunningAt(l, i))
  }

  ghost predicate RunningAt(l: seq<Entry>, i: nat)
    requires i < |l|
  {
    l[i].cashAfter == SumBy(CashDelta, l[..i + 1]) && l[i].lockedAfter == SumBy(LockedDelta, l[..i + 1])
  }

  /** The journal refines the account row. */
  ghost predicate JournalOk(d: Desk, initial: int) {
    && LedgerOk(d.ledger, initial)
    && d.account.cash == SumBy(CashDelta, d.ledger)
    && d.account.locked == SumBy(LockedDelta, d.ledger)
    && d.account.pnl == SumBy(PnlDelta, d.ledger)
  }

  /** Which journal keys a row stands for: placing once if accepted, settling once if closed. */
  predicate Accounts(p: Position, key: DedupeKey) {
    match key
    case FundKey(_) => false
    case PlaceKey(id) => p.decision == id && !p.status.Rejected?
    case SettleKey(id) => p.decision == id && !p.status.Rejected? && p.status != Open
  }

  ghost predicate InLedger(l: seq<Entry>, key: DedupeKey) {
    exists i :: 0 <= i < |l| && l[i].key == key
  }

  ghost predicate Accounted(ps: seq<Position>, key: DedupeKey) {
    exists i :: 0 <= i < |ps| && Accounts(ps[i], key)
  }

  /** The unique key of the journal: one placement and one settlement entry per position, never two. */
  ghost predicate KeysOk(k: AccountKey, d: Desk) {
    && (forall i, j :: 0 <= i < j < |d.positions| ==> d.positions[i].decision != d.positions[j].decision)
    && (forall i, j :: 0 <= i < j < |d.ledger| ==> d.ledger[i].key != d.ledger[j].key)
    && (forall key :: InLedger(d.ledger, key) <==> key == FundKey(k) || Accounted(d.positions, key))
  }

  ghost predicate DeskOk(k: AccountKey, d: Desk, initial: int) {
    BalancesOk(d, initial) && JournalOk(d, initial) && KeysOk(k, d)
  }

  // ---- Settling one row ----------------------------------------------------------------

  /** One iteration of the settlement loop, seen on the whole desk. */
  function SettleRow(d: Desk, i: nat, s: Settlement): Desk
    requires i < |d.positions|
  {
    var p := d.positions[i];
    Desk(SettledAccount(d.account, p, s), d.positions[i := SettledPosition(p, s)],
         d.ledger + [SettledEntry(d.account, p, s)])
  }

  /** A win never pays below its stake: odds of at least one survive rounding to the cent. */
  lemma WinCoversStake(p: Position, s: Settlement)
    requires RowOk(p) && p.status == Open
    ensures RowOk(SettledPosition(p, s))
    ensures p.stake == 0 ==> Payout(p, s) == 0
  {
    var odds := p.odds.value;
    assert p.stake as real * odds >= p.stake as real by {
      assert p.stake as real * (odds - 1.0) >= 0.0;
    }
  }

  lemma RowKeepsBalances(d: Desk, i: nat, s: Settlement, initial: int)
    requires BalancesOk(d, initial) && i < |d.positions| && Settles(d.positions[i], s.mapId)
    ensures BalancesOk(SettleRow(d, i, s), initial)
  {
    var p := d.positions[i];
    WinCoversStake(p, s);
    SumUpdate(OpenStake, d.positions, i, SettledPosition(p, s));
    SumUpdate(RealizedPnl, d.positions, i, SettledPosition(p, s));
    assert forall j :: 0 <= j < |d.positions| ==> OpenStake(d.positions[j]) >= 0;
    SumCovers(OpenStake, d.positions, i);
  }

  lemma AppendKeepsJournal(d: Desk, e: Entry, a: Account, ps: seq<Position>, initial: int)
    requires JournalOk(d, initial) && EntryOk(e, initial) && e.kind != EventFunded
    requires a.cash == d.account.cash + e.cashDelta == e.cashAfter
    requires a.locked == d.account.locked + e.lockedDelta == e.lockedAfter
    requires a.pnl == d.account.pnl + e.pnlDelta
    ensures JournalOk(Desk(a, ps, d.ledger + [e]), initial)
  {
    var l, l' := d.ledger, d.ledger + [e];
    SumSnoc(CashDelta, l, e);
    SumSnoc(LockedDelta, l, e);
    SumSnoc(PnlDelta, l, e);
    forall i | 0 <= i < |l'|
      ensures RunningAt(l', i)
    {
      if i < |l| {
        assert RunningAt(l, i);
        assert l'[..i + 1] == l[..i + 1];
      } else {
        assert l'[..i + 1] == l';
      }
    }
  }

  lemma RowKeepsKeys(k: AccountKey, d: Desk, i: nat, s: Settlement)
    requires KeysOk(k, d) && i < |d.positions| && Settles(d.positions[i], s.mapId)
    ensures KeysOk(k, SettleRow(d, i, s))
  {
    var p, d' := d.positions[i], SettleRow(d, i, s);
    var newKey := SettleKey(p.decision);
    assert !Accounted(d.positions, newKey);
    assert !InLedger(d.ledger, newKey);
    forall key
      ensures InLedger(d'.ledger, key) <==> InLedger(d.ledger, key) || key == newKey
    {
      assert d'.ledger[|d.ledger|].key == newKey;
      if InLedger(d.ledger, key) {
        var j :| 0 <= j < |d.ledger| && d.ledger[j].key == key;
        assert d'.ledger[j].key == key;
      }
    }
    forall key
      ensures Accounted(d'.positions, key) <==> Accounted(d.positions, key) || key == newKey
    {
      assert Accounts(d'.positions[i], newKey);
      if Accounted(d.positions, key) {
        var j :| 0 <= j < |d.positions| && Accounts(d.positions[j], key);
        assert Accounts(d'.positions[j], key);
      }
      if Accounted(d'.positions, key) && key != newKey {
        var j :| 0 <= j < |d'.positions| && Accounts(d'.positions[j], key);
        assert Accounts(d.positions[j], key);
      }
    }
  }

  lemma RowKeepsDesk(k: AccountKey, d: Desk, i: nat, s: Settlement, initial: int)
    requires DeskOk(k, d, initial) && i < |d.positions| && Settles(d.positions[i], s.mapId)
    ensures DeskOk(k, SettleRow(d, i, s), initial)
  {
    RowKeepsBalances(d, i, s, initial);
    assert RowOk(d.positions[i]);
    WinCoversStake(d.positions[i], s);
    var e := SettledEntry(d.account, d.positions[i], s);
    AppendKeepsJournal(d, e, SettledAccount(d.account, d.positions[i], s), SettleRow(d, i, s).positions, initial);
    RowKeepsKeys(k, d, i, s);
  }

  /** A desk in the middle of the settlement loop: the rows gone through, then the rows still to come. */
  ghost function Midway(done: Desk, rest: seq<Position>): Desk {
    done.(positions := done.positions + rest)
  }

  lemma IterationKeepsDesk(k: AccountKey, done: Desk, p: Position, rest: seq<Position>, s: Settlement, initial: int)
    requires DeskOk(k, Midway(done, [p] + rest), initial)
    ensures DeskOk(k, Midway(ReleaseOne(done, p, s), rest), initial)
  {
    var here, i := Midway(done, [p] + rest), |done.positions|;
    assert here.positions[i] == p;
    if Settles(p, s.mapId) {
      RowKeepsDesk(k, here, i, s, initial);
      assert here.positions[i := SettledPosition(p, s)] == done.positions + [SettledPosition(p, s)] + rest;
      assert SettleRow(here, i, s) == Midway(ReleaseOne(done, p, s), rest);
    } else {
      assert here == Midway(ReleaseOne(done, p, s), rest) by {
        assert done.positions + [p] + rest == done.positions + ([p] + rest);
      }
    }
  }

  /** The settlement loop keeps the invariant, whatever rows follow the ones it has gone through. */
  lemma {:induction false} ReleaseKeepsDesk(
    k: AccountKey, d: Desk, ps: seq<Position>, rest: seq<Position>, s: Settlement, initial: int)
    requires DeskOk(k, d.(positions := ps + rest), initial)
    ensures DeskOk(k, Midway(Release(d.account, d.ledger, ps, s), rest), initial)
  {
    if ps == [] {
      assert d.(positions := ps + rest) == Midway(Desk(d.account, [], d.ledger), rest);
    } else {
      var n := |ps| - 1;
      assert ps[..n] + ([ps[n]] + rest) == ps + rest;
      ReleaseKeepsDesk(k, d, ps[..n], [ps[n]] + rest, s, initial);
      IterationKeepsDesk(k, Release(d.account, d.ledger, ps[..n], s), ps[n], rest, s, initial);
    }
  }

  lemma SettleKeepsDesk(k: AccountKey, d: Desk, s: Settlement, initial: int)
    requires DeskOk(k, d, initial)
    ensures DeskOk(k, SettleDesk(d, s), initial)
  {
    assert d.(positions := d.positions + []) == d by {
      assert d.positions + [] == d.positions;
    }
    ReleaseKeepsDesk(k, d, d.positions, [], s, initial);
    var r := Release(d.account, d.ledger, d.positions, s);
    assert r.positions + [] == r.positions;
    assert forall j :: 0 <= j < |r.positions| ==> OpenStake(r.positions[j]) >= 0;
    SumNonNegative(OpenStake, r.positions);
  }

  // ---- The order of the rows ----------------------------------------------------------

  function Paid(s: Settlement): Position -> int {
    (p: Position) => if Settles(p, s.mapId) then Payout(p, s) else 0
  }

  function Freed(s: Settlement): Position -> int {
    (p: Position) => if Settles(p, s.mapId) then p.stake else 0
  }

  lemma {:induction false} ReleaseMoves(a: Account, ledger: seq<Entry>, ps: seq<Position>, s: Settlement)
    ensures Release(a, ledger, ps, s).account
            == a.(cash := a.cash + SumBy(Paid(s), ps), locked := a.locked - SumBy(Freed(s), ps),
                  pnl := a.pnl + SumBy(Paid(s), ps) - SumBy(Freed(s), ps))
  {
    if ps != [] {
      ReleaseMoves(a, ledger, ps[..|ps| - 1], s);
    }
  }

  /** In whatever order the rows of an account are settled, its balances, and so its risk columns, end up the same. */
  lemma SettlementOrderIsIrrelevant(d: Desk, ps: seq<Position>, s: Settlement)
    requires multiset(ps) == multiset(d.positions)
    ensures SettleDesk(d.(positions := ps), s).account == SettleDesk(d, s).account
  {
    ReleaseMoves(d.account, d.ledger, ps, s);
    ReleaseMoves(d.account, d.ledger, d.positions, s);
    var zero := (p: Position) => 0.0;
    SumsIgnoreOrder(Paid(s), zero, ps, d.positions);
    SumsIgnoreOrder(Freed(s), zero, ps, d.positions);
    SameOpen(ps, d.positions, s.mapId);
    SameOpen(d.positions, ps, s.mapId);
  }

  lemma SameOpen(ps: seq<Position>, qs: seq<Position>, mapId: int)
    requires multiset(ps) == multiset(qs)
    ensures HasOpen(ps, mapId) ==> HasOpen(qs, mapId)
  {
    if HasOpen(ps, mapId) {
      var i :| 0 <= i < |ps| && Settles(ps[i], mapId);
      assert ps[i] in multiset(qs);
      var j :| 0 <= j < |qs| && qs[j] == ps[i];
    }
  }

  // ---- Placing one row -----------------------------------------------------------------

  lemma NewDeskOk(k: AccountKey, initial: int, fundedAt: int)
    requires initial >= 0
    ensures DeskOk(k, NewDesk(k, initial, fundedAt), initial)
  {
    var d := NewDesk(k, initial, fundedAt);
    var e := d.ledger[0];
    assert d.ledger == [] + [e];
    SumSnoc(CashDelta, [], e);
    SumSnoc(LockedDelta, [], e);
    SumSnoc(PnlDelta, [], e);
    assert d.ledger[..1] == d.ledger;
    assert RunningAt(d.ledger, 0);
  }

  /** A freshly decided row is well formed, and an accepted one is covered by the cash it saw. */
  lemma NewRowOk(a: Account, r: Request)
    requires Wants(r) && r.scope.Some? && r.snapshot.Some?
    ensures var p := PositionFor(a, r);
            RowOk(p) && (p.status == Open ==> p.stake <= a.cash) && (p.status == Open || p.status.Rejected?)
  {
  }

  lemma PlaceKeepsKeys(k: AccountKey, d: Desk, p: Position)
    requires KeysOk(k, d) && !HasDecision(d.positions, p.decision) && (p.status == Open || p.status.Rejected?)
    ensures KeysOk(k, PlaceOnDesk(d, p))
  {
    var d' := PlaceOnDesk(d, p);
    var newKey := PlaceKey(p.decision);
    assert d'.positions[|d.positions|] == p;
    forall key
      ensures Accounted(d'.positions, key) <==> Accounted(d.positions, key) || (p.status == Open && key == newKey)
    {
      assert Accounts(p, key) <==> p.status == Open && key == newKey;
      if Accounted(d.positions, key) {
        var j :| 0 <= j < |d.positions| && Accounts(d.positions[j], key);
        assert Accounts(d'.positions[j], key);
      }
      if p.status == Open && key == newKey {
        assert Accounts(d'.positions[|d.positions|], key);
      }
    }
    if p.status == Open {
      assert !Accounted(d.positions, newKey);
      assert !InLedger(d.ledger, newKey);
      forall key
        ensures InLedger(d'.ledger, key) <==> InLedger(d.ledger, key) || key == newKey
      {
        assert d'.ledger[|d.ledger|].key == newKey;
        if InLedger(d.ledger, key) {
          var j :| 0 <= j < |d.ledger| && d.ledger[j].key == key;
          assert d'.ledger[j].key == key;
        }
      }
    }
  }

  lemma PlaceKeepsDesk(k: AccountKey, d: Desk, p: Position, initial: int)
    requires DeskOk(k, d, initial) && !HasDecision(d.positions, p.decision)
    requires RowOk(p) && (p.status == Open || p.status.Rejected?)
    requires p.status == Open ==> p.stake <= d.account.cash
    ensures DeskOk(k, PlaceOnDesk(d, p), initial)
  {
    PlaceKeepsKeys(k, d, p);
    SumSnoc(OpenStake, d.positions, p);
    SumSnoc(RealizedPnl, d.positions, p);
    if p.status == Open {
      var d' := PlaceOnDesk(d, p);
      AppendKeepsJournal(d, d'.ledger[|d.ledger|], d'.account, d'.positions, initial);
    }
  }

  // ---- The whole book ------------------------------------------------------------------

  function Decisions(ps: seq<Position>): set<int> {
    set i | 0 <= i < |ps| :: ps[i].decision
  }

  ghost predicate BookOk(b: Book, initial: int) {
    && (forall k :: k in b ==> DeskOk(k, b[k], initial))
    && (forall k, k' :: k in b && k' in b && k != k' ==> Decisions(b[k].positions) !! Decisions(b[k'].positions))
  }

  lemma SettleKeepsDecisions(d: Desk, s: Settlement)
    ensures |SettleDesk(d, s).positions| == |d.positions|
    ensures forall i :: 0 <= i < |d.positions| ==>
              && SettleDesk(d, s).positions[i].decision == d.positions[i].decision
              && (d.positions[i].status != Open ==> SettleDesk(d, s).positions[i] == d.positions[i])
    ensures Decisions(SettleDesk(d, s).positions) == Decisions(d.positions)
  {
    ReleaseShape(d.account, d.ledger, d.positions, s);
  }

  lemma SettleKeepsBook(b: Book, s: Settlement, initial: int)
    requires BookOk(b, initial)
    ensures BookOk(SettleBook(b, s), initial)
  {
    forall k | k in b
      ensures DeskOk(k, SettleBook(b, s)[k], initial)
      ensures Decisions(SettleBook(b, s)[k].positions) == Decisions(b[k].positions)
    {
      SettleKeepsDesk(k, b[k], s, initial);
      SettleKeepsDecisions(b[k], s);
    }
  }

  lemma DecisionsSnoc(ps: seq<Position>, p: Position)
    ensures Decisions(ps + [p]) == Decisions(ps) + {p.decision}
    ensures HasDecision(ps, p.decision) <==> p.decision in Decisions(ps)
  {
    var ps' := ps + [p];
    forall i | 0 <= i < |ps'|
      ensures ps'[i].decision in Decisions(ps) + {p.decision}
    {
      assert i < |ps| ==> ps[i].decision in Decisions(ps);
    }
    forall i | 0 <= i < |ps|
      ensures ps[i].decision in Decisions(ps')
    {
      assert ps'[i] == ps[i];
    }
    assert ps'[|ps|] == p;
  }

  lemma FundingKeepsBook(b: Book, k: AccountKey, d: Desk, initial: int)
    requires BookOk(b, initial) && k !in b && DeskOk(k, d, initial) && d.positions == []
    ensures BookOk(b[k := d], initial)
  {
    assert Decisions(d.positions) == {};
  }

  lemma FundingRecordsNothing(b: Book, k: AccountKey, d: Desk, id: int)
    requires k !in b && d.positions == [] && !Recorded(b, id)
    ensures !Recorded(b[k := d], id)
  {
    var b' := b[k := d];
    assert forall k' :: k' in b' ==> !HasDecision(b'[k'].positions, id);
  }

  lemma AddingKeepsBook(b: Book, k: AccountKey, p: Position, initial: int)
    requires BookOk(b, initial) && k in b && !Recorded(b, p.decision)
    requires RowOk(p) && (p.status == Open || p.status.Rejected?)
    requires p.status == Open ==> p.stake <= b[k].account.cash
    ensures BookOk(b[k := PlaceOnDesk(b[k], p)], initial)
  {
    assert !HasDecision(b[k].positions, p.decision);
    PlaceKeepsDesk(k, b[k], p, initial);
    assert PlaceOnDesk(b[k], p).positions == b[k].positions + [p];
    DecisionsSnoc(b[k].positions, p);
    NobodyDecided(b, p);
    ReplacingKeepsBook(b, k, PlaceOnDesk(b[k], p), p.decision, initial);
  }

  lemma NobodyDecided(b: Book, p: Position)
    requires !Recorded(b, p.decision)
    ensures forall k :: k in b ==> p.decision !in Decisions(b[k].positions)
  {
    forall k | k in b
      ensures p.decision !in Decisions(b[k].positions)
    {
      assert !HasDecision(b[k].positions, p.decision);
      DecisionsSnoc(b[k].positions, p);
    }
  }

  lemma ReplacingKeepsBook(b: Book, k: AccountKey, d: Desk, decision: int, initial: int)
    requires BookOk(b, initial) && k in b && DeskOk(k, d, initial)
    requires Decisions(d.positions) == Decisions(b[k].positions) + {decision}
    requires forall k' :: k' in b ==> decision !in Decisions(b[k'].positions)
    ensures BookOk(b[k := d], initial)
  {
  }

  lemma PlaceKeepsBook(b: Book, r: Request, initial: int)
    requires BookOk(b, initial) && initial >= 0
    ensures BookOk(Place(b, r, initial), initial)
  {
    if Adds(b, r) {
      var b1, k := Funded(b, r, initial), KeyOf(r);
      var d := NewDesk(k, initial, FundedAt(r.eventStartedAt, r.snapshot.value.decisionAt));
      if k !in b {
        NewDeskOk(k, initial, FundedAt(r.eventStartedAt, r.snapshot.value.decisionAt));
        FundingKeepsBook(b, k, d, initial);
        FundingRecordsNothing(b, k, d, r.id);
      }
      NewRowOk(b1[k].account, r);
      AddingKeepsBook(b1, k, PositionFor(b1[k].account, r), initial);
    }
  }

  lemma StepKeepsBook(b: Book, c: Call, initial: int)
    requires BookOk(b, initial) && initial >= 0
    ensures BookOk(Step(b, c, initial), initial)
  {
    match c
    case RecordCall(r) =>
      PlaceKeepsBook(b, r, initial);
      if SettlesAtOnce(b, r, initial) {
        SettleKeepsBook(Place(b, r, initial), StoredSettlement(r), initial);
      }
    case SettleCall(s) =>
      SettleKeepsBook(b, s, initial);
  }

  /** Over any interleaving of calls, on every account: the books balance, and the journal refines them. */
  lemma {:induction false} EveryRunBalances(calls: seq<Call>, initial: int)
    requires initial >= 0
    ensures BookOk(Run(calls, initial), initial)
  {
    if calls != [] {
      EveryRunBalances(calls[..|calls| - 1], initial);
      StepKeepsBook(Run(calls[..|calls| - 1], initial), calls[|calls| - 1], initial);
    }
  }

  /** The balances of every account in every run, spelled out. */
  lemma EveryAccountBalances(calls: seq<Call>, k: AccountKey, initial: int)
    requires initial >= 0 && k in Run(calls, initial)
    ensures var d := Run(calls, initial)[k];
            && d.account.cash + d.account.locked == initial + d.account.pnl
            && d.account.locked == SumBy(OpenStake, d.positions) && d.account.cash >= 0
            && (forall i :: 0 <= i < |d.positions| && d.positions[i].status == Won ==>
                  d.positions[i].payout.Some? && d.positions[i].payout.value >= d.positions[i].stake)
            && (forall i :: 0 <= i < |d.ledger| ==> RunningAt(d.ledger, i))
            && d.account.cash == SumBy(CashDelta, d.ledger) && d.account.locked == SumBy(LockedDelta, d.ledger)
  {
    EveryRunBalances(calls, initial);
    assert DeskOk(k, Run(calls, initial)[k], initial);
    var ps := Run(calls, initial)[k].positions;
    assert forall i :: 0 <= i < |ps| ==> RowOk(ps[i]);
  }

  // ---- Once and for all ----------------------------------------------------------------

  /** Every account and row of `b` is still in `b'` at the same place, and rows that were closed are unchanged. */
  ghost predicate Extends(b: Book, b': Book) {
    forall k :: k in b ==> k in b' && DeskExtends(b[k], b'[k])
  }

  ghost predicate DeskExtends(d: Desk, d': Desk) {
    && |d.positions| <= |d'.positions|
    && d.ledger <= d'.ledger
    && (d.account.status == Bankrupt ==> d'.account.status == Bankrupt)
    && forall i :: 0 <= i < |d.positions| ==>
         && d'.positions[i].decision == d.positions[i].decision
         && (d.positions[i].status != Open ==> d'.positions[i] == d.positions[i])
  }

  lemma BankruptStays(k: AccountKey, d: Desk, s: Settlement, initial: int)
    requires DeskOk(k, d, initial) && d.account.status == Bankrupt
    ensures SettleDesk(d, s).account.status == Bankrupt
  {
    var ps, zero := d.positions, d.account;
    forall i | 0 <= i < |ps|
      ensures OpenStake(ps[i]) == 0
    {
      assert forall j :: 0 <= j < |ps| ==> OpenStake(ps[j]) >= 0;
      SumCovers(OpenStake, ps, i);
    }
    ReleaseOfNothing(d.account, d.ledger, ps, s);
  }

  /** Releasing positions with no money in them moves no money. */
  lemma {:induction false} ReleaseOfNothing(a: Account, ledger: seq<Entry>, ps: seq<Position>, s: Settlement)
    requires forall i :: 0 <= i < |ps| ==> RowOk(ps[i]) && OpenStake(ps[i]) == 0
    ensures Release(a, ledger, ps, s).account == a
  {
    if ps != [] {
      var p := ps[|ps| - 1];
      ReleaseOfNothing(a, ledger, ps[..|ps| - 1], s);
      if Settles(p, s.mapId) {
        WinCoversStake(p, s);
      }
    }
  }

  lemma SettleExtends(b: Book, s: Settlement, initial: int)
    requires BookOk(b, initial)
    ensures Extends(b, SettleBook(b, s))
  {
    forall k | k in b
      ensures DeskExtends(b[k], SettleBook(b, s)[k])
    {
      ReleaseShape(b[k].account, b[k].ledger, b[k].positions, s);
      if b[k].account.status == Bankrupt {
        BankruptStays(k, b[k], s, initial);
      }
    }
  }

  lemma AddingExtends(b: Book, k: AccountKey, p: Position)
    requires k in b
    ensures Extends(b, b[k := PlaceOnDesk(b[k], p)])
  {
    var d := PlaceOnDesk(b[k], p);
    assert d.positions == b[k].positions + [p];
    assert DeskExtends(b[k], d);
  }

  lemma PlaceExtends(b: Book, r: Request, initial: int)
    ensures Extends(b, Place(b, r, initial))
  {
    if Adds(b, r) {
      var b1, k := Funded(b, r, initial), KeyOf(r);
      assert Extends(b, b1);
      AddingExtends(b1, k, PositionFor(b1[k].account, r));
      ExtendsTransitive(b, b1, Place(b, r, initial));
    }
  }

  /** A position row that was added is found again by every later lookup for its decision. */
  lemma PlaceRecords(b: Book, r: Request, initial: int)
    requires Adds(b, r)
    ensures Recorded(Place(b, r, initial), r.id)
  {
    var b1, k := Funded(b, r, initial), KeyOf(r);
    var d := PlaceOnDesk(b1[k], PositionFor(b1[k].account, r));
    assert d.positions[|b1[k].positions|].decision == r.id;
    assert HasDecision(d.positions, r.id);
    assert Place(b, r, initial)[k] == d;
  }

  lemma SettleRecords(b: Book, s: Settlement, id: int)
    requires Recorded(b, id)
    ensures Recorded(SettleBook(b, s), id)
  {
    var k :| k in b && HasDecision(b[k].positions, id);
    var i :| 0 <= i < |b[k].positions| && b[k].positions[i].decision == id;
    SettleKeepsDecisions(b[k], s);
    assert SettleBook(b, s)[k].positions[i].decision == id;
  }

  lemma StepExtends(b: Book, c: Call, initial: int)
    requires BookOk(b, initial) && initial >= 0
    ensures Extends(b, Step(b, c, initial))
  {
    match c
    case SettleCall(s) => SettleExtends(b, s, initial);
    case RecordCall(r) =>
      var b' := Place(b, r, initial);
      PlaceExtends(b, r, initial);
      if SettlesAtOnce(b, r, initial) {
        PlaceKeepsBook(b, r, initial);
        SettleExtends(b', StoredSettlement(r), initial);
        ExtendsTransitive(b, b', SettleBook(b', StoredSettlement(r)));
      }
  }

  lemma ExtendsTransitive(b: Book, b1: Book, b2: Book)
    requires Extends(b, b1) && Extends(b1, b2)
    ensures Extends(b, b2)
  {
    forall k | k in b
      ensures k in b2 && DeskExtends(b[k], b2[k])
    {
      assert DeskExtends(b[k], b1[k]) && DeskExtends(b1[k], b2[k]);
    }
  }

  /**
   Along any run a position leaves OPEN at most once and is frozen from then on, journal rows are
   never rewritten, and a bankrupt account stays bankrupt with nothing in cash or locked.
   */
  lemma {:induction false} ClosedForever(calls: seq<Call>, more: seq<Call>, initial: int)
    requires initial >= 0
    ensures Extends(Run(calls, initial), Run(calls + more, initial))
    ensures forall k :: k in Run(calls, initial) && Run(calls, initial)[k].account.status == Bankrupt ==>
              var a := Run(calls + more, initial)[k].account;
              a.status == Bankrupt && a.cash == 0 && a.locked == 0
  {
    EveryRunBalances(calls + more, initial);
    if more == [] {
      assert calls + more == calls;
    } else {
      var n := |more| - 1;
      ClosedForever(calls, more[..n], initial);
      assert (calls + more)[..|calls + more| - 1] == calls + more[..n];
      var b := Run(calls + more[..n], initial);
      EveryRunBalances(calls + more[..n], initial);
      StepExtends(b, more[n], initial);
      ExtendsTransitive(Run(calls, initial), b, Run(calls + more, initial));
    }
    forall k | k in Run(calls, initial) && Run(calls, initial)[k].account.status == Bankrupt
      ensures var a := Run(calls + more, initial)[k].account;
              a.status == Bankrupt && a.cash == 0 && a.locked == 0
    {
      assert DeskExtends(Run(calls, initial)[k], Run(calls + more, initial)[k]);
      assert DeskOk(k, Run(calls + more, initial)[k], initial);
    }
  }

  /** Settling a map again, even with another winner or a conflict, changes nothing. */
  lemma SettlingTwice(b: Book, s: Settlement, again: Settlement)
    requires again.mapId == s.mapId
    ensures SettleBook(SettleBook(b, s), again) == SettleBook(b, s)
  {
    forall k | k in b
      ensures !HasOpen(SettleBook(b, s)[k].positions, again.mapId)
    {
      NothingLeftOpen(b[k], s);
    }
    SettleBookIdle(SettleBook(b, s), again);
  }

  /** Recording a decision again, even with other content, changes nothing once it has a position row. */
  lemma RecordingTwice(b: Book, r: Request, again: Request, initial: int)
    requires again.id == r.id && Adds(b, r)
    ensures Record(Record(b, r, initial), again, initial) == Record(b, r, initial)
  {
    PlaceRecords(b, r, initial);
    if SettlesAtOnce(b, r, initial) {
      SettleRecords(Place(b, r, initial), StoredSettlement(r), r.id);
    }
  }
}
