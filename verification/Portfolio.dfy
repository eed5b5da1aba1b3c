/**
 The shadow bankroll of one AI experiment inside one canonical event: accounts, positions and
 the append-only ledger. Balances are whole cents. The three tables are kept together per
 account (a `Desk`), because every position and ledger row names exactly one account.
 */
module Portfolio {
  import opened Common
  import opened Money

  datatype Experiment = Experiment(
    provider: string, model: string, promptVersion: string,
    policyVersion: string, viewVersion: string, executionConfigVersion: string)

  datatype AccountKey = AccountKey(event: string, experiment: Experiment)

  datatype AccountStatus = Active | Bankrupt

  datatype Account = Account(
    initial: int, cash: int, locked: int, pnl: int,
    peak: int, maxDrawdown: int, maxDrawdownPct: real, status: AccountStatus)

  datatype Side = BuyA | BuyB

  datatype Action = Buy(side: Side) | NoBuy | InsufficientData

  datatype PositionStatus = Open | Rejected(reason: Rejection) | Won | Lost | Void

  datatype Rejection =
    | MapAlreadySettled
    | SnapshotNotExecutable
    | MarketNotExecutable
    | MissingDecisionOdds
    | InsufficientCash

  datatype Position = Position(
    decision: int, mapId: int, side: Side, cashBefore: int, stake: int, odds: Option<real>,
    status: PositionStatus, openedAt: int,
    payout: Option<int>, pnl: Option<int>, settledAt: Option<int>)

  datatype EntryType = EventFunded | BetPlaced | BetSettledWin | BetSettledLoss | BetVoid

  datatype DedupeKey = FundKey(account: AccountKey) | PlaceKey(decision: int) | SettleKey(position: int)

  datatype Entry = Entry(
    kind: EntryType, key: DedupeKey, cashDelta: int, lockedDelta: int, pnlDelta: int,
    cashAfter: int, lockedAfter: int, equityAfter: int, occurredAt: int)

  datatype Desk = Desk(account: Account, positions: seq<Position>, ledger: seq<Entry>)

  type Book = map<AccountKey, Desk>

  // ---- What the callers hand over ------------------------------------------------------

  datatype Teams = Teams(a: int, b: int)

  datatype Scope = Scope(event: string, mapId: int, teams: Teams)

  datatype Observation = Observation(team: Option<int>, price: Option<real>)

  datatype Snapshot = Snapshot(
    decisionAt: int, snapshotEligible: bool, marketEligible: bool, observations: seq<Observation>)

  /** A persisted result row; `winner` is absent while unknown or in conflict. */
  datatype MapResult = MapResult(winner: Option<int>, conflict: bool, basicUsableAt: int, settledAt: int)

  /** The decision row with the rows `record_decision_position` looks up for it. Stakes are cents, unrounded. */
  datatype Request = Request(
    id: int, parsed: bool, action: Action, stake: Option<real>, experiment: Experiment,
    availableAt: int, scope: Option<Scope>, snapshot: Option<Snapshot>,
    eventStartedAt: Option<int>, result: Option<MapResult>)

  datatype Settlement = Settlement(mapId: int, teams: Teams, winner: Option<int>, conflict: bool, at: int)

  // ---- Specification: one account ------------------------------------------------------

  function Equity(a: Account): int {
    a.cash + a.locked
  }

  function NewDesk(key: AccountKey, initial: int, fundedAt: int): Desk {
    Desk(Account(initial, initial, 0, 0, initial, 0, 0.0, Active), [],
         [Entry(EventFunded, FundKey(key), initial, 0, 0, initial, 0, initial, fundedAt)])
  }

  function FundedAt(startedAt: Option<int>, reference: int): int {
    match startedAt
    case Some(t) => Min(t, reference)
    case None => reference
  }

  /** The price of the first observation for the team, if it is a real price above one. */
  function SelectedOdds(observations: seq<Observation>, team: int): (odds: Option<real>)
    ensures odds.Some? ==> odds.value > 1.0
  {
    if observations == [] then None
    else if observations[0].team != Some(team) then SelectedOdds(observations[1..], team)
    else match observations[0].price
      case Some(p) => if p > 1.0 then Some(p) else None
      case None => None
  }

  function OddsFor(side: Side, snapshot: Snapshot, teams: Teams): Option<real> {
    SelectedOdds(snapshot.observations, if side == BuyA then teams.a else teams.b)
  }

  /** The first rejection that applies, in the order the checks are made. */
  function RejectionOf(
    result: Option<MapResult>, availableAt: int, snapshot: Snapshot, odds: Option<real>, stake: int, cash: int)
    : Option<Rejection>
  {
    if result.Some? && result.value.basicUsableAt <= availableAt then Some(MapAlreadySettled)
    else if !snapshot.snapshotEligible then Some(SnapshotNotExecutable)
    else if !snapshot.marketEligible then Some(MarketNotExecutable)
    else if odds.None? then Some(MissingDecisionOdds)
    else if stake > cash then Some(InsufficientCash)
    else None
  }

  /** True iff the decision asks for a position at all. */
  predicate Wants(r: Request) {
    r.parsed && r.action.Buy? && r.stake.Some? && r.stake.value > 0.0
  }

  function PositionFor(a: Account, r: Request): Position
    requires Wants(r) && r.scope.Some? && r.snapshot.Some?
  {
    var stake := RoundHalfUp(r.stake.value);
    var odds := OddsFor(r.action.side, r.snapshot.value, r.scope.value.teams);
    var rejection := RejectionOf(r.result, r.availableAt, r.snapshot.value, odds, stake, a.cash);
    Position(r.id, r.scope.value.mapId, r.action.side, a.cash, stake, odds,
             if rejection.Some? then Rejected(rejection.value) else Open,
             r.availableAt, None, None, None)
  }

  /** Adds the position; an accepted one moves its stake from cash to locked and is journalled. */
  function PlaceOnDesk(d: Desk, p: Position): Desk {
    if p.status != Open then d.(positions := d.positions + [p])
    else
      var a := d.account.(cash := d.account.cash - p.stake, locked := d.account.locked + p.stake);
      Desk(a, d.positions + [p],
           d.ledger + [Entry(BetPlaced, PlaceKey(p.decision), -p.stake, p.stake, 0,
                             a.cash, a.locked, Equity(a), p.openedAt)])
  }

  predicate Settles(p: Position, mapId: int) {
    p.mapId == mapId && p.status == Open
  }

  predicate HasOpen(ps: seq<Position>, mapId: int) {
    exists i :: 0 <= i < |ps| && Settles(ps[i], mapId)
  }

  predicate ValidWinner(s: Settlement) {
    s.winner == Some(s.teams.a) || s.winner == Some(s.teams.b)
  }

  function Outcome(p: Position, s: Settlement): PositionStatus {
    if s.conflict || !ValidWinner(s) then Void
    else if s.winner == Some(if p.side == BuyA then s.teams.a else s.teams.b) then Won
    else Lost
  }

  function Payout(p: Position, s: Settlement): int {
    match Outcome(p, s)
    case Void => p.stake
    case Won => if p.odds.Some? then RoundHalfUp(p.stake as real * p.odds.value) else 0
    case _ => 0
  }

  function SettledPosition(p: Position, s: Settlement): Position {
    p.(status := Outcome(p, s), payout := Some(Payout(p, s)),
       pnl := Some(Payout(p, s) - p.stake), settledAt := Some(s.at))
  }

  function SettledAccount(a: Account, p: Position, s: Settlement): Account {
    a.(cash := a.cash + Payout(p, s), locked := a.locked - p.stake, pnl := a.pnl + Payout(p, s) - p.stake)
  }

  function SettledEntry(a: Account, p: Position, s: Settlement): Entry {
    var after := SettledAccount(a, p, s);
    var kind := match Outcome(p, s) case Void => BetVoid case Won => BetSettledWin case _ => BetSettledLoss;
    Entry(kind, SettleKey(p.decision), Payout(p, s), -p.stake, Payout(p, s) - p.stake,
          after.cash, after.locked, Equity(after), s.at)
  }

  /** Appends one position to the part of a desk already gone through, settling it if it is open on the map. */
  function ReleaseOne(done: Desk, p: Position, s: Settlement): Desk {
    if Settles(p, s.mapId) then
      Desk(SettledAccount(done.account, p, s),
           done.positions + [SettledPosition(p, s)],
           done.ledger + [SettledEntry(done.account, p, s)])
    else done.(positions := done.positions + [p])
  }

  /** The desk after releasing every open position of the map among `ps`, in row order; risk not yet updated. */
  function Release(a: Account, ledger: seq<Entry>, ps: seq<Position>, s: Settlement): Desk {
    if ps == [] then Desk(a, [], ledger)
    else ReleaseOne(Release(a, ledger, ps[..|ps| - 1], s), ps[|ps| - 1], s)
  }

  function Drawdown(a: Account): int {
    Max(a.peak, Equity(a)) - Equity(a)
  }

  function WithRisk(a: Account): Account {
    var peak := Max(a.peak, Equity(a));
    var pct := if peak > 0 then Drawdown(a) as real / peak as real else 0.0;
    a.(peak := peak,
       maxDrawdown := Max(a.maxDrawdown, Drawdown(a)),
       maxDrawdownPct := MaxReal(a.maxDrawdownPct, pct),
       status := if a.cash <= 0 && a.locked <= 0 then Bankrupt else Active)
  }

  function SettleDesk(d: Desk, s: Settlement): Desk {
    if !HasOpen(d.positions, s.mapId) then d
    else
      var r := Release(d.account, d.ledger, d.positions, s);
      r.(account := WithRisk(r.account))
  }

  // ---- Specification: the whole book ---------------------------------------------------

  function SettleBook(b: Book, s: Settlement): Book {
    map k | k in b :: SettleDesk(b[k], s)
  }

  predicate HasDecision(ps: seq<Position>, id: int) {
    exists i :: 0 <= i < |ps| && ps[i].decision == id
  }

  predicate Recorded(b: Book, id: int) {
    exists k :: k in b && HasDecision(b[k].positions, id)
  }

  function KeyOf(r: Request): AccountKey
    requires r.scope.Some?
  {
    AccountKey(r.scope.value.event, r.experiment)
  }

  function EnsureAccount(b: Book, key: AccountKey, initial: int, fundedAt: int): Book {
    if key in b then b else b[key := NewDesk(key, initial, fundedAt)]
  }

  /** True iff the call gets as far as adding a position row. */
  predicate Adds(b: Book, r: Request) {
    Wants(r) && !Recorded(b, r.id) && r.scope.Some? && r.snapshot.Some?
  }

  function Funded(b: Book, r: Request, initial: int): Book
    requires r.scope.Some? && r.snapshot.Some?
  {
    EnsureAccount(b, KeyOf(r), initial, FundedAt(r.eventStartedAt, r.snapshot.value.decisionAt))
  }

  function Place(b: Book, r: Request, initial: int): Book {
    if !Adds(b, r) then b
    else
      var b' := Funded(b, r, initial);
      var k := KeyOf(r);
      b'[k := PlaceOnDesk(b'[k], PositionFor(b'[k].account, r))]
  }

  /** True iff an accepted placement meets an already stored result and is settled at once. */
  predicate SettlesAtOnce(b: Book, r: Request, initial: int) {
    Adds(b, r) && r.result.Some? &&
    var b' := Funded(b, r, initial);
    PositionFor(b'[KeyOf(r)].account, r).status == Open
  }

  function StoredSettlement(r: Request): Settlement
    requires r.scope.Some? && r.result.Some?
  {
    Settlement(r.scope.value.mapId, r.scope.value.teams, r.result.value.winner, r.result.value.conflict,
               r.result.value.settledAt)
  }

  function Record(b: Book, r: Request, initial: int): Book {
    if SettlesAtOnce(b, r, initial) then SettleBook(Place(b, r, initial), StoredSettlement(r))
    else Place(b, r, initial)
  }

  // ---- The service ---------------------------------------------------------------------

  datatype RecordOutcome = NoPosition | PositionRow(position: Position) | SnapshotMissing

  /** The row with the decision id, if any. */
  ghost predicate IsRow(b: Book, p: Position) {
    exists k :: k in b && p in b[k].positions
  }

  class TournamentPortfolioService {
    const initialBankroll: int
    var book: Book

    /** The bankroll is given in cents, unrounded; a non-positive one is refused by the source. */
    constructor (bankroll: real)
      requires bankroll > 0.0
      ensures book == map[] && initialBankroll == RoundHalfUp(bankroll) >= 0
    {
      initialBankroll := RoundHalfUp(bankroll);
      book := map[];
    }

    method EnsureAccountRow(key: AccountKey, startedAt: Option<int>, reference: int)
      modifies this`book
      ensures book == EnsureAccount(old(book), key, initialBankroll, FundedAt(startedAt, reference))
    {
      if key in book {
        return;
      }
      var fundedAt := reference;
      if startedAt.Some? && startedAt.value < reference {
        fundedAt := startedAt.value;
      }
      book := book[key := NewDesk(key, initialBankroll, fundedAt)];
    }

    /** Settles one position row and moves its account; a row that is not open on the map stays as it is. */
    method SettlePosition(done: Desk, p: Position, s: Settlement) returns (d: Desk)
      ensures d == ReleaseOne(done, p, s)
    {
      var account, ledger, position := done.account, done.ledger, p;
      if p.mapId == s.mapId && p.status == Open {
        var payout, status, kind := 0, Lost, BetSettledLoss;
        if s.conflict || !(s.winner == Some(s.teams.a) || s.winner == Some(s.teams.b)) {
          payout, status, kind := p.stake, Void, BetVoid;
        } else if (p.side == BuyA && s.winner == Some(s.teams.a)) || (p.side == BuyB && s.winner == Some(s.teams.b)) {
          payout := if p.odds.Some? then RoundHalfUp(p.stake as real * p.odds.value) else 0;
          status, kind := Won, BetSettledWin;
        }
        var pnl := payout - p.stake;
        position := p.(status := status, payout := Some(payout), pnl := Some(pnl), settledAt := Some(s.at));
        account := account.(cash := account.cash + payout, locked := account.locked - p.stake, pnl := account.pnl + pnl);
        ledger := ledger + [Entry(kind, SettleKey(p.decision), payout, -p.stake, pnl,
                                  account.cash, account.locked, account.cash + account.locked, s.at)];
      }
      d := Desk(account, done.positions + [position], ledger);
    }

    /** Releases the open positions of one account on the map, one after the other. */
    method SettleAccount(d: Desk, s: Settlement) returns (d': Desk, settled: nat)
      ensures d' == SettleDesk(d, s)
      ensures settled > 0 <==> HasOpen(d.positions, s.mapId)
    {
      var done := Desk(d.account, [], d.ledger);
      settled := 0;
      for i := 0 to |d.positions|
        invariant done == Release(d.account, d.ledger, d.positions[..i], s)
        invariant settled > 0 <==> exists j :: 0 <= j < i && Settles(d.positions[j], s.mapId)
      {
        assert d.positions[..i + 1][..i] == d.positions[..i];
        done := SettlePosition(done, d.positions[i], s);
        if Settles(d.positions[i], s.mapId) {
          settled := settled + 1;
        }
      }
      assert d.positions[..|d.positions|] == d.positions;
      ReleaseShape(d.account, d.ledger, d.positions, s);
      d' := done;
      if settled > 0 {
        var account := UpdateRisk(done.account);
        d' := done.(account := account);
      }
    }

    /** Peak and drawdown after a settlement, then the bankruptcy flag. */
    method UpdateRisk(a: Account) returns (a': Account)
      ensures a' == WithRisk(a)
    {
      var equity := a.cash + a.locked;
      var peak := if equity > a.peak then equity else a.peak;
      var drawdown := peak - equity;
      a' := a.(peak := peak);
      if drawdown > a'.maxDrawdown {
        a' := a'.(maxDrawdown := drawdown);
      }
      var pct := if peak > 0 then drawdown as real / peak as real else 0.0;
      if pct > a'.maxDrawdownPct {
        a' := a'.(maxDrawdownPct := pct);
      }
      a' := a'.(status := if a.cash <= 0 && a.locked <= 0 then Bankrupt else Active);
    }

    /** Settles a map for every account; a map without a known series is left alone. */
    method SettleMap(mapId: int, series: Option<Teams>, winner: Option<int>, conflict: bool, at: int)
      returns (settled: nat)
      modifies this`book
      ensures series.None? ==> book == old(book) && settled == 0
      ensures series.Some? ==>
                && book == SettleBook(old(book), Settlement(mapId, series.value, winner, conflict, at))
                && (settled == 0 <==> book == old(book))
    {
      settled := 0;
      if series.None? {
        return;
      }
      var s := Settlement(mapId, series.value, winner, conflict, at);
      var pending := book.Keys;
      while pending != {}
        invariant pending <= old(book).Keys == book.Keys
        invariant forall k :: k in book ==> book[k] == if k in pending then old(book)[k] else SettleDesk(old(book)[k], s)
        invariant settled == 0 <==> forall k :: k in book && k !in pending ==> !HasOpen(old(book)[k].positions, mapId)
        decreases pending
      {
        var k :| k in pending;
        var d, n := SettleAccount(book[k], s);
        book := book[k := d];
        settled := settled + n;
        pending := pending - {k};
      }
      SettleBookIdle(old(book), s);
    }

    /** Opens (or rejects) the position of one AI decision, at most once per decision. */
    method RecordDecisionPosition(r: Request) returns (outcome: RecordOutcome)
      modifies this`book
      ensures book == Record(old(book), r, initialBankroll)
      ensures outcome.SnapshotMissing? <==> Wants(r) && !Recorded(old(book), r.id) && r.scope.Some? && r.snapshot.None?
      ensures outcome.NoPosition? <==> !Wants(r) || (!Recorded(old(book), r.id) && r.scope.None?)
      ensures outcome.PositionRow? ==> IsRow(book, outcome.position) && outcome.position.decision == r.id
    {
      if !r.parsed || !r.action.Buy? || r.stake.None? || r.stake.value <= 0.0 {
        return NoPosition;
      }
      if Recorded(book, r.id) {
        var k :| k in book && HasDecision(book[k].positions, r.id);
        var i :| 0 <= i < |book[k].positions| && book[k].positions[i].decision == r.id;
        return PositionRow(book[k].positions[i]);
      }
      if r.scope.None? {
        return NoPosition;
      }
      if r.snapshot.None? {
        return SnapshotMissing;
      }
      var scope, snapshot := r.scope.value, r.snapshot.value;
      var key := AccountKey(scope.event, r.experiment);
      EnsureAccountRow(key, r.eventStartedAt, snapshot.decisionAt);
      var desk := book[key];
      var stake := RoundHalfUp(r.stake.value);
      var odds := OddsFor(r.action.side, snapshot, scope.teams);
      var cashBefore := desk.account.cash;
      var status := Open;
      if r.result.Some? && r.result.value.basicUsableAt <= r.availableAt {
        status := Rejected(MapAlreadySettled);
      } else if !snapshot.snapshotEligible {
        status := Rejected(SnapshotNotExecutable);
      } else if !snapshot.marketEligible {
        status := Rejected(MarketNotExecutable);
      } else if odds.None? {
        status := Rejected(MissingDecisionOdds);
      } else if stake > cashBefore {
        status := Rejected(InsufficientCash);
      }
      var position := Position(r.id, scope.mapId, r.action.side, cashBefore, stake, odds, status,
                               r.availableAt, None, None, None);
      var positions := desk.positions + [position];
      var index := |desk.positions|;
      assert positions[index].decision == r.id;
      if status.Rejected? {
        book := book[key := desk.(positions := positions)];
        assert key in book && positions[index] in book[key].positions;
        return PositionRow(position);
      }
      var account := desk.account.(cash := cashBefore - stake, locked := desk.account.locked + stake);
      var entry := Entry(BetPlaced, PlaceKey(r.id), -stake, stake, 0,
                         account.cash, account.locked, account.cash + account.locked, r.availableAt);
      book := book[key := Desk(account, positions, desk.ledger + [entry])];
      assert book == Place(old(book), r, initialBankroll);
      if r.result.Some? {
        ReleaseShape(account, desk.ledger + [entry], positions, StoredSettlement(r));
        var _ := SettleMap(scope.mapId, Some(scope.teams), r.result.value.winner, r.result.value.conflict,
                           r.result.value.settledAt);
      }
      position := book[key].positions[index];
      assert key in book && position in book[key].positions;
      return PositionRow(position);
    }
  }

  // ---- Shape of a release --------------------------------------------------------------

  /** Releasing keeps every row in place: open ones of the map are settled, the others are untouched. */
  lemma {:induction false} ReleaseShape(a: Account, ledger: seq<Entry>, ps: seq<Position>, s: Settlement)
    ensures var r := Release(a, ledger, ps, s);
            && |r.positions| == |ps|
            && (forall i :: 0 <= i < |ps| ==>
                  r.positions[i] == if Settles(ps[i], s.mapId) then SettledPosition(ps[i], s) else ps[i])
            && ledger <= r.ledger
            && r.account.initial == a.initial
            && (!HasOpen(ps, s.mapId) ==> r == Desk(a, ps, ledger))
  {
    if ps != [] {
      var shorter := ps[..|ps| - 1];
      ReleaseShape(a, ledger, shorter, s);
      assert forall i :: 0 <= i < |shorter| ==> shorter[i] == ps[i];
      assert ps == shorter + [ps[|ps| - 1]];
    }
  }

  /** After a settlement nothing of that map is open any more. */
  lemma NothingLeftOpen(d: Desk, s: Settlement)
    ensures !HasOpen(SettleDesk(d, s).positions, s.mapId)
  {
    ReleaseShape(d.account, d.ledger, d.positions, s);
  }

  /** A settlement that finds nothing open leaves the book exactly as it was, and conversely. */
  lemma SettleBookIdle(b: Book, s: Settlement)
    ensures SettleBook(b, s) == b <==> forall k :: k in b ==> !HasOpen(b[k].positions, s.mapId)
  {
    forall k | k in b
      ensures SettleDesk(b[k], s) == b[k] <==> !HasOpen(b[k].positions, s.mapId)
    {
      NothingLeftOpen(b[k], s);
    }
    if SettleBook(b, s) == b {
      forall k | k in b
        ensures !HasOpen(b[k].positions, s.mapId)
      {
        assert SettleBook(b, s)[k] == b[k];
      }
    }
  }
}
