/** The shadow-bankroll policy on a parsed decision. Stakes and balances are in cents, unrounded. */
module StakePolicy {
  import opened Common
  import opened Money
  import opened Portfolio

  datatype Verdict = Accepted | StakeMissing | StakeExceedsBankroll | StakeWithoutBuy

  function ValidateDecision(action: Action, stake: Option<real>, bankrollBefore: real): Verdict {
    if action.Buy? then
      if stake.None? || stake.value <= 0.0 then StakeMissing
      else if stake.value > bankrollBefore + 0.5 then StakeExceedsBankroll
      else Accepted
    else if stake.Some? && stake.value != 0.0 then StakeWithoutBuy
    else Accepted
  }

  /** Everything `RejectionOf` checks before the cash. */
  predicate RejectedEarlier(r: Request)
    requires Wants(r) && r.scope.Some? && r.snapshot.Some?
  {
    || (r.result.Some? && r.result.value.basicUsableAt <= r.availableAt)
    || !r.snapshot.value.snapshotEligible
    || !r.snapshot.value.marketEligible
    || OddsFor(r.action.side, r.snapshot.value, r.scope.value.teams).None?
  }

  /**
   A decision the policy let through is turned down for lack of cash exactly when its stake lies
   the full half cent above the bankroll it saw and the account has gained nothing since: the
   tolerance of the policy then rounds up to a cent nobody has.
   */
  lemma CashRejectionExactly(a: Account, r: Request, bankroll: int)
    requires Wants(r) && r.scope.Some? && r.snapshot.Some?
    requires ValidateDecision(r.action, r.stake, bankroll as real) == Accepted
    requires 0 <= bankroll <= a.cash
    ensures PositionFor(a, r).status == Rejected(InsufficientCash)
       <==> !RejectedEarlier(r) && r.stake.value == bankroll as real + 0.5 && a.cash == bankroll
  {
    RoundExceeds(r.stake.value, a.cash);
  }

  /** A concrete decision the policy accepts and the account cannot pay: 10.005 against 10.00. */
  lemma PolicyAdmitsUnpayableStake() returns (a: Account, r: Request)
    ensures a.cash == 1000 && Wants(r) && r.scope.Some? && r.snapshot.Some?
    ensures ValidateDecision(r.action, r.stake, a.cash as real) == Accepted
    ensures PositionFor(a, r).status == Rejected(InsufficientCash)
  {
    a := Account(1000, 1000, 0, 0, 1000, 0, 0.0, Active);
    var snapshot := Snapshot(0, true, true, [Observation(Some(1), Some(2.0))]);
    r := Request(7, true, Buy(BuyA), Some(1000.5), Experiment("p", "m", "", "", "", ""), 0,
                 Some(Scope("e", 3, Teams(1, 2))), Some(snapshot), None, None);
    RoundExceeds(1000.5, 1000);
  }
}
