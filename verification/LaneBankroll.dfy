/**
 The lane registry and the bankroll together: AI tasks run PREPARE .. PERSIST inside the lane of
 their event, provider and model, while settlements of any map may come in at any moment.
 */
module LaneBankroll {
  import opened Common
  import opened Portfolio
  import opened PortfolioLaws
  import opened StakePolicy
  import L = Lanes

  /** The key of the lane that serialises an account: its event scope, provider and model. */
  function LaneKey(k: AccountKey): string {
    k.event + ":" + k.experiment.provider + ":" + k.experiment.model
  }

  /** How far a task holding its lane has come; `bankroll` is the cash PREPARE showed to the model. */
  datatype Phase = Entered | Prepared(bankroll: int) | Persisted

  datatype Job = Job(account: AccountKey, phase: Phase)

  datatype System = System(lanes: L.State, book: Book, jobs: map<L.TaskId, Job>)

  datatype Action =
    | Register(task: L.TaskId, account: AccountKey, at: int)
    | Check(task: L.TaskId)
    | Prepare(task: L.TaskId, fundedAt: int)
    | Persist(task: L.TaskId, request: Request)
    | Release(task: L.TaskId)
    | Settle(settlement: Settlement)

  predicate Holds(s: System, t: L.TaskId) {
    t in s.lanes.tasks && s.lanes.tasks[t].Holding? && t in s.jobs
  }

  /** A decision row that says SUCCESS passed the policy against the bankroll its task prepared. */
  predicate Persistable(j: Job, r: Request) {
    && j.phase.Prepared?
    && (r.scope.Some? ==> KeyOf(r) == j.account)
    && (r.parsed ==> ValidateDecision(r.action, r.stake, j.phase.bankroll as real) == Accepted)
  }

  predicate Enabled(s: System, a: Action) {
    match a
    case Register(t, _, _) => t !in s.lanes.tasks
    case Check(t) => t in s.lanes.tasks && s.lanes.tasks[t].Checking?
    case Prepare(t, _) => Holds(s, t) && s.jobs[t].phase.Entered?
    case Persist(t, r) => Holds(s, t) && Persistable(s.jobs[t], r)
    case Release(t) => Holds(s, t)
    case Settle(_) => true
  }

  function Step(s: System, a: Action, initial: int): System
    requires L.InRange(s.lanes) && Enabled(s, a)
  {
    match a
    case Register(t, k, at) => System(L.Register(s.lanes, t, LaneKey(k), at), s.book, s.jobs[t := Job(k, Entered)])
    case Check(t) => s.(lanes := L.Check(s.lanes, t))
    case Prepare(t, fundedAt) =>
      var k := s.jobs[t].account;
      var book := EnsureAccount(s.book, k, initial, fundedAt);
      s.(book := book, jobs := s.jobs[t := Job(k, Prepared(book[k].account.cash))])
    case Persist(t, r) =>
      s.(book := Record(s.book, r, initial), jobs := s.jobs[t := s.jobs[t].(phase := Persisted)])
    case Release(t) => System(L.Release(s.lanes, t), s.book, s.jobs - {t})
    case Settle(x) => s.(book := SettleBook(s.book, x))
  }

  ghost predicate Reaches(actions: seq<Action>, s: System, initial: int) {
    if actions == [] then s == System(L.Empty, map[], map[])
    else
      var n := |actions| - 1;
      exists p :: Reaches(actions[..n], p, initial) && L.InRange(p.lanes) && Enabled(p, actions[n])
                  && s == Step(p, actions[n], initial)
  }

  // ---- Invariant -----------------------------------------------------------------------

  /** Every task in the registry runs the job of an account of its lane. */
  ghost predicate JobsOk(s: System) {
    && s.jobs.Keys == s.lanes.tasks.Keys
    && (forall t :: t in s.jobs ==> s.lanes.tasks[t].key == LaneKey(s.jobs[t].account))
  }

  /** What PREPARE saw is still there: a prepared task's account has at least that much cash. */
  ghost predicate Covered(book: Book, j: Job) {
    j.phase.Prepared? ==> j.account in book && 0 <= j.phase.bankroll <= book[j.account].account.cash
  }

  ghost predicate BankrollsOk(s: System)
    requires JobsOk(s)
  {
    forall t :: t in s.jobs ==> Covered(s.book, s.jobs[t]) && (s.jobs[t].phase != Entered ==> s.lanes.tasks[t].Holding?)
  }

  ghost predicate Inv(s: System, initial: int) {
    L.Inv(s.lanes) && BookOk(s.book, initial) && JobsOk(s) && BankrollsOk(s)
  }

  // ---- What the environment may do to an account ----------------------------------------

  /** Account by account, cash has not gone down, except possibly on `k`. */
  ghost predicate NoPoorer(b: Book, b': Book, k: AccountKey) {
    forall j :: j in b && j != k ==> j in b' && b[j].account.cash <= b'[j].account.cash
  }

  lemma {:induction false} ReleaseOnlyAddsCash(a: Account, ledger: seq<Entry>, ps: seq<Position>, s: Settlement)
    requires forall i :: 0 <= i < |ps| ==> RowOk(ps[i])
    ensures Portfolio.Release(a, ledger, ps, s).account.cash >= a.cash
  {
    if ps != [] {
      var p := ps[|ps| - 1];
      ReleaseOnlyAddsCash(a, ledger, ps[..|ps| - 1], s);
      if Settles(p, s.mapId) {
        WinCoversStake(p, s);
      }
    }
  }

  /** Settlements only add cash, on every account. */
  lemma SettleOnlyAddsCash(b: Book, s: Settlement, initial: int)
    requires BookOk(b, initial)
    ensures forall j :: j in b ==> b[j].account.cash <= SettleBook(b, s)[j].account.cash
  {
    forall j | j in b
      ensures b[j].account.cash <= SettleBook(b, s)[j].account.cash
    {
      assert BalancesOk(b[j], initial);
      ReleaseOnlyAddsCash(b[j].account, b[j].ledger, b[j].positions, s);
    }
  }

  /** A placement takes cash from the decision's own account only. */
  lemma RecordSparesOthers(b: Book, r: Request, k: AccountKey, initial: int)
    requires BookOk(b, initial) && initial >= 0 && (r.scope.Some? ==> KeyOf(r) == k)
    ensures NoPoorer(b, Record(b, r, initial), k)
  {
    var b' := Place(b, r, initial);
    assert forall j :: j in b && j != k ==> j in b' && b'[j] == b[j];
    if SettlesAtOnce(b, r, initial) {
      PlaceKeepsBook(b, r, initial);
      SettleOnlyAddsCash(b', StoredSettlement(r), initial);
    }
  }

  // ---- Preservation --------------------------------------------------------------------

  /** A step of the registry alone: tasks carry their jobs along, and a new job has prepared nothing. */
  lemma LaneStepKeepsJobs(s: System, s': System)
    requires JobsOk(s) && BankrollsOk(s) && s'.book == s.book && s'.jobs.Keys == s'.lanes.tasks.Keys
    requires forall t :: t in s'.jobs ==> KeptOrNew(s, s', t)
    ensures JobsOk(s') && BankrollsOk(s')
  {
  }

  predicate KeptOrNew(s: System, s': System, t: L.TaskId)
    requires t in s'.jobs && t in s'.lanes.tasks
  {
    || (t in s.jobs && s'.jobs[t] == s.jobs[t] && L.Carries(s.lanes, s'.lanes, t))
    || (s'.jobs[t].phase == Entered && s'.lanes.tasks[t].key == LaneKey(s'.jobs[t].account))
  }

  lemma RegisterKeepsInv(s: System, t: L.TaskId, k: AccountKey, at: int)
    requires L.Inv(s.lanes) && JobsOk(s) && BankrollsOk(s) && t !in s.lanes.tasks
    ensures var lanes := L.Register(s.lanes, t, LaneKey(k), at);
            var s' := System(lanes, s.book, s.jobs[t := Job(k, Entered)]);
            L.Inv(lanes) && JobsOk(s') && BankrollsOk(s')
  {
    var lanes := L.Register(s.lanes, t, LaneKey(k), at);
    L.RegisterKeepsInv(s.lanes, t, LaneKey(k), at);
    L.RegisterSparesOthers(s.lanes, t, LaneKey(k), at);
    LaneStepKeepsJobs(s, System(lanes, s.book, s.jobs[t := Job(k, Entered)]));
  }

  lemma CheckKeepsInv(s: System, t: L.TaskId)
    requires L.Inv(s.lanes) && JobsOk(s) && BankrollsOk(s) && t in s.lanes.tasks && s.lanes.tasks[t].Checking?
    ensures var s' := s.(lanes := L.Check(s.lanes, t));
            L.Inv(s'.lanes) && JobsOk(s') && BankrollsOk(s')
  {
    L.CheckKeepsInv(s.lanes, t);
    L.CheckSparesOthers(s.lanes, t);
    LaneStepKeepsJobs(s, s.(lanes := L.Check(s.lanes, t)));
  }

  lemma DepartureKeepsJobs(s: System, lanes: L.State, t: L.TaskId)
    requires JobsOk(s) && BankrollsOk(s) && lanes.tasks.Keys == s.lanes.tasks.Keys - {t}
    requires forall u :: u in s.lanes.tasks && u != t ==> L.Carries(s.lanes, lanes, u)
    ensures JobsOk(System(lanes, s.book, s.jobs - {t})) && BankrollsOk(System(lanes, s.book, s.jobs - {t}))
  {
    LaneStepKeepsJobs(s, System(lanes, s.book, s.jobs - {t}));
  }

  lemma ReleaseKeepsInv(s: System, t: L.TaskId)
    requires L.Inv(s.lanes) && JobsOk(s) && BankrollsOk(s) && Holds(s, t)
    ensures var s' := System(L.Release(s.lanes, t), s.book, s.jobs - {t});
            L.Inv(s'.lanes) && JobsOk(s') && BankrollsOk(s')
  {
    var lanes := L.Release(s.lanes, t);
    L.ReleaseKeepsInv(s.lanes, t);
    L.ReleaseSparesOthers(s.lanes, t);
    DepartureKeepsJobs(s, lanes, t);
  }

  lemma SettleKeepsInv(s: System, x: Settlement, initial: int)
    requires Inv(s, initial)
    ensures Inv(Step(s, Settle(x), initial), initial)
  {
    SettleKeepsBook(s.book, x, initial);
    SettleOnlyAddsCash(s.book, x, initial);
  }

  lemma FundingKeepsOk(b: Book, k: AccountKey, fundedAt: int, initial: int)
    requires BookOk(b, initial) && initial >= 0
    ensures BookOk(EnsureAccount(b, k, initial, fundedAt), initial)
    ensures 0 <= EnsureAccount(b, k, initial, fundedAt)[k].account.cash
  {
    if k !in b {
      NewDeskOk(k, initial, fundedAt);
      FundingKeepsBook(b, k, NewDesk(k, initial, fundedAt), initial);
    }
    assert DeskOk(k, EnsureAccount(b, k, initial, fundedAt)[k], initial);
  }

  lemma PrepareKeepsJobs(s: System, t: L.TaskId, fundedAt: int, initial: int)
    requires JobsOk(s) && BankrollsOk(s) && L.InRange(s.lanes) && Enabled(s, Prepare(t, fundedAt))
    requires 0 <= EnsureAccount(s.book, s.jobs[t].account, initial, fundedAt)[s.jobs[t].account].account.cash
    ensures var s' := Step(s, Prepare(t, fundedAt), initial);
            JobsOk(s') && BankrollsOk(s')
  {
    var s' := Step(s, Prepare(t, fundedAt), initial);
    forall u | u in s'.jobs
      ensures Covered(s'.book, s'.jobs[u])
    {
      assert u != t ==> Covered(s.book, s.jobs[u]);
    }
  }

  /** Persisting touches the cash of one account, and the lane keeps every other prepared task off it. */
  lemma PersistKeepsInv(s: System, t: L.TaskId, r: Request, initial: int)
    requires Inv(s, initial) && initial >= 0 && Enabled(s, Persist(t, r))
    ensures Inv(Step(s, Persist(t, r), initial), initial)
  {
    var s' := Step(s, Persist(t, r), initial);
    StepKeepsBook(s.book, RecordCall(r), initial);
    RecordSparesOthers(s.book, r, s.jobs[t].account, initial);
    forall u | u in s.jobs && u != t
      ensures Covered(s'.book, s.jobs[u])
    {
      OthersElsewhere(s, t, u);
    }
  }

  /** A prepared task holds its lane, so no other task that holds one is on its account. */
  lemma OthersElsewhere(s: System, t: L.TaskId, u: L.TaskId)
    requires L.Inv(s.lanes) && JobsOk(s) && BankrollsOk(s)
    requires t in s.jobs && u in s.jobs && t != u && s.jobs[t].phase != Entered
    ensures s.jobs[u].phase.Prepared? ==> s.jobs[u].account != s.jobs[t].account
    ensures Covered(s.book, s.jobs[u])
  {
    if s.jobs[u].phase.Prepared? {
      assert s.lanes.tasks[u].Holding? && s.lanes.tasks[t].Holding?;
    }
  }

  lemma StepKeepsInv(s: System, a: Action, initial: int)
    requires Inv(s, initial) && initial >= 0 && Enabled(s, a)
    ensures Inv(Step(s, a, initial), initial)
  {
    match a
    case Register(t, k, at) => RegisterKeepsInv(s, t, k, at);
    case Check(t) => CheckKeepsInv(s, t);
    case Prepare(t, fundedAt) =>
      FundingKeepsOk(s.book, s.jobs[t].account, fundedAt, initial);
      PrepareKeepsJobs(s, t, fundedAt, initial);
    case Persist(t, r) => PersistKeepsInv(s, t, r, initial);
    case Release(t) => ReleaseKeepsInv(s, t);
    case Settle(x) => SettleKeepsInv(s, x, initial);
  }

  lemma {:induction false} ReachableInv(actions: seq<Action>, s: System, initial: int)
    requires Reaches(actions, s, initial) && initial >= 0
    ensures Inv(s, initial)
  {
    if actions != [] {
      var n := |actions| - 1;
      var p :| Reaches(actions[..n], p, initial) && L.InRange(p.lanes) && Enabled(p, actions[n])
               && s == Step(p, actions[n], initial);
      ReachableInv(actions[..n], p, initial);
      StepKeepsInv(p, actions[n], initial);
    }
  }

  /**
   Whatever interleaves between PREPARE and PERSIST, the position of a decision that passed the
   policy is turned down for lack of cash exactly when nothing turned it down earlier, its stake is
   the full half cent above the prepared bankroll and no settlement has added cash since. In
   particular a stake below that half cent is never turned down for lack of cash.
   */
  lemma LaneProtectsBankroll(actions: seq<Action>, s: System, t: L.TaskId, r: Request, initial: int)
    requires Reaches(actions, s, initial) && initial >= 0 && Enabled(s, Persist(t, r)) && Adds(s.book, r)
    ensures var a := Funded(s.book, r, initial)[KeyOf(r)].account;
            var bankroll := s.jobs[t].phase.bankroll;
            && KeyOf(r) in s.book && a.cash >= bankroll
            && (PositionFor(a, r).status == Rejected(InsufficientCash)
                <==> !RejectedEarlier(r) && r.stake.value == bankroll as real + 0.5 && a.cash == bankroll)
            && (r.stake.value < bankroll as real + 0.5 ==> PositionFor(a, r).status != Rejected(InsufficientCash))
  {
    ReachableInv(actions, s, initial);
    assert Covered(s.book, s.jobs[t]);
    CashRejectionExactly(s.book[KeyOf(r)].account, r, s.jobs[t].phase.bankroll);
  }
}
