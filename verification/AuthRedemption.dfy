/** A login code buys at most one login: in every run each challenge is redeemed at most once. */
module AuthRedemption {
  import opened Common
  import opened Auth
  import opened AuthLaws

  /** The challenge whose code the operation matched, if any. */
  function RedeemedBy(s: State, op: Op): seq<int> {
    if op.VerifyOp? && VerifyRows(RowsOf(s, op.email), op.code, op.at).1 then
      var rows := RowsOf(s, op.email);
      [rows[Newest(rows, IsOpen).value].id]
    else []
  }

  /** The challenges redeemed in a run, in order, with repetitions if there were any. */
  function Redeemed(cfg: Config, ops: seq<Op>): seq<int> {
    if ops == [] then []
    else
      var n := |ops| - 1;
      Redeemed(cfg, ops[..n]) + RedeemedBy(Run(cfg, ops[..n]), ops[n])
  }

  /** Challenge identifiers are drawn afresh. */
  ghost predicate FreshIds(ops: seq<Op>) {
    forall i, j :: 0 <= i < j < |ops| && ops[i].RequestOp? && ops[j].RequestOp? ==> ops[i].id != ops[j].id
  }

  ghost predicate IdDrawn(ops: seq<Op>, id: int) {
    exists j :: 0 <= j < |ops| && ops[j].RequestOp? && ops[j].id == id
  }

  // ---- What a table knows about spent challenges -----------------------------------------

  /** A row is accounted for: it was requested, and it is consumed if its challenge is spent. */
  ghost predicate Accounted(c: Challenge, ops: seq<Op>, spent: seq<int>) {
    IdDrawn(ops, c.id) && (c.id in spent ==> c.consumedAt.Some?)
  }

  ghost predicate AllAccounted(rows: seq<Challenge>, ops: seq<Op>, spent: seq<int>) {
    forall i :: 0 <= i < |rows| ==> Accounted(rows[i], ops, spent)
  }

  ghost predicate NoCommonId(rows: seq<Challenge>, others: seq<Challenge>) {
    forall i, j :: 0 <= i < |rows| && 0 <= j < |others| ==> rows[i].id != others[j].id
  }

  ghost predicate Books(s: State, ops: seq<Op>, spent: seq<int>) {
    && (forall e :: AllAccounted(RowsOf(s, e), ops, spent))
    && (forall e, f :: e != f ==> NoCommonId(RowsOf(s, e), RowsOf(s, f)))
    && (forall i :: 0 <= i < |spent| ==> IdDrawn(ops, spent[i]))
  }

  lemma DrawnLater(ops: seq<Op>, op: Op, id: int)
    requires IdDrawn(ops, id)
    ensures IdDrawn(ops + [op], id)
  {
    var j :| 0 <= j < |ops| && ops[j].RequestOp? && ops[j].id == id;
    assert (ops + [op])[j] == ops[j];
  }

  /** Row by row the same challenges, none of them reopened, and perhaps one new row. */
  predicate Advanced(rows: seq<Challenge>, rows': seq<Challenge>) {
    && |rows| <= |rows'|
    && (forall i :: 0 <= i < |rows| ==> rows'[i].id == rows[i].id && (rows[i].consumedAt.Some? ==> rows'[i].consumedAt.Some?))
  }

  /** Replacing one email's rows by advanced ones, with new rows under a fresh identifier only, keeps the books. */
  lemma AdvanceKeepsBooks(s: State, s': State, email: string, ops: seq<Op>, op: Op, spent: seq<int>)
    requires Books(s, ops, spent) && Advanced(RowsOf(s, email), RowsOf(s', email))
    requires forall e :: e != email ==> RowsOf(s', e) == RowsOf(s, e)
    requires |RowsOf(s', email)| > |RowsOf(s, email)| ==> op.RequestOp? && !IdDrawn(ops, op.id)
    requires forall i :: |RowsOf(s, email)| <= i < |RowsOf(s', email)| ==> RowsOf(s', email)[i].id == op.id
    ensures Books(s', ops + [op], spent)
  {
    var ops', rows, rows' := ops + [op], RowsOf(s, email), RowsOf(s', email);
    assert ops'[|ops|] == op;
    forall e
      ensures AllAccounted(RowsOf(s', e), ops', spent)
    {
      assert AllAccounted(RowsOf(s, e), ops, spent);
      forall i | 0 <= i < |RowsOf(s', e)|
        ensures Accounted(RowsOf(s', e)[i], ops', spent)
      {
        if i < |RowsOf(s, e)| {
          assert Accounted(RowsOf(s, e)[i], ops, spent);
          DrawnLater(ops, op, RowsOf(s, e)[i].id);
        }
      }
    }
    forall e, f | e != f
      ensures NoCommonId(RowsOf(s', e), RowsOf(s', f))
    {
      assert NoCommonId(RowsOf(s, e), RowsOf(s, f));
      assert AllAccounted(RowsOf(s, e), ops, spent) && AllAccounted(RowsOf(s, f), ops, spent);
      forall i, j | 0 <= i < |RowsOf(s', e)| && 0 <= j < |RowsOf(s', f)|
        ensures RowsOf(s', e)[i].id != RowsOf(s', f)[j].id
      {
        assert i < |RowsOf(s, e)| ==> Accounted(RowsOf(s, e)[i], ops, spent);
        assert j < |RowsOf(s, f)| ==> Accounted(RowsOf(s, f)[j], ops, spent);
      }
    }
    forall i | 0 <= i < |spent|
      ensures IdDrawn(ops', spent[i])
    {
      DrawnLater(ops, op, spent[i]);
    }
  }

  /** Fewer rows keep the books. */
  lemma {:induction false} KeptIsOld(rows: seq<Challenge>, cutoff: real, i: nat) returns (j: nat)
    requires i < |KeptRows(rows, cutoff)|
    ensures j < |rows| && KeptRows(rows, cutoff)[i] == rows[j]
  {
    var n := |rows| - 1;
    if i < |KeptRows(rows[..n], cutoff)| {
      j := KeptIsOld(rows[..n], cutoff, i);
    } else {
      j := n;
    }
  }

  lemma PruneKeepsBooks(s: State, ops: seq<Op>, op: Op, spent: seq<int>)
    requires Books(s, ops, spent) && op.PruneOp?
    ensures Books(Prune(s, op.at, op.challengeRetention, op.sessionRetention), ops + [op], spent)
  {
    var s', ops', cutoff := Prune(s, op.at, op.challengeRetention, op.sessionRetention), ops + [op], op.at - op.challengeRetention;
    assert forall e :: RowsOf(s', e) == KeptRows(RowsOf(s, e), cutoff);
    forall e
      ensures AllAccounted(RowsOf(s', e), ops', spent)
    {
      forall i | 0 <= i < |RowsOf(s', e)|
        ensures Accounted(RowsOf(s', e)[i], ops', spent)
      {
        var j := KeptIsOld(RowsOf(s, e), cutoff, i);
        assert AllAccounted(RowsOf(s, e), ops, spent);
        assert Accounted(RowsOf(s, e)[j], ops, spent);
        DrawnLater(ops, op, RowsOf(s, e)[j].id);
      }
    }
    forall e, f | e != f
      ensures NoCommonId(RowsOf(s', e), RowsOf(s', f))
    {
      assert NoCommonId(RowsOf(s, e), RowsOf(s, f));
      forall i, j | 0 <= i < |RowsOf(s', e)| && 0 <= j < |RowsOf(s', f)|
        ensures RowsOf(s', e)[i].id != RowsOf(s', f)[j].id
      {
        var i' := KeptIsOld(RowsOf(s, e), cutoff, i);
        var j' := KeptIsOld(RowsOf(s, f), cutoff, j);
      }
    }
    forall i | 0 <= i < |spent|
      ensures IdDrawn(ops', spent[i])
    {
      DrawnLater(ops, op, spent[i]);
    }
  }

  // ---- Steps -----------------------------------------------------------------------------

  lemma RequestAdvances(cfg: Config, s: State, op: Op)
    requires op.RequestOp?
    ensures var s' := Step(cfg, s, op).0;
            && Advanced(RowsOf(s, op.email), RowsOf(s', op.email))
            && (forall e :: e != op.email ==> RowsOf(s', e) == RowsOf(s, e))
            && (forall i :: |RowsOf(s, op.email)| <= i < |RowsOf(s', op.email)| ==> RowsOf(s', op.email)[i].id == op.id)
  {
  }

  lemma VerifyAdvances(cfg: Config, s: State, op: Op)
    requires op.VerifyOp?
    ensures var s' := Step(cfg, s, op).0;
            && Advanced(RowsOf(s, op.email), RowsOf(s', op.email)) && |RowsOf(s', op.email)| == |RowsOf(s, op.email)|
            && (forall e :: e != op.email ==> RowsOf(s', e) == RowsOf(s, e))
  {
  }

  lemma OthersRest(cfg: Config, s: State, op: Op)
    requires op.AuthenticateOp? || op.LogoutOp? || op.DisableOp?
    ensures forall e :: RowsOf(Step(cfg, s, op).0, e) == RowsOf(s, e)
  {
  }

  lemma StepKeepsBooks(cfg: Config, s: State, ops: seq<Op>, op: Op, spent: seq<int>)
    requires Books(s, ops, spent) && (op.RequestOp? ==> !IdDrawn(ops, op.id))
    ensures Books(Step(cfg, s, op).0, ops + [op], spent)
  {
    var s' := Step(cfg, s, op).0;
    match op
    case PruneOp(_, _, _) =>
      PruneKeepsBooks(s, ops, op, spent);
    case RequestOp(_, email, _, _, _) =>
      RequestAdvances(cfg, s, op);
      AdvanceKeepsBooks(s, s', email, ops, op, spent);
    case VerifyOp(_, email, _, _) =>
      VerifyAdvances(cfg, s, op);
      AdvanceKeepsBooks(s, s', email, ops, op, spent);
    case _ =>
      OthersRest(cfg, s, op);
      AdvanceKeepsBooks(s, s', "", ops, op, spent);
  }

  /** What a matching try does to the rows of its email: all of them are consumed afterwards, under the same identifiers. */
  lemma MatchConsumesAll(cfg: Config, rows: seq<Challenge>, code: string, now: real)
    requires RowsOk(cfg, rows, now) && VerifyRows(rows, code, now).1
    ensures var rows' := VerifyRows(rows, code, now).0;
            && rows != [] && |rows'| == |rows| && Newest(rows, IsOpen) == Some(|rows| - 1)
            && rows[|rows| - 1].consumedAt.None? && rows'[|rows| - 1].id == rows[|rows| - 1].id
            && forall i :: 0 <= i < |rows'| ==> rows'[i].consumedAt.Some?
  {
    NewestIsLast(cfg, rows, now);
    assert forall i :: 0 <= i < |rows| - 1 ==> Precedes(rows[i], rows[|rows| - 1]);
  }

  /** Spending one more challenge keeps the books if the rows under its identifier are consumed. */
  lemma SpendKeepsBooks(s: State, ops: seq<Op>, spent: seq<int>, email: string, n: nat)
    requires Books(s, ops, spent) && n < |RowsOf(s, email)|
    requires forall i :: 0 <= i < |RowsOf(s, email)| ==> RowsOf(s, email)[i].consumedAt.Some?
    ensures Books(s, ops, spent + [RowsOf(s, email)[n].id])
  {
    var id := RowsOf(s, email)[n].id;
    assert AllAccounted(RowsOf(s, email), ops, spent);
    assert Accounted(RowsOf(s, email)[n], ops, spent);
    forall e
      ensures AllAccounted(RowsOf(s, e), ops, spent + [id])
    {
      assert AllAccounted(RowsOf(s, e), ops, spent);
      assert e != email ==> NoCommonId(RowsOf(s, e), RowsOf(s, email));
      forall i | 0 <= i < |RowsOf(s, e)|
        ensures Accounted(RowsOf(s, e)[i], ops, spent + [id])
      {
        assert Accounted(RowsOf(s, e)[i], ops, spent);
        assert e != email ==> RowsOf(s, e)[i].id != RowsOf(s, email)[n].id;
      }
    }
  }

  lemma VerifyTouches(cfg: Config, s: State, op: Op)
    requires op.VerifyOp?
    ensures RowsOf(Step(cfg, s, op).0, op.email) == VerifyRows(RowsOf(s, op.email), op.code, op.at).0
  {
  }

  /** A matching try redeems a challenge that was not spent, and leaves no open row under that identifier. */
  lemma RedeemKeepsBooks(cfg: Config, s: State, ops: seq<Op>, op: Op, spent: seq<int>)
    requires Books(s, ops, spent) && op.VerifyOp? && RowsOk(cfg, RowsOf(s, op.email), op.at)
    requires VerifyRows(RowsOf(s, op.email), op.code, op.at).1
    ensures |RedeemedBy(s, op)| == 1 && RedeemedBy(s, op)[0] !in spent
    ensures Books(Step(cfg, s, op).0, ops + [op], spent + RedeemedBy(s, op))
  {
    var rows := RowsOf(s, op.email);
    StepKeepsBooks(cfg, s, ops, op, spent);
    MatchConsumesAll(cfg, rows, op.code, op.at);
    VerifyTouches(cfg, s, op);
    assert AllAccounted(rows, ops, spent);
    assert Accounted(rows[|rows| - 1], ops, spent);
    SpendKeepsBooks(Step(cfg, s, op).0, ops + [op], spent, op.email, |rows| - 1);
  }

  lemma {:induction false} RunKeepsBooks(cfg: Config, ops: seq<Op>)
    requires Proper(cfg, ops) && FreshIds(ops)
    ensures Books(Run(cfg, ops), ops, Redeemed(cfg, ops)) && Distinct(Redeemed(cfg, ops))
  {
    if ops != [] {
      var before, op := ops[..|ops| - 1], ops[|ops| - 1];
      assert ops == before + [op];
      ProperBefore(cfg, ops);
      RunKeepsBooks(cfg, before);
      var s, spent := Run(cfg, before), Redeemed(cfg, before);
      if RedeemedBy(s, op) == [] {
        assert forall j :: 0 <= j < |before| ==> ops[j] == before[j];
        StepKeepsBooks(cfg, s, before, op, spent);
        assert Redeemed(cfg, ops) == spent;
      } else {
        RunsKeepRows(cfg, before, op.email, op.at);
        RedeemKeepsBooks(cfg, s, before, op, spent);
      }
    }
  }

  /** Each challenge yields at most one login, over every run, with any prunes in between. */
  lemma RedeemedOnce(cfg: Config, ops: seq<Op>)
    requires Proper(cfg, ops) && FreshIds(ops)
    ensures Distinct(Redeemed(cfg, ops))
  {
    RunKeepsBooks(cfg, ops);
  }
}
