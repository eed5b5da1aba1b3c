/** Result evidence is confluent: neither the order nor the repetition of evidence changes the outcome. */
module EvidenceLaws {
  import opened Common
  import opened Evidence

  /** The table of one map after some calls. */
  ghost function Run(cs: seq<Call>): Table {
    if cs == [] then Table([], None) else Settle(Run(cs[..|cs| - 1]), cs[|cs| - 1])
  }

  // ---- The outcome, stated without any order ---------------------------------------------

  /** The call was made and not refused. */
  predicate Heard(cs: seq<Call>, c: Call) {
    c in cs && Valid(c)
  }

  function Named(cs: seq<Call>): set<string> {
    set c | c in cs && Valid(c) && c.winner.Some? :: c.winner.value
  }

  predicate Contested(cs: seq<Call>) {
    |Named(cs)| > 1 || exists c :: c in cs && Valid(c) && c.conflict
  }

  ghost predicate LeastBasic(cs: seq<Call>, at: int) {
    (exists c :: Heard(cs, c) && c.basic == at) && forall c :: Heard(cs, c) ==> at <= c.basic
  }

  ghost predicate LeastAdvanced(cs: seq<Call>, at: Option<int>) {
    && (at.Some? ==> exists c :: Heard(cs, c) && c.advanced == at)
    && (forall c :: Heard(cs, c) && c.advanced.Some? ==> at.Some? && at.value <= c.advanced.value)
  }

  ghost predicate Settled(cs: seq<Call>, r: Record) {
    && (r.conflict <==> Contested(cs))
    && r.winner == Resolved(Named(cs), Contested(cs))
    && LeastBasic(cs, r.basic)
    && LeastAdvanced(cs, r.advanced)
  }

  /** A raw event always carries the same winner. */
  ghost predicate FixedWinners(cs: seq<Call>) {
    forall c, d :: c in cs && d in cs && c.rawEvent == d.rawEvent ==> c.winner == d.winner
  }

  // ---- Invariant -------------------------------------------------------------------------

  ghost predicate Backed(cs: seq<Call>, row: Row) {
    exists c :: Heard(cs, c) && c.rawEvent == row.rawEvent && c.winner == row.winner
  }

  ghost predicate RowsReflect(cs: seq<Call>, rows: seq<Row>) {
    && (forall c :: Heard(cs, c) ==> Knows(rows, c.rawEvent))
    && (forall i :: 0 <= i < |rows| ==> Backed(cs, rows[i]))
  }

  ghost predicate FlagsReflect(cs: seq<Call>, rows: seq<Row>) {
    forall i :: 0 <= i < |rows| ==> (rows[i].conflicted <==> Contested(cs))
  }

  ghost predicate Inv(cs: seq<Call>, t: Table) {
    && RowsReflect(cs, t.rows) && FlagsReflect(cs, t.rows)
    && (t.rows == [] <==> t.record.None?)
    && (t.record.Some? ==> Settled(cs, t.record.value))
  }

  lemma HeardSnoc(cs: seq<Call>, c: Call)
    requires Valid(c)
    ensures forall d :: Heard(cs + [c], d) <==> Heard(cs, d) || d == c
  {
  }

  lemma NamedSnoc(cs: seq<Call>, c: Call)
    requires Valid(c)
    ensures Named(cs + [c]) == Named(cs) + if c.winner.Some? then {c.winner.value} else {}
  {
    assert c in cs + [c];
    assert forall d :: d in cs + [c] <==> d in cs || d == c;
  }

  /** Under fixed winners the rows name exactly the teams that the calls named. */
  lemma WinnersAreNamed(cs: seq<Call>, rows: seq<Row>)
    requires RowsReflect(cs, rows) && FixedWinners(cs)
    ensures Winners(rows) == Named(cs)
  {
    forall w
      ensures w in Winners(rows) <==> w in Named(cs)
    {
      if w in Named(cs) {
        var c :| c in cs && Valid(c) && c.winner == Some(w);
        assert Heard(cs, c);
        var i :| 0 <= i < |rows| && rows[i].rawEvent == c.rawEvent;
        assert Backed(cs, rows[i]);
      }
      if w in Winners(rows) {
        var i :| 0 <= i < |rows| && rows[i].winner == Some(w);
        assert Backed(cs, rows[i]);
      }
    }
  }

  lemma MarkedReflects(cs: seq<Call>, rows: seq<Row>, conflict: bool)
    requires RowsReflect(cs, rows)
    ensures RowsReflect(cs, Marked(rows, conflict))
  {
    var rows' := Marked(rows, conflict);
    forall c | Heard(cs, c)
      ensures Knows(rows', c.rawEvent)
    {
      var i :| 0 <= i < |rows| && rows[i].rawEvent == c.rawEvent;
      assert rows'[i].rawEvent == c.rawEvent;
    }
    forall i | 0 <= i < |rows'|
      ensures Backed(cs, rows'[i])
    {
      assert Backed(cs, rows[i]);
    }
  }

  lemma WithRowReflects(cs: seq<Call>, rows: seq<Row>, c: Call)
    requires RowsReflect(cs, rows) && Valid(c)
    ensures RowsReflect(cs + [c], WithRow(rows, c))
  {
    HeardSnoc(cs, c);
    var rows' := WithRow(rows, c);
    forall d | Heard(cs + [c], d)
      ensures Knows(rows', d.rawEvent)
    {
      if Heard(cs, d) {
        var i :| 0 <= i < |rows| && rows[i].rawEvent == d.rawEvent;
        assert rows'[i].rawEvent == d.rawEvent;
      } else if !Knows(rows, c.rawEvent) {
        assert rows'[|rows|].rawEvent == c.rawEvent;
      }
    }
    forall i | 0 <= i < |rows'|
      ensures Backed(cs + [c], rows'[i])
    {
      if i < |rows| {
        assert Backed(cs, rows[i]);
        var d :| Heard(cs, d) && d.rawEvent == rows[i].rawEvent && d.winner == rows[i].winner;
        assert Heard(cs + [c], d);
      } else {
        assert Heard(cs + [c], c);
      }
    }
  }

  lemma ContestedSnoc(cs: seq<Call>, c: Call)
    requires Valid(c)
    ensures Contested(cs + [c]) <==> Contested(cs) || c.conflict || |Named(cs + [c])| > 1
  {
    HeardSnoc(cs, c);
    NamedSnoc(cs, c);
    SubsetSize(Named(cs), Named(cs + [c]));
    if exists d :: d in cs && Valid(d) && d.conflict {
      var d :| d in cs && Valid(d) && d.conflict;
      assert d in cs + [c];
    }
    assert c in cs + [c];
  }

  /** The conflict computed from the rows is the conflict among the calls. */
  lemma ConflictIsContested(cs: seq<Call>, t: Table, c: Call)
    requires Inv(cs, t) && Valid(c) && FixedWinners(cs + [c])
    ensures Winners(WithRow(t.rows, c)) == Named(cs + [c])
    ensures Contradicts(WithRow(t.rows, c), c.conflict) <==> Contested(cs + [c])
  {
    var rows := WithRow(t.rows, c);
    WithRowReflects(cs, t.rows, c);
    WinnersAreNamed(cs + [c], rows);
    ContestedSnoc(cs, c);
    if AnyConflicted(rows) {
      var i :| 0 <= i < |rows| && rows[i].conflicted;
      assert i < |t.rows| ==> t.rows[i].conflicted;
    }
    if t.rows == [] {
      NobodyHeard(cs, t.rows);
    } else {
      assert rows[0] == t.rows[0];
      assert Contested(cs) ==> rows[0].conflicted;
    }
  }

  lemma NobodyHeard(cs: seq<Call>, rows: seq<Row>)
    requires RowsReflect(cs, rows) && rows == []
    ensures !Contested(cs) && forall c :: !Heard(cs, c)
  {
    forall c
      ensures !Heard(cs, c)
    {
      assert Heard(cs, c) ==> Knows(rows, c.rawEvent);
    }
    assert Named(cs) == {};
    assert forall c :: c in cs && Valid(c) ==> Heard(cs, c);
  }

  lemma TimesSnoc(cs: seq<Call>, c: Call, old_: Option<Record>)
    requires Valid(c)
    requires if old_.None? then forall d :: !Heard(cs, d) else LeastBasic(cs, old_.value.basic) && LeastAdvanced(cs, old_.value.advanced)
    ensures LeastBasic(cs + [c], if old_.None? then c.basic else Min(old_.value.basic, c.basic))
    ensures LeastAdvanced(cs + [c], if old_.None? then c.advanced else EarlierOf(old_.value.advanced, c.advanced))
  {
    HeardSnoc(cs, c);
    assert Heard(cs + [c], c);
  }

  lemma StepKeepsInv(cs: seq<Call>, t: Table, c: Call)
    requires Inv(cs, t) && Valid(c) && FixedWinners(cs + [c])
    ensures Inv(cs + [c], Settle(t, c))
  {
    var rows := WithRow(t.rows, c);
    ConflictIsContested(cs, t, c);
    WithRowReflects(cs, t.rows, c);
    MarkedReflects(cs + [c], rows, Contested(cs + [c]));
    if t.rows == [] {
      NobodyHeard(cs, t.rows);
    }
    TimesSnoc(cs, c, t.record);
  }

  lemma RefusedChangesNothing(cs: seq<Call>, t: Table, c: Call)
    requires Inv(cs, t) && !Valid(c)
    ensures Inv(cs + [c], t)
  {
    var ds := cs + [c];
    assert forall d :: Heard(ds, d) <==> Heard(cs, d);
    SameHeard(cs, ds);
    forall i | 0 <= i < |t.rows|
      ensures Backed(ds, t.rows[i])
    {
      assert Backed(cs, t.rows[i]);
    }
    if t.record.Some? {
      SettledSame(cs, ds, t.record.value);
    }
  }

  lemma SameHeard(cs: seq<Call>, ds: seq<Call>)
    requires forall c :: Heard(cs, c) <==> Heard(ds, c)
    ensures Named(cs) == Named(ds) && (Contested(cs) <==> Contested(ds))
  {
    assert forall c :: c in cs && Valid(c) <==> Heard(cs, c);
    assert forall c :: c in ds && Valid(c) <==> Heard(ds, c);
  }

  lemma SettledSame(cs: seq<Call>, ds: seq<Call>, r: Record)
    requires Settled(cs, r) && forall c :: Heard(cs, c) <==> Heard(ds, c)
    ensures Settled(ds, r)
  {
    SameHeard(cs, ds);
  }

  lemma {:induction false} RunKeepsInv(cs: seq<Call>)
    requires FixedWinners(cs)
    ensures Inv(cs, Run(cs))
  {
    if cs == [] {
      assert Named(cs) == {};
    } else {
      var before, c := cs[..|cs| - 1], cs[|cs| - 1];
      assert cs == before + [c];
      RunKeepsInv(before);
      if Valid(c) {
        StepKeepsInv(before, Run(before), c);
      } else {
        RefusedChangesNothing(before, Run(before), c);
      }
    }
  }

  // ---- Main results ----------------------------------------------------------------------

  /**
   The record is what the accepted calls say together: in conflict iff one was flagged or two winners were
   named, else with the winner named, and with the earliest times; all rows carry the conflict of the record.
   */
  lemma RecordIsSettled(cs: seq<Call>, c: Call)
    requires FixedWinners(cs) && Heard(cs, c)
    ensures Run(cs).record.Some? && Settled(cs, Run(cs).record.value)
    ensures forall w :: Run(cs).record.value.winner == Some(w) <==> !Contested(cs) && Named(cs) == {w}
    ensures forall i :: 0 <= i < |Run(cs).rows| ==> Run(cs).rows[i].conflicted == Run(cs).record.value.conflict
  {
    RunKeepsInv(cs);
    assert Knows(Run(cs).rows, c.rawEvent);
    ResolvedIs(Named(cs), Contested(cs));
  }

  lemma ResolvedIs(winners: set<string>, conflict: bool)
    ensures forall w :: Resolved(winners, conflict) == Some(w) <==> !conflict && winners == {w}
  {
    forall w
      ensures Resolved(winners, conflict) == Some(w) <==> !conflict && winners == {w}
    {
      if |winners| == 1 && w in winners {
        forall x | x in winners
          ensures x == w
        {
          OnlyMember(winners, x, w);
        }
        assert winners == {w};
      }
    }
  }

  /** Any order and any repetition of the same calls gives the same record. */
  lemma OrderIsIrrelevant(cs: seq<Call>, ds: seq<Call>)
    requires FixedWinners(cs) && forall c :: c in cs <==> c in ds
    ensures Run(cs).record == Run(ds).record
  {
    assert FixedWinners(ds);
    assert forall c :: Heard(cs, c) <==> Heard(ds, c);
    RecordIffHeard(cs);
    RecordIffHeard(ds);
    if Run(cs).record.Some? {
      var c :| Heard(cs, c);
      RecordIsSettled(cs, c);
      RecordIsSettled(ds, c);
      SettledSame(cs, ds, Run(cs).record.value);
      SettledOnce(ds, Run(cs).record.value, Run(ds).record.value);
    }
  }

  lemma RecordIffHeard(cs: seq<Call>)
    requires FixedWinners(cs)
    ensures Run(cs).record.Some? <==> exists c :: Heard(cs, c)
  {
    RunKeepsInv(cs);
    if Run(cs).record.Some? {
      assert Backed(cs, Run(cs).rows[0]);
    } else {
      NobodyHeard(cs, Run(cs).rows);
    }
  }

  lemma SettledOnce(cs: seq<Call>, r: Record, q: Record)
    requires Settled(cs, r) && Settled(cs, q)
    ensures r == q
  {
  }

  // ---- Without any hypothesis --------------------------------------------------------------

  /** In every table the record is the one its rows call for. */
  ghost predicate TableOk(t: Table) {
    && (t.record.None? ==> t.rows == [])
    && (t.record.Some? ==> t.rows != [] && t.record.value.winner == Resolved(Winners(t.rows), t.record.value.conflict))
    && (forall i :: 0 <= i < |t.rows| ==> t.record.Some? && t.rows[i].conflicted == t.record.value.conflict)
  }

  lemma MarkedWinners(rows: seq<Row>, conflict: bool)
    ensures Winners(Marked(rows, conflict)) == Winners(rows)
  {
    forall w
      ensures w in Winners(Marked(rows, conflict)) <==> w in Winners(rows)
    {
      if w in Winners(rows) {
        var i :| 0 <= i < |rows| && rows[i].winner == Some(w);
        assert Marked(rows, conflict)[i].winner == Some(w);
      }
    }
  }

  lemma StepKeepsTable(t: Table, c: Call)
    requires TableOk(t)
    ensures TableOk(Settle(t, c))
  {
    if Valid(c) {
      var rows := WithRow(t.rows, c);
      MarkedWinners(rows, Contradicts(rows, c.conflict));
      assert rows != [];
    }
  }

  lemma {:induction false} RunKeepsTable(cs: seq<Call>)
    ensures TableOk(Run(cs))
  {
    if cs != [] {
      RunKeepsTable(cs[..|cs| - 1]);
      StepKeepsTable(Run(cs[..|cs| - 1]), cs[|cs| - 1]);
    }
  }

  /** A conflict is final, and a winner is never replaced by another team. */
  lemma ConflictAbsorbs(cs: seq<Call>, c: Call)
    requires Run(cs).record.Some?
    ensures Run(cs + [c]).record.Some?
    ensures var r, r' := Run(cs).record.value, Run(cs + [c]).record.value;
            && (r.conflict ==> r'.conflict && r'.winner == None)
            && (r.winner.Some? ==> r'.winner == r.winner || (r'.winner == None && r'.conflict))
            && r'.basic <= r.basic
  {
    assert (cs + [c])[..|cs|] == cs;
    var t := Run(cs);
    RunKeepsTable(cs);
    if Valid(c) {
      var rows := WithRow(t.rows, c);
      assert rows[0] == t.rows[0];
      assert rows == t.rows + rows[|t.rows|..];
      WinnersConcat(t.rows, rows[|t.rows|..]);
      SubsetSize(Winners(t.rows), Winners(rows));
      if t.record.value.winner.Some? && |Winners(rows)| == 1 {
        OnlyMember(Winners(rows), t.record.value.winner.value, Resolved(Winners(rows), false).value);
      }
    }
  }

  /** The hypothesis is needed: two unflagged calls on one raw event commute iff they name the same winner. */
  lemma FirstWinnerStays(c: Call, d: Call)
    requires c.rawEvent == d.rawEvent && Valid(c) && Valid(d) && !c.conflict && !d.conflict
    ensures Run([c, d]).record == Run([d, c]).record <==> c.winner == d.winner
  {
    TwoOnOneEvent(c, d);
    TwoOnOneEvent(d, c);
    if c.winner == d.winner {
      OrderIsIrrelevant([c, d], [d, c]);
    }
  }

  /** A failing pair: of two corrections of one raw event the first delivered decides the winner. */
  lemma CorrectionsDependOnOrder(c: Call, team: string, other: string)
    requires Valid(c) && !c.conflict && team != other
    ensures var x, y := c.(winner := Some(team)), c.(winner := Some(other));
            && Run([x, y]).record.Some? && Run([x, y]).record.value.winner == Some(team)
            && Run([y, x]).record.Some? && Run([y, x]).record.value.winner == Some(other)
  {
    TwoOnOneEvent(c.(winner := Some(team)), c.(winner := Some(other)));
    TwoOnOneEvent(c.(winner := Some(other)), c.(winner := Some(team)));
  }

  lemma TwoOnOneEvent(c: Call, d: Call)
    requires c.rawEvent == d.rawEvent && Valid(c) && Valid(d) && !c.conflict && !d.conflict
    ensures Run([c, d]).record.Some? && Run([c, d]).record.value.winner == c.winner
  {
    assert [c, d][..1] == [c] && [c][..0] == [];
    var one := [NewRow(c)];
    assert [] + one == one;
    assert Run([]) == Table([], None);
    var t := Run([c]);
    assert t == Settle(Table([], None), c);
    assert !Knows([], c.rawEvent);
    assert Winners(one) == if c.winner.Some? then {c.winner.value} else {} by {
      assert one[0].winner == c.winner;
    }
    assert !Contradicts(one, false);
    MarkedWinners(one, false);
    assert WithRow([], c) == one;
    assert t.rows == Marked(one, false);
    assert t.rows[0].rawEvent == d.rawEvent;
    assert WithRow(t.rows, d) == t.rows;
    assert !Contradicts(t.rows, false);
  }
}
