/** Deleting old login records can be observed by nobody, and what every run of the login protocol keeps. */
module AuthLaws {
  import opened Common
  import opened Auth

  // ---- Runs ----------------------------------------------------------------------------

  datatype Op =
    | RequestOp(at: real, email: string, id: int, code: string, mail: Mail)
    | VerifyOp(at: real, email: string, code: string, token: string)
    | AuthenticateOp(at: real, token: string)
    | LogoutOp(at: real, token: string)
    | DisableOp(at: real, email: string, disabled: bool)
    | PruneOp(at: real, challengeRetention: real, sessionRetention: real)

  /** What the caller of an operation sees; pruning answers nobody. */
  datatype Answer =
    | RequestAnswer(request: RequestResult)
    | VerifyAnswer(verify: VerifyResult)
    | AuthenticateAnswer(user: Option<User>)
    | Done

  function SetDisabled(s: State, email: string, disabled: bool): State {
    if email in s.users then s.(users := s.users[email := s.users[email].(disabled := disabled)]) else s
  }

  function Step(cfg: Config, s: State, op: Op): (State, Answer) {
    match op
    case RequestOp(at, email, id, code, mail) =>
      var (s', r) := Request(cfg, s, email, at, id, code, mail);
      (s', RequestAnswer(r))
    case VerifyOp(at, email, code, token) =>
      var (s', r) := Verify(cfg, s, email, code, at, token);
      (s', VerifyAnswer(r))
    case AuthenticateOp(at, token) =>
      var (s', r) := Authenticate(s, token, at);
      (s', AuthenticateAnswer(r))
    case LogoutOp(at, token) => (Logout(s, token, at), Done)
    case DisableOp(_, email, disabled) => (SetDisabled(s, email, disabled), Done)
    case PruneOp(at, challengeRetention, sessionRetention) => (Prune(s, at, challengeRetention, sessionRetention), Done)
  }

  const Start := State(map[], map[], map[])

  function Run(cfg: Config, ops: seq<Op>): State {
    if ops == [] then Start else Step(cfg, Run(cfg, ops[..|ops| - 1]), ops[|ops| - 1]).0
  }

  /** The answers of a run, leaving out the prunes. */
  function Answers(cfg: Config, ops: seq<Op>): seq<Answer> {
    if ops == [] then []
    else
      var n := |ops| - 1;
      Answers(cfg, ops[..n]) + if ops[n].PruneOp? then [] else [Step(cfg, Run(cfg, ops[..n]), ops[n]).1]
  }

  /** The run with every prune struck out. */
  function Unpruned(ops: seq<Op>): seq<Op> {
    if ops == [] then []
    else Unpruned(ops[..|ops| - 1]) + if ops[|ops| - 1].PruneOp? then [] else [ops[|ops| - 1]]
  }

  /** Clocks do not run backwards, requests come at distinct times, tokens are fresh, retention exceeds the cooldown. */
  ghost predicate Proper(cfg: Config, ops: seq<Op>) {
    && cfg.cooldown >= 0.0
    && (forall i, j :: 0 <= i < j < |ops| ==> ops[i].at <= ops[j].at)
    && (forall i, j :: 0 <= i < j < |ops| && ops[i].RequestOp? && ops[j].RequestOp? ==> ops[i].at < ops[j].at)
    && (forall i, j :: 0 <= i < j < |ops| && ops[i].VerifyOp? && ops[j].VerifyOp? ==> ops[i].token != ops[j].token)
    && (forall i :: 0 <= i < |ops| && ops[i].PruneOp? ==>
          ops[i].challengeRetention > cfg.cooldown && ops[i].sessionRetention > 0.0)
  }

  // ---- Invariant on the rows of one email ------------------------------------------------

  predicate RowOk(cfg: Config, c: Challenge, now: real) {
    c.createdAt <= now && c.expiresAt == c.createdAt + cfg.codeTtl && c.attempts <= c.maxAttempts == cfg.maxAttempts
    && (c.consumedAt.Some? ==> c.consumedAt.value <= now)
  }

  /** An older row was created strictly earlier and consumed no later than the newer one was created. */
  predicate Precedes(c: Challenge, d: Challenge) {
    c.createdAt < d.createdAt && c.consumedAt.Some? && c.consumedAt.value <= d.createdAt
  }

  /**
   Rows are in creation order with one lifetime; every row but the newest was consumed no later than
   its successor was created, so at most one is unconsumed; tries never exceed the maximum.
   */
  ghost predicate RowsOk(cfg: Config, rows: seq<Challenge>, now: real) {
    && (forall i :: 0 <= i < |rows| ==> RowOk(cfg, rows[i], now))
    && (forall i, j :: 0 <= i < j < |rows| ==> Precedes(rows[i], rows[j]))
  }

  /** With increasing creation times the newest row is the last one, and only the last one can be open. */
  lemma {:induction false} NewestIsLast(cfg: Config, rows: seq<Challenge>, now: real)
    requires RowsOk(cfg, rows, now)
    ensures Newest(rows, AnyRow) == if rows == [] then None else Some(|rows| - 1)
    ensures Newest(rows, IsOpen) == if rows != [] && IsOpen(rows[|rows| - 1]) then Some(|rows| - 1) else None
  {
    if rows != [] {
      var n := |rows| - 1;
      NewestIsLast(cfg, rows[..n], now);
      assert forall i :: 0 <= i < n ==> Precedes(rows[i], rows[n]);
    }
  }

  lemma RequestKeepsRows(cfg: Config, rows: seq<Challenge>, last: real, now: real, id: int, code: string, mail: Mail)
    requires RowsOk(cfg, rows, last) && last <= now && forall i :: 0 <= i < |rows| ==> rows[i].createdAt < now
    ensures RowsOk(cfg, RequestRows(cfg, rows, now, id, code, mail).0, now)
  {
    NewestIsLast(cfg, rows, last);
    var rows' := RequestRows(cfg, rows, now, id, code, mail).0;
    forall i, j | 0 <= i < j < |rows'|
      ensures Precedes(rows'[i], rows'[j])
    {
      assert i < |rows| - 1 ==> Precedes(rows[i], rows[|rows| - 1]);
      assert j < |rows| ==> Precedes(rows[i], rows[j]);
    }
  }

  lemma VerifyKeepsRows(cfg: Config, rows: seq<Challenge>, last: real, code: string, now: real)
    requires RowsOk(cfg, rows, last) && last <= now
    ensures RowsOk(cfg, VerifyRows(rows, code, now).0, now)
  {
    NewestIsLast(cfg, rows, last);
    var rows' := VerifyRows(rows, code, now).0;
    forall i, j | 0 <= i < j < |rows'|
      ensures Precedes(rows'[i], rows'[j])
    {
      assert Precedes(rows[i], rows[j]);
    }
  }

  // ---- The shorter table: a suffix ------------------------------------------------------

  /** A row no request and no try can take notice of any more. */
  predicate Dead(cfg: Config, c: Challenge, now: real) {
    c.createdAt + cfg.cooldown < now && (c.consumedAt.Some? || c.expiresAt <= now)
  }

  ghost predicate AllDead(cfg: Config, rows: seq<Challenge>, now: real) {
    forall i :: 0 <= i < |rows| ==> Dead(cfg, rows[i], now)
  }

  /** The pruned table lacks only dead rows, and those are the oldest. */
  ghost predicate Trimmed(cfg: Config, full: seq<Challenge>, slim: seq<Challenge>, now: real) {
    exists dead :: full == dead + slim && AllDead(cfg, dead, now)
  }

  lemma DeadIsPastCooldown(cfg: Config, c: Challenge, now: real)
    requires Dead(cfg, c, now)
    ensures Remaining(cfg, c.createdAt, now) == 0
  {
    var x := cfg.cooldown - (now - c.createdAt) + 0.999;
    assert x < 1.0;
  }

  lemma SuffixOk(cfg: Config, dead: seq<Challenge>, slim: seq<Challenge>, now: real)
    requires RowsOk(cfg, dead + slim, now)
    ensures RowsOk(cfg, slim, now)
  {
    forall i | 0 <= i < |slim|
      ensures RowOk(cfg, slim[i], now)
    {
      assert (dead + slim)[|dead| + i] == slim[i];
    }
    forall i, j | 0 <= i < j < |slim|
      ensures Precedes(slim[i], slim[j])
    {
      assert Precedes((dead + slim)[|dead| + i], (dead + slim)[|dead| + j]);
    }
  }

  /** On a table with rows the newest and the newest open one are found at the end, with or without the dead rows. */
  lemma SameNewest(cfg: Config, dead: seq<Challenge>, slim: seq<Challenge>, last: real)
    requires RowsOk(cfg, dead + slim, last) && slim != []
    ensures Newest(slim, AnyRow) == Some(|slim| - 1) && Newest(dead + slim, AnyRow) == Some(|dead| + |slim| - 1)
    ensures Newest(slim, IsOpen) == if IsOpen(slim[|slim| - 1]) then Some(|slim| - 1) else None
    ensures Newest(dead + slim, IsOpen) == if IsOpen(slim[|slim| - 1]) then Some(|dead| + |slim| - 1) else None
  {
    SuffixOk(cfg, dead, slim, last);
    NewestIsLast(cfg, dead + slim, last);
    NewestIsLast(cfg, slim, last);
    assert (dead + slim)[|dead| + |slim| - 1] == slim[|slim| - 1];
  }

  lemma UpdatedLast(dead: seq<Challenge>, slim: seq<Challenge>, c: Challenge)
    requires slim != []
    ensures (dead + slim)[|dead| + |slim| - 1 := c] == dead + slim[|slim| - 1 := c]
  {
  }

  /** Both operations look at, and change, the last row only. */
  lemma RequestOnlyLast(
    cfg: Config, dead: seq<Challenge>, slim: seq<Challenge>, last: real, now: real, id: int, code: string, mail: Mail)
    requires RowsOk(cfg, dead + slim, last) && slim != []
    ensures RequestRows(cfg, dead + slim, now, id, code, mail).1 == RequestRows(cfg, slim, now, id, code, mail).1
    ensures RequestRows(cfg, dead + slim, now, id, code, mail).0 == dead + RequestRows(cfg, slim, now, id, code, mail).0
  {
    SameNewest(cfg, dead, slim, last);
    var c := slim[|slim| - 1];
    assert (dead + slim)[|dead| + |slim| - 1] == c;
    UpdatedLast(dead, slim, c.(consumedAt := Some(now)));
    var added := [NewChallenge(cfg, id, code, now, mail)];
    var closed := if c.consumedAt.None? then slim[|slim| - 1 := c.(consumedAt := Some(now))] else slim;
    assert (dead + closed) + added == dead + (closed + added);
  }

  lemma VerifyOnlyLast(cfg: Config, dead: seq<Challenge>, slim: seq<Challenge>, last: real, now: real, code: string)
    requires RowsOk(cfg, dead + slim, last) && slim != []
    ensures VerifyRows(dead + slim, code, now).1 == VerifyRows(slim, code, now).1
    ensures VerifyRows(dead + slim, code, now).0 == dead + VerifyRows(slim, code, now).0
  {
    SameNewest(cfg, dead, slim, last);
    var c := slim[|slim| - 1];
    assert (dead + slim)[|dead| + |slim| - 1] == c;
    UpdatedLast(dead, slim, c.(consumedAt := Some(now)));
    UpdatedLast(dead, slim, c.(attempts := c.attempts + 1, consumedAt := Some(now)));
    UpdatedLast(dead, slim, c.(attempts := c.attempts + 1,
                               consumedAt := if c.attempts + 1 >= c.maxAttempts then Some(now) else None));
  }

  /** A table with dead rows only answers like an empty one, and what it appends is the same. */
  lemma DeadRowsAnswerLikeNone(
    cfg: Config, dead: seq<Challenge>, last: real, now: real, id: int, code: string, mail: Mail)
    requires RowsOk(cfg, dead, last) && AllDead(cfg, dead, last) && last <= now
    ensures RequestRows(cfg, dead, now, id, code, mail).1 == RequestRows(cfg, [], now, id, code, mail).1
    ensures Trimmed(cfg, RequestRows(cfg, dead, now, id, code, mail).0, RequestRows(cfg, [], now, id, code, mail).0, now)
    ensures !VerifyRows(dead, code, now).1 && AllDead(cfg, VerifyRows(dead, code, now).0, now)
  {
    NewestIsLast(cfg, dead, last);
    var added := [NewChallenge(cfg, id, code, now, mail)];
    assert [] + added == added;
    if dead != [] {
      var n := |dead| - 1;
      DeadIsPastCooldown(cfg, dead[n], now);
      var closed := if dead[n].consumedAt.None? then dead[n := dead[n].(consumedAt := Some(now))] else dead;
      assert AllDead(cfg, closed, now);
      assert RequestRows(cfg, dead, now, id, code, mail).0 == closed + added;
    }
  }

  lemma RequestKeepsTrimmed(
    cfg: Config, full: seq<Challenge>, slim: seq<Challenge>, last: real, now: real, id: int, code: string, mail: Mail)
    requires RowsOk(cfg, full, last) && last <= now && Trimmed(cfg, full, slim, last)
    ensures RequestRows(cfg, full, now, id, code, mail).1 == RequestRows(cfg, slim, now, id, code, mail).1
    ensures Trimmed(cfg, RequestRows(cfg, full, now, id, code, mail).0, RequestRows(cfg, slim, now, id, code, mail).0, now)
  {
    var dead :| full == dead + slim && AllDead(cfg, dead, last);
    assert AllDead(cfg, dead, now);
    if slim == [] {
      assert full == dead;
      DeadRowsAnswerLikeNone(cfg, dead, last, now, id, code, mail);
    } else {
      RequestOnlyLast(cfg, dead, slim, last, now, id, code, mail);
    }
  }

  lemma VerifyKeepsTrimmed(cfg: Config, full: seq<Challenge>, slim: seq<Challenge>, last: real, code: string, now: real)
    requires RowsOk(cfg, full, last) && last <= now && Trimmed(cfg, full, slim, last)
    ensures VerifyRows(full, code, now).1 == VerifyRows(slim, code, now).1
    ensures Trimmed(cfg, VerifyRows(full, code, now).0, VerifyRows(slim, code, now).0, now)
  {
    var dead :| full == dead + slim && AllDead(cfg, dead, last);
    assert AllDead(cfg, dead, now);
    if slim == [] {
      assert full == dead;
      DeadRowsAnswerLikeNone(cfg, dead, last, now, 0, code, Lost);
      var dead' := VerifyRows(full, code, now).0;
      assert dead' == dead' + [];
    } else {
      VerifyOnlyLast(cfg, dead, slim, last, now, code);
    }
  }

  /** If a row has expired for the retention job, so have all older ones. */
  lemma ExpiryIsDownward(cfg: Config, rows: seq<Challenge>, now: real, i: nat, j: nat, cutoff: real)
    requires RowsOk(cfg, rows, now) && i < j < |rows| && RowExpired(rows[j], cutoff)
    ensures RowExpired(rows[i], cutoff)
  {
    assert Precedes(rows[i], rows[j]) && RowOk(cfg, rows[i], now) && RowOk(cfg, rows[j], now);
  }

  lemma {:induction false} KeepsNone(rows: seq<Challenge>, cutoff: real)
    requires forall i :: 0 <= i < |rows| ==> RowExpired(rows[i], cutoff)
    ensures KeptRows(rows, cutoff) == []
  {
    if rows != [] {
      KeepsNone(rows[..|rows| - 1], cutoff);
    }
  }

  /** What the retention job deletes of one email's rows is a prefix of them. */
  lemma {:induction false} KeptIsSuffix(cfg: Config, rows: seq<Challenge>, now: real, cutoff: real)
    returns (gone: seq<Challenge>)
    requires RowsOk(cfg, rows, now)
    ensures rows == gone + KeptRows(rows, cutoff)
    ensures forall i :: 0 <= i < |gone| ==> RowExpired(gone[i], cutoff)
  {
    gone := [];
    if rows != [] {
      var n := |rows| - 1;
      if RowExpired(rows[n], cutoff) {
        forall i | 0 <= i < n
          ensures RowExpired(rows[i], cutoff)
        {
          ExpiryIsDownward(cfg, rows, now, i, n, cutoff);
        }
        KeepsNone(rows, cutoff);
        gone := rows;
      } else {
        gone := KeptIsSuffix(cfg, rows[..n], now, cutoff);
        assert rows == rows[..n] + [rows[n]];
      }
    }
  }

  lemma PruneKeepsTrimmed(
    cfg: Config, full: seq<Challenge>, slim: seq<Challenge>, last: real, now: real, retention: real)
    requires RowsOk(cfg, full, last) && last <= now && Trimmed(cfg, full, slim, last)
    requires retention > cfg.cooldown >= 0.0
    ensures Trimmed(cfg, full, KeptRows(slim, now - retention), now)
  {
    var cutoff := now - retention;
    var dead :| full == dead + slim && AllDead(cfg, dead, last);
    SuffixOk(cfg, dead, slim, last);
    var gone := KeptIsSuffix(cfg, slim, last, cutoff);
    forall i | 0 <= i < |gone|
      ensures Dead(cfg, gone[i], now)
    {
      assert RowExpired(gone[i], cutoff);
    }
    assert AllDead(cfg, dead + gone, now);
    assert full == (dead + gone) + KeptRows(slim, cutoff);
  }

  // ---- The two states --------------------------------------------------------------------

  ghost predicate SessionDead(s: Session, now: real) {
    s.revokedAt.Some? || s.expiresAt <= now
  }

  /** `slim` is `full` without some dead rows and dead sessions. */
  ghost predicate Similar(cfg: Config, full: State, slim: State, now: real) {
    && (forall e :: EmailSimilar(cfg, full, slim, e, now))
    && (forall t :: t in slim.sessions ==> t in full.sessions && full.sessions[t] == slim.sessions[t])
    && (forall t :: t in full.sessions && t !in slim.sessions ==> SessionDead(full.sessions[t], now))
    && full.users == slim.users
  }

  ghost predicate EmailSimilar(cfg: Config, full: State, slim: State, e: string, now: real) {
    && RowsOk(cfg, RowsOf(full, e), now)
    && Trimmed(cfg, RowsOf(full, e), RowsOf(slim, e), now)
  }

  /** What a run knows about the future: requests come later than all rows, and tokens are unused. */
  ghost predicate Admissible(cfg: Config, full: State, op: Op) {
    match op
    case RequestOp(at, email, _, _, _) => forall i :: 0 <= i < |RowsOf(full, email)| ==> RowsOf(full, email)[i].createdAt < at
    case VerifyOp(_, _, _, token) => token !in full.sessions
    case PruneOp(_, challengeRetention, sessionRetention) => challengeRetention > cfg.cooldown >= 0.0 && sessionRetention > 0.0
    case _ => true
  }

  lemma TimeKeepsEmail(cfg: Config, full: State, slim: State, e: string, last: real, now: real)
    requires EmailSimilar(cfg, full, slim, e, last) && last <= now
    ensures EmailSimilar(cfg, full, slim, e, now)
  {
    var dead :| RowsOf(full, e) == dead + RowsOf(slim, e) && AllDead(cfg, dead, last);
    assert AllDead(cfg, dead, now);
    assert forall i :: 0 <= i < |RowsOf(full, e)| ==> RowOk(cfg, RowsOf(full, e)[i], last);
  }

  /** An operation on one email leaves the others as they were. */
  lemma OthersStaySimilar(
    cfg: Config, full: State, slim: State, full': State, slim': State, email: string, last: real, now: real)
    requires Similar(cfg, full, slim, last) && last <= now
    requires full'.challenges == full.challenges[email := RowsOf(full', email)]
    requires slim'.challenges == slim.challenges[email := RowsOf(slim', email)]
    requires EmailSimilar(cfg, full', slim', email, now)
    ensures forall e :: EmailSimilar(cfg, full', slim', e, now)
  {
    forall e
      ensures EmailSimilar(cfg, full', slim', e, now)
    {
      assert EmailSimilar(cfg, full, slim, e, last);
      TimeKeepsEmail(cfg, full, slim, e, last, now);
    }
  }

  lemma RequestSimilar(cfg: Config, full: State, slim: State, last: real, op: Op)
    requires op.RequestOp? && Similar(cfg, full, slim, last) && last <= op.at && Admissible(cfg, full, op)
    ensures Step(cfg, full, op).1 == Step(cfg, slim, op).1
    ensures Similar(cfg, Step(cfg, full, op).0, Step(cfg, slim, op).0, op.at)
  {
    var RequestOp(now, email, id, code, mail) := op;
    var f, s := RowsOf(full, email), RowsOf(slim, email);
    assert EmailSimilar(cfg, full, slim, email, last);
    RequestKeepsRows(cfg, f, last, now, id, code, mail);
    RequestKeepsTrimmed(cfg, f, s, last, now, id, code, mail);
    var full', slim' := Step(cfg, full, op).0, Step(cfg, slim, op).0;
    assert EmailSimilar(cfg, full', slim', email, now);
    OthersStaySimilar(cfg, full, slim, full', slim', email, last, now);
  }

  /** A verification on both sides: rows first, then users and sessions alike. */
  lemma VerifiedAlike(cfg: Config, full: State, slim: State, last: real, op: Op)
    requires op.VerifyOp? && Similar(cfg, full, slim, last) && last <= op.at && op.token !in full.sessions
    requires VerifyRows(RowsOf(full, op.email), op.code, op.at).1 == VerifyRows(RowsOf(slim, op.email), op.code, op.at).1
    ensures var full', slim' := Step(cfg, full, op).0, Step(cfg, slim, op).0;
            && Step(cfg, full, op).1 == Step(cfg, slim, op).1
            && full'.users == slim'.users
            && (forall t :: t in slim'.sessions ==> t in full'.sessions && full'.sessions[t] == slim'.sessions[t])
            && (forall t :: t in full'.sessions && t !in slim'.sessions ==> SessionDead(full'.sessions[t], op.at))
  {
  }

  lemma VerifiedRows(cfg: Config, full: State, slim: State, last: real, op: Op)
    requires op.VerifyOp? && EmailSimilar(cfg, full, slim, op.email, last) && last <= op.at
    ensures VerifyRows(RowsOf(full, op.email), op.code, op.at).1 == VerifyRows(RowsOf(slim, op.email), op.code, op.at).1
    ensures RowsOk(cfg, VerifyRows(RowsOf(full, op.email), op.code, op.at).0, op.at)
    ensures Trimmed(cfg, VerifyRows(RowsOf(full, op.email), op.code, op.at).0,
                    VerifyRows(RowsOf(slim, op.email), op.code, op.at).0, op.at)
  {
    VerifyKeepsRows(cfg, RowsOf(full, op.email), last, op.code, op.at);
    VerifyKeepsTrimmed(cfg, RowsOf(full, op.email), RowsOf(slim, op.email), last, op.code, op.at);
  }

  lemma VerifySetsRows(cfg: Config, s: State, op: Op)
    requires op.VerifyOp?
    ensures Step(cfg, s, op).0.challenges == s.challenges[op.email := VerifyRows(RowsOf(s, op.email), op.code, op.at).0]
  {
  }

  lemma VerifySimilar(cfg: Config, full: State, slim: State, last: real, op: Op)
    requires op.VerifyOp? && Similar(cfg, full, slim, last) && last <= op.at && Admissible(cfg, full, op)
    ensures Step(cfg, full, op).1 == Step(cfg, slim, op).1
    ensures Similar(cfg, Step(cfg, full, op).0, Step(cfg, slim, op).0, op.at)
  {
    assert EmailSimilar(cfg, full, slim, op.email, last);
    VerifiedRows(cfg, full, slim, last, op);
    VerifySetsRows(cfg, full, op);
    VerifySetsRows(cfg, slim, op);
    VerifiedAlike(cfg, full, slim, last, op);
    OthersStaySimilar(cfg, full, slim, Step(cfg, full, op).0, Step(cfg, slim, op).0, op.email, last, op.at);
  }

  lemma SessionSimilar(cfg: Config, full: State, slim: State, last: real, op: Op)
    requires op.AuthenticateOp? || op.LogoutOp? || op.DisableOp?
    requires Similar(cfg, full, slim, last) && last <= op.at
    ensures Step(cfg, full, op).1 == Step(cfg, slim, op).1
    ensures Similar(cfg, Step(cfg, full, op).0, Step(cfg, slim, op).0, op.at)
  {
    var full', slim' := Step(cfg, full, op).0, Step(cfg, slim, op).0;
    SessionsAlike(cfg, full, slim, last, op);
    SameRowsSimilar(cfg, full, slim, full', slim', last, op.at);
  }

  /** A dead session answers like a missing one, and a live one is the same on both sides. */
  lemma SessionsAlike(cfg: Config, full: State, slim: State, last: real, op: Op)
    requires op.AuthenticateOp? || op.LogoutOp? || op.DisableOp?
    requires full.users == slim.users && last <= op.at
    requires forall t :: t in slim.sessions ==> t in full.sessions && full.sessions[t] == slim.sessions[t]
    requires forall t :: t in full.sessions && t !in slim.sessions ==> SessionDead(full.sessions[t], last)
    ensures var full', slim' := Step(cfg, full, op).0, Step(cfg, slim, op).0;
            && Step(cfg, full, op).1 == Step(cfg, slim, op).1
            && full'.users == slim'.users && full'.challenges == full.challenges && slim'.challenges == slim.challenges
            && (forall t :: t in slim'.sessions ==> t in full'.sessions && full'.sessions[t] == slim'.sessions[t])
            && (forall t :: t in full'.sessions && t !in slim'.sessions ==> SessionDead(full'.sessions[t], op.at))
  {
  }

  lemma SameRowsSimilar(cfg: Config, full: State, slim: State, full': State, slim': State, last: real, now: real)
    requires Similar(cfg, full, slim, last) && last <= now
    requires full'.challenges == full.challenges && slim'.challenges == slim.challenges
    ensures forall e :: EmailSimilar(cfg, full', slim', e, now)
  {
    forall e
      ensures EmailSimilar(cfg, full', slim', e, now)
    {
      TimeKeepsEmail(cfg, full, slim, e, last, now);
    }
  }

  /** Pruning one side only keeps the two sides similar. */
  lemma PruneSimilar(cfg: Config, full: State, slim: State, last: real, op: Op)
    requires op.PruneOp? && Similar(cfg, full, slim, last) && last <= op.at && Admissible(cfg, full, op)
    ensures Similar(cfg, full, Step(cfg, slim, op).0, op.at)
  {
    var slim' := Step(cfg, slim, op).0;
    forall e
      ensures EmailSimilar(cfg, full, slim', e, op.at)
    {
      assert EmailSimilar(cfg, full, slim, e, last);
      TimeKeepsEmail(cfg, full, slim, e, last, op.at);
      PruneKeepsTrimmed(cfg, RowsOf(full, e), RowsOf(slim, e), last, op.at, op.challengeRetention);
      assert RowsOf(slim', e) == KeptRows(RowsOf(slim, e), op.at - op.challengeRetention);
    }
  }

  // ---- Runs with and without prunes ------------------------------------------------------

  ghost predicate RequestedAt(ops: seq<Op>, at: real) {
    exists j :: 0 <= j < |ops| && ops[j].RequestOp? && ops[j].at == at
  }

  ghost predicate TokenDrawn(ops: seq<Op>, token: string) {
    exists j :: 0 <= j < |ops| && ops[j].VerifyOp? && ops[j].token == token
  }

  ghost predicate RowsTraced(rows: seq<Challenge>, ops: seq<Op>) {
    forall i :: 0 <= i < |rows| ==> RequestedAt(ops, rows[i].createdAt)
  }

  /** All rows and tokens of a state stem from operations of the run. */
  ghost predicate Traced(full: State, ops: seq<Op>) {
    && (forall e :: RowsTraced(RowsOf(full, e), ops))
    && (forall t :: t in full.sessions ==> TokenDrawn(ops, t))
  }

  lemma TracedLater(full: State, ops: seq<Op>, op: Op)
    requires Traced(full, ops)
    ensures Traced(full, ops + [op])
  {
    var ops' := ops + [op];
    forall e
      ensures RowsTraced(RowsOf(full, e), ops')
    {
      var rows := RowsOf(full, e);
      assert RowsTraced(rows, ops);
      forall i | 0 <= i < |rows|
        ensures RequestedAt(ops', rows[i].createdAt)
      {
        assert RequestedAt(ops, rows[i].createdAt);
        var j :| 0 <= j < |ops| && ops[j].RequestOp? && ops[j].at == rows[i].createdAt;
        assert ops'[j] == ops[j];
      }
    }
    forall t | t in full.sessions
      ensures TokenDrawn(ops', t)
    {
      var j :| 0 <= j < |ops| && ops[j].VerifyOp? && ops[j].token == t;
      assert ops'[j] == ops[j];
    }
  }

  /** Each operation's rows: the old ones, perhaps changed in other columns, and for a request one of its time. */
  ghost predicate RowsFrom(rows': seq<Challenge>, rows: seq<Challenge>, op: Op) {
    forall i :: 0 <= i < |rows'| ==>
      (i < |rows| && rows'[i].createdAt == rows[i].createdAt) || (op.RequestOp? && rows'[i].createdAt == op.at)
  }

  lemma StepRowsFrom(cfg: Config, full: State, op: Op, e: string)
    requires !op.PruneOp?
    ensures RowsFrom(RowsOf(Step(cfg, full, op).0, e), RowsOf(full, e), op)
  {
  }

  lemma StepTokens(cfg: Config, full: State, op: Op)
    requires !op.PruneOp?
    ensures forall t :: t in Step(cfg, full, op).0.sessions ==> t in full.sessions || (op.VerifyOp? && op.token == t)
  {
  }

  lemma StepTraced(cfg: Config, full: State, ops: seq<Op>, op: Op)
    requires Traced(full, ops) && !op.PruneOp?
    ensures Traced(Step(cfg, full, op).0, ops + [op])
  {
    TracedLater(full, ops, op);
    StepTokens(cfg, full, op);
    var ops', full' := ops + [op], Step(cfg, full, op).0;
    assert ops'[|ops|] == op;
    forall e
      ensures RowsTraced(RowsOf(full', e), ops')
    {
      StepRowsFrom(cfg, full, op, e);
      assert RowsTraced(RowsOf(full, e), ops');
      RowsFromTraced(RowsOf(full', e), RowsOf(full, e), ops, op);
    }
  }

  lemma RowsFromTraced(rows': seq<Challenge>, rows: seq<Challenge>, ops: seq<Op>, op: Op)
    requires RowsFrom(rows', rows, op) && RowsTraced(rows, ops + [op])
    ensures RowsTraced(rows', ops + [op])
  {
    assert (ops + [op])[|ops|] == op;
    forall i | 0 <= i < |rows'|
      ensures RequestedAt(ops + [op], rows'[i].createdAt)
    {
      assert i < |rows| ==> RequestedAt(ops + [op], rows[i].createdAt);
    }
  }

  lemma {:induction false} RunTraced(cfg: Config, ops: seq<Op>)
    ensures Traced(Run(cfg, Unpruned(ops)), ops)
  {
    if ops != [] {
      var before, op := ops[..|ops| - 1], ops[|ops| - 1];
      RunTraced(cfg, before);
      assert ops == before + [op];
      if op.PruneOp? {
        assert Unpruned(ops) == Unpruned(before);
        TracedLater(Run(cfg, Unpruned(before)), before, op);
      } else {
        RunOfSnoc(cfg, Unpruned(before), op);
        StepTraced(cfg, Run(cfg, Unpruned(before)), before, op);
      }
    }
  }

  lemma RunOfSnoc(cfg: Config, ops: seq<Op>, op: Op)
    ensures Run(cfg, ops + [op]) == Step(cfg, Run(cfg, ops), op).0
    ensures Answers(cfg, ops + [op]) == Answers(cfg, ops) + if op.PruneOp? then [] else [Step(cfg, Run(cfg, ops), op).1]
  {
    assert (ops + [op])[..|ops|] == ops;
  }

  /** In a proper run the next operation is admissible. */
  lemma NextIsAdmissible(cfg: Config, full: State, ops: seq<Op>)
    requires ops != [] && Proper(cfg, ops) && Traced(full, ops[..|ops| - 1])
    ensures Admissible(cfg, full, ops[|ops| - 1])
  {
    var before, op := ops[..|ops| - 1], ops[|ops| - 1];
    if op.RequestOp? {
      var rows := RowsOf(full, op.email);
      assert RowsTraced(rows, before);
      forall i | 0 <= i < |rows|
        ensures rows[i].createdAt < op.at
      {
        assert RequestedAt(before, rows[i].createdAt);
        var j :| 0 <= j < |before| && before[j].RequestOp? && before[j].at == rows[i].createdAt;
        assert ops[j] == before[j];
      }
    } else if op.VerifyOp? {
      assert forall j :: 0 <= j < |before| ==> ops[j] == before[j];
    }
  }

  lemma SimilarLater(cfg: Config, full: State, slim: State, last: real, now: real)
    requires Similar(cfg, full, slim, last) && last <= now
    ensures Similar(cfg, full, slim, now)
  {
    forall e
      ensures EmailSimilar(cfg, full, slim, e, now)
    {
      TimeKeepsEmail(cfg, full, slim, e, last, now);
    }
  }

  /** One more operation on both sides, or a prune on one side, changes no answer and keeps the sides similar. */
  lemma StepSimilar(cfg: Config, full: State, slim: State, last: real, op: Op)
    requires Similar(cfg, full, slim, last) && last <= op.at && Admissible(cfg, full, op)
    ensures !op.PruneOp? ==> Step(cfg, full, op).1 == Step(cfg, slim, op).1
    ensures Similar(cfg, if op.PruneOp? then full else Step(cfg, full, op).0, Step(cfg, slim, op).0, op.at)
  {
    match op
    case RequestOp(_, _, _, _, _) => RequestSimilar(cfg, full, slim, last, op);
    case VerifyOp(_, _, _, _) => VerifySimilar(cfg, full, slim, last, op);
    case PruneOp(_, _, _) => PruneSimilar(cfg, full, slim, last, op);
    case _ => SessionSimilar(cfg, full, slim, last, op);
  }

  lemma StartSimilar(cfg: Config, now: real)
    ensures Similar(cfg, Start, Start, now)
  {
    forall e
      ensures EmailSimilar(cfg, Start, Start, e, now)
    {
      assert RowsOf(Start, e) == [] + [];
      assert AllDead(cfg, [], now);
    }
  }

  lemma ProperBefore(cfg: Config, ops: seq<Op>)
    requires ops != [] && Proper(cfg, ops)
    ensures Proper(cfg, ops[..|ops| - 1])
    ensures |ops| > 1 ==> ops[|ops| - 2].at <= ops[|ops| - 1].at
  {
  }

  lemma UnprunedSnoc(cfg: Config, before: seq<Op>, op: Op)
    ensures Run(cfg, before + [op]) == Step(cfg, Run(cfg, before), op).0
    ensures Answers(cfg, before + [op]) == Answers(cfg, before) + if op.PruneOp? then [] else [Step(cfg, Run(cfg, before), op).1]
    ensures var full := Run(cfg, Unpruned(before));
            && Run(cfg, Unpruned(before + [op])) == (if op.PruneOp? then full else Step(cfg, full, op).0)
            && Answers(cfg, Unpruned(before + [op]))
               == Answers(cfg, Unpruned(before)) + if op.PruneOp? then [] else [Step(cfg, full, op).1]
  {
    assert (before + [op])[..|before|] == before;
    RunOfSnoc(cfg, before, op);
    RunOfSnoc(cfg, Unpruned(before), op);
    assert op.PruneOp? ==> Unpruned(before + [op]) == Unpruned(before);
  }

  lemma {:induction false} RunsStaySimilar(cfg: Config, ops: seq<Op>, now: real)
    requires Proper(cfg, ops) && (ops != [] ==> ops[|ops| - 1].at <= now)
    ensures Similar(cfg, Run(cfg, Unpruned(ops)), Run(cfg, ops), now)
    ensures Answers(cfg, ops) == Answers(cfg, Unpruned(ops))
  {
    if ops == [] {
      StartSimilar(cfg, now);
    } else {
      var before, op := ops[..|ops| - 1], ops[|ops| - 1];
      assert ops == before + [op];
      var full, slim := Run(cfg, Unpruned(before)), Run(cfg, before);
      ProperBefore(cfg, ops);
      RunsStaySimilar(cfg, before, op.at);
      RunTraced(cfg, before);
      NextIsAdmissible(cfg, full, ops);
      StepSimilar(cfg, full, slim, op.at, op);
      UnprunedSnoc(cfg, before, op);
      SimilarLater(cfg, Run(cfg, Unpruned(ops)), Run(cfg, ops), op.at, now);
    }
  }

  /** Deleting old rows, at any points of a run and any number of times, changes no answer of the service. */
  lemma PruningIsUnobservable(cfg: Config, ops: seq<Op>)
    requires Proper(cfg, ops)
    ensures Answers(cfg, ops) == Answers(cfg, Unpruned(ops))
  {
    RunsStaySimilar(cfg, ops, if ops == [] then 0.0 else ops[|ops| - 1].at);
  }

  /** At every point of a run the rows of every email are in order. */
  lemma RunsKeepRows(cfg: Config, ops: seq<Op>, email: string, now: real)
    requires Proper(cfg, ops) && (ops != [] ==> ops[|ops| - 1].at <= now)
    ensures RowsOk(cfg, RowsOf(Run(cfg, ops), email), now)
  {
    RunsStaySimilar(cfg, ops, now);
    var full, slim := Run(cfg, Unpruned(ops)), Run(cfg, ops);
    assert EmailSimilar(cfg, full, slim, email, now);
    var dead :| RowsOf(full, email) == dead + RowsOf(slim, email) && AllDead(cfg, dead, now);
    SuffixOk(cfg, dead, RowsOf(slim, email), now);
  }

  /** Of an email's challenges at most one is unconsumed, and none was tried more often than allowed. */
  lemma EveryRunKeepsRows(cfg: Config, ops: seq<Op>, email: string)
    requires Proper(cfg, ops)
    ensures var rows := RowsOf(Run(cfg, ops), email);
            && (forall i :: 0 <= i < |rows| - 1 ==> rows[i].consumedAt.Some?)
            && (forall i :: 0 <= i < |rows| ==> rows[i].attempts <= cfg.maxAttempts)
  {
    var now := if ops == [] then 0.0 else ops[|ops| - 1].at;
    RunsKeepRows(cfg, ops, email, now);
    var rows := RowsOf(Run(cfg, ops), email);
    assert forall i :: 0 <= i < |rows| ==> RowOk(cfg, rows[i], now);
    assert forall i :: 0 <= i < |rows| - 1 ==> Precedes(rows[i], rows[|rows| - 1]);
  }
}
