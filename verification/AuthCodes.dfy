/** Who may log in, said of the operations alone: the newest delivered code, in time, within the tries, once. */
module AuthCodes {
  import opened Common
  import opened Auth
  import opened AuthLaws

  // ---- What the operations say -------------------------------------------------------------

  /** A new code may follow an earlier request once that was refused or the cooldown is over, to the millisecond. */
  predicate MayFollow(cfg: Config, last: Op, at: real)
    requires last.RequestOp?
  {
    last.mail == Refused || at - last.at > cfg.cooldown - 0.001
  }

  /** The last request of the email that was let through. */
  function LastRequest(cfg: Config, ops: seq<Op>, email: string): (r: Option<nat>)
    ensures r.Some? ==> r.value < |ops| && ops[r.value].RequestOp? && ops[r.value].email == email
  {
    if ops == [] then None
    else
      var n := |ops| - 1;
      var earlier := LastRequest(cfg, ops[..n], email);
      if ops[n].RequestOp? && ops[n].email == email && (earlier.None? || MayFollow(cfg, ops[earlier.value], ops[n].at)) then Some(n)
      else earlier
  }

  predicate IsTry(op: Op, email: string) {
    op.VerifyOp? && op.email == email
  }

  /** How often a code was tried for the email from an operation on. */
  function Tries(ops: seq<Op>, email: string, from: nat): nat {
    if |ops| <= from then 0
    else Tries(ops[..|ops| - 1], email, from) + if IsTry(ops[|ops| - 1], email) then 1 else 0
  }

  ghost predicate Tried(ops: seq<Op>, email: string, from: nat, code: string) {
    exists j :: from <= j < |ops| && IsTry(ops[j], email) && ops[j].code == code
  }

  /** The code is the one last sent, is younger than its lifetime, has tries left, and was not used before. */
  ghost predicate Redeems(cfg: Config, ops: seq<Op>, email: string, code: string, at: real) {
    var m := LastRequest(cfg, ops, email);
    && m.Some? && ops[m.value].mail == Delivered && ops[m.value].code == code
    && at < ops[m.value].at + cfg.codeTtl
    && Tries(ops, email, m.value + 1) < cfg.maxAttempts
    && !Tried(ops, email, m.value + 1, code)
  }

  predicate IsDisabled(s: State, email: string) {
    email in s.users && s.users[email].disabled
  }

  // ---- The last row keeps track of the operations --------------------------------------------

  function DeliveryOf(mail: Mail): Delivery {
    match mail case Delivered => Sent case Refused => Failed case Lost => Pending
  }

  ghost predicate RowTracks(cfg: Config, ops: seq<Op>, email: string, m: nat, c: Challenge, now: real)
    requires m < |ops| && ops[m].RequestOp?
  {
    && c.createdAt == ops[m].at && c.expiresAt == ops[m].at + cfg.codeTtl && c.maxAttempts == cfg.maxAttempts
    && c.digest == Digest(c.id, ops[m].code) && c.delivery == DeliveryOf(ops[m].mail)
    && (ops[m].mail == Delivered && c.consumedAt.None? ==>
          c.attempts == Tries(ops, email, m + 1) && !Tried(ops, email, m + 1, ops[m].code))
    && (ops[m].mail == Delivered && c.consumedAt.Some? ==>
          || Tries(ops, email, m + 1) >= cfg.maxAttempts || Tried(ops, email, m + 1, ops[m].code)
          || c.expiresAt <= now)
  }

  ghost predicate Tracks(cfg: Config, ops: seq<Op>, email: string, rows: seq<Challenge>, now: real) {
    match LastRequest(cfg, ops, email)
    case None => rows == []
    case Some(m) => rows != [] && RowTracks(cfg, ops, email, m, rows[|rows| - 1], now)
  }

  lemma {:induction false} LastRequestSnoc(cfg: Config, ops: seq<Op>, op: Op, email: string)
    ensures var earlier := LastRequest(cfg, ops, email);
            LastRequest(cfg, ops + [op], email)
            == if op.RequestOp? && op.email == email && (earlier.None? || MayFollow(cfg, ops[earlier.value], op.at))
               then Some(|ops|) else earlier
  {
    assert (ops + [op])[..|ops|] == ops;
  }

  lemma {:induction false} TriesSnoc(ops: seq<Op>, op: Op, email: string, from: nat, code: string)
    requires from <= |ops|
    ensures Tries(ops + [op], email, from) == Tries(ops, email, from) + if IsTry(op, email) then 1 else 0
    ensures Tried(ops + [op], email, from, code) <==> Tried(ops, email, from, code) || (IsTry(op, email) && op.code == code)
  {
    var ops' := ops + [op];
    assert ops'[..|ops|] == ops && ops'[|ops|] == op;
    if Tried(ops, email, from, code) {
      var j :| from <= j < |ops| && IsTry(ops[j], email) && ops[j].code == code;
      assert ops'[j] == ops[j];
    }
  }

  lemma {:induction false} NothingTriedYet(ops: seq<Op>, email: string, code: string)
    ensures Tries(ops, email, |ops|) == 0 && !Tried(ops, email, |ops|, code)
  {
  }

  /** Operations that are no try at this email's codes leave its last row on track. */
  lemma {:induction false} RowStaysOnTrack(cfg: Config, ops: seq<Op>, op: Op, email: string, m: nat, c: Challenge, last: real)
    requires m < |ops| && ops[m].RequestOp? && RowTracks(cfg, ops, email, m, c, last) && last <= op.at
    requires !IsTry(op, email) || ops[m].mail != Delivered
    ensures RowTracks(cfg, ops + [op], email, m, c, op.at)
  {
    TriesSnoc(ops, op, email, m + 1, ops[m].code);
    assert (ops + [op])[m] == ops[m];
  }

  lemma {:induction false} OthersStayOnTrack(cfg: Config, ops: seq<Op>, op: Op, email: string, rows: seq<Challenge>, last: real)
    requires Tracks(cfg, ops, email, rows, last) && last <= op.at && !IsTry(op, email)
    requires !(op.RequestOp? && op.email == email)
    ensures Tracks(cfg, ops + [op], email, rows, op.at)
  {
    LastRequestSnoc(cfg, ops, op, email);
    var m := LastRequest(cfg, ops, email);
    if m.Some? {
      RowStaysOnTrack(cfg, ops, op, email, m.value, rows[|rows| - 1], last);
      assert (ops + [op])[m.value] == ops[m.value];
    }
  }

  lemma {:induction false} CooldownIs(cfg: Config, createdAt: real, now: real)
    ensures Remaining(cfg, createdAt, now) > 0 <==> now - createdAt <= cfg.cooldown - 0.001
  {
    var x := cfg.cooldown - (now - createdAt) + 0.999;
    assert x >= 1.0 ==> x.Floor >= 1;
  }

  /** A request is turned away exactly while the last one let through cools down. */
  lemma {:induction false} RequestStaysOnTrack(cfg: Config, ops: seq<Op>, op: Op, rows: seq<Challenge>, last: real)
    requires op.RequestOp? && Tracks(cfg, ops, op.email, rows, last) && RowsOk(cfg, rows, last) && last <= op.at
    ensures var (rows', r) := RequestRows(cfg, rows, op.at, op.id, op.code, op.mail);
            && Tracks(cfg, ops + [op], op.email, rows', op.at)
            && (r.CoolingDown? <==>
                  var m := LastRequest(cfg, ops, op.email); m.Some? && !MayFollow(cfg, ops[m.value], op.at))
  {
    NewestIsLast(cfg, rows, last);
    LastRequestSnoc(cfg, ops, op, op.email);
    var m := LastRequest(cfg, ops, op.email);
    var (rows', r) := RequestRows(cfg, rows, op.at, op.id, op.code, op.mail);
    assert (ops + [op])[|ops|] == op;
    if m.Some? {
      CooldownIs(cfg, rows[|rows| - 1].createdAt, op.at);
      assert rows[|rows| - 1].delivery == Failed <==> ops[m.value].mail == Refused;
    }
    if m.Some? && !MayFollow(cfg, ops[m.value], op.at) {
      RowStaysOnTrack(cfg, ops, op, op.email, m.value, rows[|rows| - 1], last);
    } else {
      NothingTriedYet(ops + [op], op.email, op.code);
      assert rows'[|rows'| - 1] == NewChallenge(cfg, op.id, op.code, op.at, op.mail);
    }
  }

  lemma {:induction false} TryStaysOnTrack(cfg: Config, ops: seq<Op>, op: Op, rows: seq<Challenge>, last: real)
    requires op.VerifyOp? && Tracks(cfg, ops, op.email, rows, last) && RowsOk(cfg, rows, last) && last <= op.at
    ensures var (rows', matched) := VerifyRows(rows, op.code, op.at);
            && Tracks(cfg, ops + [op], op.email, rows', op.at)
            && (matched <==> Redeems(cfg, ops, op.email, op.code, op.at))
  {
    NewestIsLast(cfg, rows, last);
    LastRequestSnoc(cfg, ops, op, op.email);
    var m := LastRequest(cfg, ops, op.email);
    if m.Some? {
      var c := rows[|rows| - 1];
      assert (ops + [op])[m.value] == ops[m.value];
      TriesSnoc(ops, op, op.email, m.value + 1, ops[m.value].code);
      if ops[m.value].mail != Delivered {
        RowStaysOnTrack(cfg, ops, op, op.email, m.value, c, last);
      }
    }
  }

  /** One operation other than a prune keeps the last row of every email on track. */
  lemma {:induction false} StepStaysOnTrack(cfg: Config, s: State, ops: seq<Op>, op: Op, email: string, last: real)
    requires !op.PruneOp? && last <= op.at && RowsOk(cfg, RowsOf(s, email), last)
    requires Tracks(cfg, ops, email, RowsOf(s, email), last)
    ensures Tracks(cfg, ops + [op], email, RowsOf(Step(cfg, s, op).0, email), op.at)
  {
    if op.RequestOp? && op.email == email {
      RequestStaysOnTrack(cfg, ops, op, RowsOf(s, email), last);
    } else if IsTry(op, email) {
      VerifySetsRows(cfg, s, op);
      TryStaysOnTrack(cfg, ops, op, RowsOf(s, email), last);
    } else {
      OthersStayOnTrack(cfg, ops, op, email, RowsOf(s, email), last);
      RowsUntouched(cfg, s, op, email);
    }
  }

  lemma {:induction false} RowsUntouched(cfg: Config, s: State, op: Op, email: string)
    requires !op.PruneOp? && !IsTry(op, email) && !(op.RequestOp? && op.email == email)
    ensures RowsOf(Step(cfg, s, op).0, email) == RowsOf(s, email)
  {
  }

  lemma {:induction false} TracksLater(cfg: Config, ops: seq<Op>, email: string, rows: seq<Challenge>, last: real, now: real)
    requires Tracks(cfg, ops, email, rows, last) && last <= now
    ensures Tracks(cfg, ops, email, rows, now)
  {
  }

  lemma {:induction false} UnprunedRowsOk(cfg: Config, ops: seq<Op>, email: string, now: real)
    requires Proper(cfg, ops) && (ops != [] ==> ops[|ops| - 1].at <= now)
    ensures RowsOk(cfg, RowsOf(Run(cfg, Unpruned(ops)), email), now)
  {
    RunsStaySimilar(cfg, ops, now);
    assert EmailSimilar(cfg, Run(cfg, Unpruned(ops)), Run(cfg, ops), email, now);
  }

  /** In a run from which the prunes are struck out the last row of every email is on track. */
  lemma {:induction false} RunStaysOnTrack(cfg: Config, ops: seq<Op>, email: string, now: real)
    requires Proper(cfg, ops) && (ops != [] ==> ops[|ops| - 1].at <= now)
    ensures Tracks(cfg, ops, email, RowsOf(Run(cfg, Unpruned(ops)), email), now)
  {
    if ops != [] {
      var before, op := ops[..|ops| - 1], ops[|ops| - 1];
      assert ops == before + [op];
      var full := Run(cfg, Unpruned(before));
      ProperBefore(cfg, ops);
      RunStaysOnTrack(cfg, before, email, op.at);
      UnprunedRowsOk(cfg, before, email, op.at);
      UnprunedSnoc(cfg, before, op);
      if op.PruneOp? {
        OthersStayOnTrack(cfg, before, op, email, RowsOf(full, email), op.at);
      } else {
        StepStaysOnTrack(cfg, full, before, op, email, op.at);
      }
      TracksLater(cfg, ops, email, RowsOf(Run(cfg, Unpruned(ops)), email), op.at, now);
    }
  }

  // ---- Codes -----------------------------------------------------------------------------------

  /** What the next operation answers is what it would answer had nothing been pruned. */
  lemma {:induction false} AnswersAlike(cfg: Config, ops: seq<Op>, op: Op) returns (full: State)
    requires Proper(cfg, ops + [op]) && !op.PruneOp?
    ensures Proper(cfg, ops) && (ops != [] ==> ops[|ops| - 1].at <= op.at)
    ensures full == Run(cfg, Unpruned(ops)) && full.users == Run(cfg, ops).users
    ensures Similar(cfg, full, Run(cfg, ops), op.at) && Admissible(cfg, full, op)
    ensures Step(cfg, Run(cfg, ops), op).1 == Step(cfg, full, op).1
  {
    var all := ops + [op];
    assert all[..|all| - 1] == ops;
    ProperBefore(cfg, all);
    full := Run(cfg, Unpruned(ops));
    RunsStaySimilar(cfg, ops, op.at);
    RunTraced(cfg, ops);
    NextIsAdmissible(cfg, full, all);
    StepSimilar(cfg, full, Run(cfg, ops), op.at, op);
  }

  /**
   In every proper run a code logs in exactly when it is the one last sent to that email, in time, with tries left
   and never used before, and the account is not disabled; a disabled account is told so, anything else is invalid.
   */
  lemma {:induction false} CodesLogIn(cfg: Config, ops: seq<Op>, at: real, email: string, code: string, token: string)
    requires Proper(cfg, ops + [VerifyOp(at, email, code, token)])
    ensures var s, r := Run(cfg, ops), Step(cfg, Run(cfg, ops), VerifyOp(at, email, code, token)).1.verify;
            && (r.Verified? <==> Redeems(cfg, ops, email, code, at) && !IsDisabled(s, email))
            && (r.AccountDisabled? <==> Redeems(cfg, ops, email, code, at) && IsDisabled(s, email))
            && (r.Verified? ==> r.token == token && r.expiresAt == at + cfg.sessionTtl
                                && r.user.lastLoginAt == at && !r.user.disabled)
  {
    var op := VerifyOp(at, email, code, token);
    var full := AnswersAlike(cfg, ops, op);
    RunStaysOnTrack(cfg, ops, email, at);
    assert EmailSimilar(cfg, full, Run(cfg, ops), email, at);
    TryStaysOnTrack(cfg, ops, op, RowsOf(full, email), at);
  }

  /** In every proper run a request is turned away exactly while the last one let through was not refused and cools down. */
  lemma {:induction false} RequestsCoolDown(cfg: Config, ops: seq<Op>, op: Op)
    requires op.RequestOp? && Proper(cfg, ops + [op])
    ensures var m := LastRequest(cfg, ops, op.email);
            Step(cfg, Run(cfg, ops), op).1.request.CoolingDown? <==> m.Some? && !MayFollow(cfg, ops[m.value], op.at)
    ensures var r := Step(cfg, Run(cfg, ops), op).1.request;
            && (!r.CoolingDown? ==> (r == CodeSent(cfg.cooldown) <==> op.mail == Delivered))
            && (!r.CoolingDown? ==> (r == DeliveryError <==> op.mail == Refused))
  {
    var full := AnswersAlike(cfg, ops, op);
    RunStaysOnTrack(cfg, ops, op.email, op.at);
    assert EmailSimilar(cfg, full, Run(cfg, ops), op.email, op.at);
    RequestStaysOnTrack(cfg, ops, op, RowsOf(full, op.email), op.at);
  }

  // ---- Tokens ----------------------------------------------------------------------------------

  /** The operation is the login that drew the token. */
  ghost predicate DrewAt(cfg: Config, ops: seq<Op>, token: string, j: nat) {
    && j < |ops| && ops[j].VerifyOp? && ops[j].token == token
    && Step(cfg, Run(cfg, ops[..j]), ops[j]).1.verify.Verified?
  }

  ghost predicate LoggedOut(ops: seq<Op>, token: string, j: nat) {
    exists i :: j < i < |ops| && ops[i].LogoutOp? && ops[i].token == token
  }

  ghost predicate SessionTracks(cfg: Config, ops: seq<Op>, s: State, token: string, j: nat) {
    && DrewAt(cfg, ops, token, j) && token in s.sessions
    && s.sessions[token].user == ops[j].email && s.sessions[token].expiresAt == ops[j].at + cfg.sessionTtl
    && (s.sessions[token].revokedAt.Some? <==> LoggedOut(ops, token, j))
    && ops[j].email in s.users
  }

  /** The token has a session iff some login drew it, and then the session keeps track of that login. */
  ghost predicate TokenTracks(cfg: Config, ops: seq<Op>, s: State, token: string) {
    && (token in s.sessions ==> exists j: nat :: SessionTracks(cfg, ops, s, token, j))
    && (token !in s.sessions ==> forall j: nat :: !DrewAt(cfg, ops, token, j))
  }

  lemma {:induction false} DrewSnoc(cfg: Config, ops: seq<Op>, op: Op, token: string, j: nat)
    ensures DrewAt(cfg, ops + [op], token, j) <==>
            || DrewAt(cfg, ops, token, j)
            || (j == |ops| && op.VerifyOp? && op.token == token && Step(cfg, Run(cfg, ops), op).1.verify.Verified?)
  {
    var ops' := ops + [op];
    assert ops'[..|ops|] == ops;
    assert j < |ops| ==> ops'[..j] == ops[..j] && ops'[j] == ops[j];
  }

  lemma {:induction false} OutSnoc(ops: seq<Op>, op: Op, token: string, j: nat)
    requires j < |ops|
    ensures LoggedOut(ops + [op], token, j) <==> LoggedOut(ops, token, j) || (op.LogoutOp? && op.token == token)
  {
    var ops' := ops + [op];
    assert ops'[|ops|] == op;
    if LoggedOut(ops, token, j) {
      var i :| j < i < |ops| && ops[i].LogoutOp? && ops[i].token == token;
      assert ops'[i] == ops[i];
    }
  }

  /** How one operation changes the session of a token: a login makes it, a logout revokes it, nothing else matters here. */
  lemma {:induction false} SessionStep(cfg: Config, s: State, op: Op, token: string)
    requires !op.PruneOp? && token != "" && (op.VerifyOp? ==> op.token !in s.sessions)
    ensures var s', made := Step(cfg, s, op).0, op.VerifyOp? && op.token == token && Step(cfg, s, op).1.verify.Verified?;
            && (token in s'.sessions <==> token in s.sessions || made)
            && (made ==> s'.sessions[token] == Session(op.email, op.at + cfg.sessionTtl, None, op.at) && op.email in s'.users)
            && (token in s.sessions ==>
                  var x, x' := s.sessions[token], s'.sessions[token];
                  && x'.user == x.user && x'.expiresAt == x.expiresAt
                  && (x'.revokedAt.Some? <==> x.revokedAt.Some? || (op.LogoutOp? && op.token == token)))
            && s.users.Keys <= s'.users.Keys
  {
  }

  lemma {:induction false} TokenStaysOnTrack(cfg: Config, s: State, ops: seq<Op>, op: Op, token: string)
    requires !op.PruneOp? && token != "" && (op.VerifyOp? ==> op.token !in s.sessions) && TokenTracks(cfg, ops, s, token)
    requires Step(cfg, Run(cfg, ops), op).1 == Step(cfg, s, op).1
    ensures TokenTracks(cfg, ops + [op], Step(cfg, s, op).0, token)
  {
    SessionStep(cfg, s, op, token);
    var ops', s' := ops + [op], Step(cfg, s, op).0;
    if token in s.sessions {
      var j: nat :| SessionTracks(cfg, ops, s, token, j);
      DrewSnoc(cfg, ops, op, token, j);
      OutSnoc(ops, op, token, j);
      assert ops'[j] == ops[j];
      assert SessionTracks(cfg, ops', s', token, j);
    } else if token in s'.sessions {
      DrewSnoc(cfg, ops, op, token, |ops|);
      assert ops'[|ops|] == op && !LoggedOut(ops', token, |ops|);
      assert SessionTracks(cfg, ops', s', token, |ops|);
    } else {
      forall j: nat
        ensures !DrewAt(cfg, ops', token, j)
      {
        DrewSnoc(cfg, ops, op, token, j);
      }
    }
  }

  lemma {:induction false} PrunedTokenStays(cfg: Config, s: State, ops: seq<Op>, op: Op, token: string)
    requires op.PruneOp? && TokenTracks(cfg, ops, s, token)
    ensures TokenTracks(cfg, ops + [op], s, token)
  {
    if token in s.sessions {
      var j: nat :| SessionTracks(cfg, ops, s, token, j);
      DrewSnoc(cfg, ops, op, token, j);
      OutSnoc(ops, op, token, j);
      assert (ops + [op])[j] == ops[j];
      assert SessionTracks(cfg, ops + [op], s, token, j);
    } else {
      forall j: nat
        ensures !DrewAt(cfg, ops + [op], token, j)
      {
        DrewSnoc(cfg, ops, op, token, j);
      }
    }
  }

  lemma {:induction false} RunKeepsTokens(cfg: Config, ops: seq<Op>, token: string)
    requires Proper(cfg, ops) && token != ""
    ensures TokenTracks(cfg, ops, Run(cfg, Unpruned(ops)), token)
  {
    if ops != [] {
      var before, op := ops[..|ops| - 1], ops[|ops| - 1];
      assert ops == before + [op];
      ProperBefore(cfg, ops);
      RunKeepsTokens(cfg, before, token);
      UnprunedSnoc(cfg, before, op);
      if op.PruneOp? {
        PrunedTokenStays(cfg, Run(cfg, Unpruned(before)), before, op, token);
      } else {
        var full := AnswersAlike(cfg, before, op);
        TokenStaysOnTrack(cfg, full, before, op, token);
      }
    }
  }

  /** A token is good for the login that drew it: in time, not logged out, and the account not disabled. */
  ghost predicate GoodFor(cfg: Config, ops: seq<Op>, token: string, at: real, j: nat) {
    && DrewAt(cfg, ops, token, j) && at < ops[j].at + cfg.sessionTtl && !LoggedOut(ops, token, j)
    && !IsDisabled(Run(cfg, ops), ops[j].email)
  }

  lemma {:induction false} DrawnOnce(cfg: Config, ops: seq<Op>, token: string, i: nat, j: nat)
    requires Proper(cfg, ops) && DrewAt(cfg, ops, token, i) && DrewAt(cfg, ops, token, j)
    ensures i == j
  {
  }

  /** In every proper run a token stands for somebody exactly when it is good for a login, and then for who logged in. */
  lemma {:induction false} TokensAuthenticate(cfg: Config, ops: seq<Op>, at: real, token: string)
    requires Proper(cfg, ops + [AuthenticateOp(at, token)])
    ensures var s, r := Run(cfg, ops), Step(cfg, Run(cfg, ops), AuthenticateOp(at, token)).1.user;
            && (r.Some? <==> token != "" && exists j: nat :: GoodFor(cfg, ops, token, at, j))
            && (forall j: nat :: token != "" && GoodFor(cfg, ops, token, at, j) ==>
                  ops[j].email in s.users && r == Some(s.users[ops[j].email]))
  {
    if token != "" {
      var op := AuthenticateOp(at, token);
      var full := AnswersAlike(cfg, ops, op);
      RunKeepsTokens(cfg, ops, token);
      if token in full.sessions {
        var m: nat :| SessionTracks(cfg, ops, full, token, m);
        assert Live(full, token, at) <==> GoodFor(cfg, ops, token, at, m);
        forall j: nat | GoodFor(cfg, ops, token, at, j)
          ensures j == m
        {
          DrawnOnce(cfg, ops, token, j, m);
        }
      }
    }
  }

  // ---- Marks and retention -----------------------------------------------------------------------

  /** Authenticating marks the session as seen, at most once in five minutes, and changes nothing else. */
  lemma {:induction false} SeenIsMarked(s: State, token: string, now: real)
    ensures var (s', user) := Authenticate(s, token, now);
            && s'.challenges == s.challenges && s'.users == s.users && s'.sessions.Keys == s.sessions.Keys
            && (forall t :: t in s.sessions ==>
                  s'.sessions[t] == if t == token && user.Some? && now >= s.sessions[t].lastSeenAt + 300.0
                                    then s.sessions[t].(lastSeenAt := now) else s.sessions[t])
  {
  }

  /** The retention job spares this row: it is recent, or neither expired nor was used by the cutoff. */
  predicate Spared(c: Challenge, cutoff: real) {
    c.createdAt > cutoff || (c.expiresAt > cutoff && (c.consumedAt.Some? ==> c.consumedAt.value > cutoff))
  }

  lemma {:induction false} KeptAreSpared(rows: seq<Challenge>, cutoff: real)
    ensures forall c :: c in KeptRows(rows, cutoff) <==> c in rows && Spared(c, cutoff)
  {
    if rows != [] {
      var n := |rows| - 1;
      KeptAreSpared(rows[..n], cutoff);
      assert rows == rows[..n] + [rows[n]];
    }
  }

  /** A prune keeps exactly the spared rows and the sessions that neither expired nor were revoked by their cutoff. */
  lemma {:induction false} PruneKeepsExactly(s: State, now: real, challengeRetention: real, sessionRetention: real, email: string)
    ensures var s' := Prune(s, now, challengeRetention, sessionRetention);
            && (forall c :: c in RowsOf(s', email) <==> c in RowsOf(s, email) && Spared(c, now - challengeRetention))
            && (forall t :: t in s'.sessions <==>
                  && t in s.sessions && s.sessions[t].expiresAt > now - sessionRetention
                  && (s.sessions[t].revokedAt.Some? ==> s.sessions[t].revokedAt.value > now - sessionRetention))
            && (forall t :: t in s'.sessions ==> s'.sessions[t] == s.sessions[t]) && s'.users == s.users
  {
    KeptAreSpared(RowsOf(s, email), now - challengeRetention);
  }
}
