/**
 Email login challenges and product sessions, with the retention job that deletes old rows.
 Times are in seconds. A code digest is keyed by challenge and code, so it is modelled as that pair;
 a token digest is modelled as the token. Challenge rows are kept per email, in insertion order.
 */
module Auth {
  import opened Common
  import RateLimit

  datatype Delivery = Pending | Sent | Failed

  datatype Digest = Digest(challenge: int, code: string)

  datatype Challenge = Challenge(
    id: int, digest: Digest, createdAt: real, expiresAt: real, attempts: nat, maxAttempts: nat,
    consumedAt: Option<real>, delivery: Delivery)

  datatype User = User(email: string, verifiedAt: real, lastLoginAt: real, createdAt: real, disabled: bool)

  datatype Session = Session(user: string, expiresAt: real, revokedAt: Option<real>, lastSeenAt: real)

  datatype State = State(challenges: map<string, seq<Challenge>>, sessions: map<string, Session>, users: map<string, User>)

  datatype Config = Config(codeTtl: real, cooldown: real, maxAttempts: nat, sessionTtl: real)

  /** What became of the delivery: accepted, refused by the sender, or cut off by a crash in between. */
  datatype Mail = Delivered | Refused | Lost

  datatype RequestResult = CodeSent(cooldown: real) | CoolingDown(retryAfter: int) | DeliveryError | NoAnswer

  datatype VerifyResult = Verified(token: string, expiresAt: real, user: User) | InvalidCode | AccountDisabled

  // ---- Specification -------------------------------------------------------------------

  function AnyRow(c: Challenge): bool { true }

  function IsOpen(c: Challenge): bool {
    c.delivery == Sent && c.consumedAt.None?
  }

  /** The row that `order_by created_at desc limit 1` finds among those satisfying `p`. */
  function Newest(rows: seq<Challenge>, p: Challenge -> bool): (r: Option<nat>)
    ensures r.Some? ==> r.value < |rows| && p(rows[r.value])
    ensures r.None? ==> forall i :: 0 <= i < |rows| ==> !p(rows[i])
  {
    if rows == [] then None
    else
      var n := |rows| - 1;
      var r := Newest(rows[..n], p);
      if p(rows[n]) && (r.None? || rows[r.value].createdAt <= rows[n].createdAt) then Some(n) else r
  }

  function Remaining(cfg: Config, createdAt: real, now: real): int {
    Max(0, RateLimit.Truncate(cfg.cooldown - (now - createdAt) + 0.999))
  }

  function NewChallenge(cfg: Config, id: int, code: string, now: real, mail: Mail): Challenge {
    Challenge(id, Digest(id, code), now, now + cfg.codeTtl, 0, cfg.maxAttempts,
              if mail == Refused then Some(now) else None,
              match mail case Delivered => Sent case Refused => Failed case Lost => Pending)
  }

  function MailResult(cfg: Config, mail: Mail): RequestResult {
    match mail case Delivered => CodeSent(cfg.cooldown) case Refused => DeliveryError case Lost => NoAnswer
  }

  function RequestRows(cfg: Config, rows: seq<Challenge>, now: real, id: int, code: string, mail: Mail)
    : (seq<Challenge>, RequestResult)
  {
    var latest := Newest(rows, AnyRow);
    if latest.Some? && rows[latest.value].delivery != Failed && Remaining(cfg, rows[latest.value].createdAt, now) > 0 then
      (rows, CoolingDown(Remaining(cfg, rows[latest.value].createdAt, now)))
    else
      var closed := if latest.Some? && rows[latest.value].consumedAt.None?
                    then rows[latest.value := rows[latest.value].(consumedAt := Some(now))] else rows;
      (closed + [NewChallenge(cfg, id, code, now, mail)], MailResult(cfg, mail))
  }

  /** One try at a code: the rows afterwards, and whether the code matched. */
  function VerifyRows(rows: seq<Challenge>, code: string, now: real): (seq<Challenge>, bool) {
    var found := Newest(rows, IsOpen);
    if found.None? then (rows, false)
    else
      var i, c := found.value, rows[found.value];
      if c.expiresAt <= now || c.attempts >= c.maxAttempts then (rows[i := c.(consumedAt := Some(now))], false)
      else if c.digest != Digest(c.id, code) then
        (rows[i := c.(attempts := c.attempts + 1,
                      consumedAt := if c.attempts + 1 >= c.maxAttempts then Some(now) else None)], false)
      else (rows[i := c.(attempts := c.attempts + 1, consumedAt := Some(now))], true)
  }

  function RowsOf(s: State, email: string): seq<Challenge> {
    if email in s.challenges then s.challenges[email] else []
  }

  function Request(cfg: Config, s: State, email: string, now: real, id: int, code: string, mail: Mail)
    : (State, RequestResult)
  {
    var (rows, result) := RequestRows(cfg, RowsOf(s, email), now, id, code, mail);
    (s.(challenges := s.challenges[email := rows]), result)
  }

  function LoggedIn(s: State, email: string, now: real): User {
    if email in s.users then s.users[email].(verifiedAt := now, lastLoginAt := now)
    else User(email, now, now, now, false)
  }

  function Verify(cfg: Config, s: State, email: string, code: string, now: real, token: string): (State, VerifyResult) {
    var (rows, matched) := VerifyRows(RowsOf(s, email), code, now);
    var s' := s.(challenges := s.challenges[email := rows]);
    if !matched then (s', InvalidCode)
    else if email in s.users && s.users[email].disabled then (s', AccountDisabled)
    else
      var user := LoggedIn(s, email, now);
      (s'.(users := s.users[email := user],
           sessions := s.sessions[token := Session(email, now + cfg.sessionTtl, None, now)]),
       Verified(token, now + cfg.sessionTtl, user))
  }

  /** A session that still authenticates somebody. */
  predicate Live(s: State, token: string, now: real) {
    && token != "" && token in s.sessions
    && s.sessions[token].revokedAt.None? && s.sessions[token].expiresAt > now
    && s.sessions[token].user in s.users && !s.users[s.sessions[token].user].disabled
  }

  function Authenticate(s: State, token: string, now: real): (State, Option<User>) {
    if !Live(s, token, now) then (s, None)
    else
      var session := s.sessions[token];
      (if now - session.lastSeenAt >= 300.0 then s.(sessions := s.sessions[token := session.(lastSeenAt := now)]) else s,
       Some(s.users[session.user]))
  }

  function Logout(s: State, token: string, now: real): State {
    if token != "" && token in s.sessions && s.sessions[token].revokedAt.None? then
      s.(sessions := s.sessions[token := s.sessions[token].(revokedAt := Some(now))])
    else s
  }

  // ---- The service ---------------------------------------------------------------------

  method FindNewest(rows: seq<Challenge>, openOnly: bool) returns (r: Option<nat>)
    ensures r == Newest(rows, if openOnly then IsOpen else AnyRow)
  {
    r := None;
    ghost var p := if openOnly then IsOpen else AnyRow;
    for i := 0 to |rows|
      invariant r == Newest(rows[..i], p)
    {
      assert rows[..i + 1][..i] == rows[..i];
      if (!openOnly || (rows[i].delivery == Sent && rows[i].consumedAt.None?))
         && (r.None? || rows[r.value].createdAt <= rows[i].createdAt) {
        r := Some(i);
      }
    }
    assert rows[..|rows|] == rows;
  }

  method DeleteExpired(rows: seq<Challenge>, cutoff: real) returns (kept: seq<Challenge>)
    ensures kept == KeptRows(rows, cutoff)
  {
    kept := [];
    for i := 0 to |rows|
      invariant kept == KeptRows(rows[..i], cutoff)
    {
      assert rows[..i + 1][..i] == rows[..i];
      if !RowExpired(rows[i], cutoff) {
        kept := kept + [rows[i]];
      }
    }
    assert rows[..|rows|] == rows;
  }

  class EmailAuthService {
    const cfg: Config
    var challenges: map<string, seq<Challenge>>
    var sessions: map<string, Session>
    var users: map<string, User>

    function Contents(): State
      reads this
    {
      State(challenges, sessions, users)
    }

    constructor (config: Config)
      ensures cfg == config && Contents() == State(map[], map[], map[])
    {
      cfg := config;
      challenges, sessions, users := map[], map[], map[];
    }

    /** Closes the previous challenge, stores the new one, and books how its delivery went. */
    method RequestLoginCode(email: string, now: real, id: int, code: string, mail: Mail) returns (r: RequestResult)
      modifies this`challenges
      ensures (Contents(), r) == Request(cfg, old(Contents()), email, now, id, code, mail)
    {
      var rows := if email in challenges then challenges[email] else [];
      var latest := FindNewest(rows, false);
      if latest.Some? && rows[latest.value].delivery != Failed {
        var remaining := Remaining(cfg, rows[latest.value].createdAt, now);
        if remaining > 0 {
          challenges := challenges[email := rows];
          return CoolingDown(remaining);
        }
      }
      if latest.Some? && rows[latest.value].consumedAt.None? {
        rows := rows[latest.value := rows[latest.value].(consumedAt := Some(now))];
      }
      var challenge := Challenge(id, Digest(id, code), now, now + cfg.codeTtl, 0, cfg.maxAttempts, None, Pending);
      match mail {
        case Delivered =>
          challenge := challenge.(delivery := Sent);
          r := CodeSent(cfg.cooldown);
        case Refused =>
          challenge := challenge.(delivery := Failed, consumedAt := Some(now));
          r := DeliveryError;
        case Lost =>
          r := NoAnswer;
      }
      challenges := challenges[email := rows + [challenge]];
    }

    method VerifyLoginCode(email: string, code: string, now: real, token: string) returns (r: VerifyResult)
      modifies this
      ensures (Contents(), r) == Verify(cfg, old(Contents()), email, code, now, token)
    {
      var rows := if email in challenges then challenges[email] else [];
      var found := FindNewest(rows, true);
      var matched := false;
      if found.Some? {
        var challenge := rows[found.value];
        if challenge.expiresAt <= now {
          challenge := challenge.(consumedAt := Some(now));
        } else if challenge.attempts >= challenge.maxAttempts {
          challenge := challenge.(consumedAt := Some(now));
        } else {
          challenge := challenge.(attempts := challenge.attempts + 1);
          if challenge.digest != Digest(challenge.id, code) {
            if challenge.attempts >= challenge.maxAttempts {
              challenge := challenge.(consumedAt := Some(now));
            }
          } else {
            challenge := challenge.(consumedAt := Some(now));
            matched := true;
          }
        }
        rows := rows[found.value := challenge];
      }
      challenges := challenges[email := rows];
      if !matched {
        return InvalidCode;
      }
      if email in users && users[email].disabled {
        return AccountDisabled;
      }
      var user := if email in users then users[email].(verifiedAt := now, lastLoginAt := now)
                  else User(email, now, now, now, false);
      users := users[email := user];
      sessions := sessions[token := Session(email, now + cfg.sessionTtl, None, now)];
      return Verified(token, now + cfg.sessionTtl, user);
    }

    method AuthenticateToken(token: string, now: real) returns (r: Option<User>)
      modifies this`sessions
      ensures (Contents(), r) == Authenticate(old(Contents()), token, now)
    {
      if token == "" || token !in sessions {
        return None;
      }
      var session := sessions[token];
      if session.revokedAt.Some? || session.expiresAt <= now || session.user !in users || users[session.user].disabled {
        return None;
      }
      if now - session.lastSeenAt >= 300.0 {
        sessions := sessions[token := session.(lastSeenAt := now)];
      }
      return Some(users[session.user]);
    }

    method LogoutToken(token: string, now: real)
      modifies this`sessions
      ensures Contents() == Logout(old(Contents()), token, now)
    {
      if token == "" {
        return;
      }
      if token in sessions && sessions[token].revokedAt.None? {
        sessions := sessions[token := sessions[token].(revokedAt := Some(now))];
      }
    }

    /** The two bulk deletes of the retention job. */
    method PruneAuthRecords(now: real, challengeRetention: real, sessionRetention: real)
      modifies this`challenges, this`sessions
      ensures Contents() == Prune(old(Contents()), now, challengeRetention, sessionRetention)
    {
      var challengeCutoff, sessionCutoff := now - challengeRetention, now - sessionRetention;
      var left, kept := challenges.Keys, map[];
      while left != {}
        invariant Contents() == old(Contents())
        invariant left <= challenges.Keys
        invariant kept == map e | e in challenges.Keys - left :: KeptRows(challenges[e], challengeCutoff)
        decreases left
      {
        var email :| email in left;
        var rows := DeleteExpired(challenges[email], challengeCutoff);
        kept := kept[email := rows];
        left := left - {email};
      }
      challenges := kept;
      sessions := map t | t in sessions && !SessionExpired(sessions[t], sessionCutoff) :: sessions[t];
    }
  }

  // ---- Retention -----------------------------------------------------------------------

  predicate RowExpired(c: Challenge, cutoff: real) {
    c.createdAt <= cutoff && (c.expiresAt <= cutoff || (c.consumedAt.Some? && c.consumedAt.value <= cutoff))
  }

  predicate SessionExpired(s: Session, cutoff: real) {
    s.expiresAt <= cutoff || (s.revokedAt.Some? && s.revokedAt.value <= cutoff)
  }

  function KeptRows(rows: seq<Challenge>, cutoff: real): seq<Challenge> {
    if rows == [] then []
    else
      var n := |rows| - 1;
      KeptRows(rows[..n], cutoff) + if RowExpired(rows[n], cutoff) then [] else [rows[n]]
  }

  function Prune(s: State, now: real, challengeRetention: real, sessionRetention: real): State {
    s.(challenges := map e | e in s.challenges :: KeptRows(s.challenges[e], now - challengeRetention),
       sessions := map t | t in s.sessions && !SessionExpired(s.sessions[t], now - sessionRetention) :: s.sessions[t])
  }
}
