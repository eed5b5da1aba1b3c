/**
 Provider-neutral billing events: idempotent, tolerant of reordering, and mapped onto entitlement rows.
 Times are in microseconds. A payload digest is modelled as the content it digests, and the source of an
 entitlement, which hashes the subscription reference, as the pair of provider and reference.
 */
module Billing {
  import opened Common

  datatype Access = ACTIVE | INACTIVE

  datatype Status = Granted | Revoked

  /** The digested part of an event. */
  datatype Content = Content(
    occurredAt: int, user: int, subscription: string, plan: string, access: Access,
    customer: Option<string>, status: Option<string>, periodEnd: Option<int>)

  datatype Event = Event(provider: string, ref: string, content: Content)

  /** An event as it is handed in, before normalisation. */
  datatype Raw = Raw(
    provider: string, ref: string, occurredAt: Option<int>, user: int, subscription: string, plan: string, access: string,
    customer: Option<string>, status: Option<string>, periodEnd: Option<int>)

  datatype EventKey = EventKey(provider: string, ref: string)

  datatype EventRow = EventRow(content: Content, applied: bool)

  datatype SubKey = SubKey(provider: string, subscription: string)

  datatype Subscription = Subscription(
    user: int, customer: Option<string>, plan: string, access: Access, status: Option<string>,
    periodEnd: Option<int>, lastOccurredAt: int)

  datatype Source = Billed(key: SubKey) | Elsewhere(name: string)

  datatype GrantKey = GrantKey(user: int, entitlement: string, source: Source)

  datatype Grant = Grant(status: Status, startsAt: Option<int>, expiresAt: Option<int>)

  datatype Store = Store(
    events: map<EventKey, EventRow>, subscriptions: map<SubKey, Subscription>, grants: map<GrantKey, Grant>)

  datatype Verdict = Applied | Duplicate(applied: bool) | Stale | Replayed | OwnedByAnother

  datatype Invalid = Missing(what: string) | UnsupportedPlan | UnsupportedState | NoOccurrence

  datatype Outcome =
    | Rejected(invalid: Invalid)
    | Conflict
    | Result(duplicate: bool, stale: bool, active: set<string>)

  const PRO := "PRO"

  const PREMIUM: set<string> := {"ai_decisions", "realtime_notifications"}

  // ---- Normalisation -------------------------------------------------------------------

  predicate IsSpace(c: char) {
    c == ' ' || '\t' <= c <= '\r'
  }

  function Strip(s: string): string
    decreases |s|
  {
    if s != "" && IsSpace(s[0]) then Strip(s[1..])
    else if s != "" && IsSpace(s[|s| - 1]) then Strip(s[..|s| - 1])
    else s
  }

  function Lower(s: string): string {
    seq(|s|, i requires 0 <= i < |s| => if 'A' <= s[i] <= 'Z' then (s[i] as int + 32) as char else s[i])
  }

  function Upper(s: string): string {
    seq(|s|, i requires 0 <= i < |s| => if 'a' <= s[i] <= 'z' then (s[i] as int - 32) as char else s[i])
  }

  datatype Normal = Fine(event: Event) | Wrong(invalid: Invalid)

  function Normalise(raw: Raw): Normal {
    if Strip(raw.provider) == "" then Wrong(Missing("provider"))
    else if Strip(raw.ref) == "" then Wrong(Missing("event"))
    else if Strip(raw.subscription) == "" then Wrong(Missing("subscription"))
    else if Strip(raw.plan) == "" then Wrong(Missing("plan"))
    else if Strip(raw.access) == "" then Wrong(Missing("state"))
    else if Upper(Strip(raw.plan)) != PRO then Wrong(UnsupportedPlan)
    else if Upper(Strip(raw.access)) != "ACTIVE" && Upper(Strip(raw.access)) != "INACTIVE" then Wrong(UnsupportedState)
    else if raw.occurredAt.None? then Wrong(NoOccurrence)
    else
      Fine(Event(
        Lower(Strip(raw.provider)), Strip(raw.ref),
        Content(raw.occurredAt.value, raw.user, Strip(raw.subscription), PRO,
                if Upper(Strip(raw.access)) == "ACTIVE" then ACTIVE else INACTIVE,
                raw.customer, raw.status, raw.periodEnd)))
  }

  // ---- Specification -------------------------------------------------------------------

  function KeyOf(e: Event): EventKey {
    EventKey(e.provider, e.ref)
  }

  function SubOf(e: Event): SubKey {
    SubKey(e.provider, e.content.subscription)
  }

  /** The entitlement rows an event governs. */
  function OwnGrants(e: Event): set<GrantKey> {
    set n | n in PREMIUM :: GrantKey(e.content.user, n, Billed(SubOf(e)))
  }

  function FreshGrant(e: Event): Grant {
    Grant(Granted, Some(e.content.occurredAt), e.content.periodEnd)
  }

  /** Revoking keeps the window of the row; granting moves it; a revocation creates no row. */
  function Regrant(grants: map<GrantKey, Grant>, e: Event): map<GrantKey, Grant> {
    map k | k in grants.Keys + (if e.content.access == ACTIVE then OwnGrants(e) else {}) ::
      if k !in OwnGrants(e) then grants[k]
      else if e.content.access == ACTIVE then FreshGrant(e)
      else grants[k].(status := Revoked)
  }

  /** Python's `new or old` on an optional string. */
  function OrElse(x: Option<string>, y: Option<string>): Option<string> {
    if x.Some? && x.value != "" then x else y
  }

  function Renew(old_: Option<Subscription>, c: Content): Subscription {
    Subscription(
      c.user, if old_.None? then c.customer else OrElse(c.customer, old_.value.customer),
      c.plan, c.access, c.status, c.periodEnd, c.occurredAt)
  }

  function Lookup<K, V>(m: map<K, V>, k: K): Option<V> {
    if k in m then Some(m[k]) else None
  }

  function Record(s: Store, e: Event, applied: bool): Store {
    s.(events := s.events[KeyOf(e) := EventRow(e.content, applied)])
  }

  function Absorb(s: Store, e: Event): (Store, Verdict) {
    var sub := Lookup(s.subscriptions, SubOf(e));
    if KeyOf(e) in s.events then
      (s, if s.events[KeyOf(e)].content != e.content then Replayed else Duplicate(s.events[KeyOf(e)].applied))
    else if sub.Some? && sub.value.user != e.content.user then (s, OwnedByAnother)
    else if sub.Some? && e.content.occurredAt < sub.value.lastOccurredAt then (Record(s, e, false), Stale)
    else
      (Record(s, e, true).(
         subscriptions := s.subscriptions[SubOf(e) := Renew(sub, e.content)],
         grants := Regrant(s.grants, e)),
       Applied)
  }

  predicate InWindow(g: Grant, now: int) {
    (g.startsAt.None? || g.startsAt.value <= now) && (g.expiresAt.None? || g.expiresAt.value > now)
  }

  function ActiveEntitlements(grants: map<GrantKey, Grant>, user: int, now: int): set<string> {
    set k | k in grants && k.user == user && grants[k].status == Granted && InWindow(grants[k], now) :: k.entitlement
  }

  function OutcomeOf(s: Store, v: Verdict, user: int, now: int): Outcome {
    if v == Replayed || v == OwnedByAnother then Conflict
    else
      Result(v.Duplicate?, v == Stale || (v.Duplicate? && !v.applied), ActiveEntitlements(s.grants, user, now))
  }

  function ApplyRaw(s: Store, raw: Raw, now: int): (Store, Outcome) {
    var n := Normalise(raw);
    if n.Wrong? then (s, Rejected(n.invalid))
    else
      var (s', v) := Absorb(s, n.event);
      (s', OutcomeOf(s', v, raw.user, now))
  }

  // ---- The service ---------------------------------------------------------------------

  class BillingEntitlementService {
    var events: map<EventKey, EventRow>
    var subscriptions: map<SubKey, Subscription>
    var grants: map<GrantKey, Grant>

    function Contents(): Store
      reads this
    {
      Store(events, subscriptions, grants)
    }

    constructor (existing: map<GrantKey, Grant>)
      ensures Contents() == Store(map[], map[], existing)
    {
      events, subscriptions, grants := map[], map[], existing;
    }

    /** Rewrites the rows of the premium entitlements one after the other, in any order. */
    method UpdateGrants(e: Event)
      modifies this`grants
      ensures grants == Regrant(old(grants), e)
    {
      var left := PREMIUM;
      var shouldBeActive := e.content.access == ACTIVE;
      while left != {}
        invariant left <= PREMIUM
        invariant forall n :: n in left ==> Lookup(grants, Key(e, n)) == Lookup(old(grants), Key(e, n))
        invariant forall n :: n in PREMIUM - left ==> Lookup(grants, Key(e, n)) == Lookup(Regrant(old(grants), e), Key(e, n))
        invariant forall k :: k !in OwnGrants(e) ==> Lookup(grants, k) == Lookup(old(grants), k)
        decreases left
      {
        var n :| n in left;
        left := left - {n};
        var key := Key(e, n);
        if key !in grants {
          if shouldBeActive {
            grants := grants[key := Grant(Granted, Some(e.content.occurredAt), e.content.periodEnd)];
          }
          continue;
        }
        var row := grants[key];
        grants := grants[key := Grant(if shouldBeActive then Granted else Revoked,
                                      if shouldBeActive then Some(e.content.occurredAt) else row.startsAt,
                                      if shouldBeActive then e.content.periodEnd else row.expiresAt)];
      }
      SameLookups(grants, Regrant(old(grants), e), e, old(grants));
    }

    /** Applies one event in one transaction: an error leaves no trace. */
    method ApplySubscriptionEvent(raw: Raw, now: int) returns (r: Outcome)
      modifies this
      ensures (Contents(), r) == ApplyRaw(old(Contents()), raw, now)
    {
      var normal := Normalise(raw);
      if normal.Wrong? {
        return Rejected(normal.invalid);
      }
      var e := normal.event;
      if KeyOf(e) in events {
        if events[KeyOf(e)].content != e.content {
          return Conflict;
        }
        return Result(true, !events[KeyOf(e)].applied, ActiveEntitlements(grants, raw.user, now));
      }
      if SubOf(e) in subscriptions && subscriptions[SubOf(e)].user != e.content.user {
        return Conflict;
      }
      if SubOf(e) in subscriptions && e.content.occurredAt < subscriptions[SubOf(e)].lastOccurredAt {
        events := events[KeyOf(e) := EventRow(e.content, false)];
        return Result(false, true, ActiveEntitlements(grants, raw.user, now));
      }
      var subscription := Subscription(
        e.content.user, e.content.customer, e.content.plan, e.content.access, e.content.status,
        e.content.periodEnd, e.content.occurredAt);
      if SubOf(e) in subscriptions {
        subscription := subscriptions[SubOf(e)];
        subscription := subscription.(
          customer := OrElse(e.content.customer, subscription.customer),
          plan := e.content.plan, access := e.content.access, status := e.content.status,
          periodEnd := e.content.periodEnd, lastOccurredAt := e.content.occurredAt);
      }
      subscriptions := subscriptions[SubOf(e) := subscription];
      UpdateGrants(e);
      events := events[KeyOf(e) := EventRow(e.content, true)];
      return Result(false, false, ActiveEntitlements(grants, raw.user, now));
    }
  }

  function Key(e: Event, entitlement: string): GrantKey {
    GrantKey(e.content.user, entitlement, Billed(SubOf(e)))
  }

  lemma SameLookups(grants: map<GrantKey, Grant>, wanted: map<GrantKey, Grant>, e: Event, before: map<GrantKey, Grant>)
    requires wanted == Regrant(before, e)
    requires forall n :: n in PREMIUM ==> Lookup(grants, Key(e, n)) == Lookup(wanted, Key(e, n))
    requires forall k :: k !in OwnGrants(e) ==> Lookup(grants, k) == Lookup(before, k)
    ensures grants == wanted
  {
    forall k: GrantKey
      ensures Lookup(grants, k) == Lookup(wanted, k)
    {
      if k in OwnGrants(e) {
        assert k == Key(e, k.entitlement);
      } else {
        assert Lookup(wanted, k) == Lookup(before, k);
      }
    }
    assert forall k: GrantKey :: k in grants <==> Lookup(grants, k).Some?;
    assert forall k: GrantKey :: k in wanted <==> Lookup(wanted, k).Some?;
    assert grants.Keys == wanted.Keys;
    assert forall k :: k in grants ==> grants[k] == Lookup(grants, k).value;
  }
}
