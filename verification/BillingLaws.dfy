/** Billing converges: however events are reordered and repeated, the latest-occurring one decides access. */
module BillingLaws {
  import opened Common
  import opened Billing

  function Begin(grants: map<GrantKey, Grant>): Store {
    Store(map[], map[], grants)
  }

  /** The store after some deliveries, in the order in which they arrive. */
  function Deliver(grants: map<GrantKey, Grant>, es: seq<Event>): Store {
    if es == [] then Begin(grants) else Absorb(Deliver(grants, es[..|es| - 1]), es[|es| - 1]).0
  }

  // ---- What the provider promises --------------------------------------------------------

  /** A reference fixes the event, a subscription has one owner, and its events occur at distinct times. */
  predicate Agree(e: Event, f: Event) {
    && (KeyOf(e) == KeyOf(f) ==> e == f)
    && (SubOf(e) == SubOf(f) ==> e.content.user == f.content.user)
    && (SubOf(e) == SubOf(f) && e.content.occurredAt == f.content.occurredAt ==> e == f)
  }

  ghost predicate Consistent(es: seq<Event>) {
    forall e, f :: e in es && f in es ==> Agree(e, f)
  }

  // ---- The outcome, stated without any order ---------------------------------------------

  ghost predicate Latest(es: seq<Event>, e: Event) {
    e in es && forall f :: f in es && SubOf(f) == SubOf(e) ==> f.content.occurredAt <= e.content.occurredAt
  }

  /** A row that grants something; absent and revoked rows grant nothing. */
  function Visible(row: Option<Grant>): Option<Grant> {
    if row.Some? && row.value.status == Granted then row else None
  }

  /** The subscription without its customer reference, which depends on the order of delivery. */
  function Bare(sub: Option<Subscription>): Option<Subscription> {
    if sub.None? then None else Some(sub.value.(customer := None))
  }

  /** Subscription and entitlements are what the event alone calls for. */
  ghost predicate Mirrors(s: Store, e: Event) {
    && Bare(Lookup(s.subscriptions, SubOf(e))) == Some(Renew(None, e.content.(customer := None)))
    && (forall n :: n in PREMIUM ==>
          Visible(Lookup(s.grants, Key(e, n))) == if e.content.access == ACTIVE then Some(FreshGrant(e)) else None)
  }

  /** The row belongs to the user and source of some delivered event. */
  ghost predicate Governed(es: seq<Event>, k: GrantKey) {
    exists e :: e in es && k in OwnGrants(e)
  }

  ghost predicate Rests(grants: map<GrantKey, Grant>, s: Store, k: GrantKey) {
    Lookup(s.grants, k) == Lookup(grants, k)
  }

  // ---- Invariant -------------------------------------------------------------------------

  ghost predicate EventsKnown(s: Store, es: seq<Event>) {
    && (forall e :: e in es ==> KeyOf(e) in s.events && s.events[KeyOf(e)].content == e.content)
    && (forall k :: k in s.events ==> exists e :: e in es && KeyOf(e) == k)
  }

  ghost predicate HasLatest(es: seq<Event>, k: SubKey) {
    exists e :: Latest(es, e) && SubOf(e) == k
  }

  ghost predicate SubsKnown(s: Store, es: seq<Event>) {
    && (forall e :: e in es ==> SubOf(e) in s.subscriptions)
    && (forall k :: k in s.subscriptions ==> HasLatest(es, k))
  }

  ghost predicate AllMirrored(s: Store, es: seq<Event>) {
    forall e :: Latest(es, e) ==> Mirrors(s, e)
  }

  ghost predicate OthersRest(grants: map<GrantKey, Grant>, s: Store, es: seq<Event>) {
    forall k :: !Governed(es, k) ==> Rests(grants, s, k)
  }

  ghost predicate Inv(grants: map<GrantKey, Grant>, s: Store, es: seq<Event>) {
    EventsKnown(s, es) && SubsKnown(s, es) && AllMirrored(s, es) && OthersRest(grants, s, es)
  }

  /** Applying an event makes the store mirror it and leaves all other subscriptions and rows alone. */
  lemma AppliedMirrors(s: Store, e: Event)
    requires Absorb(s, e).1 == Applied
    ensures Mirrors(Absorb(s, e).0, e)
    ensures forall k :: k !in OwnGrants(e) ==> Rests(s.grants, Absorb(s, e).0, k)
    ensures forall f :: SubOf(f) != SubOf(e) && Mirrors(s, f) ==> Mirrors(Absorb(s, e).0, f)
  {
    var s' := Absorb(s, e).0;
    assert forall n :: n in PREMIUM ==> Key(e, n) in OwnGrants(e);
    forall k | k !in OwnGrants(e)
      ensures Rests(s.grants, s', k)
    {
    }
    forall f | SubOf(f) != SubOf(e) && Mirrors(s, f)
      ensures Mirrors(s', f)
    {
      assert forall n :: n in PREMIUM ==> Rests(s.grants, s', Key(f, n));
    }
  }

  ghost predicate Superseded(es: seq<Event>, e: Event) {
    exists f :: f in es && SubOf(f) == SubOf(e) && e.content.occurredAt < f.content.occurredAt
  }

  lemma InSnoc(es: seq<Event>, e: Event)
    ensures forall f :: f in es + [e] <==> f in es || f == e
  {
  }

  /** A repeated or superseded event changes nothing about which events are latest. */
  lemma QuietLatest(es: seq<Event>, e: Event, f: Event)
    requires e in es || Superseded(es, e)
    ensures Latest(es + [e], f) <==> Latest(es, f)
  {
    InSnoc(es, e);
  }

  /** A new latest event replaces the one of its subscription. */
  lemma NewsLatest(es: seq<Event>, e: Event, f: Event)
    requires forall g :: g in es && SubOf(g) == SubOf(e) ==> g.content.occurredAt < e.content.occurredAt
    ensures Latest(es + [e], f) <==> if SubOf(f) == SubOf(e) then f == e else Latest(es, f)
  {
    InSnoc(es, e);
  }

  lemma GovernedLater(es: seq<Event>, e: Event, k: GrantKey)
    ensures Governed(es + [e], k) <==> Governed(es, k) || k in OwnGrants(e)
  {
    InSnoc(es, e);
    if Governed(es, k) {
      var f :| f in es && k in OwnGrants(f);
      assert f in es + [e];
    }
    if k in OwnGrants(e) {
      assert e in es + [e];
    }
  }

  lemma EventsKnownLater(s: Store, es: seq<Event>, e: Event, applied: bool)
    requires EventsKnown(s, es) && Consistent(es + [e])
    ensures EventsKnown(Record(s, e, applied), es + [e])
  {
    InSnoc(es, e);
    assert forall f :: f in es ==> Agree(e, f);
  }

  /** A repeated or superseded event leaves subscriptions and rows alone, and rightly so. */
  lemma QuietKeepsSubs(s: Store, s': Store, es: seq<Event>, e: Event)
    requires SubsKnown(s, es) && AllMirrored(s, es) && (e in es || Superseded(es, e))
    requires s'.subscriptions == s.subscriptions && s'.grants == s.grants
    ensures SubsKnown(s', es + [e]) && AllMirrored(s', es + [e])
  {
    InSnoc(es, e);
    forall f | Latest(es + [e], f)
      ensures Mirrors(s', f)
    {
      QuietLatest(es, e, f);
      assert Mirrors(s, f);
    }
    forall k | k in s'.subscriptions
      ensures HasLatest(es + [e], k)
    {
      assert HasLatest(es, k);
      var f :| Latest(es, f) && SubOf(f) == k;
      QuietLatest(es, e, f);
    }
  }

  lemma NewsKeepsSubs(s: Store, es: seq<Event>, e: Event)
    requires SubsKnown(s, es) && AllMirrored(s, es) && Absorb(s, e).1 == Applied
    requires forall f :: f in es && SubOf(f) == SubOf(e) ==> f.content.occurredAt < e.content.occurredAt
    ensures SubsKnown(Absorb(s, e).0, es + [e]) && AllMirrored(Absorb(s, e).0, es + [e])
  {
    var s' := Absorb(s, e).0;
    InSnoc(es, e);
    AppliedMirrors(s, e);
    forall f | Latest(es + [e], f)
      ensures Mirrors(s', f)
    {
      NewsLatest(es, e, f);
    }
    forall k | k in s'.subscriptions
      ensures HasLatest(es + [e], k)
    {
      NewsLatest(es, e, e);
      if k != SubOf(e) {
        assert HasLatest(es, k);
        var f :| Latest(es, f) && SubOf(f) == k;
        NewsLatest(es, e, f);
      }
    }
  }

  lemma OthersStillRest(grants: map<GrantKey, Grant>, s: Store, s': Store, es: seq<Event>, e: Event)
    requires OthersRest(grants, s, es) && forall k :: k !in OwnGrants(e) ==> Rests(s.grants, s', k)
    ensures OthersRest(grants, s', es + [e])
  {
    forall k | !Governed(es + [e], k)
      ensures Rests(grants, s', k)
    {
      GovernedLater(es, e, k);
      assert Rests(grants, s, k) && Rests(s.grants, s', k);
    }
  }

  /** A subscription belongs to the event's user, and a later event was seen iff its time lies after the event's. */
  lemma SubscriptionShowsLatest(s: Store, es: seq<Event>, e: Event)
    requires SubsKnown(s, es) && AllMirrored(s, es) && Consistent(es + [e]) && SubOf(e) in s.subscriptions
    ensures s.subscriptions[SubOf(e)].user == e.content.user
    ensures Superseded(es, e) <==> e.content.occurredAt < s.subscriptions[SubOf(e)].lastOccurredAt
  {
    InSnoc(es, e);
    assert HasLatest(es, SubOf(e));
    var last :| Latest(es, last) && SubOf(last) == SubOf(e);
    assert Agree(last, e) && Mirrors(s, last);
    assert s.subscriptions[SubOf(e)].lastOccurredAt == last.content.occurredAt;
  }

  /** The answer to a delivery: a duplicate iff seen before, else stale iff a later event was seen; never a conflict. */
  lemma VerdictIs(grants: map<GrantKey, Grant>, s: Store, es: seq<Event>, e: Event)
    requires Inv(grants, s, es) && Consistent(es + [e])
    ensures var v := Absorb(s, e).1;
            (e in es <==> v.Duplicate?)
            && (e !in es && Superseded(es, e) <==> v.Stale?)
            && (e !in es && !Superseded(es, e) <==> v.Applied?)
  {
    InSnoc(es, e);
    if KeyOf(e) in s.events {
      var f :| f in es && KeyOf(f) == KeyOf(e);
      assert Agree(f, e);
    } else if SubOf(e) in s.subscriptions {
      SubscriptionShowsLatest(s, es, e);
    }
  }

  lemma StepKeepsEvents(s: Store, es: seq<Event>, e: Event)
    requires EventsKnown(s, es) && Consistent(es + [e])
    requires e !in es ==> Absorb(s, e).1.Stale? || Absorb(s, e).1.Applied?
    ensures EventsKnown(Absorb(s, e).0, es + [e])
  {
    if e in es {
      InSnoc(es, e);
    } else {
      EventsKnownLater(s, es, e, Absorb(s, e).1.Applied?);
    }
  }

  lemma StepKeepsSubs(s: Store, es: seq<Event>, e: Event)
    requires SubsKnown(s, es) && AllMirrored(s, es) && Consistent(es + [e])
    requires Absorb(s, e).1.Applied? <==> e !in es && !Superseded(es, e)
    ensures SubsKnown(Absorb(s, e).0, es + [e]) && AllMirrored(Absorb(s, e).0, es + [e])
  {
    if Absorb(s, e).1.Applied? {
      NoneLater(es, e);
      NewsKeepsSubs(s, es, e);
    } else {
      QuietKeepsSubs(s, Absorb(s, e).0, es, e);
    }
  }

  /** Whatever becomes of an event, it touches the rows it governs only. */
  lemma StepTouchesOwnGrants(s: Store, e: Event)
    ensures forall k :: k !in OwnGrants(e) ==> Rests(s.grants, Absorb(s, e).0, k)
  {
    if Absorb(s, e).1.Applied? {
      AppliedMirrors(s, e);
    }
  }

  lemma StepKeepsInv(grants: map<GrantKey, Grant>, s: Store, es: seq<Event>, e: Event)
    requires Inv(grants, s, es) && Consistent(es + [e])
    ensures Inv(grants, Absorb(s, e).0, es + [e])
  {
    VerdictIs(grants, s, es, e);
    StepKeepsEvents(s, es, e);
    StepKeepsSubs(s, es, e);
    StepTouchesOwnGrants(s, e);
    OthersStillRest(grants, s, Absorb(s, e).0, es, e);
  }

  lemma NoneLater(es: seq<Event>, e: Event)
    requires Consistent(es + [e]) && e !in es && !Superseded(es, e)
    ensures forall f :: f in es && SubOf(f) == SubOf(e) ==> f.content.occurredAt < e.content.occurredAt
  {
    InSnoc(es, e);
    assert forall f :: f in es ==> Agree(f, e);
  }

  lemma {:induction false} DeliverKeepsInv(grants: map<GrantKey, Grant>, es: seq<Event>)
    requires Consistent(es)
    ensures Inv(grants, Deliver(grants, es), es)
  {
    if es != [] {
      var before, e := es[..|es| - 1], es[|es| - 1];
      assert es == before + [e];
      ConsistentBefore(before, e);
      DeliverKeepsInv(grants, before);
      StepKeepsInv(grants, Deliver(grants, before), before, e);
    }
  }

  lemma ConsistentBefore(before: seq<Event>, e: Event)
    requires Consistent(before + [e])
    ensures Consistent(before)
  {
    InSnoc(before, e);
  }

  // ---- Main results ----------------------------------------------------------------------

  /**
   The latest-occurring event decides: its plan, state, status and period end stand, its rows are granted with
   its window iff it was ACTIVE, and rows of other users and sources are as they were.
   */
  lemma LatestDecides(grants: map<GrantKey, Grant>, es: seq<Event>, e: Event)
    requires Consistent(es) && Latest(es, e)
    ensures Mirrors(Deliver(grants, es), e)
    ensures forall k :: !Governed(es, k) ==> Rests(grants, Deliver(grants, es), k)
  {
    DeliverKeepsInv(grants, es);
  }

  lemma {:induction false} LatestExists(es: seq<Event>, e: Event) returns (last: Event)
    requires e in es
    ensures Latest(es, last) && SubOf(last) == SubOf(e)
  {
    var n := |es| - 1;
    assert es == es[..n] + [es[n]];
    if exists f :: f in es[..n] && SubOf(f) == SubOf(e) {
      var f :| f in es[..n] && SubOf(f) == SubOf(e);
      last := LatestExists(es[..n], f);
      if SubOf(es[n]) == SubOf(e) && es[n].content.occurredAt > last.content.occurredAt {
        last := es[n];
      }
    } else {
      last := es[n];
    }
  }

  /** Nobody can tell the two stores apart by access, up to customer references and windows of revoked rows. */
  ghost predicate SameAccess(s: Store, t: Store) {
    && (forall k :: Bare(Lookup(s.subscriptions, k)) == Bare(Lookup(t.subscriptions, k)))
    && (forall k :: Visible(Lookup(s.grants, k)) == Visible(Lookup(t.grants, k)))
  }

  lemma SameElementsSameLatest(es: seq<Event>, fs: seq<Event>, e: Event)
    requires (forall f :: f in es <==> f in fs) && Latest(es, e)
    ensures Latest(fs, e)
  {
  }

  /** Any two deliveries of the same events, in whatever order and with whatever repetitions, give the same access. */
  lemma OrderIsIrrelevant(grants: map<GrantKey, Grant>, es: seq<Event>, fs: seq<Event>)
    requires Consistent(es) && forall e :: e in es <==> e in fs
    ensures SameAccess(Deliver(grants, es), Deliver(grants, fs))
  {
    DeliverKeepsInv(grants, es);
    DeliverKeepsInv(grants, fs);
    var s, t := Deliver(grants, es), Deliver(grants, fs);
    forall k
      ensures Bare(Lookup(s.subscriptions, k)) == Bare(Lookup(t.subscriptions, k))
    {
      if k in s.subscriptions {
        assert HasLatest(es, k);
        var e :| Latest(es, e) && SubOf(e) == k;
        SameElementsSameLatest(es, fs, e);
        assert Mirrors(s, e) && Mirrors(t, e);
      } else {
        assert k in t.subscriptions ==> HasLatest(fs, k);
      }
    }
    forall k
      ensures Visible(Lookup(s.grants, k)) == Visible(Lookup(t.grants, k))
    {
      if Governed(es, k) {
        var e :| e in es && k in OwnGrants(e);
        var last := LatestExists(es, e);
        SameElementsSameLatest(es, fs, last);
        assert Agree(e, last) && k == Key(last, k.entitlement);
        assert Mirrors(s, last) && Mirrors(t, last);
      } else {
        assert !Governed(fs, k);
        assert Rests(grants, s, k) && Rests(grants, t, k);
      }
    }
  }

  /** Equal access means equal active entitlements, for every user at every moment. */
  lemma SameAccessSameEntitlements(s: Store, t: Store, user: int, now: int)
    requires SameAccess(s, t)
    ensures ActiveEntitlements(s.grants, user, now) == ActiveEntitlements(t.grants, user, now)
  {
    forall k: GrantKey
      ensures Counts(s.grants, k, user, now) <==> Counts(t.grants, k, user, now)
    {
      assert Visible(Lookup(s.grants, k)) == Visible(Lookup(t.grants, k));
    }
    var keys := set k | k in s.grants && Counts(s.grants, k, user, now);
    assert keys == set k | k in t.grants && Counts(t.grants, k, user, now);
    assert ActiveEntitlements(s.grants, user, now) == set k | k in keys :: k.entitlement;
    assert ActiveEntitlements(t.grants, user, now) == set k | k in keys :: k.entitlement;
  }

  predicate Counts(grants: map<GrantKey, Grant>, k: GrantKey, user: int, now: int) {
    k in grants && k.user == user && grants[k].status == Granted && InWindow(grants[k], now)
  }

  /** What the latest event says of its subscription is what is stored of it. */
  lemma LatestIsStored(grants: map<GrantKey, Grant>, es: seq<Event>, e: Event)
    requires Consistent(es) && Latest(es, e)
    ensures var subs := Deliver(grants, es).subscriptions;
            && SubOf(e) in subs && subs[SubOf(e)].user == e.content.user && subs[SubOf(e)].plan == e.content.plan
            && subs[SubOf(e)].access == e.content.access && subs[SubOf(e)].status == e.content.status
            && subs[SubOf(e)].periodEnd == e.content.periodEnd && subs[SubOf(e)].lastOccurredAt == e.content.occurredAt
  {
    LatestDecides(grants, es, e);
  }

  /** An event under a known reference with other content, or for another user's subscription, is a conflict and changes nothing. */
  lemma ForeignEventsConflict(grants: map<GrantKey, Grant>, es: seq<Event>, e: Event, f: Event, now: int)
    requires Consistent(es) && e in es
    requires (KeyOf(f) == KeyOf(e) && f != e) || (SubOf(f) == SubOf(e) && f.content.user != e.content.user)
    ensures var (s, v) := Absorb(Deliver(grants, es), f);
            s == Deliver(grants, es) && (v == Replayed || v == OwnedByAnother || v.Duplicate?)
            && (v.Duplicate? ==> f in es) && (v.Duplicate? || OutcomeOf(s, v, f.content.user, now) == Conflict)
  {
    DeliverKeepsInv(grants, es);
    var s := Deliver(grants, es);
    if KeyOf(f) in s.events {
      var g :| g in es && KeyOf(g) == KeyOf(f);
      assert Agree(e, g);
    } else {
      assert SubOf(e) in s.subscriptions && HasLatest(es, SubOf(e));
      var last :| Latest(es, last) && SubOf(last) == SubOf(e);
      assert Agree(e, last) && Mirrors(s, last);
    }
  }

  // ---- Who is entitled -------------------------------------------------------------------

  /** The latest event of its subscription gives its user access at the moment. */
  ghost predicate GivesAccess(es: seq<Event>, e: Event, user: int, now: int) {
    && Latest(es, e) && e.content.user == user && e.content.access == ACTIVE && e.content.occurredAt <= now
    && (e.content.periodEnd.Some? ==> now < e.content.periodEnd.value)
  }

  /** A row from elsewhere gives the user the entitlement at the moment. */
  ghost predicate GivenElsewhere(grants: map<GrantKey, Grant>, es: seq<Event>, name: string, user: int, now: int, k: GrantKey) {
    && k in grants && !Governed(es, k) && k.user == user && k.entitlement == name && grants[k].status == Granted
    && (grants[k].startsAt.Some? ==> grants[k].startsAt.value <= now)
    && (grants[k].expiresAt.Some? ==> now < grants[k].expiresAt.value)
  }

  /** A counting row of a delivered subscription belongs to the subscription's latest event. */
  lemma GovernedGivesAccess(grants: map<GrantKey, Grant>, es: seq<Event>, k: GrantKey, user: int, now: int) returns (last: Event)
    requires Consistent(es) && Governed(es, k) && Counts(Deliver(grants, es).grants, k, user, now)
    ensures GivesAccess(es, last, user, now) && k.entitlement in PREMIUM
  {
    var s := Deliver(grants, es);
    var e :| e in es && k in OwnGrants(e);
    last := LatestExists(es, e);
    LatestDecides(grants, es, last);
    assert Agree(e, last) && k == Key(last, k.entitlement) && k.entitlement in PREMIUM;
    assert Visible(Lookup(s.grants, Key(last, k.entitlement))) == Some(s.grants[k]);
  }

  lemma AccessCounts(grants: map<GrantKey, Grant>, es: seq<Event>, e: Event, name: string, user: int, now: int)
    requires Consistent(es) && GivesAccess(es, e, user, now) && name in PREMIUM
    ensures Counts(Deliver(grants, es).grants, Key(e, name), user, now)
  {
    LatestDecides(grants, es, e);
    assert Visible(Lookup(Deliver(grants, es).grants, Key(e, name))) == Some(FreshGrant(e));
  }

  lemma ElsewhereCounts(grants: map<GrantKey, Grant>, es: seq<Event>, k: GrantKey, user: int, now: int)
    requires Consistent(es) && !Governed(es, k)
    ensures Counts(Deliver(grants, es).grants, k, user, now) <==> GivenElsewhere(grants, es, k.entitlement, user, now, k)
  {
    DeliverKeepsInv(grants, es);
    assert Rests(grants, Deliver(grants, es), k);
  }

  lemma ActiveIffCounts(grants: map<GrantKey, Grant>, name: string, user: int, now: int)
    ensures name in ActiveEntitlements(grants, user, now) <==> exists k :: Counts(grants, k, user, now) && k.entitlement == name
  {
  }

  /**
   However events are reordered and repeated, a user has a premium entitlement at a moment exactly when the latest
   event of some subscription gives access then, or a row from elsewhere gives that entitlement.
   */
  lemma {:induction false} EntitledExactly(grants: map<GrantKey, Grant>, es: seq<Event>, name: string, user: int, now: int)
    requires Consistent(es)
    ensures name in ActiveEntitlements(Deliver(grants, es).grants, user, now)
            <==> || (name in {"ai_decisions", "realtime_notifications"} && exists e :: GivesAccess(es, e, user, now))
                 || exists k :: GivenElsewhere(grants, es, name, user, now, k)
  {
    var rows := Deliver(grants, es).grants;
    ActiveIffCounts(rows, name, user, now);
    if k :| Counts(rows, k, user, now) && k.entitlement == name {
      if Governed(es, k) {
        var last := GovernedGivesAccess(grants, es, k, user, now);
      } else {
        ElsewhereCounts(grants, es, k, user, now);
      }
    }
    if e :| name in PREMIUM && GivesAccess(es, e, user, now) {
      AccessCounts(grants, es, e, name, user, now);
    }
    if k :| GivenElsewhere(grants, es, name, user, now, k) {
      ElsewhereCounts(grants, es, k, user, now);
    }
  }

  lemma TwoDeliveries(grants: map<GrantKey, Grant>, e: Event, f: Event)
    ensures Deliver(grants, [e]) == Absorb(Begin(grants), e).0
    ensures Deliver(grants, [e, f]) == Absorb(Deliver(grants, [e]), f).0
  {
    assert [e, f][..1] == [e] && [e][..0] == [];
  }

  /**
   Distinct times are needed exactly: of two events of one subscription the order of delivery does not matter
   iff they occurred at different times or call for the same access.
   */
  lemma TiesFollowDelivery(grants: map<GrantKey, Grant>, e: Event, f: Event)
    requires KeyOf(e) != KeyOf(f) && SubOf(e) == SubOf(f) && e.content.user == f.content.user
    ensures SameAccess(Deliver(grants, [e, f]), Deliver(grants, [f, e]))
            <==> (e.content.occurredAt != f.content.occurredAt || e.content.(customer := None) == f.content.(customer := None))
  {
    var s, t := Deliver(grants, [e, f]), Deliver(grants, [f, e]);
    TwoDeliveries(grants, e, f);
    TwoDeliveries(grants, f, e);
    if e.content.occurredAt != f.content.occurredAt {
      OrderIsIrrelevant(grants, [e, f], [f, e]);
    } else {
      AppliedMirrors(Deliver(grants, [e]), f);
      AppliedMirrors(Deliver(grants, [f]), e);
      assert Mirrors(s, f) && Mirrors(t, e);
      var k := SubOf(e);
      assert Bare(Lookup(s.subscriptions, k)) == Some(Renew(None, f.content.(customer := None)));
      assert Bare(Lookup(t.subscriptions, k)) == Some(Renew(None, e.content.(customer := None)));
      if e.content.(customer := None) == f.content.(customer := None) {
        TiedAlikeSameAccess(grants, e, f);
      }
    }
  }

  /** A failing pair: an activation and a cancellation at the same moment leave what arrived last. */
  lemma TiedEventsConflict(grants: map<GrantKey, Grant>, provider: string, ref: string, other: string, sub: string)
    requires ref != other
    ensures var on := Event(provider, ref, Content(0, 1, sub, PRO, ACTIVE, None, None, None));
            var off := Event(provider, other, Content(0, 1, sub, PRO, INACTIVE, None, None, None));
            !SameAccess(Deliver(grants, [on, off]), Deliver(grants, [off, on]))
  {
    var on := Event(provider, ref, Content(0, 1, sub, PRO, ACTIVE, None, None, None));
    var off := Event(provider, other, Content(0, 1, sub, PRO, INACTIVE, None, None, None));
    TiesFollowDelivery(grants, on, off);
  }

  lemma TiedAlikeSameAccess(grants: map<GrantKey, Grant>, e: Event, f: Event)
    requires KeyOf(e) != KeyOf(f) && SubOf(e) == SubOf(f) && e.content.(customer := None) == f.content.(customer := None)
    ensures SameAccess(Deliver(grants, [e, f]), Deliver(grants, [f, e]))
  {
    TwoDeliveries(grants, e, f);
    TwoDeliveries(grants, f, e);
    var s, t := Deliver(grants, [e, f]), Deliver(grants, [f, e]);
    assert OwnGrants(e) == OwnGrants(f) && FreshGrant(e) == FreshGrant(f);
    assert Regrant(grants, e) == Regrant(grants, f);
    assert s.grants == t.grants;
    forall k
      ensures Bare(Lookup(s.subscriptions, k)) == Bare(Lookup(t.subscriptions, k))
    {
    }
  }
}
