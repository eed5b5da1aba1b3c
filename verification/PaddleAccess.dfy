/** What an applied webhook does to the access of the subscription it is about. */
module PaddleAccess {
  import opened Common
  import opened Billing
  import opened BillingLaws
  import opened Paddle
  import opened PaddleLaws

  // ---- Access, on the stored rows ------------------------------------------------------------

  /** The subscription is inactive and none of its premium rows is granted. */
  ghost predicate Withdrawn(s: Store, k: SubKey) {
    && k in s.subscriptions && s.subscriptions[k].access == INACTIVE
    && forall n :: n in {"ai_decisions", "realtime_notifications"} ==>
         var row := GrantKey(s.subscriptions[k].user, n, Source.Billed(k));
         row in s.grants ==> s.grants[row].status == Revoked
  }

  /** The subscription is active and each of its premium rows is granted for exactly this time. */
  ghost predicate Provided(s: Store, k: SubKey, from: int, until: int) {
    && k in s.subscriptions && s.subscriptions[k].access == ACTIVE
    && forall n :: n in {"ai_decisions", "realtime_notifications"} ==>
         var row := GrantKey(s.subscriptions[k].user, n, Source.Billed(k));
         row in s.grants && s.grants[row] == Grant(Granted, Some(from), Some(until))
  }

  /** The webhook changed something: it was neither ignored nor refused, and neither repeated nor stale. */
  predicate TookEffect(a: Answer) {
    a.Handled? && a.outcome.Result? && !a.outcome.duplicate && !a.outcome.stale
  }

  lemma EffectIsApplied(catalog: map<string, Offer>, s: State, h: Hook, now: int)
    requires TookEffect(Process(catalog, s, h, now).1)
    ensures PlanOf(catalog, s, h).Bill? && EventOf(catalog, s, h).Some?
    ensures var e := EventOf(catalog, s, h).value;
            && e == Normalise(PlanOf(catalog, s, h).raw).event && Normalise(PlanOf(catalog, s, h).raw).Fine?
            && Absorb(s.store, e).1 == Applied && Process(catalog, s, h, now).0.store == Absorb(s.store, e).0
  {
  }

  lemma AppliedAccess(s: Store, e: Event)
    requires Absorb(s, e).1 == Applied
    ensures var s' := Absorb(s, e).0;
            && SubOf(e) in s'.subscriptions && s'.subscriptions[SubOf(e)].user == e.content.user
            && (e.content.access == INACTIVE ==> Withdrawn(s', SubOf(e)))
            && (e.content.access == ACTIVE && e.content.periodEnd.Some? ==>
                  Provided(s', SubOf(e), e.content.occurredAt, e.content.periodEnd.value))
  {
    AppliedMirrors(s, e);
    var s' := Absorb(s, e).0;
    assert forall n :: GrantKey(e.content.user, n, Source.Billed(SubOf(e))) == Key(e, n);
    assert Bare(Lookup(s'.subscriptions, SubOf(e))).value.access == e.content.access;
    forall n | n in {"ai_decisions", "realtime_notifications"}
      ensures Visible(Lookup(s'.grants, Key(e, n)))
              == if e.content.access == ACTIVE then Some(FreshGrant(e)) else None
    {
      assert n in PREMIUM;
    }
  }

  // ---- Kinds and statuses --------------------------------------------------------------------

  lemma KindsDiffer()
    ensures "subscription.created" !in {"subscription.activated", "subscription.resumed", "subscription.trialing",
                                        "subscription.past_due", "subscription.paused", "subscription.canceled"}
    ensures "subscription.updated" !in {"subscription.activated", "subscription.resumed", "subscription.trialing",
                                        "subscription.past_due", "subscription.paused", "subscription.canceled"}
    ensures "subscription.past_due" !in {"subscription.activated", "subscription.resumed", "subscription.trialing"}
    ensures "subscription.paused" !in {"subscription.activated", "subscription.resumed", "subscription.trialing"}
    ensures "subscription.canceled" !in {"subscription.activated", "subscription.resumed", "subscription.trialing"}
  {
    assert "subscription.created"[13..15] == "cr" && "subscription.updated"[13..15] == "up";
    assert "subscription.activated"[13..15] == "ac" && "subscription.resumed"[13..15] == "re";
    assert "subscription.trialing"[13..15] == "tr" && "subscription.canceled"[13..15] == "ca";
    assert "subscription.past_due"[13..15] == "pa" && "subscription.paused"[13..15] == "pa";
    assert "cr"[1] == 'r' && "up"[1] == 'p' && "ac"[1] == 'c' && "re"[1] == 'e' && "tr"[0] == 't' && "ca"[1] == 'a';
    assert "cr"[0] == 'c' && "pa"[0] == 'p' && "pa"[1] == 'a' && "ca"[0] == 'c' && "ac"[0] == 'a';
  }

  lemma StatusesDiffer()
    ensures "active" !in {"past_due", "paused", "canceled"} && "trialing" !in {"past_due", "paused", "canceled"}
  {
    assert "active"[0] == 'a' && "trialing"[0] == 't';
    assert "past_due"[0] == 'p' && "paused"[0] == 'p' && "canceled"[0] == 'c';
  }

  /** The webhook says that the subscription gives access. */
  predicate SaysActive(kind: string, status: string) {
    || kind in {"subscription.activated", "subscription.resumed", "subscription.trialing"}
    || (kind in {"subscription.created", "subscription.updated"} && status in {"active", "trialing"})
  }

  /** The webhook says that it does not. */
  predicate SaysInactive(kind: string, status: string) {
    || kind in {"subscription.past_due", "subscription.paused", "subscription.canceled"}
    || (kind in {"subscription.created", "subscription.updated"} && status in {"past_due", "paused", "canceled"})
  }

  lemma AccessFollows(kind: string, status: string)
    requires IsSubscriptionKind(kind)
    ensures AccessOf(kind, status) == Some(ACTIVE) <==> SaysActive(kind, status)
    ensures AccessOf(kind, status) == Some(INACTIVE) <==> SaysInactive(kind, status)
  {
    KindsDiffer();
    StatusesDiffer();
  }

  lemma SubscriptionKinds(kind: string)
    ensures IsSubscriptionKind(kind) ==> kind != "transaction.completed"
  {
    if IsSubscriptionKind(kind) {
      assert kind[0] == 's';
      assert "transaction.completed"[0] == 't';
    }
  }

  /** Until when access is given: to the end of the billing period, or for 32 days if none is named. */
  function AccessUntil(h: Hook): int {
    if h.data.period.EndsAt? then h.data.period.at else h.occurredAt + 32 * 24 * 60 * 60 * 1_000_000
  }

  /** The billing event of a subscription webhook that took effect, once it is known whose it is. */
  lemma SubscriptionEvent(
    catalog: map<string, Offer>, s: State, h: Hook, now: int, id: string, user: int, plan: string,
    customer: Option<string>, blocked: Option<string>)
    requires IsSubscriptionKind(h.kind) && TookEffect(Process(catalog, s, h, now).1) && Strip(id) == id
    requires PlanOf(catalog, s, h).Bill? && SubscriptionRaw(h, id, user, plan, customer, blocked) == Some(PlanOf(catalog, s, h).raw)
    ensures SaysActive(h.kind, LowerText(h.data.status)) || SaysInactive(h.kind, LowerText(h.data.status))
    ensures var s', k, status := Process(catalog, s, h, now).0.store, SubKey(PADDLE, id), LowerText(h.data.status);
            && k in s'.subscriptions && s'.subscriptions[k].user == user
            && (SaysInactive(h.kind, status) || blocked.Some? ==> Withdrawn(s', k))
            && (SaysActive(h.kind, status) && blocked.None? ==> Provided(s', k, h.occurredAt, AccessUntil(h)))
  {
    EffectIsApplied(catalog, s, h, now);
    AccessFollows(h.kind, LowerText(h.data.status));
    var raw, e := PlanOf(catalog, s, h).raw, EventOf(catalog, s, h).value;
    Literals();
    Normalised(raw);
    AppliedAccess(s.store, e);
  }

  // ---- Subscriptions -------------------------------------------------------------------------

  /**
   A webhook for a known subscription that takes effect decides its access for the subscription's own user by its
   kind, or for creations and updates by its status; a payment block leaves none.
   */
  lemma WebhookDecidesAccess(catalog: map<string, Offer>, s: State, h: Hook, now: int, id: string)
    requires IsSubscriptionKind(h.kind) && Text(h.data.id) == Some(id) && SubKey(PADDLE, id) in s.store.subscriptions
    requires TookEffect(Process(catalog, s, h, now).1)
    ensures SaysActive(h.kind, LowerText(h.data.status)) || SaysInactive(h.kind, LowerText(h.data.status))
    ensures var k, status := SubKey(PADDLE, id), LowerText(h.data.status);
            var sub, s' := s.store.subscriptions[k], Process(catalog, s, h, now).0.store;
            && k in s'.subscriptions && s'.subscriptions[k].user == sub.user
            && (SaysInactive(h.kind, status) || IsPaymentBlocked(sub.status) ==> Withdrawn(s', k))
            && (SaysActive(h.kind, status) && !IsPaymentBlocked(sub.status) ==>
                  Provided(s', k, h.occurredAt, AccessUntil(h)))
  {
    EffectIsApplied(catalog, s, h, now);
    SubscriptionKinds(h.kind);
    TextIsStripped(h.data.id);
    var sub := s.store.subscriptions[SubKey(PADDLE, id)];
    SubscriptionEvent(catalog, s, h, now, id, sub.user, sub.plan,
                      if Text(h.data.customerId).Some? then Text(h.data.customerId) else sub.customer,
                      if IsPaymentBlocked(sub.status) then sub.status else None);
  }

  /**
   It takes effect exactly when it prices one recurring offer, names no broken period, says what the access is, and
   was not delivered before nor is older than the last applied event.
   */
  lemma WebhookTakesEffectExactly(catalog: map<string, Offer>, s: State, h: Hook, now: int, id: string)
    requires IsSubscriptionKind(h.kind) && Text(h.data.id) == Some(id) && SubKey(PADDLE, id) in s.store.subscriptions
    requires s.store.subscriptions[SubKey(PADDLE, id)].plan == PRO && Strip(h.ref) != ""
    ensures TookEffect(Process(catalog, s, h, now).1)
            <==> && h.data.priced.OneOffer? && h.data.priced.recurring && !h.data.period.BadPeriod?
                 && (SaysActive(h.kind, LowerText(h.data.status)) || SaysInactive(h.kind, LowerText(h.data.status)))
                 && EventKey(PADDLE, Strip(h.ref)) !in s.store.events
                 && h.occurredAt >= s.store.subscriptions[SubKey(PADDLE, id)].lastOccurredAt
  {
    SubscriptionKinds(h.kind);
    AccessFollows(h.kind, LowerText(h.data.status));
    if PlanOf(catalog, s, h).Bill? {
      KnownEvent(catalog, s, h, id);
      EffectOfEvent(s.store, PlanOf(catalog, s, h).raw, now);
    }
  }

  lemma KnownEvent(catalog: map<string, Offer>, s: State, h: Hook, id: string)
    requires IsSubscriptionKind(h.kind) && Text(h.data.id) == Some(id) && SubKey(PADDLE, id) in s.store.subscriptions
    requires s.store.subscriptions[SubKey(PADDLE, id)].plan == PRO && Strip(h.ref) != "" && PlanOf(catalog, s, h).Bill?
    ensures var n := Normalise(PlanOf(catalog, s, h).raw);
            && n.Fine? && KeyOf(n.event) == EventKey(PADDLE, Strip(h.ref)) && SubOf(n.event) == SubKey(PADDLE, id)
            && n.event.content.user == s.store.subscriptions[SubKey(PADDLE, id)].user
            && n.event.content.occurredAt == h.occurredAt
  {
    SubscriptionKinds(h.kind);
    TextIsStripped(h.data.id);
    Literals();
    PlanIsPro();
    Normalised(PlanOf(catalog, s, h).raw);
  }

  lemma PlanIsPro()
    ensures Strip(PRO) == PRO && Upper(PRO) == PRO && PRO != ""
  {
    assert PRO[0] == 'P' && PRO[|PRO| - 1] == 'O';
  }

  lemma EffectOfEvent(s: Store, raw: Raw, now: int)
    requires Normalise(raw).Fine?
    ensures var e := Normalise(raw).event;
            TookEffect(Handled(ApplyRaw(s, raw, now).1)) <==> Absorb(s, e).1 == Applied
  {
  }

  /** A creation or an update whose status is not known is refused and changes nothing. */
  lemma UnknownStatusIsRefused(catalog: map<string, Offer>, s: State, h: Hook, now: int, id: string)
    requires h.kind in {"subscription.created", "subscription.updated"} && Text(h.data.id) == Some(id)
    requires SubKey(PADDLE, id) in s.store.subscriptions
    requires LowerText(h.data.status) !in {"active", "trialing", "past_due", "paused", "canceled"}
    ensures Process(catalog, s, h, now) == (s, WebhookError)
  {
    SubscriptionKinds(h.kind);
    KindsDiffer();
    AccessFollows(h.kind, LowerText(h.data.status));
  }

  /** A subscription becomes known by its creation from a checkout of the server, and belongs to that checkout's user. */
  lemma CreationOpensSubscription(catalog: map<string, Offer>, s: State, h: Hook, now: int, id: string)
    requires IsSubscriptionKind(h.kind) && Text(h.data.id) == Some(id) && SubKey(PADDLE, id) !in s.store.subscriptions
    requires TookEffect(Process(catalog, s, h, now).1)
    ensures h.kind == "subscription.created" && Text(h.data.transactionId).Some?
    ensures var k, status, ref := SubKey(PADDLE, id), LowerText(h.data.status), Text(h.data.transactionId).value;
            var s' := Process(catalog, s, h, now).0.store;
            && ref in s.checkouts && s.checkouts[ref].offer.recurring && Agrees(catalog, s.checkouts[ref], h.data)
            && k in s'.subscriptions && s'.subscriptions[k].user == s.checkouts[ref].user
            && (if status in {"active", "trialing"} then Provided(s', k, h.occurredAt, AccessUntil(h))
                else status in {"past_due", "paused", "canceled"} && Withdrawn(s', k))
  {
    EffectIsApplied(catalog, s, h, now);
    SubscriptionKinds(h.kind);
    TextIsStripped(h.data.id);
    KindsDiffer();
    StatusesDiffer();
    assert PlanSubscription(catalog, s, h).Bill?;
    var c := s.checkouts[Text(h.data.transactionId).value];
    SubscriptionEvent(catalog, s, h, now, id, c.user, c.plan,
                      if Text(h.data.customerId).Some? then Text(h.data.customerId) else c.customer, None);
  }

  /** The offer of the checkout is still the configured one, and price and metadata of the webhook are the checkout's. */
  predicate Agrees(catalog: map<string, Offer>, c: Checkout, d: Data) {
    && c.offerKey in catalog && catalog[c.offerKey] == c.offer && c.plan == "PRO"
    && d.priced.OneOffer? && d.priced.key == c.offerKey
    && d.custom == Some(Custom("dota-ai-billing-v1", c.user, c.offerKey, c.plan))
  }

  // ---- Purchases and refunds -----------------------------------------------------------------

  /**
   A completed transaction that takes effect gives the checkout's user access: for the days of a fixed-term offer,
   else to the end of the billing period or for 32 days. The checkout is then completed.
   */
  lemma PurchaseProvides(catalog: map<string, Offer>, s: State, h: Hook, now: int)
    requires h.kind == "transaction.completed" && TookEffect(Process(catalog, s, h, now).1)
    ensures Text(h.data.id).Some? && Text(h.data.id).value in s.checkouts
    ensures var id := Text(h.data.id).value;
            var c, s' := s.checkouts[id], Process(catalog, s, h, now).0;
            && Agrees(catalog, c, h.data)
            && (c.offer.recurring ==> Text(h.data.subscriptionId).Some?)
            && (!c.offer.recurring ==> c.offer.grantDays.Some? && c.offer.grantDays.value >= 1)
            && var k := SubKey(PADDLE, if c.offer.recurring then Text(h.data.subscriptionId).value else id);
               && k in s'.store.subscriptions && s'.store.subscriptions[k].user == c.user
               && Provided(s'.store, k, h.occurredAt,
                           if c.offer.recurring then AccessUntil(h)
                           else h.occurredAt + c.offer.grantDays.value * 24 * 60 * 60 * 1_000_000)
               && id in s'.checkouts && s'.checkouts[id] == c.(completedAt := Some(h.occurredAt))
  {
    EffectIsApplied(catalog, s, h, now);
    PurchaseRaw(catalog, s, h);
    var raw := PlanOf(catalog, s, h).raw;
    Literals();
    Normalised(raw);
    AppliedAccess(s.store, EventOf(catalog, s, h).value);
  }

  lemma PurchaseRaw(catalog: map<string, Offer>, s: State, h: Hook)
    requires h.kind == "transaction.completed" && PlanOf(catalog, s, h).Bill?
    ensures Text(h.data.id).Some? && Text(h.data.id).value in s.checkouts
    ensures var id, raw := Text(h.data.id).value, PlanOf(catalog, s, h).raw;
            var c := s.checkouts[id];
            && Agrees(catalog, c, h.data) && PlanOf(catalog, s, h).checkout == Some(id)
            && (c.offer.recurring ==> Text(h.data.subscriptionId).Some?)
            && (!c.offer.recurring ==> c.offer.grantDays.Some? && c.offer.grantDays.value >= 1)
            && raw.provider == PADDLE && raw.user == c.user && raw.access == "ACTIVE" && raw.occurredAt == Some(h.occurredAt)
            && raw.subscription == (if c.offer.recurring then Text(h.data.subscriptionId).value else id)
            && Strip(raw.subscription) == raw.subscription
            && raw.periodEnd == Some(if c.offer.recurring then AccessUntil(h)
                                     else h.occurredAt + c.offer.grantDays.value * 24 * 60 * 60 * 1_000_000)
  {
    TextIsStripped(h.data.id);
    TextIsStripped(h.data.subscriptionId);
  }

  /** An adjustment that takes effect is an approved full refund or chargeback of a known subscription, and ends its access. */
  lemma RefundWithdraws(catalog: map<string, Offer>, s: State, h: Hook, now: int)
    requires h.kind == "adjustment.created" || h.kind == "adjustment.updated"
    requires TookEffect(Process(catalog, s, h, now).1)
    ensures LowerText(h.data.status) == "approved" && LowerText(h.data.adjustment) == "full"
    ensures LowerText(h.data.action) in {"refund", "chargeback", "chargeback_warning"}
    ensures var ref := if Text(h.data.subscriptionId).Some? then Text(h.data.subscriptionId) else Text(h.data.transactionId);
            ref.Some? && SubKey(PADDLE, ref.value) in s.store.subscriptions
            && Withdrawn(Process(catalog, s, h, now).0.store, SubKey(PADDLE, ref.value))
  {
    EffectIsApplied(catalog, s, h, now);
    AdjustmentEvent(catalog, s, h);
    AdjustmentPlan(s, h);
    NormalisedInactive(PlanAdjustment(s, h).raw);
    AppliedAccess(s.store, EventOf(catalog, s, h).value);
  }
}
