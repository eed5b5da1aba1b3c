/** A refunded or charged-back subscription stays blocked until a new purchase is applied to it. */
module PaddleLaws {
  import opened Common
  import opened Billing
  import opened BillingLaws
  import opened Paddle

  // ---- Strings -------------------------------------------------------------------------

  lemma {:induction false} StripTwice(s: string)
    ensures Strip(Strip(s)) == Strip(s)
    decreases |s|
  {
    if s != "" && IsSpace(s[0]) {
      StripTwice(s[1..]);
    } else if s != "" && IsSpace(s[|s| - 1]) {
      StripTwice(s[..|s| - 1]);
    }
  }

  lemma Literals()
    ensures Lower(Strip(PADDLE)) == PADDLE && Strip(PADDLE) != ""
    ensures Upper(Strip("ACTIVE")) == "ACTIVE" && Upper(Strip("INACTIVE")) == "INACTIVE"
    ensures "ACTIVE" != "INACTIVE"
  {
    assert PADDLE[0] == 'p' && PADDLE[|PADDLE| - 1] == 'e';
    assert "ACTIVE"[0] == 'A' && "ACTIVE"[|"ACTIVE"| - 1] == 'E';
    assert "INACTIVE"[0] == 'I' && "INACTIVE"[|"INACTIVE"| - 1] == 'E';
    assert |"ACTIVE"| != |"INACTIVE"|;
  }

  /** Billing takes an event of this module as it is. */
  lemma Normalised(raw: Raw)
    requires raw.provider == PADDLE && Strip(raw.subscription) == raw.subscription
    requires raw.access == "ACTIVE" || raw.access == "INACTIVE"
    ensures Normalise(raw).Fine? ==>
              var c := Normalise(raw).event.content;
              && SubOf(Normalise(raw).event) == SubKey(PADDLE, raw.subscription)
              && (c.access == ACTIVE <==> raw.access == "ACTIVE")
              && c.status == raw.status && c.user == raw.user
              && raw.occurredAt == Some(c.occurredAt) && raw.periodEnd == c.periodEnd
  {
    Literals();
  }

  lemma TextIsStripped(o: Option<string>)
    ensures Text(o).Some? ==> Strip(Text(o).value) == Text(o).value
  {
    if o.Some? {
      StripTwice(o.value);
    }
  }

  // ---- Blocked subscriptions -------------------------------------------------------------

  /** No access, by a status that only a payment reversal sets, and nothing granted to its owner. */
  ghost predicate Blocked(s: Store, k: SubKey) {
    && k in s.subscriptions
    && s.subscriptions[k].access == INACTIVE && IsPaymentBlocked(s.subscriptions[k].status)
    && forall n :: n in PREMIUM ==> Visible(Lookup(s.grants, GrantKey(s.subscriptions[k].user, n, Source.Billed(k)))) == None
  }

  predicate Blocks(c: Content) {
    c.access == INACTIVE && IsPaymentBlocked(c.status)
  }

  lemma AbsorbKeepsBlock(s: Store, e: Event, k: SubKey)
    requires Blocked(s, k)
    ensures Blocked(Absorb(s, e).0, k) <==> SubOf(e) != k || Absorb(s, e).1 != Applied || Blocks(e.content)
  {
    var s' := Absorb(s, e).0;
    var user := s.subscriptions[k].user;
    if Absorb(s, e).1 == Applied {
      AppliedMirrors(s, e);
      if SubOf(e) == k {
        assert forall n :: GrantKey(user, n, Source.Billed(k)) == Key(e, n);
      } else {
        assert forall n :: n in PREMIUM ==> Rests(s.grants, s', GrantKey(user, n, Source.Billed(k)));
      }
    }
  }

  lemma AppliedBlocks(s: Store, e: Event)
    requires Absorb(s, e).1 == Applied && Blocks(e.content)
    ensures Blocked(Absorb(s, e).0, SubOf(e))
  {
    AppliedMirrors(s, e);
    assert forall n :: GrantKey(e.content.user, n, Source.Billed(SubOf(e))) == Key(e, n);
    var sub := Absorb(s, e).0.subscriptions[SubOf(e)];
    assert sub.user == e.content.user && sub.access == INACTIVE && sub.status == e.content.status;
  }

  /** The billing event a webhook gives rise to. */
  function EventOf(catalog: map<string, Offer>, s: State, h: Hook): Option<Event> {
    var p := PlanOf(catalog, s, h);
    if p.Bill? && Normalise(p.raw).Fine? then Some(Normalise(p.raw).event) else None
  }

  lemma ProcessAbsorbs(catalog: map<string, Offer>, s: State, h: Hook, now: int)
    ensures var e := EventOf(catalog, s, h);
            Process(catalog, s, h, now).0.store == if e.Some? then Absorb(s.store, e.value).0 else s.store
  {
  }

  /** The webhook is a completed transaction whose billing event is applied, not stale, repeated or conflicting. */
  predicate PurchaseApplied(catalog: map<string, Offer>, s: State, h: Hook, k: SubKey) {
    && h.kind == "transaction.completed"
    && var e := EventOf(catalog, s, h);
       e.Some? && SubOf(e.value) == k && Absorb(s.store, e.value).1 == Applied
  }

  lemma TransactionsActivate(catalog: map<string, Offer>, s: State, h: Hook)
    requires h.kind == "transaction.completed" && EventOf(catalog, s, h).Some?
    ensures EventOf(catalog, s, h).value.content.access == ACTIVE
  {
    TextIsStripped(h.data.id);
    TextIsStripped(h.data.subscriptionId);
    Normalised(PlanOf(catalog, s, h).raw);
  }

  /** A subscription webhook for a blocked subscription asks for no access and keeps the blocking status. */
  lemma SubscriptionsStayBlocked(catalog: map<string, Offer>, s: State, h: Hook, k: SubKey)
    requires IsSubscriptionKind(h.kind) && Blocked(s.store, k)
    requires EventOf(catalog, s, h).Some? && SubOf(EventOf(catalog, s, h).value) == k
    ensures Blocks(EventOf(catalog, s, h).value.content)
  {
    TextIsStripped(h.data.id);
    Normalised(PlanSubscription(catalog, s, h).raw);
    Literals();
  }

  lemma BlockingStatus(action: string)
    ensures IsPaymentBlocked(Some(BLOCKED + action + ":approved"))
  {
    assert BLOCKED + action + ":approved" == BLOCKED + (action + ":approved");
  }

  /** The event an adjustment leads to: no access, a blocking status, for the subscription it names. */
  lemma AdjustmentPlan(s: State, h: Hook)
    requires PlanAdjustment(s, h).Bill?
    ensures var raw := PlanAdjustment(s, h).raw;
            && raw.provider == PADDLE && Strip(raw.subscription) == raw.subscription && raw.access == "INACTIVE"
            && IsPaymentBlocked(raw.status) && raw.occurredAt == Some(h.occurredAt)
            && SubKey(PADDLE, raw.subscription) in s.store.subscriptions
            && s.store.subscriptions[SubKey(PADDLE, raw.subscription)].user == raw.user
  {
    TextIsStripped(h.data.subscriptionId);
    TextIsStripped(h.data.transactionId);
    BlockingStatus(LowerText(h.data.action));
  }

  lemma AdjustmentEvent(catalog: map<string, Offer>, s: State, h: Hook)
    requires h.kind == "adjustment.created" || h.kind == "adjustment.updated"
    requires EventOf(catalog, s, h).Some?
    ensures PlanAdjustment(s, h).Bill? && EventOf(catalog, s, h) == Some(Normalise(PlanAdjustment(s, h).raw).event)
    ensures Normalise(PlanAdjustment(s, h).raw).Fine?
  {
    AdjustmentKinds(h.kind);
  }

  lemma AdjustmentKinds(kind: string)
    requires kind == "adjustment.created" || kind == "adjustment.updated"
    ensures kind != "transaction.completed" && !IsSubscriptionKind(kind)
  {
    assert kind[0] == 'a';
  }

  lemma AdjustmentsBlock(catalog: map<string, Offer>, s: State, h: Hook)
    requires h.kind == "adjustment.created" || h.kind == "adjustment.updated"
    requires EventOf(catalog, s, h).Some?
    ensures var e := EventOf(catalog, s, h).value;
            && Blocks(e.content) && SubOf(e) in s.store.subscriptions
            && s.store.subscriptions[SubOf(e)].user == e.content.user && e.content.occurredAt == h.occurredAt
  {
    AdjustmentEvent(catalog, s, h);
    AdjustmentPlan(s, h);
    NormalisedInactive(PlanAdjustment(s, h).raw);
  }

  lemma NormalisedInactive(raw: Raw)
    requires raw.provider == PADDLE && Strip(raw.subscription) == raw.subscription && raw.access == "INACTIVE"
    requires Normalise(raw).Fine?
    ensures var e := Normalise(raw).event;
            && SubOf(e) == SubKey(PADDLE, raw.subscription) && e.content.access == INACTIVE
            && e.content.status == raw.status && e.content.user == raw.user && Some(e.content.occurredAt) == raw.occurredAt
  {
    Literals();
  }

  /** One webhook lifts a block iff it is a purchase applied to that subscription. */
  lemma OnlyPurchasesUnblock(catalog: map<string, Offer>, s: State, h: Hook, now: int, k: SubKey)
    requires Blocked(s.store, k)
    ensures Blocked(Process(catalog, s, h, now).0.store, k) <==> !PurchaseApplied(catalog, s, h, k)
  {
    ProcessAbsorbs(catalog, s, h, now);
    var found := EventOf(catalog, s, h);
    if found.Some? {
      AbsorbKeepsBlock(s.store, found.value, k);
      if h.kind == "transaction.completed" {
        TransactionsActivate(catalog, s, h);
      } else if SubOf(found.value) == k {
        if IsSubscriptionKind(h.kind) {
          SubscriptionsStayBlocked(catalog, s, h, k);
        } else {
          AdjustmentsBlock(catalog, s, h);
        }
      }
    }
  }

  // ---- Runs ------------------------------------------------------------------------------

  function Run(catalog: map<string, Offer>, s: State, hooks: seq<(Hook, int)>): State {
    if hooks == [] then s
    else
      var (h, now) := hooks[|hooks| - 1];
      Process(catalog, Run(catalog, s, hooks[..|hooks| - 1]), h, now).0
  }

  /** Some webhook of the run is a purchase applied to the subscription. */
  predicate Repurchased(catalog: map<string, Offer>, s: State, hooks: seq<(Hook, int)>, k: SubKey) {
    hooks != []
    && var before := hooks[..|hooks| - 1];
       Repurchased(catalog, s, before, k) || PurchaseApplied(catalog, Run(catalog, s, before), hooks[|hooks| - 1].0, k)
  }

  /** A block holds through every run of webhooks in which no purchase is applied to the subscription. */
  lemma {:induction false} BlockHolds(catalog: map<string, Offer>, s: State, hooks: seq<(Hook, int)>, k: SubKey)
    requires Blocked(s.store, k) && !Repurchased(catalog, s, hooks, k)
    ensures Blocked(Run(catalog, s, hooks).store, k)
  {
    if hooks != [] {
      var before := hooks[..|hooks| - 1];
      BlockHolds(catalog, s, before, k);
      var (h, now) := hooks[|hooks| - 1];
      OnlyPurchasesUnblock(catalog, Run(catalog, s, before), h, now, k);
    }
  }

  /**
   An approved full refund, first delivered, blocks the subscription it names iff it is not older than the
   last applied event; an older one is recorded as stale and blocks nothing that was not blocked already.
   */
  lemma RefundBlocksUnlessStale(catalog: map<string, Offer>, s: State, h: Hook, now: int, k: SubKey)
    requires h.kind == "adjustment.created" || h.kind == "adjustment.updated"
    requires EventOf(catalog, s, h).Some? && SubOf(EventOf(catalog, s, h).value) == k
    requires KeyOf(EventOf(catalog, s, h).value) !in s.store.events
    ensures k in s.store.subscriptions
    ensures Blocked(Process(catalog, s, h, now).0.store, k)
            <==> Blocked(s.store, k) || h.occurredAt >= s.store.subscriptions[k].lastOccurredAt
  {
    AdjustmentsBlock(catalog, s, h);
    ProcessAbsorbs(catalog, s, h, now);
    AbsorbBlocksUnlessStale(s.store, EventOf(catalog, s, h).value);
  }

  lemma PlainWord(w: string)
    requires w != "" && forall i :: 0 <= i < |w| ==> !IsSpace(w[i]) && !('A' <= w[i] <= 'Z')
    ensures Text(Some(w)) == Some(w) && LowerText(Some(w)) == w
  {
    assert !IsSpace(w[0]) && !IsSpace(w[|w| - 1]);
    assert Lower(w) == w;
  }

  /** A full refund that occurred at moment 5, for a subscription last updated at moment 10. */
  function LateRefund(ref: string, subscription: string): Hook {
    Hook(ref, "adjustment.updated", 5,
         Data(None, Some("approved"), None, Some(subscription), None, Some("full"), Some("refund"), NoPeriod, NoOffer, None))
  }

  function LastUpdatedAt10(subscription: string): State {
    State(Store(map[], map[SubKey(PADDLE, subscription) := Subscription(1, None, PRO, ACTIVE, None, None, 10)], map[]), map[])
  }

  lemma LateRefundBills(catalog: map<string, Offer>, ref: string, subscription: string)
    requires Strip(ref) != "" && Strip(subscription) == subscription != ""
    ensures var e := EventOf(catalog, LastUpdatedAt10(subscription), LateRefund(ref, subscription));
            e.Some? && SubOf(e.value) == SubKey(PADDLE, subscription)
    ensures IsFullRefund(LateRefund(ref, subscription).data)
  {
    var s, h := LastUpdatedAt10(subscription), LateRefund(ref, subscription);
    PlainWord("approved");
    PlainWord("full");
    PlainWord("refund");
    AdjustmentKinds(h.kind);
    assert IsFullRefund(h.data);
    var raw := PlanAdjustment(s, h).raw;
    Literals();
    assert PRO[0] == 'P' && PRO[|PRO| - 1] == 'O' && Upper(Strip(PRO)) == PRO;
    assert Normalise(raw).Fine?;
    NormalisedInactive(raw);
  }

  lemma NotBlockedAt10(subscription: string)
    ensures !Blocked(LastUpdatedAt10(subscription).store, SubKey(PADDLE, subscription))
    ensures LastUpdatedAt10(subscription).store.subscriptions[SubKey(PADDLE, subscription)].lastOccurredAt == 10
  {
  }

  lemma StaleRefundBlocksNothing(catalog: map<string, Offer>, s: State, h: Hook, now: int, k: SubKey)
    requires h.kind == "adjustment.updated" && s.store.events == map[] && k in s.store.subscriptions
    requires EventOf(catalog, s, h).Some? && SubOf(EventOf(catalog, s, h).value) == k
    requires !Blocked(s.store, k) && h.occurredAt < s.store.subscriptions[k].lastOccurredAt
    ensures !Blocked(Process(catalog, s, h, now).0.store, k)
  {
    RefundBlocksUnlessStale(catalog, s, h, now, k);
  }

  /** A failing input: an approved full refund that arrives after a later update blocks nothing. */
  lemma LateRefundDoesNotBlock(catalog: map<string, Offer>, ref: string, subscription: string, now: int)
    requires Strip(ref) != "" && Strip(subscription) == subscription != ""
    ensures var s, h, k := LastUpdatedAt10(subscription), LateRefund(ref, subscription), SubKey(PADDLE, subscription);
            IsFullRefund(h.data) && !Blocked(Process(catalog, s, h, now).0.store, k)
  {
    var s, h, k := LastUpdatedAt10(subscription), LateRefund(ref, subscription), SubKey(PADDLE, subscription);
    LateRefundBills(catalog, ref, subscription);
    NotBlockedAt10(subscription);
    StaleRefundBlocksNothing(catalog, s, h, now, k);
  }

  /** A blocking event of the owner, first delivered, is applied iff it is not older than the last one applied. */
  lemma AbsorbBlocksUnlessStale(s: Store, e: Event)
    requires Blocks(e.content) && KeyOf(e) !in s.events
    requires SubOf(e) in s.subscriptions && s.subscriptions[SubOf(e)].user == e.content.user
    ensures Blocked(Absorb(s, e).0, SubOf(e))
            <==> Blocked(s, SubOf(e)) || e.content.occurredAt >= s.subscriptions[SubOf(e)].lastOccurredAt
  {
    if Absorb(s, e).1 == Applied {
      AppliedBlocks(s, e);
    }
  }

  // ---- Only the server's own checkouts provision access ----------------------------------------

  ghost predicate HasCheckout(checkouts: map<string, Checkout>, user: int) {
    exists ref :: ref in checkouts && checkouts[ref].user == user
  }

  /** Every subscription belongs to a user for whom the server created a checkout. */
  ghost predicate Provisioned(s: State) {
    forall k :: k in s.store.subscriptions && k.provider == PADDLE ==> HasCheckout(s.checkouts, s.store.subscriptions[k].user)
  }

  lemma TransactionUser(catalog: map<string, Offer>, s: State, h: Hook)
    requires PlanTransaction(catalog, s, h).Bill?
    ensures HasCheckout(s.checkouts, PlanTransaction(catalog, s, h).raw.user)
  {
    assert Text(h.data.id).value in s.checkouts;
  }

  lemma SubscriptionUser(catalog: map<string, Offer>, s: State, h: Hook)
    requires Provisioned(s) && PlanSubscription(catalog, s, h).Bill?
    ensures HasCheckout(s.checkouts, PlanSubscription(catalog, s, h).raw.user)
  {
    var k := SubKey(PADDLE, Text(h.data.id).value);
    if k in s.store.subscriptions {
      assert HasCheckout(s.checkouts, s.store.subscriptions[k].user);
    } else {
      assert Text(h.data.transactionId).value in s.checkouts;
    }
  }

  lemma AdjustmentUser(s: State, h: Hook)
    requires Provisioned(s) && PlanAdjustment(s, h).Bill?
    ensures HasCheckout(s.checkouts, PlanAdjustment(s, h).raw.user)
  {
    AdjustmentPlan(s, h);
  }

  lemma PlannedUser(catalog: map<string, Offer>, s: State, h: Hook)
    requires Provisioned(s) && PlanOf(catalog, s, h).Bill?
    ensures HasCheckout(s.checkouts, PlanOf(catalog, s, h).raw.user)
  {
    if h.kind == "transaction.completed" {
      TransactionUser(catalog, s, h);
    } else if IsSubscriptionKind(h.kind) {
      SubscriptionUser(catalog, s, h);
    } else {
      AdjustmentUser(s, h);
    }
  }

  lemma CompletedKeepsUsers(checkouts: map<string, Checkout>, ref: Option<string>, at: int, user: int)
    requires HasCheckout(checkouts, user)
    ensures HasCheckout(Completed(checkouts, ref, at), user)
  {
    var r :| r in checkouts && checkouts[r].user == user;
    assert r in Completed(checkouts, ref, at) && Completed(checkouts, ref, at)[r].user == user;
  }

  lemma ApplyRawUsers(s: Store, raw: Raw, now: int, k: SubKey)
    requires k in ApplyRaw(s, raw, now).0.subscriptions
    ensures ApplyRaw(s, raw, now).0.subscriptions[k].user == raw.user
            || (k in s.subscriptions && ApplyRaw(s, raw, now).0.subscriptions[k].user == s.subscriptions[k].user)
  {
  }

  lemma PerformKeepsProvisioned(s: State, p: Plan, at: int, now: int)
    requires Provisioned(s) && (p.Bill? ==> HasCheckout(s.checkouts, p.raw.user))
    ensures Provisioned(Perform(s, p, at, now).0)
  {
    if p.Bill? {
      var s' := Perform(s, p, at, now).0;
      forall k | k in s'.store.subscriptions && k.provider == PADDLE
        ensures HasCheckout(s'.checkouts, s'.store.subscriptions[k].user)
      {
        ApplyRawUsers(s.store, p.raw, now, k);
        var user := s'.store.subscriptions[k].user;
        assert HasCheckout(s.checkouts, user);
        CompletedKeepsUsers(s.checkouts, p.checkout, at, user);
      }
    }
  }

  /** Whatever webhooks arrive, no subscription comes to a user without a checkout created by the server. */
  lemma {:induction false} OnlyCheckoutsProvision(catalog: map<string, Offer>, s: State, hooks: seq<(Hook, int)>)
    requires Provisioned(s)
    ensures Provisioned(Run(catalog, s, hooks))
  {
    if hooks != [] {
      var before := hooks[..|hooks| - 1];
      OnlyCheckoutsProvision(catalog, s, before);
      var (h, now) := hooks[|hooks| - 1];
      var r := Run(catalog, s, before);
      if PlanOf(catalog, r, h).Bill? {
        PlannedUser(catalog, r, h);
      }
      PerformKeepsProvisioned(r, PlanOf(catalog, r, h), h.occurredAt, now);
    }
  }
}
