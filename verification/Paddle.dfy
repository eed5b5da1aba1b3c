/**
 Paddle webhooks mapped onto billing events. Signature checks and JSON decoding come before this model;
 the offer that the items of a webhook point at is part of the decoded data. Times are in microseconds.
 */
module Paddle {
  import opened Common
  import opened Billing

  const PADDLE := "paddle"
  const SCHEMA := "dota-ai-billing-v1"
  const DAY := 86_400_000_000
  const BLOCKED := "blocked:"

  datatype Offer = Offer(priceRef: string, recurring: bool, grantDays: Option<int>)

  /** A checkout that the server created for an authenticated user. */
  datatype Checkout = Checkout(
    user: int, customer: Option<string>, offerKey: string, plan: string, offer: Offer, completedAt: Option<int>)

  /** The configured offer that the item list of a webhook points at. */
  datatype Priced = NoOffer | SeveralOffers | OneOffer(key: string, recurring: bool)

  datatype Period = NoPeriod | BadPeriod | EndsAt(at: int)

  datatype Custom = Custom(marker: string, user: int, offerKey: string, plan: string)

  datatype Data = Data(
    id: Option<string>, status: Option<string>, customerId: Option<string>, subscriptionId: Option<string>,
    transactionId: Option<string>, adjustment: Option<string>, action: Option<string>, period: Period,
    priced: Priced, custom: Option<Custom>)

  datatype Hook = Hook(ref: string, kind: string, occurredAt: int, data: Data)

  datatype State = State(store: Store, checkouts: map<string, Checkout>)

  datatype Answer = Ignored | WebhookError | Handled(outcome: Outcome)

  /** What a webhook asks for: nothing, an error, or one billing event and perhaps a completed checkout. */
  datatype Plan = Ignore | Refuse | Bill(raw: Raw, checkout: Option<string>)

  // ---- Specification -------------------------------------------------------------------

  /** A non-blank string, stripped. */
  function Text(o: Option<string>): (r: Option<string>)
    ensures r.Some? ==> r.value != ""
  {
    if o.Some? && Strip(o.value) != "" then Some(Strip(o.value)) else None
  }

  function TextOr(o: Option<string>, d: string): string {
    if Text(o).Some? then Text(o).value else d
  }

  function LowerText(o: Option<string>): string {
    Lower(TextOr(o, ""))
  }

  predicate IsPaymentBlocked(status: Option<string>) {
    status.Some? && BLOCKED <= status.value
  }

  /** The checkout refers to a configured offer, and price and metadata of the webhook agree with it. */
  predicate Validated(catalog: map<string, Offer>, c: Checkout, d: Data) {
    && c.offerKey in catalog && catalog[c.offerKey] == c.offer && c.plan == PRO
    && d.priced.OneOffer? && d.priced.key == c.offerKey
    && d.custom == Some(Custom(SCHEMA, c.user, c.offerKey, c.plan))
  }

  predicate IsSubscriptionKind(kind: string) {
    kind in {"subscription.created", "subscription.activated", "subscription.trialing", "subscription.resumed",
             "subscription.updated", "subscription.past_due", "subscription.paused", "subscription.canceled"}
  }

  function PlanTransaction(catalog: map<string, Offer>, s: State, h: Hook): Plan {
    var d, id, subscription := h.data, Text(h.data.id), Text(h.data.subscriptionId);
    if id.None? then Refuse
    else if id.value !in s.checkouts then Ignore
    else
      var c := s.checkouts[id.value];
      var customer := Text(d.customerId);
      if !Validated(catalog, c, d) then Refuse
      else if customer.Some? && c.customer.Some? && c.customer != customer then Refuse
      else if c.offer.recurring && (subscription.None? || d.period.BadPeriod?) then Refuse
      else if !c.offer.recurring && (c.offer.grantDays.None? || c.offer.grantDays.value < 1) then Refuse
      else
        Bill(Raw(PADDLE, h.ref, Some(h.occurredAt), c.user,
                 if c.offer.recurring then subscription.value else id.value, c.plan, "ACTIVE",
                 if customer.Some? then customer else c.customer, Some(TextOr(d.status, h.kind)),
                 Some(if !c.offer.recurring then h.occurredAt + c.offer.grantDays.value * DAY
                      else if d.period.EndsAt? then d.period.at else h.occurredAt + 32 * DAY)),
             Some(id.value))
  }

  /** The access an event type and a status stand for; none if neither tells. */
  function AccessOf(kind: string, status: string): Option<Access> {
    if kind in {"subscription.activated", "subscription.resumed", "subscription.trialing"} then Some(ACTIVE)
    else if kind in {"subscription.past_due", "subscription.paused", "subscription.canceled"} then Some(INACTIVE)
    else if status in {"active", "trialing"} then Some(ACTIVE)
    else if status in {"past_due", "paused", "canceled"} then Some(INACTIVE)
    else None
  }

  /** The billing event of a subscription webhook, once it is known whose subscription it is. */
  function SubscriptionRaw(
    h: Hook, subscription: string, user: int, plan: string, customer: Option<string>, blocked: Option<string>)
    : Option<Raw>
  {
    var d, status := h.data, LowerText(h.data.status);
    var access := AccessOf(h.kind, status);
    if access.None? || d.period.BadPeriod? then None
    else
      var active := access.value == ACTIVE && blocked.None?;
      Some(Raw(PADDLE, h.ref, Some(h.occurredAt), user, subscription, plan, if active then "ACTIVE" else "INACTIVE",
               customer, if blocked.Some? then blocked else Some(if status != "" then status else h.kind),
               if d.period.EndsAt? then Some(d.period.at) else if active then Some(h.occurredAt + 32 * DAY) else None))
  }

  function BillIf(raw: Option<Raw>, checkout: Option<string>): Plan {
    if raw.Some? then Bill(raw.value, checkout) else Refuse
  }

  function PlanSubscription(catalog: map<string, Offer>, s: State, h: Hook): Plan {
    var d, id := h.data, Text(h.data.id);
    if id.None? then Refuse
    else
      var k := SubKey(PADDLE, id.value);
      if k in s.store.subscriptions then
        var record := s.store.subscriptions[k];
        if !d.priced.OneOffer? || !d.priced.recurring then Refuse
        else
          var customer := if Text(d.customerId).Some? then Text(d.customerId) else record.customer;
          BillIf(SubscriptionRaw(h, id.value, record.user, record.plan, customer,
                                 if IsPaymentBlocked(record.status) then record.status else None), None)
      else if h.kind == "subscription.created" && Text(d.transactionId).Some? && Text(d.transactionId).value in s.checkouts then
        var ref := Text(d.transactionId).value;
        var c := s.checkouts[ref];
        if !Validated(catalog, c, d) || !c.offer.recurring then Refuse
        else
          var customer := if Text(d.customerId).Some? then Text(d.customerId) else c.customer;
          BillIf(SubscriptionRaw(h, id.value, c.user, c.plan, customer, None), Some(ref))
      else Ignore
  }

  predicate IsFullRefund(d: Data) {
    && LowerText(d.status) == "approved" && LowerText(d.adjustment) == "full"
    && LowerText(d.action) in {"refund", "chargeback", "chargeback_warning"}
  }

  function PlanAdjustment(s: State, h: Hook): Plan {
    var d := h.data;
    var ref := if Text(d.subscriptionId).Some? then Text(d.subscriptionId) else Text(d.transactionId);
    if !IsFullRefund(d) then Ignore
    else if ref.None? then Refuse
    else if SubKey(PADDLE, ref.value) !in s.store.subscriptions then Ignore
    else
      var record := s.store.subscriptions[SubKey(PADDLE, ref.value)];
      var customer := if Text(d.customerId).Some? then Text(d.customerId) else record.customer;
      Bill(Raw(PADDLE, h.ref, Some(h.occurredAt), record.user, ref.value, record.plan, "INACTIVE", customer,
               Some(BLOCKED + LowerText(d.action) + ":approved"), record.periodEnd), None)
  }

  function PlanOf(catalog: map<string, Offer>, s: State, h: Hook): Plan {
    if h.kind == "transaction.completed" then PlanTransaction(catalog, s, h)
    else if IsSubscriptionKind(h.kind) then PlanSubscription(catalog, s, h)
    else if h.kind == "adjustment.created" || h.kind == "adjustment.updated" then PlanAdjustment(s, h)
    else Ignore
  }

  function Completed(checkouts: map<string, Checkout>, ref: Option<string>, at: int): map<string, Checkout> {
    if ref.Some? && ref.value in checkouts then checkouts[ref.value := checkouts[ref.value].(completedAt := Some(at))]
    else checkouts
  }

  /** Billing happens first; an error there leaves the checkout as it was. */
  function Perform(s: State, p: Plan, at: int, now: int): (State, Answer) {
    match p
    case Ignore => (s, Ignored)
    case Refuse => (s, WebhookError)
    case Bill(raw, checkout) =>
      var (store, outcome) := ApplyRaw(s.store, raw, now);
      (State(store, if outcome.Result? then Completed(s.checkouts, checkout, at) else s.checkouts), Handled(outcome))
  }

  function Process(catalog: map<string, Offer>, s: State, h: Hook, now: int): (State, Answer) {
    Perform(s, PlanOf(catalog, s, h), h.occurredAt, now)
  }

  // ---- The service ---------------------------------------------------------------------

  class PaddleBillingService {
    const catalog: map<string, Offer>
    const billing: BillingEntitlementService
    var checkouts: map<string, Checkout>

    function Contents(): State
      reads this, billing
    {
      State(billing.Contents(), checkouts)
    }

    constructor (offers: map<string, Offer>, service: BillingEntitlementService, known: map<string, Checkout>)
      ensures catalog == offers && billing == service && Contents() == State(service.Contents(), known)
    {
      catalog, billing, checkouts := offers, service, known;
    }

    /** One billing call in its own transaction, then the checkout is marked in another. */
    method Execute(p: Plan, at: int, now: int) returns (r: Answer)
      modifies this`checkouts, billing
      ensures (Contents(), r) == Perform(old(Contents()), p, at, now)
    {
      match p {
        case Ignore =>
          return Ignored;
        case Refuse =>
          return WebhookError;
        case Bill(raw, checkout) =>
          var outcome := billing.ApplySubscriptionEvent(raw, now);
          if outcome.Result? && checkout.Some? && checkout.value in checkouts {
            checkouts := checkouts[checkout.value := checkouts[checkout.value].(completedAt := Some(at))];
          }
          return Handled(outcome);
      }
    }

    method ProcessWebhook(h: Hook, now: int) returns (r: Answer)
      modifies this`checkouts, billing
      ensures (Contents(), r) == Process(catalog, old(Contents()), h, now)
    {
      var plan := PlanOf(catalog, Contents(), h);
      r := Execute(plan, h.occurredAt, now);
    }
  }
}
