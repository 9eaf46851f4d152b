/**
 * The payment webhook (`POST /api/payments/webhook`): on an approved payment
 * it recovers the user and plan from the external reference and upserts that
 * user's subscription, so that a user has at most one subscription.
 */
module Subscriptions {
  import opened Wrappers
  import opened Text
  import opened Plans
  import opened Payments

  /** One day in milliseconds. */
  const DAY_MS: nat := 24 * 60 * 60 * 1000

  datatype Subscription = Subscription(
    userId: string, planId: string, planName: string, status: string,
    currentPeriodStart: int, currentPeriodEnd: int,
    cancelAtPeriodEnd: bool, amount: int, mpPaymentId: string)

  /** The subscription table, keyed by its unique `userId` column. */
  type Store = map<string, Subscription>

  /** Each subscription is filed under its own user: one subscription per user. */
  predicate KeyedByUser(subs: Store)
  {
    forall u :: u in subs ==> subs[u].userId == u
  }

  /** Length of a paid period: 365 days for "annual", 30 days for anything else. */
  function PeriodDays(planType: string): nat
  {
    if planType == "annual" then 365 else 30
  }

  /** The end of a period started at `start`, in milliseconds. */
  function PeriodEnd(start: int, planType: string): int
  {
    start + PeriodDays(planType) * DAY_MS
  }

  /** Per catalog plan: a year for the annual plan, 30 days for monthly and premium. */
  lemma PlanPeriod(p: PlanType, start: int)
    ensures PeriodEnd(start, Key(p)) - start == (if p == Annual then 365 else 30) * DAY_MS
    ensures p == Annual ==> PeriodEnd(start, Key(p)) - start == 31536000000
    ensures p != Annual ==> PeriodEnd(start, Key(p)) - start == 2592000000
  {
  }

  /**
   * `prisma.subscription.upsert` keyed by `userId`: the update branch keeps the
   * existing `cancelAtPeriodEnd`, the create branch sets it to false.
   */
  function Upsert(subs: Store, userId: string, planType: string, now: int, paymentId: string, amount: int): (r: Store)
    ensures KeyedByUser(subs) ==> KeyedByUser(r)
    ensures r.Keys == subs.Keys + {userId}
    ensures forall u :: u in subs && u != userId ==> r[u] == subs[u]
    ensures r[userId].userId == userId && r[userId].status == "active"
    ensures r[userId].planId == planType && r[userId].planName == "Plano " + planType
    ensures r[userId].mpPaymentId == paymentId && r[userId].amount == amount
    ensures r[userId].currentPeriodStart == now
    ensures r[userId].currentPeriodEnd - r[userId].currentPeriodStart == PeriodDays(planType) * DAY_MS
    ensures r[userId].cancelAtPeriodEnd == (userId in subs && subs[userId].cancelAtPeriodEnd)
  {
    var record := Subscription(userId, planType, "Plano " + planType, "active",
                               now, PeriodEnd(now, planType), false, amount, paymentId);
    if userId in subs then subs[userId := record.(cancelAtPeriodEnd := subs[userId].cancelAtPeriodEnd)]
    else subs[userId := record]
  }

  /** After an upsert exactly one subscription belongs to the user, whether it was created or replaced. */
  lemma UpsertLeavesOne(subs: Store, userId: string, planType: string, now: int, paymentId: string, amount: int)
    requires KeyedByUser(subs)
    ensures var r := Upsert(subs, userId, planType, now, paymentId, amount);
            (set u | u in r && r[u].userId == userId) == {userId}
    ensures |Upsert(subs, userId, planType, now, paymentId, amount)| == if userId in subs then |subs| else |subs| + 1
  {
  }

  datatype Notification = Notification(kind: string, dataId: Option<string>)

  /** What the gateway reports for a payment (`payment.get`). */
  datatype PaymentInfo = PaymentInfo(status: string, externalReference: Option<string>, transactionAmount: int)

  /** 200 `{received: true}` or 500. */
  datatype WebhookOutcome = Acknowledged | Failed

  datatype Delivery = Delivery(outcome: WebhookOutcome, store: Store)

  /** The notification is about a payment that the gateway reports approved. */
  predicate Approved(n: Notification, configured: bool, fetched: Option<PaymentInfo>)
  {
    n.kind == "payment" && configured && n.dataId.Some? && fetched.Some? && fetched.value.status == "approved"
  }

  /**
   * The webhook. `configured` is whether the gateway client exists, `fetched`
   * the gateway's answer for `n.dataId` (None when that call fails) and `now`
   * the clock, read once.
   */
  function Webhook(subs: Store, n: Notification, configured: bool, fetched: Option<PaymentInfo>, now: int): (d: Delivery)
    ensures d.store != subs ==> Approved(n, configured, fetched)
    ensures d.outcome.Failed? ==> d.store == subs
    ensures !(n.kind == "payment" && configured) ==> d == Delivery(Acknowledged, subs)
    ensures n.kind == "payment" && configured && (n.dataId.None? || fetched.None?) ==> d == Delivery(Failed, subs)
    ensures n.kind == "payment" && configured && n.dataId.Some? && fetched.Some? && fetched.value.status != "approved" ==>
              d == Delivery(Acknowledged, subs)
    ensures Approved(n, configured, fetched) ==>
              (d.outcome.Acknowledged? <==>
                 fetched.value.externalReference.Some? && ParseReference(fetched.value.externalReference.value).Some?)
    ensures Approved(n, configured, fetched) && d.outcome.Acknowledged? ==>
              && fetched.value.externalReference.Some?
              && ParseReference(fetched.value.externalReference.value).Some?
              && var (userId, planType) := ParseReference(fetched.value.externalReference.value).value;
                 d.store == Upsert(subs, userId, planType, now, n.dataId.value, fetched.value.transactionAmount)
    ensures KeyedByUser(subs) ==> KeyedByUser(d.store)
  {
    if !(n.kind == "payment" && configured) then Delivery(Acknowledged, subs)
    else if n.dataId.None? || fetched.None? then Delivery(Failed, subs)
    else if fetched.value.status != "approved" then Delivery(Acknowledged, subs)
    else if fetched.value.externalReference.None? then Delivery(Failed, subs)
    else match ParseReference(fetched.value.externalReference.value)
      case None => Delivery(Failed, subs)
      case Some((userId, planType)) =>
        Delivery(Acknowledged, Upsert(subs, userId, planType, now, n.dataId.value, fetched.value.transactionAmount))
  }

  /** A notification the gateway delivers again at the same instant changes nothing more. */
  lemma WebhookReplay(subs: Store, n: Notification, configured: bool, fetched: Option<PaymentInfo>, now: int)
    ensures Webhook(Webhook(subs, n, configured, fetched, now).store, n, configured, fetched, now)
              == Webhook(subs, n, configured, fetched, now)
  {
  }

  /**
   * An approved payment whose reference one of the payment handlers built,
   * for a user id without `_`, is acknowledged and leaves exactly one active
   * subscription for that user, on the plan asked for, starting now and
   * lasting that plan's period.
   */
  lemma ApprovedPaymentSubscribes(subs: Store, n: Notification, fetched: Option<PaymentInfo>, now: int,
                                  userId: string, p: PlanType, ts: nat, pix: bool)
    requires KeyedByUser(subs) && '_' !in userId
    requires n.kind == "payment" && n.dataId.Some?
    requires fetched.Some? && fetched.value.status == "approved"
    requires fetched.value.externalReference ==
               Some(if pix then PixExternalReference(userId, Key(p), ts) else ExternalReference(userId, Key(p), ts))
    ensures var d := Webhook(subs, n, true, fetched, now);
            && d.outcome == Acknowledged
            && (set u | u in d.store && d.store[u].userId == userId) == {userId}
            && d.store[userId].status == "active" && d.store[userId].planId == Key(p)
            && d.store[userId].currentPeriodStart == now
            && d.store[userId].currentPeriodEnd - now == (if p == Annual then 365 else 30) * DAY_MS
  {
    ReferenceRoundTrip(userId, p, ts);
    UpsertLeavesOne(subs, userId, Key(p), now, n.dataId.value, fetched.value.transactionAmount);
    PlanPeriod(p, now);
  }

  /** The reference "U_monthly_123" names user "U" and plan "monthly". */
  lemma ExampleReferenceParses()
    ensures ParseReference("U_monthly_123") == Some(("U", "monthly"))
  {
    assert "U_monthly_123" == "U" + ['_'] + ("monthly" + ['_'] + "123");
    SplitAfterPiece("U", '_', "monthly" + ['_'] + "123");
    SplitAfterPiece("monthly", '_', "123");
  }

  /** An approved payment with reference "U_monthly_123" gives U one active 30-day subscription. */
  lemma MonthlyExample(subs: Store, paymentId: string, amount: int, now: int)
    requires KeyedByUser(subs)
    ensures var d := Webhook(subs, Notification("payment", Some(paymentId)), true,
                             Some(PaymentInfo("approved", Some("U_monthly_123"), amount)), now);
            && d.outcome == Acknowledged
            && "U" in d.store && d.store["U"].status == "active" && d.store["U"].planId == "monthly"
            && d.store["U"].currentPeriodEnd == now + 30 * DAY_MS
            && (set u | u in d.store && d.store[u].userId == "U") == {"U"}
  {
    ExampleReferenceParses();
    var r := Upsert(subs, "U", "monthly", now, paymentId, amount);
    UpsertLeavesOne(subs, "U", "monthly", now, paymentId, amount);
    assert Webhook(subs, Notification("payment", Some(paymentId)), true,
                   Some(PaymentInfo("approved", Some("U_monthly_123"), amount)), now) == Delivery(Acknowledged, r);
  }

  /** The subscription table, updated in place by the webhook. */
  class SubscriptionStore {
    var subscriptions: Store

    ghost predicate Valid()
      reads this
    {
      KeyedByUser(subscriptions)
    }

    constructor ()
      ensures Valid() && subscriptions == map[]
    {
      subscriptions := map[];
    }

    /** Handles one webhook delivery and answers 200 (Acknowledged) or 500 (Failed). */
    method HandleWebhook(n: Notification, configured: bool, fetched: Option<PaymentInfo>, now: int)
      returns (outcome: WebhookOutcome)
      requires Valid()
      modifies this
      ensures Valid()
      ensures Delivery(outcome, subscriptions) == Webhook(old(subscriptions), n, configured, fetched, now)
    {
      if n.kind != "payment" || !configured {
        return Acknowledged;
      }
      if n.dataId.None? || fetched.None? {
        return Failed;
      }
      var info := fetched.value;
      if info.status != "approved" {
        return Acknowledged;
      }
      if info.externalReference.None? {
        return Failed;
      }
      var parsed := ParseReference(info.externalReference.value);
      if parsed.None? {
        return Failed;
      }
      var (userId, planType) := parsed.value;
      subscriptions := Upsert(subscriptions, userId, planType, now, n.dataId.value, info.transactionAmount);
      outcome := Acknowledged;
    }
  }
}
