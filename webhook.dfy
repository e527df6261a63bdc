/**
 * The `POST /stripe` route: acknowledge a verified event, then run the
 * handler its type selects. A handler is a promise chain; the model lists
 * the steps it issues, in order. When a query fails the chain rejects, its
 * `.catch` logs the error, and no later step runs: the trace ends with the
 * failed query and `recovered` is set. Nothing a handler does reaches the
 * caller; only an unknown event type is forwarded as an error.
 */
module Webhook {
  import opened Wrappers
  import opened Events
  import opened Invoice
  import opened UserStore
  import opened Effects

  const TrialWillEndType: string := "customer.subscription.trial_will_end"
  const SourceExpiringType: string := "customer.source.expiring"
  const InvoiceCreatedType: string := "invoice.created"
  const PaymentFailedType: string := "invoice.payment_failed"
  const PaymentSucceededType: string := "invoice.payment_succeeded"

  const AckPrefix: string := "Signed Webhook Received: "
  const UnknownTypePrefix: string := "Unknown event type from Stripe: "

  /** The outcome of the type switch. */
  datatype HandlerResult =
    | Handled(effects: seq<Effect>, recovered: bool)
    | UnknownType(eventType: string)

  /** `ConfirmedError(statusCode, confirmedCode, message)`, or the verifier's rejection. */
  datatype AppError =
    | ConfirmedError(statusCode: int, confirmedCode: int, message: string)
    | SignatureRejected

  /** What one request does: the steps in order, and the error passed to `next`, if any. */
  datatype Outcome = Outcome(trace: seq<Effect>, forwarded: Option<AppError>)

  predicate IsKnownType(t: string)
  {
    t == TrialWillEndType || t == SourceExpiringType || t == InvoiceCreatedType
    || t == PaymentFailedType || t == PaymentSucceededType
  }

  /** `customer.subscription.trial_will_end`: remind the customer unless the subscription is canceled. */
  function TrialWillEnd(obj: EventObject, w: Store): HandlerResult
  {
    if IsSet(obj.canceledAt) then Handled([], false)
    else
      var lookup := LookupByStripeId(obj.customer, "email_encrypted");
      if obj.customer !in w.byStripeId then Handled([lookup], true)
      else Handled([lookup, SendTrialWillEnd(w.byStripeId[obj.customer].email)], false)
  }

  /** `customer.source.expiring`: warn the customer only while they hold an active subscription. */
  function SourceExpiring(obj: EventObject, w: Store): HandlerResult
  {
    var lookup := LookupByStripeId(obj.customer, "id, email, email_encrypted");
    if obj.customer !in w.byStripeId then Handled([lookup], true)
    else
      var user := w.byStripeId[obj.customer];
      var fetch := FetchActiveSubscriptions(user.id);
      if user.id !in w.activeSubscriptions then Handled([lookup, fetch], true)
      else if w.activeSubscriptions[user.id] == 0 then Handled([lookup, fetch], false)
      else Handled([lookup, fetch, SendCardWillExpire(user.email)], false)
  }

  /** `invoice.created`: before payment, ask for one referral discount per active referral. */
  function InvoiceCreated(obj: EventObject, w: Store): HandlerResult
  {
    if obj.paid == true then Handled([], false)
    else match SubscriptionItem(obj.lines)
      case None => Handled([], false)
      case Some(item) =>
        var lookup := LookupByStripeId(obj.customer, "id");
        if obj.customer !in w.byStripeId then Handled([lookup], true)
        else
          var user := w.byStripeId[obj.customer];
          var fetch := FetchActiveReferrals(user.id);
          if user.id !in w.activeReferrals then Handled([lookup, fetch], true)
          else
            var discount := AddReferralDiscounts(obj.customer, item.planId, item.currency,
                                                 w.activeReferrals[user.id]);
            Handled([lookup, fetch, discount], false)
  }

  /** `invoice.payment_failed`: tell the customer. */
  function PaymentFailed(obj: EventObject, w: Store): HandlerResult
  {
    var lookup := LookupByStripeId(obj.customer, "email_encrypted");
    if obj.customer !in w.byStripeId then Handled([lookup], true)
    else Handled([lookup, SendPaymentFailed(w.byStripeId[obj.customer].email)], false)
  }

  /** What the referrer hears about a paid invoice of their referee. */
  function ReferrerNotice(obj: EventObject, item: LineItem, firstPayment: bool,
                          referrer: User, payer: User): seq<Effect>
  {
    if firstPayment then [SendSubscriptionStartedReferrer(referrer.email, payer.email)]
    else if IsTrialCharge(obj, item) then [SendTrialStartedReferrer(referrer.email, payer.email)]
    else []
  }

  /**
   * `invoice.payment_succeeded`: on a first real payment send the payer their
   * referral promo (fire-and-forget); if the payer was referred, look up the
   * referrer and tell them the referee's subscription or trial has started.
   */
  function PaymentSucceeded(obj: EventObject, w: Store): HandlerResult
  {
    match SubscriptionItem(obj.lines)
    case None => Handled([], false)
    case Some(item) =>
      var lookup := LookupByStripeId(obj.customer, "id, referred_by, email_encrypted, referral_code");
      if obj.customer !in w.byStripeId then Handled([lookup], true)
      else
        var payer := w.byStripeId[obj.customer];
        match IsFirstPayment(obj, item)
        case None => Handled([lookup], true)
        case Some(first) =>
          var promo := if first then [SendReferralPromo(payer.email, payer.referralCode)] else [];
          if !IsSet(payer.referredBy) then Handled([lookup] + promo, false)
          else
            var referrerLookup := LookupById(payer.referredBy.value, "id, stripe_id, email_encrypted");
            if payer.referredBy.value !in w.byId then Handled([lookup] + promo + [referrerLookup], true)
            else
              var referrer := w.byId[payer.referredBy.value];
              Handled([lookup] + promo + [referrerLookup]
                      + ReferrerNotice(obj, item, first, referrer, payer), false)
  }

  /** The `switch (event.type)` of the route. */
  function Dispatch(e: Event, w: Store): HandlerResult
  {
    var t := e.eventType;
    if t == TrialWillEndType then TrialWillEnd(e.data, w)
    else if t == SourceExpiringType then SourceExpiring(e.data, w)
    else if t == InvoiceCreatedType then InvoiceCreated(e.data, w)
    else if t == PaymentFailedType then PaymentFailed(e.data, w)
    else if t == PaymentSucceededType then PaymentSucceeded(e.data, w)
    else UnknownType(t)
  }

  /**
   * The route end to end: verify the signature (an invalid one goes to `next`
   * before anything is sent), acknowledge with 200, then dispatch. An unknown
   * type is forwarded to `next` after the acknowledgment.
   */
  function HandleRequest(verify: Verifier, rawBody: string, signature: Option<string>,
                         secret: string, w: Store): Outcome
  {
    match verify(rawBody, signature, secret)
    case InvalidSignature => Outcome([], Some(SignatureRejected))
    case Verified(e) =>
      var ack := Ack(200, AckPrefix + e.id);
      match Dispatch(e, w)
      case Handled(effects, _) => Outcome([ack] + effects, None)
      case UnknownType(t) => Outcome([ack], Some(ConfirmedError(500, 1, UnknownTypePrefix + t)))
  }
}
