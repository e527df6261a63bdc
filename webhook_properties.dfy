/** What the route promises, stated over the model in module Webhook. */
module WebhookProperties {
  import opened Wrappers
  import opened Events
  import opened Invoice
  import opened UserStore
  import opened Effects
  import opened Webhook

  /** Steps of a trace that notify a referrer. */
  predicate IsReferrerNotice(eff: Effect)
  {
    eff.SendSubscriptionStartedReferrer? || eff.SendTrialStartedReferrer?
  }

  // ---------------------------------------------------------------- grounding

  lemma TrialWillEndGrounded(obj: EventObject, w: Store)
    ensures TrialWillEnd(obj, w).Handled?
    ensures Grounded(TrialWillEnd(obj, w).effects, w)
  {
    var t := TrialWillEnd(obj, w).effects;
    if |t| == 2 {
      assert Resolve(t[0], w).Some?;
      assert EmailSeen(t, 1, w, t[1].email);
    }
  }

  lemma SourceExpiringGrounded(obj: EventObject, w: Store)
    ensures SourceExpiring(obj, w).Handled?
    ensures Grounded(SourceExpiring(obj, w).effects, w)
  {
    var t := SourceExpiring(obj, w).effects;
    if |t| >= 2 {
      assert Resolve(t[0], w).Some?;
      assert IdSeen(t, 1, w, t[1].userId);
    }
    if |t| == 3 {
      assert EmailSeen(t, 2, w, t[2].email);
      assert t[1].FetchActiveSubscriptions?;
    }
  }

  lemma InvoiceCreatedGrounded(obj: EventObject, w: Store)
    ensures InvoiceCreated(obj, w).Handled?
    ensures Grounded(InvoiceCreated(obj, w).effects, w)
  {
    var t := InvoiceCreated(obj, w).effects;
    if |t| >= 2 {
      assert Resolve(t[0], w).Some?;
      assert IdSeen(t, 1, w, t[1].userId);
    }
    if |t| == 3 {
      assert t[1].FetchActiveReferrals?;
    }
  }

  lemma PaymentFailedGrounded(obj: EventObject, w: Store)
    ensures PaymentFailed(obj, w).Handled?
    ensures Grounded(PaymentFailed(obj, w).effects, w)
  {
    var t := PaymentFailed(obj, w).effects;
    if |t| == 2 {
      assert Resolve(t[0], w).Some?;
      assert EmailSeen(t, 1, w, t[1].email);
    }
  }

  lemma PaymentSucceededGrounded(obj: EventObject, w: Store)
    ensures PaymentSucceeded(obj, w).Handled?
    ensures Grounded(PaymentSucceeded(obj, w).effects, w)
  {
    var t := PaymentSucceeded(obj, w).effects;
    var item := SubscriptionItem(obj.lines);
    if item.Some? && obj.customer in w.byStripeId && IsFirstPayment(obj, item.value).Some? {
      var payer := w.byStripeId[obj.customer];
      var first := IsFirstPayment(obj, item.value).value;
      assert Resolve(t[0], w) == Some(payer);
      var p := if first then 1 else 0;
      if first {
        assert t[1] == SendReferralPromo(payer.email, payer.referralCode);
        assert JustifiedAt(t, 1, w);
      }
      if IsSet(payer.referredBy) {
        assert t[1 + p] == LookupById(payer.referredBy.value, "id, stripe_id, email_encrypted");
        assert ReferrerSeen(t, 1 + p, w, payer.referredBy.value);
        if payer.referredBy.value in w.byId && |t| == 3 + p {
          var referrer := w.byId[payer.referredBy.value];
          assert Resolve(t[1 + p], w) == Some(referrer);
          assert EmailSeen(t, 2 + p, w, referrer.email);
          assert EmailSeen(t, 2 + p, w, payer.email);
          assert JustifiedAt(t, 2 + p, w);
        }
      }
    }
  }

  /**
   * The roles in a referrer notice are pinned: a notice addressed to the payer
   * and naming the referrer is not grounded.
   */
  lemma SwappedReferrerNoticeIsNotGrounded(customer: string, payer: User, referrer: User)
    requires payer.referredBy == Some(referrer.id) && referrer.referredBy.None?
    requires payer.email != referrer.email
    ensures var w := Store(map[customer := payer], map[referrer.id := referrer], map[], map[]);
      !Grounded([LookupByStripeId(customer, "id, referred_by, email_encrypted, referral_code"),
                 LookupById(referrer.id, "id, stripe_id, email_encrypted"),
                 SendSubscriptionStartedReferrer(payer.email, referrer.email)], w)
  {
    var w := Store(map[customer := payer], map[referrer.id := referrer], map[], map[]);
    var t := [LookupByStripeId(customer, "id, referred_by, email_encrypted, referral_code"),
              LookupById(referrer.id, "id, stripe_id, email_encrypted"),
              SendSubscriptionStartedReferrer(payer.email, referrer.email)];
    assert !JustifiedAt(t, 2, w);
  }

  /**
   * Every handler acts only on what it read from the store, never sends the
   * acknowledgment itself, and names no billing customer but the event's.
   * Only the unknown type fails to dispatch, and it carries the type string.
   */
  lemma DispatchGrounded(e: Event, w: Store)
    ensures Dispatch(e, w).UnknownType? <==> !IsKnownType(e.eventType)
    ensures Dispatch(e, w).UnknownType? ==> Dispatch(e, w).eventType == e.eventType
    ensures Dispatch(e, w).Handled? ==>
      Grounded(Dispatch(e, w).effects, w) && ScopedTo(Dispatch(e, w).effects, e.data.customer)
  {
    var t := e.eventType;
    if t == TrialWillEndType { TrialWillEndGrounded(e.data, w); }
    else if t == SourceExpiringType { SourceExpiringGrounded(e.data, w); }
    else if t == InvoiceCreatedType { InvoiceCreatedGrounded(e.data, w); }
    else if t == PaymentFailedType { PaymentFailedGrounded(e.data, w); }
    else if t == PaymentSucceededType { PaymentSucceededGrounded(e.data, w); }
  }

  // ------------------------------------------------------- acknowledgment

  /**
   * A verified request is acknowledged with 200 and the event id exactly
   * once, as its first step; for a handled type the handler's steps follow
   * the acknowledgment and nothing is forwarded; the only error forwarded
   * afterwards is the unknown-type error, which cannot replace the response
   * already sent.
   */
  lemma AckSentOnceAndFirst(verify: Verifier, rawBody: string, signature: Option<string>,
                                               secret: string, w: Store, e: Event)
    requires verify(rawBody, signature, secret) == Verified(e)
    ensures var o := HandleRequest(verify, rawBody, signature, secret, w);
      |o.trace| >= 1 && o.trace[0] == Ack(200, "Signed Webhook Received: " + e.id)
      && (forall i :: 1 <= i < |o.trace| ==> !o.trace[i].Ack?)
      && (o.forwarded.Some? ==> o.forwarded.value.ConfirmedError?)
    ensures Dispatch(e, w).Handled? ==>
      HandleRequest(verify, rawBody, signature, secret, w)
        == Outcome([Ack(200, "Signed Webhook Received: " + e.id)] + Dispatch(e, w).effects, None)
  {
  }

  /** A request whose signature does not verify gets nothing but the forwarded rejection. */
  lemma InvalidSignatureDoesNothing(verify: Verifier, rawBody: string, signature: Option<string>,
                                    secret: string, w: Store)
    requires verify(rawBody, signature, secret) == InvalidSignature
    ensures HandleRequest(verify, rawBody, signature, secret, w) == Outcome([], Some(SignatureRejected))
  {
  }

  /**
   * An event type outside the five handled ones is acknowledged and then
   * forwarded as a 500 error with code 1 carrying that exact type; a handled
   * type forwards nothing.
   */
  lemma UnknownTypeIsForwardedAfterAck(verify: Verifier, rawBody: string,
                                                          signature: Option<string>, secret: string,
                                                          w: Store, e: Event)
    requires verify(rawBody, signature, secret) == Verified(e)
    ensures var o := HandleRequest(verify, rawBody, signature, secret, w);
      (o.forwarded.Some? <==> !IsKnownType(e.eventType))
      && (!IsKnownType(e.eventType) ==>
            o == Outcome([Ack(200, "Signed Webhook Received: " + e.id)],
                         Some(ConfirmedError(500, 1, "Unknown event type from Stripe: " + e.eventType))))
  {
  }

  // ----------------------------------------------------- failure truncates

  /**
   * Answering fewer queries only cuts the trace short: with a store that
   * knows less, a handler issues a prefix of the steps it would issue
   * otherwise, and when no query failed it issues exactly the same steps.
   */
  lemma FailureTruncates(e: Event, small: Store, big: Store)
    requires SubStore(small, big)
    ensures Dispatch(e, small).Handled? == Dispatch(e, big).Handled?
    ensures Dispatch(e, small).Handled? ==> Dispatch(e, small).effects <= Dispatch(e, big).effects
    ensures Dispatch(e, small).Handled? && !Dispatch(e, small).recovered ==>
      Dispatch(e, small) == Dispatch(e, big)
  {
    var obj := e.data;
    if e.eventType == PaymentSucceededType && SubscriptionItem(obj.lines).Some?
       && obj.customer in small.byStripeId {
      var payer := small.byStripeId[obj.customer];
      assert big.byStripeId[obj.customer] == payer;
      if IsSet(payer.referredBy) && payer.referredBy.value in small.byId {
        assert big.byId[payer.referredBy.value] == small.byId[payer.referredBy.value];
      }
    }
    if e.eventType == SourceExpiringType && obj.customer in small.byStripeId {
      var user := small.byStripeId[obj.customer];
      assert big.byStripeId[obj.customer] == user;
      if user.id in small.activeSubscriptions {
        assert big.activeSubscriptions[user.id] == small.activeSubscriptions[user.id];
      }
    }
    if e.eventType == InvoiceCreatedType && obj.customer in small.byStripeId {
      var user := small.byStripeId[obj.customer];
      assert big.byStripeId[obj.customer] == user;
      if user.id in small.activeReferrals {
        assert big.activeReferrals[user.id] == small.activeReferrals[user.id];
      }
    }
  }

  // ---------------------------------------------------------- per event type

  /**
   * `customer.subscription.trial_will_end`: nothing when the subscription is
   * already canceled; otherwise one lookup by the customer id, followed, when
   * the customer is found, by one trial-ending email to that user.
   */
  lemma TrialWillEndRules(e: Event, w: Store)
    requires e.eventType == "customer.subscription.trial_will_end"
    ensures IsSet(e.data.canceledAt) ==> Dispatch(e, w) == Handled([], false)
    ensures !IsSet(e.data.canceledAt) && e.data.customer in w.byStripeId ==>
      Dispatch(e, w) == Handled([LookupByStripeId(e.data.customer, "email_encrypted"),
                                 SendTrialWillEnd(w.byStripeId[e.data.customer].email)], false)
    ensures !IsSet(e.data.canceledAt) && e.data.customer !in w.byStripeId ==>
      Dispatch(e, w) == Handled([LookupByStripeId(e.data.customer, "email_encrypted")], true)
  {
  }

  /**
   * `customer.source.expiring`: the card warning is sent exactly when the
   * customer's active-subscription count could be read and is not zero.
   */
  lemma SourceExpiringRules(e: Event, w: Store)
    requires e.eventType == "customer.source.expiring"
    ensures Dispatch(e, w).Handled?
    ensures (exists i :: 0 <= i < |Dispatch(e, w).effects| && Dispatch(e, w).effects[i].SendCardWillExpire?)
      <==> (e.data.customer in w.byStripeId
            && w.byStripeId[e.data.customer].id in w.activeSubscriptions
            && w.activeSubscriptions[w.byStripeId[e.data.customer].id] != 0)
    ensures e.data.customer in w.byStripeId
            && w.byStripeId[e.data.customer].id in w.activeSubscriptions
            && w.activeSubscriptions[w.byStripeId[e.data.customer].id] == 0 ==>
      Dispatch(e, w) == Handled([LookupByStripeId(e.data.customer, "id, email, email_encrypted"),
                                 FetchActiveSubscriptions(w.byStripeId[e.data.customer].id)], false)
    ensures e.data.customer in w.byStripeId
            && w.byStripeId[e.data.customer].id in w.activeSubscriptions
            && w.activeSubscriptions[w.byStripeId[e.data.customer].id] != 0 ==>
      Dispatch(e, w) == Handled([LookupByStripeId(e.data.customer, "id, email, email_encrypted"),
                                 FetchActiveSubscriptions(w.byStripeId[e.data.customer].id),
                                 SendCardWillExpire(w.byStripeId[e.data.customer].email)], false)
    ensures e.data.customer !in w.byStripeId ==>
      Dispatch(e, w) == Handled([LookupByStripeId(e.data.customer, "id, email, email_encrypted")], true)
    ensures e.data.customer in w.byStripeId
            && w.byStripeId[e.data.customer].id !in w.activeSubscriptions ==>
      Dispatch(e, w) == Handled([LookupByStripeId(e.data.customer, "id, email, email_encrypted"),
                                 FetchActiveSubscriptions(w.byStripeId[e.data.customer].id)], true)
  {
    var t := Dispatch(e, w).effects;
    if |t| == 3 {
      assert t[2].SendCardWillExpire?;
    }
  }

  /**
   * `invoice.created`: no step at all for a paid invoice or for one without a
   * subscription line; otherwise, once the payer and their active referrals
   * are read, exactly one discount request for the resolved line's plan and
   * currency with those referrals.
   */
  lemma InvoiceCreatedRules(e: Event, w: Store)
    requires e.eventType == "invoice.created"
    ensures e.data.paid ==> Dispatch(e, w) == Handled([], false)
    ensures SubscriptionItem(e.data.lines).None? ==> Dispatch(e, w) == Handled([], false)
    ensures !e.data.paid && SubscriptionItem(e.data.lines).Some? && e.data.customer in w.byStripeId
            && w.byStripeId[e.data.customer].id in w.activeReferrals ==>
      var item := SubscriptionItem(e.data.lines).value;
      var user := w.byStripeId[e.data.customer];
      Dispatch(e, w) == Handled([LookupByStripeId(e.data.customer, "id"),
                                 FetchActiveReferrals(user.id),
                                 AddReferralDiscounts(e.data.customer, item.planId, item.currency,
                                                      w.activeReferrals[user.id])], false)
    ensures !e.data.paid && SubscriptionItem(e.data.lines).Some? && e.data.customer !in w.byStripeId ==>
      Dispatch(e, w) == Handled([LookupByStripeId(e.data.customer, "id")], true)
    ensures !e.data.paid && SubscriptionItem(e.data.lines).Some? && e.data.customer in w.byStripeId
            && w.byStripeId[e.data.customer].id !in w.activeReferrals ==>
      Dispatch(e, w) == Handled([LookupByStripeId(e.data.customer, "id"),
                                 FetchActiveReferrals(w.byStripeId[e.data.customer].id)], true)
  {
  }

  /** `invoice.payment_failed`: one lookup, then one payment-failed email to the customer found. */
  lemma PaymentFailedRules(e: Event, w: Store)
    requires e.eventType == "invoice.payment_failed"
    ensures e.data.customer in w.byStripeId ==>
      Dispatch(e, w) == Handled([LookupByStripeId(e.data.customer, "email_encrypted"),
                                 SendPaymentFailed(w.byStripeId[e.data.customer].email)], false)
    ensures e.data.customer !in w.byStripeId ==>
      Dispatch(e, w) == Handled([LookupByStripeId(e.data.customer, "email_encrypted")], true)
  {
  }

  /** `invoice.payment_succeeded` without a subscription line does nothing. */
  lemma PaymentSucceededNeedsItem(e: Event, w: Store)
    requires e.eventType == "invoice.payment_succeeded"
    requires SubscriptionItem(e.data.lines).None?
    ensures Dispatch(e, w) == Handled([], false)
  {
  }

  /** `invoice.payment_succeeded` whose payer is not found: the failed lookup is the only step. */
  lemma PaymentSucceededPayerNotFound(e: Event, w: Store)
    requires e.eventType == "invoice.payment_succeeded"
    requires SubscriptionItem(e.data.lines).Some?
    requires e.data.customer !in w.byStripeId
    ensures Dispatch(e, w) == Handled([LookupByStripeId(e.data.customer,
                                                        "id, referred_by, email_encrypted, referral_code")], true)
  {
  }

  /**
   * `invoice.payment_succeeded` for a found payer whose first-payment test
   * evaluates: the exact trace. The payer lookup comes first, then the promo
   * on a first payment, then (for a referred payer) the referrer lookup, and
   * then, when the referrer is found, "subscription started" on a first
   * payment, "trial started" on a zero-amount trial charge, and nothing else.
   */
  lemma PaymentSucceededRules(e: Event, w: Store, item: LineItem, first: bool)
    requires e.eventType == "invoice.payment_succeeded"
    requires SubscriptionItem(e.data.lines) == Some(item)
    requires e.data.customer in w.byStripeId
    requires IsFirstPayment(e.data, item) == Some(first)
    ensures var payer := w.byStripeId[e.data.customer];
      var lookup := LookupByStripeId(e.data.customer, "id, referred_by, email_encrypted, referral_code");
      var promo := if first then [SendReferralPromo(payer.email, payer.referralCode)] else [];
      (!IsSet(payer.referredBy) ==> Dispatch(e, w) == Handled([lookup] + promo, false))
      && (IsSet(payer.referredBy) && payer.referredBy.value !in w.byId ==>
            Dispatch(e, w) == Handled([lookup] + promo
                                      + [LookupById(payer.referredBy.value, "id, stripe_id, email_encrypted")], true))
      && (IsSet(payer.referredBy) && payer.referredBy.value in w.byId ==>
            var referrer := w.byId[payer.referredBy.value];
            var notice := if first then [SendSubscriptionStartedReferrer(referrer.email, payer.email)]
                          else if IsTrialCharge(e.data, item) then [SendTrialStartedReferrer(referrer.email, payer.email)]
                          else [];
            Dispatch(e, w) == Handled([lookup] + promo
                                      + [LookupById(payer.referredBy.value, "id, stripe_id, email_encrypted")]
                                      + notice, false))
  {
  }

  /**
   * Once the payer is found, the referral promo with the payer's own code is
   * sent exactly when the invoice is a first payment, referred or not; when
   * the first-payment test throws, nothing follows the lookup.
   */
  lemma PromoExactlyOnFirstPayment(e: Event, w: Store, item: LineItem)
    requires e.eventType == "invoice.payment_succeeded"
    requires SubscriptionItem(e.data.lines) == Some(item)
    requires e.data.customer in w.byStripeId
    ensures var payer := w.byStripeId[e.data.customer];
      SendReferralPromo(payer.email, payer.referralCode) in Dispatch(e, w).effects
      <==> IsFirstPayment(e.data, item) == Some(true)
    ensures IsFirstPayment(e.data, item) == None ==>
      Dispatch(e, w) == Handled([LookupByStripeId(e.data.customer,
                                                  "id, referred_by, email_encrypted, referral_code")], true)
  {
  }

  /**
   * For a referred payer whose referrer is found: the referrer hears that the
   * subscription started exactly on a first payment, that the trial started
   * exactly on a zero-amount trial charge that is not a first payment, and
   * nothing otherwise.
   */
  lemma ReferrerNotifiedOnce(e: Event, w: Store, item: LineItem, first: bool)
    requires e.eventType == "invoice.payment_succeeded"
    requires SubscriptionItem(e.data.lines) == Some(item)
    requires e.data.customer in w.byStripeId
    requires IsFirstPayment(e.data, item) == Some(first)
    requires IsSet(w.byStripeId[e.data.customer].referredBy)
    requires w.byStripeId[e.data.customer].referredBy.value in w.byId
    ensures var payer := w.byStripeId[e.data.customer];
      var referrer := w.byId[payer.referredBy.value];
      (SendSubscriptionStartedReferrer(referrer.email, payer.email) in Dispatch(e, w).effects <==> first)
      && (SendTrialStartedReferrer(referrer.email, payer.email) in Dispatch(e, w).effects
          <==> !first && IsTrialCharge(e.data, item))
  {
  }

  /** A payer nobody referred causes no referrer lookup and no referrer notice. */
  lemma UnreferredPayerNotifiesNoReferrer(e: Event, w: Store)
    requires e.eventType == "invoice.payment_succeeded"
    requires e.data.customer in w.byStripeId
    requires !IsSet(w.byStripeId[e.data.customer].referredBy)
    ensures forall i :: 0 <= i < |Dispatch(e, w).effects| ==>
      !Dispatch(e, w).effects[i].LookupById? && !IsReferrerNotice(Dispatch(e, w).effects[i])
  {
  }

  /** No event ever makes the handler send both referrer notices, or either one twice. */
  lemma AtMostOneReferrerNotice(e: Event, w: Store)
    ensures Dispatch(e, w).Handled? ==>
      forall i, j :: 0 <= i < j < |Dispatch(e, w).effects| ==>
        !(IsReferrerNotice(Dispatch(e, w).effects[i]) && IsReferrerNotice(Dispatch(e, w).effects[j]))
  {
    if e.eventType == PaymentSucceededType && Dispatch(e, w).Handled? {
      var t := Dispatch(e, w).effects;
      var obj := e.data;
      var item := SubscriptionItem(obj.lines);
      if item.Some? && obj.customer in w.byStripeId && IsFirstPayment(obj, item.value).Some? {
        var payer := w.byStripeId[obj.customer];
        var first := IsFirstPayment(obj, item.value).value;
        var promo := if first then [SendReferralPromo(payer.email, payer.referralCode)] else [];
        if IsSet(payer.referredBy) && payer.referredBy.value in w.byId {
          var referrer := w.byId[payer.referredBy.value];
          var head := [t[0]] + promo + [LookupById(payer.referredBy.value, "id, stripe_id, email_encrypted")];
          var notice := ReferrerNotice(obj, item.value, first, referrer, payer);
          assert t == head + notice;
          assert forall k :: 0 <= k < |head| ==> !IsReferrerNotice(head[k]);
          assert |notice| <= 1;
        } else {
          assert forall k :: 0 <= k < |t| ==> !IsReferrerNotice(t[k]);
        }
      }
    }
  }

  /** The first-payment example: promo to the payer and "subscription started" to the referrer. */
  lemma FirstPaymentExample(referrer: User, payer: User)
    requires payer.referredBy == Some(referrer.id) && referrer.id != 0
    ensures var item := LineItem("subscription", "P1", 500, "usd");
      var obj := EventObject("cus_1", None, true, 0, 500, 500, Some("INV-0002"), [item]);
      var w := Store(map["cus_1" := payer], map[referrer.id := referrer], map[], map[]);
      Dispatch(Event("evt_1", "invoice.payment_succeeded", obj), w).effects ==
        [LookupByStripeId("cus_1", "id, referred_by, email_encrypted, referral_code"),
         SendReferralPromo(payer.email, payer.referralCode),
         LookupById(referrer.id, "id, stripe_id, email_encrypted"),
         SendSubscriptionStartedReferrer(referrer.email, payer.email)]
  {
  }
}
