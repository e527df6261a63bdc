# Billing-provider webhook: event-dispatch model

This project models the `POST /stripe` route of a webhook receiver
(`code/controllers/webhook-controller.js`). The route checks the signature of
an incoming billing event, acknowledges it with `200 "Signed Webhook Received:
<event id>"`, and then runs the handler chosen by `event.type`. The handlers
look up user records, send transactional emails and ask the billing provider
to apply referral discounts.

Modules, one per part of the route:

- `Wrappers`: `Option`, which stands for JavaScript's `null`.
- `Strings`: `EndsWith`, JavaScript's `String.prototype.endsWith`.
- `Events`: the verified event (`id`, `type`, the fields of `data.object`
  that the handlers read). It also holds the signature verifier as a function type
  and `IsSet`, JavaScript truthiness of a nullable number.
- `Invoice`: the line-item resolver `getSubscriptionItemFromInvoice`. It is a
  method with the source's loop and `break`, proved equal to the recursive
  specification `FirstSubscriptionIndex` / `SubscriptionItem`. The module also
  holds the first-payment test and the trial-charge test.
- `UserStore`: the user store as four maps (by billing customer id, by user
  id, active-subscription counts, active referrals). A missing key is a query
  that fails.
- `Effects`: the steps one request issues, and `Grounded`, an invariant over
  step sequences. Under `Grounded`:
  - every email goes to an address read from the store;
  - every fetch of active subscriptions or referrals concerns a user already
    obtained;
  - the referrer lookup uses an obtained user's referred-by id;
  - the card warning goes to a user whose active-subscription count was read
    and is non-zero;
  - the referral promo carries the address and code of the user found by
    billing customer id;
  - a referrer notice goes to the user found by the referee's referred-by id,
    and names that referee;
  - the discount request carries the referrals fetched.

  Lookups by billing customer id need no earlier step. `ScopedTo` says they
  name the event's customer.
- `Webhook`: the five handlers, the type switch `Dispatch`, and
  `HandleRequest`, which runs verify, then acknowledge, then dispatch.
- `WebhookProperties`: the properties of the route.

A handler in the source is a promise chain ending in `.catch` that logs. In
the model, a handler's result is the ordered list of steps it issues. When a
query fails, the chain rejects. The failed query is then the last step and
`recovered` is set. No error leaves a handler. The only error the switch
passes to `next` after the acknowledgment is the unknown-type
`ConfirmedError(500, 1, "Unknown event type from Stripe: <type>")`. A
signature that does not verify is passed to `next` before anything is sent.

Each request is handled by a pure function of the event and the store. So
one request's handling cannot observe another's: no state is shared between
requests.

## Model

| member | source | states |
|---|---|---|
| Invoice.FirstSubscriptionIndex | code/controllers/webhook-controller.js:178-187 | the index is the position of the first line item of type "subscription": every earlier item has another type, and the index is the length of the list when no item matches |
| Invoice.SubscriptionItem | code/controllers/webhook-controller.js:178-187 | the result is null exactly when no line item has type "subscription"; otherwise it is the first such item: every earlier item has another type |
| Invoice.GetSubscriptionItemFromInvoice | code/controllers/webhook-controller.js:178-187 | the loop with `break` returns the first item of type "subscription" (all earlier items differ), or null when there is none; it agrees with `SubscriptionItem` |
| Invoice.ResolverPicksFirstMatch | code/controllers/webhook-controller.js:178-187 | given a discount followed by subscriptions for plans P1 and P2, the resolver returns the P1 item |
| Strings.EndsWithIffSuffix | code/controllers/webhook-controller.js:135 | `s.endsWith(t)` holds exactly when `s` is some string followed by `t` |
| Invoice.FirstPaymentCharacterization | code/controllers/webhook-controller.js:130-136 | the first-payment test holds exactly when amount_remaining <= 0, the subscription item's amount is > 0 and the invoice number ends in "0002"; it throws exactly when the first two hold and the number is null |
| Invoice.FirstPaymentIsNotTrial | code/controllers/webhook-controller.js:144-151 | a first payment is never a zero-amount trial charge |
| WebhookProperties.TrialWillEndGrounded | code/controllers/webhook-controller.js:45-59 | the trial-ending handler emails only the address its lookup returned |
| WebhookProperties.SourceExpiringGrounded | code/controllers/webhook-controller.js:60-79 | the card warning goes to the looked-up user, after a non-zero active-subscription count for a user already obtained |
| WebhookProperties.InvoiceCreatedGrounded | code/controllers/webhook-controller.js:80-107 | the discount request carries exactly the referrals fetched for the looked-up payer |
| WebhookProperties.PaymentFailedGrounded | code/controllers/webhook-controller.js:108-116 | the payment-failed email goes to the address the lookup returned |
| WebhookProperties.PaymentSucceededGrounded | code/controllers/webhook-controller.js:117-166 | the promo carries the address and code of the user found by billing customer id; the referrer is looked up by that user's referred-by id; a referrer notice goes to the user that lookup returned and names the referee whose referred-by id it used |
| WebhookProperties.SwappedReferrerNoticeIsNotGrounded | code/controllers/webhook-controller.js:141-146 | a notice sent to the payer and naming the referrer breaks the invariant, so the roles of the two addresses are fixed |
| WebhookProperties.DispatchGrounded | code/controllers/webhook-controller.js:44-169 | only a type outside the five handled strings fails to dispatch, and the failure carries that type; every handler's steps are grounded in earlier lookups, contain no acknowledgment, and name no billing customer but the event's |
| WebhookProperties.AckSentOnceAndFirst | code/controllers/webhook-controller.js:34-44 | a verified request is acknowledged exactly once with 200 and "Signed Webhook Received: " + id, as its first step; for a handled type the outcome is exactly the acknowledgment followed by the handler's steps, with nothing forwarded; any error forwarded afterwards is the application error, so the 200 stands |
| WebhookProperties.InvalidSignatureDoesNothing | code/controllers/webhook-controller.js:34-39 | a rejected signature sends no acknowledgment, issues no step, and forwards the rejection |
| WebhookProperties.UnknownTypeIsForwardedAfterAck | code/controllers/webhook-controller.js:167-171 | an error is forwarded exactly when the type is not one of the five handled strings; the request is then acknowledged and forwards an error with status 500, code 1 and "Unknown event type from Stripe: " + the exact type |
| WebhookProperties.FailureTruncates | code/controllers/webhook-controller.js:52-166 | with a store that answers fewer queries, a handler issues a prefix of its steps; when no query failed, the steps are the same: a failed step only cuts the rest off and propagates nothing |
| WebhookProperties.TrialWillEndRules | code/controllers/webhook-controller.js:45-59 | canceled_at set: no lookup and no email; otherwise one lookup by the customer id, then, when found, one trial-ending email to that user |
| WebhookProperties.SourceExpiringRules | code/controllers/webhook-controller.js:60-79 | the card warning is sent exactly when the payer's active-subscription count was read and is non-zero; a zero count ends the handler after the count query; a non-zero count gives exactly lookup, count query and one card warning to that user; a customer not found gives just the lookup, and a count that cannot be read gives lookup and count query, both with `recovered` set |
| WebhookProperties.InvoiceCreatedRules | code/controllers/webhook-controller.js:80-107 | a paid invoice, or one with no subscription line, causes no step; otherwise exactly one discount request with the resolved item's plan id and currency and the payer's active referrals; a payer not found gives just the lookup, and referrals that cannot be read give lookup and referral query, both with `recovered` set |
| WebhookProperties.PaymentFailedRules | code/controllers/webhook-controller.js:108-116 | one lookup by the customer id, then one payment-failed email to that user when found |
| WebhookProperties.PaymentSucceededRules | code/controllers/webhook-controller.js:128-162 | for a found payer whose first-payment test evaluates, the exact trace: payer lookup, the promo on a first payment, then for a referred payer the referrer lookup and, when the referrer is found, "subscription started" on a first payment or "trial started" on a trial charge; nothing else |
| WebhookProperties.PaymentSucceededPayerNotFound | code/controllers/webhook-controller.js:128-166 | when the payer is not found, the failed lookup is the only step and `recovered` is set |
| WebhookProperties.PaymentSucceededNeedsItem | code/controllers/webhook-controller.js:117-125 | an invoice with no subscription line causes no step |
| WebhookProperties.PromoExactlyOnFirstPayment | code/controllers/webhook-controller.js:128-138 | for a payer who is found, the referral promo with the payer's own code is sent exactly on a first payment, referred or not; when the first-payment test throws, nothing follows the lookup |
| WebhookProperties.ReferrerNotifiedOnce | code/controllers/webhook-controller.js:139-153 | for a referred payer whose referrer is found: "subscription started" exactly on a first payment; "trial started" exactly on a zero-amount trial charge that is not a first payment |
| WebhookProperties.UnreferredPayerNotifiesNoReferrer | code/controllers/webhook-controller.js:139-162 | a payer with no referred-by value causes no referrer lookup and no referrer notice |
| WebhookProperties.AtMostOneReferrerNotice | code/controllers/webhook-controller.js:144-153 | no event causes two referrer notices (never both kinds) |
| WebhookProperties.FirstPaymentExample | code/controllers/webhook-controller.js:117-153 | amount_remaining 0, item amount 500 and number "INV-0002" with a referred payer: lookup, promo, referrer lookup and "subscription started", in that order |
| Webhook.TrialWillEnd | code/controllers/webhook-controller.js:45-59 | the trial-ending handler; its contract is carried by `TrialWillEndRules` and `TrialWillEndGrounded` |
| Webhook.SourceExpiring | code/controllers/webhook-controller.js:60-79 | the card-expiring handler; its contract is carried by `SourceExpiringRules` and `SourceExpiringGrounded` |
| Webhook.InvoiceCreated | code/controllers/webhook-controller.js:80-107 | the invoice-created handler; its contract is carried by `InvoiceCreatedRules` and `InvoiceCreatedGrounded` |
| Webhook.PaymentFailed | code/controllers/webhook-controller.js:108-116 | the payment-failed handler; its contract is carried by `PaymentFailedRules` and `PaymentFailedGrounded` |
| Webhook.PaymentSucceeded | code/controllers/webhook-controller.js:117-166 | the payment-succeeded handler; its contract is carried by `PaymentSucceededNeedsItem`, `PaymentSucceededPayerNotFound`, `PaymentSucceededRules`, `PromoExactlyOnFirstPayment`, `ReferrerNotifiedOnce`, `UnreferredPayerNotifiesNoReferrer` and `PaymentSucceededGrounded` |
| Webhook.ReferrerNotice | code/controllers/webhook-controller.js:144-153 | the referrer's notice chosen by the `if … else if`; its contract is carried by `PaymentSucceededRules`, `ReferrerNotifiedOnce` and `AtMostOneReferrerNotice` |
| Webhook.Dispatch | code/controllers/webhook-controller.js:44-169 | the type switch; its contract is carried by `DispatchGrounded` and `FailureTruncates` |
| Webhook.HandleRequest | code/controllers/webhook-controller.js:32-173 | verify, acknowledge, dispatch; its contract is carried by `AckSentOnceAndFirst`, `InvalidSignatureDoesNothing` and `UnknownTypeIsForwardedAfterAck` |
| Invoice.IsFirstPayment | code/controllers/webhook-controller.js:134-136 | the first-payment test, with its short-circuit order and its TypeError on a null number; its contract is carried by `FirstPaymentCharacterization` |
| Invoice.IsTrialCharge | code/controllers/webhook-controller.js:149 | the zero-amount trial-charge test; its contract is carried by `FirstPaymentIsNotTrial` and `ReferrerNotifiedOnce` |
| Strings.EndsWith | code/controllers/webhook-controller.js:135 | `String.prototype.endsWith`; its contract is carried by `EndsWithIffSuffix` |
| Events.IsSet | code/controllers/webhook-controller.js:47 | JavaScript truthiness of `canceled_at` (and of `referredBy` at line 139): null and 0 are falsy; used by `TrialWillEndRules`, `ReferrerNotifiedOnce` and `UnreferredPayerNotifiesNoReferrer` |

## Left out

- `addRawBody` (lines 18-28): it accumulates the request body from stream events. The model takes the raw body as a string.
- The signature scheme inside `Stripe.stripe.webhooks.constructEvent` (lines 35-39): it is a foreign library. The model takes the verifier as a parameter of type `Verifier`.
- The shared secret read from the process environment (line 12): it is a parameter of `HandleRequest`.
- `Logger` calls: they are logging only. The `recovered` flag records that a `.catch` logged and swallowed an error.
- The success or failure of each email send and of `addReferralDiscounts`: each of these is the last awaited step of its chain, and the referral promo is not awaited at all, so a failure changes no later step. The model records the call and not its outcome.
- Asynchronous interleaving between requests: each request is a pure function of its event and the store.
- Field projections (`"email_encrypted"`, `"id, referred_by, ..."`): the model records them in the lookup step. It does not drop unselected fields from the returned record, because every field a handler reads is selected.
- `code/app.js` and `code/config/environment.js`: Express wiring, logging middleware, the health and error-test routes, the error and 404 middleware, and environment loading. After the acknowledgment, the error middleware only logs, because the response has already been sent. The model stops at the error passed to `next`.
- Malformed events, such as a missing `lines` list or a missing `plan`: the model's event type always has these fields.
