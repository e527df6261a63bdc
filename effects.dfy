/**
 * The observable steps of handling one request, in the order the handler
 * issues them: the acknowledgment, the store queries, the emails and the
 * discount request.
 */
module Effects {
  import opened Wrappers
  import opened UserStore

  datatype Effect =
    | Ack(status: int, body: string)
    | LookupByStripeId(stripeId: string, fields: string)
    | LookupById(userId: int, fields: string)
    | FetchActiveSubscriptions(userId: int)
    | FetchActiveReferrals(userId: int)
    | SendTrialWillEnd(email: string)
    | SendCardWillExpire(email: string)
    | SendPaymentFailed(email: string)
    | SendReferralPromo(email: string, referralCode: string)
    | SendSubscriptionStartedReferrer(email: string, refereeEmail: string)
    | SendTrialStartedReferrer(email: string, refereeEmail: string)
    | AddReferralDiscounts(stripeId: string, planId: string, currency: string, referrals: seq<int>)

  /** The user record a lookup step obtained from the store, if it is a lookup that succeeded. */
  function Resolve(eff: Effect, w: Store): Option<User>
  {
    match eff
    case LookupByStripeId(sid, _) => if sid in w.byStripeId then Some(w.byStripeId[sid]) else None
    case LookupById(uid, _) => if uid in w.byId then Some(w.byId[uid]) else None
    case _ => None
  }

  /** Some step before position i obtained a user whose email is `email`. */
  predicate EmailSeen(trace: seq<Effect>, i: nat, w: Store, email: string)
    requires i <= |trace|
  {
    exists j :: 0 <= j < i && Resolve(trace[j], w).Some? && Resolve(trace[j], w).value.email == email
  }

  /** Some step before position i obtained a user whose id is `uid`. */
  predicate IdSeen(trace: seq<Effect>, i: nat, w: Store, uid: int)
    requires i <= |trace|
  {
    exists j :: 0 <= j < i && Resolve(trace[j], w).Some? && Resolve(trace[j], w).value.id == uid
  }

  /** Some step before position i obtained a user who was referred by `uid`. */
  predicate ReferrerSeen(trace: seq<Effect>, i: nat, w: Store, uid: int)
    requires i <= |trace|
  {
    exists j :: 0 <= j < i && Resolve(trace[j], w).Some? && Resolve(trace[j], w).value.referredBy == Some(uid)
  }

  /** Some lookup by billing customer id before position i obtained a user with this address and referral code. */
  predicate PayerSeen(trace: seq<Effect>, i: nat, w: Store, email: string, code: string)
    requires i <= |trace|
  {
    exists j :: 0 <= j < i && trace[j].LookupByStripeId? && Resolve(trace[j], w).Some?
      && Resolve(trace[j], w).value.email == email && Resolve(trace[j], w).value.referralCode == code
  }

  /**
   * Before position i, some user with address `referee` was obtained, and
   * afterwards a lookup by that user's referred-by id obtained a user with
   * address `referrer`.
   */
  predicate ReferrerPairSeen(trace: seq<Effect>, i: nat, w: Store, referrer: string, referee: string)
    requires i <= |trace|
  {
    exists k, j :: 0 <= k < j < i && trace[j].LookupById?
      && Resolve(trace[j], w).Some? && Resolve(trace[j], w).value.email == referrer
      && Resolve(trace[k], w).Some? && Resolve(trace[k], w).value.email == referee
      && Resolve(trace[k], w).value.referredBy == Some(trace[j].userId)
  }

  /**
   * Before position i, some user with address `email` was obtained, and
   * afterwards that user's active-subscription count was read and was not zero.
   */
  predicate SubscribedUserSeen(trace: seq<Effect>, i: nat, w: Store, email: string)
    requires i <= |trace|
  {
    exists j, k :: 0 <= j < k < i && Resolve(trace[j], w).Some? && Resolve(trace[j], w).value.email == email
      && trace[k] == FetchActiveSubscriptions(Resolve(trace[j], w).value.id)
      && Resolve(trace[j], w).value.id in w.activeSubscriptions
      && w.activeSubscriptions[Resolve(trace[j], w).value.id] != 0
  }

  /**
   * The step at position i acts only on what earlier steps observed: each
   * email goes to an address read from the store; every fetch of active
   * subscriptions or referrals concerns a user already obtained; the referrer
   * lookup uses an obtained user's referred-by id; the card warning goes to a user whose active-subscription
   * count was read and was not zero; the promo carries the address and code of
   * the user found by billing customer id; a referrer notice goes to the user
   * found by the referee's referred-by id and names that referee; the discount
   * request carries the referrals fetched. The acknowledgment is never a
   * handler step. Lookups by billing customer id need no earlier step
   * (`ScopedTo` says which customer they name).
   */
  predicate JustifiedAt(trace: seq<Effect>, i: nat, w: Store)
    requires i < |trace|
  {
    match trace[i]
    case Ack(_, _) => false
    case LookupByStripeId(_, _) => true
    case LookupById(uid, _) => ReferrerSeen(trace, i, w, uid)
    case FetchActiveSubscriptions(uid) => IdSeen(trace, i, w, uid)
    case FetchActiveReferrals(uid) => IdSeen(trace, i, w, uid)
    case SendTrialWillEnd(a) => EmailSeen(trace, i, w, a)
    case SendCardWillExpire(a) => SubscribedUserSeen(trace, i, w, a)
    case SendPaymentFailed(a) => EmailSeen(trace, i, w, a)
    case SendReferralPromo(a, code) => PayerSeen(trace, i, w, a, code)
    case SendSubscriptionStartedReferrer(a, b) => ReferrerPairSeen(trace, i, w, a, b)
    case SendTrialStartedReferrer(a, b) => ReferrerPairSeen(trace, i, w, a, b)
    case AddReferralDiscounts(_, _, _, refs) =>
      exists j :: 0 <= j < i && trace[j].FetchActiveReferrals?
        && trace[j].userId in w.activeReferrals && w.activeReferrals[trace[j].userId] == refs
  }

  predicate Grounded(trace: seq<Effect>, w: Store)
  {
    forall i :: 0 <= i < |trace| ==> JustifiedAt(trace, i, w)
  }

  /** Every step that names a billing customer names `customer`. */
  predicate ScopedTo(trace: seq<Effect>, customer: string)
  {
    forall i :: 0 <= i < |trace| ==>
      (trace[i].LookupByStripeId? ==> trace[i].stripeId == customer)
      && (trace[i].AddReferralDiscounts? ==> trace[i].stripeId == customer)
  }
}
