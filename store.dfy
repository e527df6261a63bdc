/**
 * The user-record store the handlers consult, abstracted to the answers it
 * gives. A key that is absent from one of the maps is a query that fails (a
 * user that is not found, or a database error); the source's promise chain
 * then rejects.
 */
module UserStore {
  import opened Wrappers

  /** A user record as read (the email already decrypted). */
  datatype User = User(id: int, email: string, referralCode: string, referredBy: Option<int>)

  datatype Store = Store(
    byStripeId: map<string, User>,        // User.getWithStripeId
    byId: map<int, User>,                 // User.getWithId
    activeSubscriptions: map<int, nat>,   // user.getActiveSubscriptions().length, by user id
    activeReferrals: map<int, seq<int>>)  // user.getActiveReferrals(), by user id

  /** `small` answers a subset of the queries `big` answers, and answers them alike. */
  predicate SubStore(small: Store, big: Store)
  {
    (forall k :: k in small.byStripeId ==> k in big.byStripeId && big.byStripeId[k] == small.byStripeId[k])
    && (forall k :: k in small.byId ==> k in big.byId && big.byId[k] == small.byId[k])
    && (forall k :: k in small.activeSubscriptions ==>
          k in big.activeSubscriptions && big.activeSubscriptions[k] == small.activeSubscriptions[k])
    && (forall k :: k in small.activeReferrals ==>
          k in big.activeReferrals && big.activeReferrals[k] == small.activeReferrals[k])
  }
}
