/**
 * The verified billing-provider event as the webhook handler reads it:
 * `event.id`, `event.type` and the fields of `event.data.object` that one of
 * the handled event types inspects.
 */
module Events {
  import opened Wrappers

  /** One entry of `invoice.lines.data`: its `type`, `plan.id`, `amount` and `currency`. */
  datatype LineItem = LineItem(kind: string, planId: string, amount: int, currency: string)

  /**
   * `event.data.object`. Its shape depends on the event type (a subscription,
   * a card, an invoice); as in the source it is one record whose fields a
   * handler reads or ignores.
   */
  datatype EventObject = EventObject(
    customer: string,
    canceledAt: Option<int>,
    paid: bool,
    amountRemaining: int,
    amountDue: int,
    amountPaid: int,
    number: Option<string>,
    lines: seq<LineItem>)

  datatype Event = Event(id: string, eventType: string, data: EventObject)

  /** What the signature check yields: a trusted event, or a rejection. */
  datatype Verification = Verified(event: Event) | InvalidSignature

  /**
   * The signature check over the raw body, the `stripe-signature` header and
   * the shared secret. Its scheme lives in the billing provider's library, so
   * the model takes it as a parameter of this type.
   */
  type Verifier = (string, Option<string>, string) -> Verification

  /** JavaScript truthiness of a nullable number: `null` and `0` are falsy. */
  predicate IsSet(x: Option<int>)
  {
    x.Some? && x.value != 0
  }
}
