/**
 * The invoice helpers the two invoice handlers share: locating the
 * subscription line item, and the two tests `invoice.payment_succeeded`
 * applies to an invoice (first real payment, zero-amount trial charge).
 */
module Invoice {
  import opened Wrappers
  import opened Strings
  import opened Events

  const SubscriptionKind: string := "subscription"
  const FirstPaymentSuffix: string := "0002"

  predicate IsSubscription(item: LineItem)
  {
    item.kind == SubscriptionKind
  }

  /** Position of the first subscription line item, or |lines| when there is none. */
  function FirstSubscriptionIndex(lines: seq<LineItem>): (k: nat)
    ensures k <= |lines|
    ensures forall j :: 0 <= j < k ==> !IsSubscription(lines[j])
    ensures k < |lines| ==> IsSubscription(lines[k])
  {
    if lines == [] then 0
    else if IsSubscription(lines[0]) then 0
    else 1 + FirstSubscriptionIndex(lines[1..])
  }

  /** The subscription line item of an invoice: the first match wins, `None` stands for `null`. */
  function SubscriptionItem(lines: seq<LineItem>): (r: Option<LineItem>)
    ensures r.None? <==> forall j :: 0 <= j < |lines| ==> !IsSubscription(lines[j])
    ensures r.Some? ==> IsSubscription(r.value) && r.value in lines
    ensures r.Some? ==>
      exists k :: 0 <= k < |lines| && lines[k] == r.value
        && forall j :: 0 <= j < k ==> !IsSubscription(lines[j])
  {
    var k := FirstSubscriptionIndex(lines);
    if k < |lines| then Some(lines[k]) else None
  }

  /**
   * `getSubscriptionItemFromInvoice`: scans `event.data.object.lines.data` in
   * order and stops at the first item whose type is "subscription".
   */
  method GetSubscriptionItemFromInvoice(event: Event) returns (subscriptionItem: Option<LineItem>)
    ensures subscriptionItem == SubscriptionItem(event.data.lines)
    ensures subscriptionItem.Some? ==>
      exists k :: 0 <= k < |event.data.lines| && event.data.lines[k] == subscriptionItem.value
        && IsSubscription(event.data.lines[k])
        && forall j :: 0 <= j < k ==> !IsSubscription(event.data.lines[j])
    ensures subscriptionItem.None? ==>
      forall j :: 0 <= j < |event.data.lines| ==> !IsSubscription(event.data.lines[j])
  {
    var lines := event.data.lines;
    subscriptionItem := None;
    for i := 0 to |lines|
      invariant subscriptionItem == None
      invariant forall j :: 0 <= j < i ==> !IsSubscription(lines[j])
    {
      if lines[i].kind == "subscription" {
        subscriptionItem := Some(lines[i]);
        assert FirstSubscriptionIndex(lines) == i;
        break;
      }
    }
  }

  /**
   * `amount_remaining <= 0 && item.amount > 0 && number.endsWith("0002")`,
   * evaluated left to right. `None` is the TypeError raised when the first
   * two conjuncts hold and `number` is `null`.
   */
  function IsFirstPayment(invoice: EventObject, item: LineItem): Option<bool>
  {
    if !(invoice.amountRemaining <= 0) then Some(false)
    else if !(item.amount > 0) then Some(false)
    else match invoice.number
      case None => None
      case Some(n) => Some(EndsWith(n, FirstPaymentSuffix))
  }

  /** A zero-amount trial charge: nothing due, nothing paid, a free subscription line. */
  predicate IsTrialCharge(invoice: EventObject, item: LineItem)
  {
    invoice.amountDue == 0 && invoice.amountPaid == 0 && item.amount == 0
  }

  /** When the first-payment test holds, fails, or throws. */
  lemma FirstPaymentCharacterization(invoice: EventObject, item: LineItem)
    ensures IsFirstPayment(invoice, item) == Some(true) <==>
      invoice.amountRemaining <= 0 && item.amount > 0 && invoice.number.Some?
      && exists p: string :: p + "0002" == invoice.number.value
    ensures IsFirstPayment(invoice, item) == None <==>
      invoice.amountRemaining <= 0 && item.amount > 0 && invoice.number.None?
  {
    if invoice.number.Some? {
      EndsWithIffSuffix(invoice.number.value, FirstPaymentSuffix);
    }
  }

  /** The first-payment guard and the trial-charge guard are disjoint. */
  lemma FirstPaymentIsNotTrial(invoice: EventObject, item: LineItem)
    requires IsFirstPayment(invoice, item) == Some(true)
    ensures !IsTrialCharge(invoice, item)
  {
  }

  /** A discount before two subscription lines: the first subscription line is chosen. */
  lemma ResolverPicksFirstMatch()
    ensures SubscriptionItem([LineItem("discount", "", -100, "usd"),
                              LineItem("subscription", "P1", 500, "usd"),
                              LineItem("subscription", "P2", 900, "usd")])
            == Some(LineItem("subscription", "P1", 500, "usd"))
  {
  }
}
