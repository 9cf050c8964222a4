/** The closed set of shipping states of an order and the text each one displays. */
module ShippingStatus {
  import opened Common

  /** `ShippingStatus`. No order between the states is enforced: any state may
      follow any other. */
  datatype Status = Processing | Shipped | InTransit | OutForDelivery | Delivered | Delayed

  /** The enum member's `.value`, the text shown to customers and stored in history entries. */
  function Value(s: Status): string
  {
    match s
    case Processing => "Processing"
    case Shipped => "Shipped"
    case InTransit => "In Transit"
    case OutForDelivery => "Out for Delivery"
    case Delivered => "Delivered"
    case Delayed => "Delayed"
  }

  /** The enum's lookup by value, `ShippingStatus(text)`: the member whose `.value`
      is `text`, or `None` where Python raises `ValueError`. */
  function FromValue(text: string): (r: Option<Status>)
    ensures r.Some? ==> Value(r.value) == text
    ensures r.None? ==> forall s: Status :: Value(s) != text
  {
    if text == "Processing" then Some(Processing)
    else if text == "Shipped" then Some(Shipped)
    else if text == "In Transit" then Some(InTransit)
    else if text == "Out for Delivery" then Some(OutForDelivery)
    else if text == "Delivered" then Some(Delivered)
    else if text == "Delayed" then Some(Delayed)
    else None
  }

  /** Every member is found again from its value, so distinct members show distinct text. */
  lemma ValueRoundTrip(s: Status)
    ensures FromValue(Value(s)) == Some(s)
  {
  }

  /** No display text contains a line break, so a history line stays one line. */
  lemma ValueSingleLine(s: Status)
    ensures '\n' !in Value(s)
  {
  }
}
