/** An order as the backend reports it to the order pages. A field the
    backend leaves out is None (or "" for text), so the pages' fallbacks can
    be stated. */
module Orders {
  import opened Common

  datatype Payment = Payment(paymentMethod: string, status: string, razorpayPaymentId: string)

  datatype Pricing = Pricing(
    subtotal: Option<int>, shipping: Option<int>, discount: Option<int>,
    handlingFee: Option<int>, tax: Option<int>, total: Option<int>)

  datatype TrackingInfo = TrackingInfo(trackingNumber: string, carrier: string)

  datatype OrderLine = OrderLine(name: string, quantity: int, price: int)

  datatype PlacedOrder = PlacedOrder(
    id: string, orderNumber: string, status: string,
    items: seq<OrderLine>, shippingFullName: string,
    payment: Option<Payment>, pricing: Option<Pricing>, trackingInfo: Option<TrackingInfo>)

  /** The statuses an order moves through, in order; "cancelled" is the one
      status outside the sequence. */
  const StatusSequence: seq<string> := ["pending", "confirmed", "processing", "shipped", "delivered"]

  /** JavaScript's `x || 0` for an optional number. */
  function OrZero(x: Option<int>): (n: int)
    ensures x.Some? ==> n == x.value
    ensures x.None? ==> n == 0
  {
    if x.Some? then x.value else 0
  }

  /** `x > 0` for an optional number (an absent one is not). */
  predicate Positive(x: Option<int>)
  {
    x.Some? && x.value > 0
  }
}
