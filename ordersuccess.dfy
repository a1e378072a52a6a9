/** The confirmation page shown after an order is placed: the order handed
    over by the checkout, its number, payment labels and price summary. */
module OrderSuccess {
  import opened Common
  import opened Orders

  const MissingMessage := "Order data missing"
  const OrdersLink := "/orders"
  const ShortIdLength := 8

  /** The number in the heading: the order number, else the last eight
      characters of the id, upper-cased. */
  function DisplayNumber(order: PlacedOrder): (n: string)
    ensures order.orderNumber != "" ==> n == order.orderNumber
    ensures order.orderNumber == "" ==>
      |n| == Min(ShortIdLength, |order.id|) && NoLowerLetter(n)
      && n == Upper(order.id[|order.id| - |n|..])
  {
    if order.orderNumber != "" then order.orderNumber
    else
      var tail := Last(order.id, ShortIdLength);
      UpperHasNoLowerLetter(tail);
      Upper(tail)
  }

  /** The payment method's label: cash on delivery for "cod", online for
      anything else (including no payment record). */
  function MethodLabel(order: PlacedOrder): (s: string)
    ensures s == "Cash on Delivery" <==> order.payment.Some? && order.payment.value.paymentMethod == "cod"
    ensures s != "Cash on Delivery" ==> s == "Online Payment"
  {
    if order.payment.Some? && order.payment.value.paymentMethod == "cod" then "Cash on Delivery" else "Online Payment"
  }

  /** The payment status's label: success only for "completed". */
  function StatusLabel(order: PlacedOrder): (s: string)
    ensures s == "Success" <==> order.payment.Some? && order.payment.value.status == "completed"
    ensures s != "Success" ==> s == "Pending"
  {
    if order.payment.Some? && order.payment.value.status == "completed" then "Success" else "Pending"
  }

  /** The 18% fallback tax rounded to the nearest whole rupee, halves up
      (`Math.round(subtotal * 0.18)`, over rationals). */
  function FallbackTax(subtotal: int): (t: int)
    ensures 100 * t - 50 <= 18 * subtotal < 100 * t + 50
  {
    (18 * subtotal + 50) / 100
  }

  /** The rounded tax is the only whole number within half a rupee of 18%. */
  lemma FallbackTaxUnique(subtotal: int, t: int)
    requires 100 * t - 50 <= 18 * subtotal < 100 * t + 50
    ensures t == FallbackTax(subtotal)
  {
  }

  /** What the shipping line shows. */
  datatype ShippingText = Free | Amount(amount: int) | AmountMissing

  /** The summary column. */
  datatype SummaryView = SummaryView(
    subtotal: int, shipping: ShippingText, discountRow: Option<int>,
    handlingRow: Option<int>, tax: int, total: int)

  function SummaryOf(p: Option<Pricing>): (v: SummaryView)
    ensures v.subtotal == (if p.Some? then OrZero(p.value.subtotal) else 0)
    ensures v.total == (if p.Some? then OrZero(p.value.total) else 0)
    ensures v.shipping == Free <==> p.Some? && p.value.shipping == Some(0)
    ensures v.discountRow.Some? <==> p.Some? && Positive(p.value.discount)
    ensures v.handlingRow.Some? <==> p.Some? && Positive(p.value.handlingFee)
    ensures p.Some? && p.value.tax.Some? && p.value.tax.value != 0 ==> v.tax == p.value.tax.value
    ensures !(p.Some? && p.value.tax.Some? && p.value.tax.value != 0) ==> v.tax == FallbackTax(v.subtotal)
  {
    if p.None? then SummaryView(0, AmountMissing, None, None, FallbackTax(0), 0)
    else
      var q := p.value;
      var subtotal := OrZero(q.subtotal);
      SummaryView(
        subtotal,
        if q.shipping == Some(0) then Free else if q.shipping.Some? then Amount(q.shipping.value) else AmountMissing,
        if Positive(q.discount) then Some(q.discount.value) else None,
        if Positive(q.handlingFee) then Some(q.handlingFee.value) else None,
        if q.tax.Some? && q.tax.value != 0 then q.tax.value else FallbackTax(subtotal),
        OrZero(q.total))
  }

  /** The page for the navigation state: the missing-data notice with its
      link to the orders list, or the confirmation for the order. */
  datatype PageView =
    | Missing(message: string, link: string)
    | Confirmation(number: string, methodLabel: string, statusLabel: string, summary: SummaryView)

  function View(stateOrder: Option<PlacedOrder>): (v: PageView)
    ensures stateOrder.None? <==> v.Missing?
    ensures v.Missing? ==> v == Missing(MissingMessage, OrdersLink)
    ensures v.Confirmation? ==>
      v.number == DisplayNumber(stateOrder.value) && v.methodLabel == MethodLabel(stateOrder.value)
      && v.statusLabel == StatusLabel(stateOrder.value) && v.summary == SummaryOf(stateOrder.value.pricing)
  {
    match stateOrder
    case None => Missing(MissingMessage, OrdersLink)
    case Some(o) => Confirmation(DisplayNumber(o), MethodLabel(o), StatusLabel(o), SummaryOf(o.pricing))
  }

  /** A cash-on-delivery order with no tax reported shows the rounded 18%
      of its subtotal and the handling row; the number comes from the id
      when the order has none. */
  lemma ConfirmationExample()
    ensures var o := PlacedOrder("65f0a1b2c3d4e5f6a7b8c9d0", "", "pending", [], "",
        Some(Payment("cod", "pending", "")),
        Some(Pricing(Some(1000), Some(0), None, Some(50), None, Some(1230))), None);
      View(Some(o)) == Confirmation("A7B8C9D0", "Cash on Delivery", "Pending",
        SummaryView(1000, Free, None, Some(50), 180, 1230))
  {
    var id := "65f0a1b2c3d4e5f6a7b8c9d0";
    assert Last(id, ShortIdLength) == "a7b8c9d0";
    assert Upper("a7b8c9d0") == "A7B8C9D0";
  }
}
