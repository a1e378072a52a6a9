/** A customer's order page: the status timeline, the status badge and the
    price summary of one order. */
module OrderDetails {
  import opened Common
  import opened Orders

  /** `getStatusStep`: the 1-based position of the status in the sequence,
      0 for any other status. */
  function StatusStep(status: string): (step: nat)
    ensures step <= |StatusSequence|
    ensures step == 0 <==> status !in StatusSequence
    ensures step > 0 ==> StatusSequence[step - 1] == status
    ensures step > 0 ==> forall j :: 0 <= j < step - 1 ==> StatusSequence[j] != status
  {
    IndexFrom(StatusSequence, status, 0)
  }

  /** One past the index of the first `x` at or after `from`, 0 when none. */
  function IndexFrom(s: seq<string>, x: string, from: nat): (r: nat)
    requires from <= |s|
    ensures r <= |s|
    ensures r == 0 <==> forall j :: from <= j < |s| ==> s[j] != x
    ensures r > 0 ==> from < r && s[r - 1] == x && forall j :: from <= j < r - 1 ==> s[j] != x
    decreases |s| - from
  {
    if from == |s| then 0
    else if s[from] == x then from + 1
    else IndexFrom(s, x, from + 1)
  }

  /** How the timeline draws one step. */
  datatype StepView = StepView(completed: bool, current: bool, showsTracking: bool)

  /** The five timeline steps for an order. */
  function Timeline(order: PlacedOrder): (steps: seq<StepView>)
    ensures |steps| == |StatusSequence|
    ensures forall i :: 0 <= i < |steps| ==>
      (steps[i].completed <==> i + 1 <= StatusStep(order.status))
      && (steps[i].current <==> i + 1 == StatusStep(order.status))
      && (steps[i].showsTracking <==> steps[i].current && order.trackingInfo.Some?)
  {
    var current := StatusStep(order.status);
    seq(|StatusSequence|, i requires 0 <= i < |StatusSequence| =>
      StepView(i + 1 <= current, i + 1 == current, i + 1 == current && order.trackingInfo.Some?))
  }

  /** The completed steps form a prefix; the five known statuses have
      exactly one current step (the step of that status) and any other
      status, "cancelled" among them, has none and no completed step. */
  lemma TimelineShape(order: PlacedOrder)
    ensures var t := Timeline(order);
      forall i, j :: 0 <= i <= j < |t| && t[j].completed ==> t[i].completed
    ensures var t := Timeline(order);
      order.status in StatusSequence ==>
        exists i :: 0 <= i < |t| && t[i].current && StatusSequence[i] == order.status
          && forall j :: 0 <= j < |t| && j != i ==> !t[j].current
    ensures var t := Timeline(order);
      order.status !in StatusSequence ==> forall i :: 0 <= i < |t| ==> !t[i].current && !t[i].completed
    ensures var t := Timeline(order);
      forall i :: 0 <= i < |t| && t[i].showsTracking ==> t[i].current
  {
    var t := Timeline(order);
    if order.status in StatusSequence {
      var k := StatusStep(order.status) - 1;
      assert t[k].current && StatusSequence[k] == order.status;
    }
  }

  datatype BadgeStyle = PendingStyle | ProcessingStyle | ShippedStyle | DeliveredStyle | CancelledStyle
  datatype BadgeIcon = ClockIcon | PackageIcon | TruckIcon | CheckIcon | BagIcon

  /** The status badge's colours: the style of the status, the pending style
      for a status without one ("confirmed" included). */
  function BadgeStyleOf(status: string): (s: BadgeStyle)
    ensures status == "processing" ==> s == ProcessingStyle
    ensures status == "shipped" ==> s == ShippedStyle
    ensures status == "delivered" ==> s == DeliveredStyle
    ensures status == "cancelled" ==> s == CancelledStyle
    ensures status !in {"processing", "shipped", "delivered", "cancelled"} ==> s == PendingStyle
  {
    match status
    case "processing" => ProcessingStyle
    case "shipped" => ShippedStyle
    case "delivered" => DeliveredStyle
    case "cancelled" => CancelledStyle
    case _ => PendingStyle
  }

  /** The status badge's icon, the package for a status without one. */
  function BadgeIconOf(status: string): (i: BadgeIcon)
    ensures status == "pending" ==> i == ClockIcon
    ensures status == "shipped" ==> i == TruckIcon
    ensures status == "delivered" ==> i == CheckIcon
    ensures status == "cancelled" ==> i == BagIcon
    ensures status !in {"pending", "shipped", "delivered", "cancelled"} ==> i == PackageIcon
  {
    match status
    case "pending" => ClockIcon
    case "shipped" => TruckIcon
    case "delivered" => CheckIcon
    case "cancelled" => BagIcon
    case _ => PackageIcon
  }

  /** The summary's tax (`tax || 0`) and its discount row, shown only for a
      positive discount. */
  datatype SummaryView = SummaryView(tax: int, discountRow: Option<int>, paidVia: string)

  function SummaryOf(p: Pricing, paymentMethod: string): (v: SummaryView)
    ensures v.tax == OrZero(p.tax)
    ensures v.discountRow.Some? <==> Positive(p.discount)
    ensures v.discountRow.Some? ==> v.discountRow.value == p.discount.value
    ensures v.paidVia == (if paymentMethod == "razorpay" then "Razorpay Secure" else "Payment Gateway")
  {
    SummaryView(OrZero(p.tax),
      if Positive(p.discount) then Some(p.discount.value) else None,
      if paymentMethod == "razorpay" then "Razorpay Secure" else "Payment Gateway")
  }

  /** The page: the order once fetched, and whether it is still loading. */
  class OrderDetailsPage {
    const orderId: string
    var order: Option<PlacedOrder>
    var loading: bool

    constructor (orderId: string)
      ensures this.orderId == orderId && order == None && loading
    {
      this.orderId := orderId;
      order := None;
      loading := true;
    }

    /** `fetchOrderDetails`: the order the backend answers replaces the page's
        (None when its answer has no order); a failure is only logged. */
    method FetchOrderDetails(reply: Reply<Option<PlacedOrder>>)
      modifies this
      ensures !loading
      ensures reply.Ok? ==> order == reply.payload
      ensures reply.Err? ==> order == old(order)
    {
      if reply.Ok? {
        order := reply.payload;
      }
      loading := false;
    }
  }
}
