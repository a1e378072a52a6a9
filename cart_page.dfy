/** The shopping-bag page: quantity buttons gated per item while an update is
    on its way, the coupon form with its two messages, and the order summary
    shown beside the lines. */
module CartPage {
  import opened Common
  import opened CartStore

  const CouponAppliedMessage := "Coupon applied successfully!"
  const CouponInvalidMessage := "Invalid coupon code"

  /** What the page shows for the store's cart. */
  datatype BagView =
    | EmptyBag
    | Bag(lines: seq<LineView>, summary: Summary)

  datatype LineView = LineView(productId: string, quantity: int, lineTotal: int)

  /** The order summary: subtotal, the discount row (coupon code and amount)
      when a coupon is applied, the tax and the total. */
  datatype Summary = Summary(subtotal: int, discountRow: Option<(string, int)>, tax: real, total: int)

  /** The tax the summary shows: the server's tax, or 18% of the subtotal
      when the server reports none (a rational number, before locale
      formatting). */
  function DisplayedTax(c: Cart): (t: real)
    ensures c.tax != 0 ==> t == c.tax as real
    ensures c.tax == 0 ==> t * 100.0 == c.subtotal as real * 18.0
  {
    if c.tax != 0 then c.tax as real else c.subtotal as real * 0.18
  }

  function Line(item: CartItem): (l: LineView)
  {
    LineView(item.productId, item.quantity, item.price * item.quantity)
  }

  function SummaryOf(c: Cart): Summary
  {
    Summary(c.subtotal,
      if c.coupon.Some? then Some((c.coupon.value, c.discount)) else None,
      DisplayedTax(c), c.total)
  }

  /** The page for the store's cart (while the store is not loading). */
  function View(cart: Option<Cart>): (v: BagView)
  {
    if cart == None || |cart.value.items| == 0 then EmptyBag
    else Bag(seq(|cart.value.items|, i requires 0 <= i < |cart.value.items| => Line(cart.value.items[i])),
             SummaryOf(cart.value))
  }

  /** The empty-bag view appears exactly when there is no cart or it has no
      items; otherwise every item gets one line whose total is price times
      quantity, and the discount row appears exactly when a coupon is set. */
  lemma ViewShape(cart: Option<Cart>)
    ensures View(cart) == EmptyBag <==> cart == None || cart.value.items == []
    ensures View(cart).Bag? ==>
      |View(cart).lines| == |cart.value.items|
      && (forall i :: 0 <= i < |cart.value.items| ==>
            View(cart).lines[i].lineTotal == cart.value.items[i].price * cart.value.items[i].quantity
            && View(cart).lines[i].productId == cart.value.items[i].productId)
      && (View(cart).summary.discountRow.Some? <==> cart.value.coupon.Some?)
  {
  }

  /** `e.target.value.toUpperCase()`: the coupon field holds what was typed,
      upper-cased. */
  function TypedCoupon(typed: string): (code: string)
    ensures |code| == |typed| && NoLowerLetter(code)
    ensures Lower(code) == Lower(typed)
  {
    UpperHasNoLowerLetter(typed);
    LowerOfUpper(typed);
    Upper(typed)
  }

  /** The Apply button is disabled while the field is empty. */
  predicate ApplyDisabled(couponCode: string)
  {
    couponCode == ""
  }

  class CartPage {
    const store: CartStore
    var couponCode: string
    var couponError: string
    var couponSuccess: string
    /** The product whose quantity buttons are disabled, if any. */
    var isUpdating: Option<string>
    /** Quantity changes sent and not settled yet, as (product, quantity). */
    var pending: seq<(string, int)>

    constructor (store: CartStore)
      ensures this.store == store
      ensures couponCode == "" && couponError == "" && couponSuccess == ""
      ensures isUpdating == None && pending == []
    {
      this.store := store;
      couponCode := "";
      couponError := "";
      couponSuccess := "";
      isUpdating := None;
      pending := [];
    }

    /** Whether one item's minus and plus buttons are disabled: only the item
        last sent for update. */
    function QuantityButtonsDisabled(productId: string): bool
      reads this
    {
      isUpdating == Some(productId)
    }

    method TypeCoupon(typed: string)
      modifies this
      ensures couponCode == TypedCoupon(typed)
      ensures ApplyDisabled(couponCode) <==> typed == ""
      ensures couponError == old(couponError) && couponSuccess == old(couponSuccess)
      ensures isUpdating == old(isUpdating) && pending == old(pending)
    {
      couponCode := TypedCoupon(typed);
    }

    /** A click on the minus or plus button of an item, leading to the
        first half of `handleQuantityChange`. Both buttons are disabled while
        that item is updating, and a click then does nothing; a quantity
        below 1 does nothing at all either; otherwise the item is marked as
        updating and the update is on its way. */
    method BeginQuantityChange(productId: string, newQuantity: int) returns (sent: bool)
      modifies this, store
      ensures sent ==> store.requests == old(store.requests) + [UpdateItem(productId, newQuantity)]
      ensures !sent ==> store.requests == old(store.requests)
      ensures store.cart == old(store.cart) && store.loading == old(store.loading)
        && store.notices == old(store.notices) && store.addsInFlight == old(store.addsInFlight)
      ensures sent <==> newQuantity >= 1 && !old(QuantityButtonsDisabled(productId))
      ensures sent ==> isUpdating == Some(productId) && pending == old(pending) + [(productId, newQuantity)]
      ensures sent ==>
        QuantityButtonsDisabled(productId)
        && forall other :: other != productId ==> !QuantityButtonsDisabled(other)
      ensures !sent ==> isUpdating == old(isUpdating) && pending == old(pending)
      ensures couponCode == old(couponCode) && couponError == old(couponError)
        && couponSuccess == old(couponSuccess)
    {
      sent := newQuantity >= 1 && !QuantityButtonsDisabled(productId);
      if sent {
        isUpdating := Some(productId);
        pending := pending + [(productId, newQuantity)];
        store.BeginUpdateCartItem(productId, newQuantity);
      }
    }

    /** The second half: the store settles the update sent as `pending[k]`
        and the gate is cleared, even when another update is still on its
        way. */
    method FinishQuantityChange(k: nat, reply: Reply<Cart>)
      requires k < |pending|
      modifies this, store
      ensures store.requests == old(store.requests)
      ensures store.cart == Settled(old(store.cart), reply)
      ensures store.loading == old(store.loading) && store.notices == old(store.notices)
        && store.addsInFlight == old(store.addsInFlight)
      ensures isUpdating == None && pending == old(pending[..k] + pending[k + 1..])
      ensures forall productId :: !QuantityButtonsDisabled(productId)
      ensures couponCode == old(couponCode) && couponError == old(couponError)
        && couponSuccess == old(couponSuccess)
    {
      store.FinishUpdateCartItem(reply);
      isUpdating := None;
      pending := pending[..k] + pending[k + 1..];
    }

    /** `handleApplyCoupon`: clears both messages, does nothing more for an
        empty field, and otherwise applies the typed code and reports the
        outcome in exactly one of the two messages. */
    method ApplyCoupon(reply: Reply<Cart>)
      modifies this, store
      ensures couponCode == old(couponCode) && isUpdating == old(isUpdating) && pending == old(pending)
      ensures old(couponCode) == "" ==>
        couponError == "" && couponSuccess == ""
        && store.requests == old(store.requests) && store.cart == old(store.cart)
      ensures old(couponCode) != "" ==>
        store.requests == old(store.requests) + [ApplyCouponCode(old(couponCode))]
        && store.cart == Settled(old(store.cart), reply)
        && (reply.Ok? ==> couponSuccess == CouponAppliedMessage && couponError == "")
        && (reply.Err? ==> couponError == OrElse(reply.message, CouponInvalidMessage) && couponSuccess == "")
      ensures store.loading == old(store.loading) && store.notices == old(store.notices)
        && store.addsInFlight == old(store.addsInFlight)
    {
      couponError := "";
      couponSuccess := "";
      if couponCode == "" {
        return;
      }
      var thrown := store.ApplyCoupon(couponCode, reply);
      if thrown.None? {
        couponSuccess := CouponAppliedMessage;
      } else {
        couponError := OrElse(thrown.value, CouponInvalidMessage);
      }
    }
  }
}
