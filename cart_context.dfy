/** The shopping-cart store shared by every page: it holds the server's copy
    of the signed-in customer's cart and replaces it with whatever cart the
    server answers after each operation. */
module CartStore {
  import opened Common
  import opened Toasts
  import opened Accounts

  /** One line of the cart as the server reports it. */
  datatype CartItem = CartItem(productId: string, name: string, price: int, quantity: int)

  /** The server's cart. The pricing fields are computed by the server; a
      field the server leaves out reads as 0 here, which JavaScript's `||`
      treats the same way as a missing one. */
  datatype Cart = Cart(
    items: seq<CartItem>, coupon: Option<string>,
    subtotal: int, tax: int, discount: int, total: int)

  /** A request the store sends to the backend. */
  datatype CartRequest =
    | GetCart
    | AddItem(productId: string, quantity: int)
    | UpdateItem(productId: string, quantity: int)
    | RemoveItem(productId: string)
    | ApplyCouponCode(code: string)
    | RemoveCouponCode
    | ClearAll

  const DefaultAddQuantity := 1
  const AddedMessage := "Product added to cart"
  const AddFailedMessage := "Failed to add to cart"

  /** The cart after a reply: the server's cart on success, the cart as it
      was on failure. */
  function Settled(cart: Option<Cart>, reply: Reply<Cart>): (r: Option<Cart>)
    ensures reply.Ok? ==> r == Some(reply.payload)
    ensures reply.Err? ==> r == cart
  {
    match reply
    case Ok(c) => Some(c)
    case Err(_) => cart
  }

  /** The cart is fetched when the user changes only for a signed-in
      customer. */
  predicate ShouldFetchCart(user: Option<User>)
  {
    IsCustomer(user)
  }

  /** Only a customer's session leads to a fetch: a guest or an admin never
      asks the backend for a cart. */
  lemma FetchOnlyForCustomers(user: Option<User>)
    ensures ShouldFetchCart(user) <==> user.Some? && user.value.role == "customer"
    ensures user == None ==> !ShouldFetchCart(user)
  {
  }

  class CartStore {
    var cart: Option<Cart>
    var loading: bool
    /** Requests sent to the backend, oldest first. */
    var requests: seq<CartRequest>
    /** Toasts the store asked for, oldest first. */
    var notices: seq<Notice>
    /** Add-to-cart calls whose reply has not arrived yet. */
    var addsInFlight: nat

    constructor ()
      ensures cart == None && !loading && requests == [] && notices == [] && addsInFlight == 0
    {
      cart := None;
      loading := false;
      requests := [];
      notices := [];
      addsInFlight := 0;
    }

    /** The effect that runs whenever the signed-in user changes. */
    method UserChanged(user: Option<User>, reply: Reply<Cart>)
      modifies this
      ensures ShouldFetchCart(user) ==> requests == old(requests) + [GetCart] && cart == Settled(old(cart), reply)
      ensures !ShouldFetchCart(user) ==> requests == old(requests) && cart == old(cart)
      ensures loading == old(loading) && notices == old(notices) && addsInFlight == old(addsInFlight)
    {
      if ShouldFetchCart(user) {
        FetchCart(reply);
      }
    }

    /** `fetchCart`: a failure is only logged to the console. */
    method FetchCart(reply: Reply<Cart>)
      modifies this
      ensures requests == old(requests) + [GetCart]
      ensures cart == Settled(old(cart), reply)
      ensures loading == old(loading) && notices == old(notices) && addsInFlight == old(addsInFlight)
    {
      requests := requests + [GetCart];
      cart := Settled(cart, reply);
    }

    /** The first half of `addToCart`: turns `loading` on and sends the
        request, with quantity 1 when the caller leaves it out. */
    method BeginAddToCart(productId: string, quantity: Option<int>)
      modifies this
      ensures loading && addsInFlight == old(addsInFlight) + 1
      ensures requests == old(requests) + [AddItem(productId,
        if quantity.Some? then quantity.value else DefaultAddQuantity)]
      ensures cart == old(cart) && notices == old(notices)
    {
      loading := true;
      var q := if quantity.Some? then quantity.value else DefaultAddQuantity;
      requests := requests + [AddItem(productId, q)];
      addsInFlight := addsInFlight + 1;
    }

    /** The second half of `addToCart`: settles the cart, toasts the outcome
        and turns `loading` off whatever the outcome. A failure is handed
        back to the caller (`thrown` carries the server's message, "" when
        it sent none). */
    method FinishAddToCart(reply: Reply<Cart>) returns (thrown: Option<string>)
      requires addsInFlight > 0
      modifies this
      ensures !loading && addsInFlight == old(addsInFlight) - 1
      ensures cart == Settled(old(cart), reply)
      ensures reply.Ok? ==> thrown == None && notices == old(notices) + [Notice(Success, AddedMessage)]
      ensures reply.Err? ==>
        thrown == Some(reply.message) &&
        notices == old(notices) + [Notice(Error, OrElse(reply.message, AddFailedMessage))]
      ensures requests == old(requests)
    {
      cart := Settled(cart, reply);
      match reply {
        case Ok(_) =>
          notices := notices + [Notice(Success, AddedMessage)];
          thrown := None;
        case Err(m) =>
          notices := notices + [Notice(Error, OrElse(m, AddFailedMessage))];
          thrown := Some(m);
      }
      loading := false;
      addsInFlight := addsInFlight - 1;
    }

    /** The first half of `updateCartItem`: the update request goes out. */
    method BeginUpdateCartItem(productId: string, quantity: int)
      modifies this
      ensures requests == old(requests) + [UpdateItem(productId, quantity)]
      ensures cart == old(cart)
      ensures loading == old(loading) && notices == old(notices) && addsInFlight == old(addsInFlight)
    {
      requests := requests + [UpdateItem(productId, quantity)];
    }

    /** The second half: the cart settles and a failure is swallowed. */
    method FinishUpdateCartItem(reply: Reply<Cart>)
      modifies this
      ensures cart == Settled(old(cart), reply)
      ensures requests == old(requests)
      ensures loading == old(loading) && notices == old(notices) && addsInFlight == old(addsInFlight)
    {
      cart := Settled(cart, reply);
    }

    /** `removeFromCart`: a failure is swallowed. */
    method RemoveFromCart(productId: string, reply: Reply<Cart>)
      modifies this
      ensures requests == old(requests) + [RemoveItem(productId)]
      ensures cart == Settled(old(cart), reply)
      ensures loading == old(loading) && notices == old(notices) && addsInFlight == old(addsInFlight)
    {
      requests := requests + [RemoveItem(productId)];
      cart := Settled(cart, reply);
    }

    /** `applyCoupon`: a failure is handed back to the caller with the
        server's message. */
    method ApplyCoupon(code: string, reply: Reply<Cart>) returns (thrown: Option<string>)
      modifies this
      ensures requests == old(requests) + [ApplyCouponCode(code)]
      ensures cart == Settled(old(cart), reply)
      ensures thrown == if reply.Err? then Some(reply.message) else None
      ensures loading == old(loading) && notices == old(notices) && addsInFlight == old(addsInFlight)
    {
      requests := requests + [ApplyCouponCode(code)];
      cart := Settled(cart, reply);
      thrown := if reply.Err? then Some(reply.message) else None;
    }

    /** `removeCoupon`: a failure is swallowed. */
    method RemoveCoupon(reply: Reply<Cart>)
      modifies this
      ensures requests == old(requests) + [RemoveCouponCode]
      ensures cart == Settled(old(cart), reply)
      ensures loading == old(loading) && notices == old(notices) && addsInFlight == old(addsInFlight)
    {
      requests := requests + [RemoveCouponCode];
      cart := Settled(cart, reply);
    }

    /** `clearCart`: a failure is swallowed. */
    method ClearCart(reply: Reply<Cart>)
      modifies this
      ensures requests == old(requests) + [ClearAll]
      ensures cart == Settled(old(cart), reply)
      ensures loading == old(loading) && notices == old(notices) && addsInFlight == old(addsInFlight)
    {
      requests := requests + [ClearAll];
      cart := Settled(cart, reply);
    }
  }
}
