/** The product tile shown in listings: its discount badge, its image, and
    its add-to-cart and wishlist buttons, which send a guest to the login
    page instead. */
module ProductCard {
  import opened Common
  import opened Accounts
  import opened Catalog
  import opened CartStore
  import opened Wishlist
  import opened Toasts

  /** The bundled hero picture a tile shows when its product has no usable
      first image. */
  const HeroImage := "products-hero.webp"
  const LoginPath := "/login"

  /** `Math.round(x)`: the nearest integer, halves rounded up. */
  function Round(x: real): (n: int)
    ensures n as real - 0.5 <= x < n as real + 0.5
  {
    (x + 0.5).Floor
  }

  /** The rounded percentage by which the price undercuts the compare-at
      price; 0 when there is no compare-at price. Computed over rationals. */
  function Discount(price: int, comparePrice: int): (d: int)
    ensures comparePrice == 0 ==> d == 0
    ensures comparePrice != 0 ==>
      var exact := ((comparePrice - price) * 100) as real / comparePrice as real;
      d as real - 0.5 <= exact < d as real + 0.5
  {
    if comparePrice == 0 then 0
    else Round(((comparePrice - price) * 100) as real / comparePrice as real)
  }

  /** Dividing by a positive number keeps the order with a bound. */
  lemma DivAtLeast(a: real, c: real, k: real)
    requires c > 0.0
    ensures a / c >= k <==> a >= k * c
  {
    var q := a / c;
    assert q * c == a;
    if q >= k {
      assert q * c >= k * c;
    } else {
      assert q * c < k * c;
    }
  }

  /** With a positive compare-at price, the badge shows a discount exactly
      when the price is at least half a percent below it, and a price between
      0 and the compare-at price gives a percentage between 0 and 100. */
  lemma DiscountBounds(price: int, comparePrice: int)
    requires comparePrice > 0
    ensures Discount(price, comparePrice) > 0 <==> 200 * (comparePrice - price) >= comparePrice
    ensures 0 <= price <= comparePrice ==> 0 <= Discount(price, comparePrice) <= 100
    ensures price == comparePrice ==> Discount(price, comparePrice) == 0
  {
    var c := comparePrice as real;
    var a := ((comparePrice - price) * 100) as real;
    DivAtLeast(a, c, 0.5);
    DivAtLeast(a, c, 0.0);
    DivAtLeast(a, c, 100.5);
  }

  /** The badge in the tile's corner. */
  datatype Badge = SoldOut | PercentOff(percent: int) | NewArrival | NoBadge

  /** Sold out (a `stock` of exactly 0) wins over a discount, which wins
      over the new-arrival mark. `countInStock` plays no part. */
  function BadgeOf(p: Product): (b: Badge)
    ensures b == SoldOut <==> p.stock == Some(0)
    ensures b.PercentOff? <==> p.stock != Some(0) && Discount(p.price, p.comparePrice) > 0
    ensures b.PercentOff? ==> b.percent == Discount(p.price, p.comparePrice)
    ensures b == NewArrival <==> p.stock != Some(0) && Discount(p.price, p.comparePrice) <= 0 && p.isNew
  {
    if p.stock == Some(0) then SoldOut
    else if Discount(p.price, p.comparePrice) > 0 then PercentOff(Discount(p.price, p.comparePrice))
    else if p.isNew then NewArrival
    else NoBadge
  }

  /** The tile's picture: the url of the first image object when it has a
      non-empty one, the hero picture otherwise. */
  function TileImage(p: Product): (url: string)
    ensures |p.images| > 0 && p.images[0].ImageObject? && p.images[0].url != "" ==> url == p.images[0].url
    ensures !(|p.images| > 0 && p.images[0].ImageObject? && p.images[0].url != "") ==> url == HeroImage
  {
    if |p.images| > 0 && p.images[0].ImageObject? then OrElse(p.images[0].url, HeroImage) else HeroImage
  }

  /** The add button is disabled for a product whose `stock` is 0 and while
      an add is on its way. */
  predicate AddDisabled(p: Product, adding: bool)
  {
    p.stock == Some(0) || adding
  }

  /** The tile's add button reads only `stock`: the count in stock never
      matters, so a product without a `stock` can always be added when no
      add is on its way. */
  lemma CardIgnoresCountInStock(p: Product, count: Option<int>, adding: bool)
    ensures AddDisabled(p.(countInStock := count), adding) == AddDisabled(p, adding)
    ensures p.stock.None? ==> (AddDisabled(p, adding) <==> adding)
  {
  }

  class ProductCard {
    const product: Product
    const cart: CartStore
    const wishlist: WishlistStore
    var adding: bool
    var togglingWishlist: bool
    /** Where the page was sent by assigning `window.location`, if anywhere. */
    var redirect: Option<string>

    constructor (product: Product, cart: CartStore, wishlist: WishlistStore)
      ensures this.product == product && this.cart == cart && this.wishlist == wishlist
      ensures !adding && !togglingWishlist && redirect == None
    {
      this.product := product;
      this.cart := cart;
      this.wishlist := wishlist;
      adding := false;
      togglingWishlist := false;
      redirect := None;
    }

    /** The first half of the add button's handler. The button is
        disabled for a product out of stock and while an add is on its way,
        and a click on it then does nothing at all. Otherwise a guest is
        sent to the login page, and a signed-in user's add is on its way. */
    method BeginAddToCart(user: Option<User>) returns (started: bool)
      modifies this, cart
      ensures started <==> !AddDisabled(product, old(adding)) && user.Some?
      ensures AddDisabled(product, old(adding)) ==>
        redirect == old(redirect) && adding == old(adding)
        && cart.requests == old(cart.requests) && cart.loading == old(cart.loading)
        && cart.addsInFlight == old(cart.addsInFlight)
      ensures !AddDisabled(product, old(adding)) && user.None? ==>
        redirect == Some(LoginPath) && adding == old(adding)
        && cart.requests == old(cart.requests) && cart.loading == old(cart.loading)
        && cart.addsInFlight == old(cart.addsInFlight)
      ensures started ==>
        adding && AddDisabled(product, adding) && redirect == old(redirect)
        && cart.requests == old(cart.requests) + [AddItem(product.id, DefaultAddQuantity)]
        && cart.loading && cart.addsInFlight == old(cart.addsInFlight) + 1
      ensures cart.cart == old(cart.cart) && cart.notices == old(cart.notices)
      ensures togglingWishlist == old(togglingWishlist)
    {
      if AddDisabled(product, adding) {
        return false;
      }
      if user.None? {
        redirect := Some(LoginPath);
        return false;
      }
      adding := true;
      cart.BeginAddToCart(product.id, None);
      return true;
    }

    /** The second half: the store settles the add and the flag drops; the
        store's failure is not caught here and escapes as `thrown`. */
    method FinishAddToCart(reply: Reply<Cart>) returns (thrown: Option<string>)
      requires cart.addsInFlight > 0
      modifies this, cart
      ensures !adding && redirect == old(redirect) && togglingWishlist == old(togglingWishlist)
      ensures AddDisabled(product, adding) <==> product.stock == Some(0)
      ensures cart.cart == Settled(old(cart.cart), reply) && !cart.loading
      ensures cart.addsInFlight == old(cart.addsInFlight) - 1 && cart.requests == old(cart.requests)
      ensures reply.Ok? <==> thrown == None
    {
      thrown := cart.FinishAddToCart(reply);
      adding := false;
    }

    /** The first half of the heart button's handler. The heart is
        disabled while a toggle is on its way, and a click on it then does
        nothing at all. Otherwise a guest is sent to the login page, and a
        signed-in user's toggle is on its way, with the heart and the store
        both busy until the reply. */
    method BeginToggleWishlist(user: Option<User>) returns (started: bool)
      modifies this, wishlist
      ensures started <==> !old(togglingWishlist) && user.Some?
      ensures old(togglingWishlist) ==>
        redirect == old(redirect) && togglingWishlist
        && wishlist.requests == old(wishlist.requests) && wishlist.loading == old(wishlist.loading)
      ensures !old(togglingWishlist) && user.None? ==>
        redirect == Some(LoginPath) && !togglingWishlist
        && wishlist.requests == old(wishlist.requests) && wishlist.loading == old(wishlist.loading)
      ensures started ==>
        togglingWishlist && redirect == old(redirect)
        && wishlist.requests == old(wishlist.requests) + [Toggle(product.id)] && wishlist.loading
      ensures wishlist.wishlist == old(wishlist.wishlist) && wishlist.notices == old(wishlist.notices)
      ensures adding == old(adding)
    {
      if togglingWishlist {
        return false;
      }
      if user.None? {
        redirect := Some(LoginPath);
        return false;
      }
      togglingWishlist := true;
      wishlist.Send(Toggle(product.id));
      return true;
    }

    /** The second half: the store settles the toggle, which shows its
        toast (the backend's message, or the backend's error or a default),
        and the flag drops. */
    method FinishToggleWishlist(reply: Reply<WishlistReply>)
      modifies this, wishlist
      ensures !togglingWishlist && adding == old(adding) && redirect == old(redirect)
      ensures wishlist.requests == old(wishlist.requests) && !wishlist.loading
      ensures reply.Ok? ==>
        wishlist.wishlist == reply.payload.wishlist
        && wishlist.notices == old(wishlist.notices) + [Notice(Success, reply.payload.message)]
      ensures reply.Err? ==>
        wishlist.wishlist == old(wishlist.wishlist)
        && wishlist.notices == old(wishlist.notices) + [Notice(Error, OrElse(reply.message, ToggleFailedMessage))]
    {
      var _ := wishlist.FinishToggle(reply);
      togglingWishlist := false;
    }
  }
}
