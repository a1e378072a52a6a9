/** The product page: which product it shows (the backend's, or the bundled
    one with that id), the related products under it, the image gallery
    with its arrows and thumbnails, the stock line and the add button. */
module ProductDetail {
  import opened Common
  import opened Catalog
  import opened CartStore
  import opened Wishlist
  import opened Toasts

  const FallbackImage := "/assets/test-image.jpg"
  const RelatedLimit := 4
  const LowStockLimit := 5

  // ------------------------------------------------------------ the gallery

  /** The gallery: the product's image list when it has one, else its single
      image, else the fallback picture. */
  function Images(p: Product): (images: seq<ImageEntry>)
    ensures |images| >= 1
    ensures |p.images| > 0 ==> images == p.images
    ensures |p.images| == 0 && p.image != "" ==> images == [ImageObject(p.image)]
    ensures |p.images| == 0 && p.image == "" ==> images == [ImageObject(FallbackImage)]
  {
    if |p.images| > 0 then p.images
    else if p.image != "" then [ImageObject(p.image)]
    else [ImageObject(FallbackImage)]
  }

  /** `getImageUrl`: the entry's url when it starts with "http", the fallback
      picture for anything else (a relative path, an empty url, null). */
  function ImageUrl(e: ImageEntry): (url: string)
    ensures url == FallbackImage || (|url| >= 4 && url[..4] == "http")
    ensures e.ImageObject? && |e.url| >= 4 && e.url[..4] == "http" ==> url == e.url
    ensures e.ImageText? && |e.text| >= 4 && e.text[..4] == "http" ==> url == e.text
    ensures e.ImageObject? && !(|e.url| >= 4 && e.url[..4] == "http") ==> url == FallbackImage
    ensures e.ImageText? && !(|e.text| >= 4 && e.text[..4] == "http") ==> url == FallbackImage
    ensures e.NoImage? ==> url == FallbackImage
  {
    var u := match e
      case ImageObject(url) => url
      case ImageText(text) => text
      case NoImage => "";
    if |u| >= 4 && u[..4] == "http" then u else FallbackImage
  }

  /** The left arrow: one back, wrapping from the first to the last. */
  function PrevImage(selected: int, count: int): (r: int)
    ensures selected == 0 ==> r == count - 1
    ensures selected != 0 ==> r == selected - 1
  {
    if selected == 0 then count - 1 else selected - 1
  }

  /** The right arrow: one on, wrapping from the last to the first. */
  function NextImage(selected: int, count: int): (r: int)
    ensures selected == count - 1 ==> r == 0
    ensures selected != count - 1 ==> r == selected + 1
  {
    if selected == count - 1 then 0 else selected + 1
  }

  /** Within a gallery the arrows stay in range and undo each other. */
  lemma ArrowsInverse(selected: int, count: int)
    requires 0 <= selected < count
    ensures 0 <= PrevImage(selected, count) < count && 0 <= NextImage(selected, count) < count
    ensures NextImage(PrevImage(selected, count), count) == selected
    ensures PrevImage(NextImage(selected, count), count) == selected
  {
  }

  /** `ArrowsInverse` for every selection of a gallery at once. */
  lemma ArrowsInverseAll(count: int)
    ensures forall s :: 0 <= s < count ==>
      0 <= PrevImage(s, count) < count && 0 <= NextImage(s, count) < count
  {
    forall s | 0 <= s < count
      ensures 0 <= PrevImage(s, count) < count && 0 <= NextImage(s, count) < count
    {
      ArrowsInverse(s, count);
    }
  }

  /** Pressing the right arrow walks round the gallery: up to `count`
      presses move the selection on by that many places, wrapping once, so
      `count` presses come back to the start. */
  lemma {:induction false} NextCycles(selected: int, count: int, steps: nat)
    requires 0 <= selected < count && steps <= count
    ensures selected + steps < count ==> Advance(selected, count, steps) == selected + steps
    ensures selected + steps >= count ==> Advance(selected, count, steps) == selected + steps - count
    ensures steps == count ==> Advance(selected, count, steps) == selected
    decreases steps
  {
    if steps > 0 {
      NextCycles(selected, count, steps - 1);
    }
  }

  /** The right arrow pressed `steps` times. */
  function Advance(selected: int, count: int, steps: nat): int
    decreases steps
  {
    if steps == 0 then selected else NextImage(Advance(selected, count, steps - 1), count)
  }

  // ------------------------------------------------------------ the stock

  /** `countInStock || stock || 0`: a count of 0 falls through to `stock`. */
  function StockValue(p: Product): (v: int)
    ensures p.countInStock.Some? && p.countInStock.value != 0 ==> v == p.countInStock.value
    ensures (p.countInStock.None? || p.countInStock.value == 0) && p.stock.Some? ==> v == p.stock.value
    ensures (p.countInStock.None? || p.countInStock.value == 0) && p.stock.None? ==> v == 0
  {
    if p.countInStock.Some? && p.countInStock.value != 0 then p.countInStock.value
    else if p.stock.Some? then p.stock.value
    else 0
  }

  /** The "Only N left!" badge. */
  predicate LowStock(p: Product)
  {
    0 < StockValue(p) <= LowStockLimit
  }

  /** The add button is disabled while adding or when the stock is exactly 0. */
  predicate AddDisabled(p: Product, adding: bool)
  {
    adding || StockValue(p) == 0
  }

  /** The add button's label. */
  function AddLabel(p: Product, adding: bool): (caption: string)
    ensures StockValue(p) == 0 ==> caption == "Out of Stock"
    ensures StockValue(p) != 0 && adding ==> caption == "Adding..."
    ensures StockValue(p) != 0 && !adding ==> caption == "Add to Cart"
  {
    if StockValue(p) == 0 then "Out of Stock" else if adding then "Adding..." else "Add to Cart"
  }

  /** The badge, the button and the label agree: an enabled button always
      says "Add to Cart", and a product with the low-stock badge can be
      added. A count in stock of 0 falls through to `stock`, so such a
      product shows the badge for a low `stock`. */
  lemma StockViewsAgree(p: Product, adding: bool)
    ensures !AddDisabled(p, adding) ==> AddLabel(p, adding) == "Add to Cart"
    ensures LowStock(p) && !adding ==> !AddDisabled(p, adding)
    ensures StockValue(p) == 0 ==> AddDisabled(p, adding) && !LowStock(p)
    ensures (p.countInStock.None? || p.countInStock == Some(0)) ==>
      (LowStock(p) <==> p.stock.Some? && 0 < p.stock.value <= LowStockLimit)
  {
  }

  // ------------------------------------------------------------ loading

  /** The product the page shows: the backend's answer when it has an id and
      a name, the bundled product with the route's id otherwise (a failed
      call, or an answer without those fields). `fromBundle` records which. */
  datatype Resolved = Resolved(product: Option<Product>, fromBundle: bool)

  function Resolve(bundle: seq<Product>, routeId: string, reply: Reply<Option<Product>>): (r: Resolved)
    ensures reply.Ok? && reply.payload.Some? && reply.payload.value.id != "" && reply.payload.value.name != "" ==>
      r == Resolved(reply.payload, false)
    ensures !(reply.Ok? && reply.payload.Some? && reply.payload.value.id != "" && reply.payload.value.name != "") ==>
      r.fromBundle && r.product == ProductById(bundle, routeId)
  {
    if reply.Ok? && reply.payload.Some? && reply.payload.value.id != "" && reply.payload.value.name != "" then
      Resolved(reply.payload, false)
    else
      Resolved(ProductById(bundle, routeId), true)
  }

  /** At most four products other than the one on the page, in order. */
  function RelatedFrom(candidates: seq<Product>, routeId: string): (r: seq<Product>)
    ensures |r| <= RelatedLimit
    ensures forall i :: 0 <= i < |r| ==> r[i] in candidates && r[i].id != routeId
  {
    Take(Filter(candidates, (p: Product) => p.id != routeId), RelatedLimit)
  }

  /** Related products for a bundled product: the bundled products of its
      category slug (or of its bare category string), None when it has no
      category at all (the list is then left as it was). A category record
      without a slug is looked up by the record itself, which matches
      nothing. */
  function BundleRelated(bundle: seq<Product>, p: Product, routeId: string): (r: Option<seq<Product>>)
    ensures p.category.CategoryObject? && p.category.cat.slug != "" ==>
      r == Some(RelatedFrom(ProductsByCategory(bundle, p.category.cat.slug), routeId))
    ensures p.category.CategoryObject? && p.category.cat.slug == "" ==> r == Some([])
    ensures p.category.NoCategory? || (p.category.CategoryId? && p.category.categoryId == "") ==> r == None
  {
    match p.category
    case CategoryObject(cat) =>
      if cat.slug != "" then Some(RelatedFrom(ProductsByCategory(bundle, cat.slug), routeId)) else Some([])
    case CategoryId(x) =>
      if x != "" then Some(RelatedFrom(ProductsByCategory(bundle, x), routeId)) else None
    case NoCategory => None
  }

  /** The category id a backend product is queried by ("" for none). */
  function CategoryKey(p: Product): string
  {
    match p.category
    case CategoryObject(cat) => cat.id
    case CategoryId(x) => x
    case NoCategory => ""
  }

  /** Related products for a backend product: from the backend's list for
      its category id, or, when that call fails, from the bundle by the
      category's slug; None when nothing is set. */
  function BackendRelated(bundle: seq<Product>, p: Product, routeId: string, reply: Reply<seq<Product>>): (r: Option<seq<Product>>)
    ensures CategoryKey(p) == "" ==> r == None
    ensures CategoryKey(p) != "" && reply.Ok? ==> r == Some(RelatedFrom(reply.payload, routeId))
    ensures CategoryKey(p) != "" && reply.Err? && SlugOf(p) != "" ==>
      r == Some(RelatedFrom(ProductsByCategory(bundle, SlugOf(p)), routeId))
    ensures CategoryKey(p) != "" && reply.Err? && SlugOf(p) == "" ==> r == None
  {
    if CategoryKey(p) == "" then None
    else if reply.Ok? then Some(RelatedFrom(reply.payload, routeId))
    else if SlugOf(p) != "" then Some(RelatedFrom(ProductsByCategory(bundle, SlugOf(p)), routeId))
    else None
  }

  /** A related list, whichever way it was found, has at most four products
      and never the one on the page. */
  lemma RelatedExcludesPage(bundle: seq<Product>, p: Product, routeId: string, fromBundle: bool, reply: Reply<seq<Product>>)
    ensures var r := if fromBundle then BundleRelated(bundle, p, routeId) else BackendRelated(bundle, p, routeId, reply);
      r.Some? ==> |r.value| <= RelatedLimit && forall i :: 0 <= i < |r.value| ==> r.value[i].id != routeId
  {
  }

  // ------------------------------------------------------------ the page

  class ProductDetail {
    /** The bundled catalogue the page falls back to. */
    const bundle: seq<Product>
    /** The id in the route; it changes when a related product is followed
        while the page stays mounted. */
    var routeId: string
    const cart: CartStore
    const wishlist: WishlistStore
    var product: Option<Product>
    var related: seq<Product>
    var loading: bool
    var adding: bool
    var togglingWishlist: bool
    var selectedImage: int

    /** `bundle` is the catalogue the page module imports (the application
        passes `Catalogue`). */
    constructor (routeId: string, cart: CartStore, wishlist: WishlistStore, bundle: seq<Product>)
      ensures this.bundle == bundle
      ensures this.routeId == routeId && this.cart == cart && this.wishlist == wishlist
      ensures product == None && related == [] && loading
      ensures !adding && !togglingWishlist && selectedImage == 0
    {
      this.bundle := bundle;
      this.routeId := routeId;
      this.cart := cart;
      this.wishlist := wishlist;
      product := None;
      related := [];
      loading := true;
      adding := false;
      togglingWishlist := false;
      selectedImage := 0;
    }

    /** The gallery's selection points at one of the shown product's
        images. */
    predicate SelectionInRange()
      reads this
    {
      product.Some? ==> 0 <= selectedImage < |Images(product.value)|
    }

    /** The route's id changes while the page stays mounted (a related
        product's card was followed). The effect on the id then runs again,
        which is `LoadAsWritten`; until it settles the page keeps showing the
        previous product, its related list and its selected image. */
    method RouteChanged(id: string)
      modifies this
      ensures routeId == id
      ensures product == old(product) && related == old(related) && loading == old(loading)
      ensures adding == old(adding) && togglingWishlist == old(togglingWishlist)
      ensures selectedImage == old(selectedImage)
    {
      routeId := id;
    }

    /** The load effect for the route's id as the page runs it: the product
        and its related list are settled, and the selected image is left
        where it was. */
    method LoadAsWritten(productReply: Reply<Option<Product>>, relatedReply: Reply<seq<Product>>)
      modifies this
      ensures routeId == old(routeId)
      ensures var res := Resolve(bundle, routeId, productReply);
        && !loading
        && (res.product.None? ==> product == old(product) && related == old(related))
        && (res.product.Some? ==>
          product == res.product
          && var r := if res.fromBundle then BundleRelated(bundle, res.product.value, routeId)
                      else BackendRelated(bundle, res.product.value, routeId, relatedReply);
            related == if r.Some? then r.value else old(related))
      ensures selectedImage == old(selectedImage)
      ensures adding == old(adding) && togglingWishlist == old(togglingWishlist)
    {
      loading := true;
      var res := Resolve(bundle, routeId, productReply);
      if res.product.Some? {
        product := res.product;
        var r := if res.fromBundle then BundleRelated(bundle, res.product.value, routeId)
                 else BackendRelated(bundle, res.product.value, routeId, relatedReply);
        if r.Some? {
          related := r.value;
        }
      }
      loading := false;
    }

    /** The load effect with the selection reset to the first image, which
        keeps the selection in range for whatever product is shown. */
    method Load(productReply: Reply<Option<Product>>, relatedReply: Reply<seq<Product>>)
      modifies this
      ensures routeId == old(routeId)
      ensures var res := Resolve(bundle, routeId, productReply);
        && !loading
        && (res.product.None? ==> product == old(product) && related == old(related))
        && (res.product.Some? ==>
          product == res.product
          && var r := if res.fromBundle then BundleRelated(bundle, res.product.value, routeId)
                      else BackendRelated(bundle, res.product.value, routeId, relatedReply);
            related == if r.Some? then r.value else old(related))
      ensures selectedImage == 0 && SelectionInRange()
      ensures product.Some? ==> MainPicture(product.value, selectedImage) == ImageUrl(Images(product.value)[0])
      ensures adding == old(adding) && togglingWishlist == old(togglingWishlist)
    {
      LoadAsWritten(productReply, relatedReply);
      selectedImage := 0;
    }

    /** The left arrow, drawn only when the product has more than one
        image; it accepts whatever index is selected, even a stale one. */
    method PrevImageClicked()
      requires product.Some? && |Images(product.value)| > 1
      modifies this
      ensures routeId == old(routeId)
      ensures product == old(product) && related == old(related) && loading == old(loading)
      ensures adding == old(adding) && togglingWishlist == old(togglingWishlist)
      ensures selectedImage == PrevImage(old(selectedImage), |Images(product.value)|)
      ensures old(SelectionInRange()) ==> SelectionInRange()
    {
      ArrowsInverseAll(|Images(product.value)|);
      selectedImage := PrevImage(selectedImage, |Images(product.value)|);
    }

    /** The right arrow, drawn under the same condition. */
    method NextImageClicked()
      requires product.Some? && |Images(product.value)| > 1
      modifies this
      ensures routeId == old(routeId)
      ensures product == old(product) && related == old(related) && loading == old(loading)
      ensures adding == old(adding) && togglingWishlist == old(togglingWishlist)
      ensures selectedImage == NextImage(old(selectedImage), |Images(product.value)|)
      ensures old(SelectionInRange()) ==> SelectionInRange()
    {
      ArrowsInverseAll(|Images(product.value)|);
      selectedImage := NextImage(selectedImage, |Images(product.value)|);
    }

    /** A thumbnail click selects that image; the thumbnails are drawn,
        like the arrows, only when the product has more than one image. */
    method ThumbnailClicked(index: int)
      requires product.Some? && |Images(product.value)| > 1 && 0 <= index < |Images(product.value)|
      modifies this
      ensures routeId == old(routeId)
      ensures selectedImage == index && SelectionInRange()
      ensures product == old(product) && related == old(related) && loading == old(loading)
      ensures adding == old(adding) && togglingWishlist == old(togglingWishlist)
    {
      selectedImage := index;
    }

    /** The first half of `handleAddToCart`. The button is disabled while
        an add is on its way and when the stock reads 0, and a click on it
        then does nothing; otherwise the add is on its way. */
    method BeginAddToCart() returns (started: bool)
      requires product.Some?
      modifies this, cart
      ensures routeId == old(routeId)
      ensures product == old(product) && selectedImage == old(selectedImage)
      ensures started <==> !AddDisabled(product.value, old(adding))
      ensures started ==>
        adding && cart.loading && cart.addsInFlight == old(cart.addsInFlight) + 1
        && cart.requests == old(cart.requests) + [AddItem(product.value.id, DefaultAddQuantity)]
      ensures !started ==>
        adding == old(adding) && cart.loading == old(cart.loading)
        && cart.addsInFlight == old(cart.addsInFlight) && cart.requests == old(cart.requests)
      ensures cart.cart == old(cart.cart) && cart.notices == old(cart.notices)
      ensures togglingWishlist == old(togglingWishlist)
    {
      started := !AddDisabled(product.value, adding);
      if started {
        adding := true;
        cart.BeginAddToCart(product.value.id, None);
      }
    }

    /** The second half: a failure of the store is caught here (and only
        logged), and the flag drops whatever the outcome. */
    method FinishAddToCart(reply: Reply<Cart>)
      requires cart.addsInFlight > 0
      modifies this, cart
      ensures routeId == old(routeId)
      ensures !adding && cart.cart == Settled(old(cart.cart), reply) && !cart.loading
      ensures cart.addsInFlight == old(cart.addsInFlight) - 1 && cart.requests == old(cart.requests)
      ensures product == old(product) && selectedImage == old(selectedImage)
      ensures togglingWishlist == old(togglingWishlist)
    {
      var _ := cart.FinishAddToCart(reply);
      adding := false;
    }

    /** The first half of `handleWishlistToggle`, from the heart button
        (no sign-in check). The heart is disabled while a toggle is on its
        way, and a click on it then does nothing; otherwise the heart is
        disabled and the store's toggle is on its way. */
    method BeginToggleWishlist() returns (started: bool)
      requires product.Some?
      modifies this, wishlist
      ensures routeId == old(routeId)
      ensures started <==> !old(togglingWishlist)
      ensures product == old(product) && selectedImage == old(selectedImage) && adding == old(adding)
      ensures togglingWishlist
      ensures started ==>
        wishlist.loading && wishlist.requests == old(wishlist.requests) + [Toggle(product.value.id)]
      ensures !started ==>
        wishlist.loading == old(wishlist.loading) && wishlist.requests == old(wishlist.requests)
      ensures wishlist.wishlist == old(wishlist.wishlist) && wishlist.notices == old(wishlist.notices)
    {
      started := !togglingWishlist;
      if started {
        togglingWishlist := true;
        wishlist.Send(Toggle(product.value.id));
      }
    }

    /** The second half: the store settles the toggle, which shows its
        toast (its outcome is never thrown), and the heart is enabled
        again. */
    method FinishToggleWishlist(reply: Reply<WishlistReply>)
      modifies this, wishlist
      ensures routeId == old(routeId)
      ensures product == old(product) && selectedImage == old(selectedImage) && adding == old(adding)
      ensures !togglingWishlist && !wishlist.loading
      ensures wishlist.requests == old(wishlist.requests)
      ensures reply.Ok? ==>
        wishlist.wishlist == reply.payload.wishlist
        && wishlist.notices == old(wishlist.notices) + [Notice(Success, reply.payload.message)]
      ensures reply.Err? ==>
        wishlist.wishlist == old(wishlist.wishlist)
        && wishlist.notices == old(wishlist.notices) + [Notice(Error, OrElse(reply.message, ToggleFailedMessage))]
    {
      var _ := wishlist.FinishToggle(reply);
      togglingWishlist := false;
    }
  }

  /** The main picture: `getImageUrl(images[selectedImage])`. An index
      outside the gallery reads `undefined`, which gives the fallback. */
  function MainPicture(p: Product, selected: int): (url: string)
    ensures 0 <= selected < |Images(p)| ==> url == ImageUrl(Images(p)[selected])
    ensures !(0 <= selected < |Images(p)|) ==> url == FallbackImage
  {
    if 0 <= selected < |Images(p)| then ImageUrl(Images(p)[selected]) else FallbackImage
  }

  /** The stale selection: with the second image of d2 selected, a load
      that brings d9 (both processors, so d9 is among d2's related
      products) leaves the selection past the end of d9's one-image
      gallery. The main picture is the placeholder instead of d9's own,
      and with a single image no arrows or thumbnails are drawn, so
      nothing on the page brings the picture back. */
  lemma StaleSelectionAfterLoad()
    ensures |Images(ProductD2)| == 2 && |Images(ProductD9)| == 1
    ensures ProductD2.id == "d2" && ProductD9.id == "d9" && SlugOf(ProductD9) == SlugOf(ProductD2)
    ensures MainPicture(ProductD9, 1) == FallbackImage
    ensures MainPicture(ProductD9, 0) != FallbackImage
  {
    var url := ProductD9.images[0].url;
    assert Unsplash[..4] == "http";
    assert url[..4] == Unsplash[..4];
    assert MainPicture(ProductD9, 0) == url;
  }

  /** With the reset, the main picture is the product's first image, and
      from any selection in the gallery both arrows stay in it, so every
      picture the page goes on to show is one of the product's own. */
  lemma ResetSelectionInRange(p: Product)
    ensures MainPicture(p, 0) == ImageUrl(Images(p)[0])
    ensures forall s :: 0 <= s < |Images(p)| ==>
      0 <= NextImage(s, |Images(p)|) < |Images(p)| && 0 <= PrevImage(s, |Images(p)|) < |Images(p)|
  {
    ArrowsInverseAll(|Images(p)|);
  }
}
