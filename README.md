# BuildOwn storefront client — a Dafny model

BuildOwn is a React storefront for PC parts, run as a single-page client
over a REST backend. This project models the parts of the client that hold
its logic, one module per source file:

- **Checkout** (`Checkout`): the shipping form and its prefill from saved addresses or the detected location; the step-1 guard; order placement as a state machine over the backend's replies, the simulated two-second confirmation and the payment gateway's `handler` and `ondismiss` callbacks; the summary arithmetic with the cash-on-delivery fee.
- **Stores** (`CartStore`, `Wishlist`, `Location`, `Toasts`): classes whose fields are the React state and whose methods are the context's operations. Each backend call is a parameter of type `Reply`, either `Ok(payload)` or `Err(message)`.
- **Pages** (`CartPage`, `ProductsPage`, `ProductDetail`, `ProductCard`, `OrderDetails`, `OrderSuccess`, `Register`, `Navbar`): each page's state changes are methods of a class, and its fallbacks and labels are functions.
- **Shell and catalogue** (`App`, `ProtectedRoute`, `Catalog`): the title table, the admin chrome switch, the route guard, and the bundled catalogue with its lookups, filter and sorts.
- **Admin pages** (`OrderManagement`, `CouponManagement`, `ProductManagement`): paging and request paths, status colours, coupon search and creation, product form mapping and saves.
- **Shared values** (`Common`, `Accounts`, `Orders`): the optional value, the backend reply, JavaScript's falsy empty string (`OrElse`), ASCII case mapping, substring search, whole-number printing (`IntText`) and parsing (`NumberValue`), the signed-in user and the order record.

Notifications, navigation, alerts and backend requests are recorded in
append-only logs (`notices`, `navigation`, `alerts`, `calls`). The contracts
state what each operation adds to them and what it leaves unchanged.

## Model

| member | source | states |
|---|---|---|
| Common.FilterAppend | client/src/data/dummyData.js:223-233 | `filter` keeps list order: the filter of two joined lists is the filter of the first followed by that of the second |
| Common.FilterKeepsAll | client/src/pages/Register.jsx:302 | a filter returns as many elements as it was given exactly when every element passes |
| Toasts.WithoutId | client/src/context/ToastContext.jsx:20-22 | the toasts left after removing an id are exactly those of the queue with another id, and never more of them |
| Toasts.WithoutIdDistributes | client/src/context/ToastContext.jsx:21 | removal keeps the order of what it keeps: it distributes over concatenation |
| Toasts.WithoutAbsentId | client/src/context/ToastContext.jsx:21 | removing an id that no toast carries leaves the queue unchanged |
| Toasts.AddThenRemove | client/src/context/ToastContext.jsx:9-22 | adding a toast with a fresh id and removing that id (the timer or the close button) restores the queue exactly |
| Toasts.RemoveIdempotent | client/src/context/ToastContext.jsx:20-22 | removing an id twice is the same as removing it once |
| Toasts.ToastQueue.constructor | client/src/context/ToastContext.jsx:7 | the queue starts empty |
| Toasts.ToastQueue.AddToast | client/src/context/ToastContext.jsx:9-18 | appends exactly one toast, type 'success' and 3000 ms when left out; the automatic removal is scheduled exactly when the duration is positive |
| Toasts.ToastQueue.RemoveToast | client/src/context/ToastContext.jsx:20-22 | the queue becomes the old queue without that id; membership characterised both ways |
| Toasts.ToastQueue.Show | client/src/context/ToastContext.jsx:24-27 | the typed helpers append one toast of their own type, with the same timer rule |
| Toasts.SwipeTracker.constructor | client/src/context/ToastContext.jsx:47-50 | no touch recorded and no offset |
| Toasts.SwipeTracker.TouchStart | client/src/context/ToastContext.jsx:65-69 | records the start point only in the mobile layout |
| Toasts.SwipeTracker.TouchMove | client/src/context/ToastContext.jsx:71-79 | the offset becomes the travel from the start point only when it is downward, on mobile, after a start |
| Toasts.SwipeTracker.TouchEnd | client/src/context/ToastContext.jsx:81-89 | closes the toast exactly when a mobile swipe travelled more than 50 pixels, then forgets the gesture |
| CartStore.Settled | client/src/context/CartContext.jsx:20-89 | after a reply the cart is the server's cart on success and the previous cart on failure |
| CartStore.FetchOnlyForCustomers | client/src/context/CartContext.jsx:14-18 | the cart is fetched exactly for a signed-in customer; never for a guest |
| CartStore.CartStore.constructor | client/src/context/CartContext.jsx:9-10 | no cart, not loading, nothing sent |
| CartStore.CartStore.UserChanged | client/src/context/CartContext.jsx:14-18 | a customer's session sends one fetch and settles the cart; any other user sends nothing and keeps the cart |
| CartStore.CartStore.FetchCart | client/src/context/CartContext.jsx:20-27 | one GET of the cart; a failure keeps the cart and shows nothing |
| CartStore.CartStore.BeginAddToCart | client/src/context/CartContext.jsx:29-32 | loading goes on and one add request goes out, with quantity 1 when left out |
| CartStore.CartStore.FinishAddToCart | client/src/context/CartContext.jsx:33-42 | loading goes off whatever the outcome; success toasts 'Product added to cart'; failure toasts the server's message or the default and is handed back |
| CartStore.CartStore.BeginUpdateCartItem | client/src/context/CartContext.jsx:45-48 | one update request for that product and quantity goes out; the cart is unchanged until the reply |
| CartStore.CartStore.FinishUpdateCartItem | client/src/context/CartContext.jsx:48-52 | the reply settles the cart (a success stores the returned cart, a failure is swallowed and the cart kept); no further request goes out |
| CartStore.CartStore.RemoveFromCart | client/src/context/CartContext.jsx:54-61 | one remove request; the cart settles; a failure is swallowed |
| CartStore.CartStore.ApplyCoupon | client/src/context/CartContext.jsx:63-71 | one apply request; the cart settles; a failure is handed back with the server's message |
| CartStore.CartStore.RemoveCoupon | client/src/context/CartContext.jsx:73-80 | one remove-coupon request; the cart settles; a failure is swallowed |
| CartStore.CartStore.ClearCart | client/src/context/CartContext.jsx:82-89 | one clear request; the cart settles; a failure is swallowed |
| CartPage.DisplayedTax | client/src/pages/Cart.jsx:174 | the tax row is the server's tax, or 18% of the subtotal when the server reports none |
| CartPage.ViewShape | client/src/pages/Cart.jsx:40-174 | the empty-bag view appears exactly when there is no cart or no item; otherwise one line per item with total price times quantity, and a discount row exactly when a coupon is applied |
| CartPage.TypedCoupon | client/src/pages/Cart.jsx:204 | the coupon field holds what was typed upper-cased: the same length, no lower-case letter, and the same text once both are lower-cased |
| CartPage.CartPage.constructor | client/src/pages/Cart.jsx:12-15 | empty field, no messages, no item gated |
| CartPage.CartPage.TypeCoupon | client/src/pages/Cart.jsx:204-209 | the field becomes the typed text upper-cased and the Apply button is disabled exactly when nothing was typed; nothing else changes |
| CartPage.CartPage.BeginQuantityChange | client/src/pages/Cart.jsx:17-122 | a click while that item is updating (its buttons are disabled) or a quantity below 1 does nothing; otherwise the update request is sent to the store at once, with the store's cart unchanged, and that item's minus and plus buttons, and no other item's, are disabled |
| CartPage.CartPage.FinishQuantityChange | client/src/pages/Cart.jsx:20-21 | the store settles that update without sending anything more, and every item's buttons are enabled again, even while another update is pending |
| CartPage.CartPage.ApplyCoupon | client/src/pages/Cart.jsx:24-35 | both messages cleared; an empty field sends nothing; otherwise exactly one of success or the server's message (else 'Invalid coupon code') |
| Location.FirstNonEmpty | client/src/context/LocationContext.jsx:26-29 | a chain of JavaScript or-fallbacks: "" exactly when every option is empty, otherwise the first non-empty option |
| Location.FromAddress | client/src/context/LocationContext.jsx:26-38 | a successful lookup stops loading and clears the error; the city is the first non-empty of city, town, village and suburb, the street the road or else the neighbourhood, the postal code and state as answered |
| Location.Failed | client/src/context/LocationContext.jsx:39-50 | a failure keeps the four fields, stops loading and records the error |
| Location.MergeProperties | client/src/context/LocationContext.jsx:58-60 | supplied keys overwrite and others keep their value; an empty patch changes nothing; merging twice equals merging once |
| Location.LocationStore.constructor | client/src/context/LocationContext.jsx:6-13 | empty fields, loading, no error |
| Location.LocationStore.DetectLocation | client/src/context/LocationContext.jsx:15-51 | loading goes on and nothing else changes while the position is asked for; without geolocation it fails at once with 'Geolocation not supported' |
| Location.LocationStore.LookupSettled | client/src/context/LocationContext.jsx:19-47 | an answer fills the fields; a failed lookup and a refusal each record their own error and keep the fields |
| Location.LocationStore.UpdateLocation | client/src/context/LocationContext.jsx:58-60 | the record becomes the merge of the patch into it |
| Checkout.InitialAddress | client/src/pages/Checkout.jsx:23-31 | the form starts blank, country India, with the user's phone and name when signed in |
| Checkout.NameAndStateUnchecked | client/src/pages/Checkout.jsx:296 | the step-1 check ignores the name and the state: blanking them never changes its verdict |
| Checkout.ChosenAddress | client/src/pages/Checkout.jsx:35 | the saved address used is the first one marked default when there is one, else the first |
| Checkout.PrefillFromSaved | client/src/pages/Checkout.jsx:33-44 | with saved addresses the form comes wholly from the chosen one, name and phone falling back to the user's, country to India |
| Checkout.PrefillFromLocation | client/src/pages/Checkout.jsx:45-53 | without saved addresses the location is used only when it has a city or a postal code, each non-empty field overwriting; name, country and phone untouched |
| Checkout.LocationPrefillKeepsComplete | client/src/pages/Checkout.jsx:45-53 | a location prefill never blanks a field, so a form that passed the step-1 check still passes it |
| Checkout.ShippingOf | client/src/pages/Checkout.jsx:65-73 | the order's address line and postal code are the form's street and zip code |
| Checkout.OptionsFor | client/src/pages/Checkout.jsx:111-118 | the gateway gets the total in paise, INR, the backend's gateway order and key, and 'Order #' with the order number |
| Checkout.CashOnDeliverySurcharge | client/src/pages/Checkout.jsx:411-427 | online shows the cart's own figures; cash on delivery adds the ₹50 fee plus 18% of it to the total and that 18% to the tax row |
| Checkout.CheckoutSession.constructor | client/src/pages/Checkout.jsx:18-31 | step 1, online payment, nothing loading or sent, the initial form |
| Checkout.CheckoutSession.Prefill | client/src/pages/Checkout.jsx:33-54 | the form becomes the prefilled form for the new user and location; nothing else changes |
| Checkout.CheckoutSession.ChangeField | client/src/pages/Checkout.jsx:56-58 | one input changes exactly one field |
| Checkout.CheckoutSession.Proceed | client/src/pages/Checkout.jsx:295-300 | moves to step 2 exactly when the check passes; otherwise stays and shows 'Please fill in all shipping details' |
| Checkout.CheckoutSession.EditAddress | client/src/pages/Checkout.jsx:219-220 | back to step 1, nothing else changes |
| Checkout.CheckoutSession.SelectPaymentMethod | client/src/pages/Checkout.jsx:326-340 | the chosen method is recorded; nothing else changes |
| Checkout.CheckoutSession.PressPay | client/src/pages/Checkout.jsx:60-75 | does anything exactly when not already loading; then one create-order request with the form's address and the method, the form's phone and whether a user is signed in are remembered for the gateway, and no second order goes out while one is pending |
| Checkout.CheckoutSession.CreateOrderSettled | client/src/pages/Checkout.jsx:76-160 | failure: the message or 'Failed to place order', loading off; trial, no gateway order or cash on delivery: the delay starts behind the overlay; otherwise the gateway opens with its options, prefilled with the phone captured when pay was pressed, and only if a user was signed in then |
| Checkout.CheckoutSession.SucceedWith | client/src/pages/Checkout.jsx:96-98 | two clear-cart requests and a move to the success page with the order |
| Checkout.CheckoutSession.DelayExpired | client/src/pages/Checkout.jsx:82-98 | with a gateway order a trial verification goes out; without one the cart is cleared twice and the success page shown |
| Checkout.CheckoutSession.TrialVerifySettled | client/src/pages/Checkout.jsx:88-105 | success clears the cart twice and shows the order; failure goes to the order list and leaves the cart |
| Checkout.CheckoutSession.GatewayHandler | client/src/pages/Checkout.jsx:119-127 | the overlay shows and one verification request carries the gateway's three values and the order id |
| Checkout.CheckoutSession.VerifySettled | client/src/pages/Checkout.jsx:127-135 | success clears twice and shows the order; failure shows the support message and drops the overlay while loading stays on |
| Checkout.CheckoutSession.GatewayDismissed | client/src/pages/Checkout.jsx:146-149 | loading off and 'Payment cancelled', with no request and no cart change |
| Catalog.ProductById | client/src/data/dummyData.js:218-220 | `find` by id: None exactly when no product has the id, else the first product carrying it |
| Catalog.GetProductById | client/src/data/dummyData.js:218-220 | over the bundled catalogue: None exactly when no product has the id, else a catalogue product with that id |
| Catalog.ProductsByCategory | client/src/data/dummyData.js:223-228 | the whole list for an empty slug, else exactly the products whose category has that slug, never more than the list holds |
| Catalog.ProductsByCategoryKeepsOrder | client/src/data/dummyData.js:223-228 | the category filter keeps list order: it distributes over joined lists, and a single product stays exactly when the slug is empty or its own |
| Catalog.GetProductsByCategory | client/src/data/dummyData.js:223-228 | over the bundled catalogue it is the category filter above, so every product of the category, nothing else, in catalogue order |
| Catalog.FeaturedOf | client/src/data/dummyData.js:231-233 | exactly the featured products of a list, never more than it holds |
| Catalog.FeaturedKeepsOrder | client/src/data/dummyData.js:231-233 | the featured filter distributes over joined lists, and a single product stays exactly when it is featured |
| Catalog.GetFeaturedProducts | client/src/data/dummyData.js:231-233 | the featured filter over the bundled catalogue: exactly the featured products, in catalogue order |
| Catalog.GetCategoryBySlug | client/src/data/dummyData.js:284-286 | None exactly when no category has the slug, else the first one that does |
| Catalog.Insert | client/src/data/dummyData.js:263-269 | inserting into a price-sorted list keeps it sorted and adds exactly that product |
| Catalog.SortByPrice | client/src/data/dummyData.js:263-269 | the price sort yields a permutation of its input, sorted ascending or descending |
| Catalog.Narrow | client/src/data/dummyData.js:236-261 | the four successive filters (category, search in name, description or brand, minimum, maximum) keep exactly the products the query selects, in order |
| Catalog.FilterAndSort | client/src/data/dummyData.js:236-280 | the result holds exactly the selected products, as a permutation of the filtered list, sorted by price for the two price keys and in list order for any key but 'rating' |
| Catalog.FilterAndSortProducts | client/src/data/dummyData.js:236-280 | the same over the bundled catalogue, which is never changed |
| ProductsPage.PriceInput | client/src/pages/Products.jsx:190-200 | text that is not a number, or is zero, gives the fallback; any other number is kept |
| ProductsPage.PriceInputRoundTrip | client/src/pages/Products.jsx:190-200 | a non-zero price typed as its decimal text is read back exactly |
| ProductsPage.UrlParamsRoundTrip | client/src/pages/Products.jsx:20-37 | the URL carries the category, the search and the page exactly when non-empty or past 1, and each reads back to the value it was written from |
| ProductsPage.VisibleCategories | client/src/pages/Products.jsx:114 | all categories when expanded, else the first four (or fewer) |
| ProductsPage.MobileStrip | client/src/pages/Products.jsx:306 | a prefix of the categories, at most six |
| ProductsPage.Toggled | client/src/pages/Products.jsx:150 | clicking the selected category clears it; clicking another selects it |
| ProductsPage.ToggleTwice | client/src/pages/Products.jsx:150 | worked example: two clicks on the same category from no selection select it and then clear it |
| ProductsPage.ClearAllHiddenAtDefaults | client/src/pages/Products.jsx:217 | within the slider's range the clear-all button is hidden exactly when the category, the maximum and the in-stock box hold the values clearing restores; the minimum plays no part |
| ProductsPage.ProductsPage.constructor | client/src/pages/Products.jsx:10-25 | the page starts loading on page 1 with the URL's category and search, prices 0 to 200000, sort 'recommended', the in-stock box ticked and the bundled catalogue as its fallback |
| ProductsPage.ProductsPage.HandlePageChange | client/src/pages/Products.jsx:107-112 | the page changes exactly when the new page lies between 1 and the page count |
| ProductsPage.ProductsPage.ClearFilters | client/src/pages/Products.jsx:98-105 | every filter back to its default, page 1, an empty query string, and the clear-all button hidden |
| ProductsPage.ProductsPage.ClickCategory | client/src/pages/Products.jsx:150 | the selection toggles; the page is not reset |
| ProductsPage.ProductsPage.TypePrice | client/src/pages/Products.jsx:190-200 | the edited bound takes the typed number or its fallback (0 for the minimum, 500 for the maximum); the other bound is kept |
| ProductsPage.ProductsPage.ChooseSort | client/src/pages/Products.jsx:249-258 | picking a sort entry sets the key and changes nothing else |
| ProductsPage.ProductsPage.TickInStock | client/src/pages/Products.jsx:208-211 | the box's tick becomes the flag; unticked, the 'clear all filters' button shows |
| ProductsPage.ProductsPage.FiltersChanged | client/src/pages/Products.jsx:31-61 | the query string is rewritten from the filters and one product query with the current filters and 12 per page goes out |
| ProductsPage.ProductsPage.FetchSettled | client/src/pages/Products.jsx:51-96 | a non-empty answer is shown as is; an empty answer or a failure shows a permutation of exactly the bundled products that fetch's filters select, sorted by price for the price keys and in catalogue order for every key but 'rating'; the page count follows the answer's pagination |
| ProductsPage.ProductsPage.FetchCategories | client/src/pages/Products.jsx:40-49 | the backend's categories when it has any, else the bundled ones |
| Wishlist.IsInWishlist | client/src/context/WishlistContext.jsx:52-57 | true exactly when some entry, object or bare id, stands for the product |
| Wishlist.IdlessEntriesMarkNothing | client/src/context/WishlistContext.jsx:52-57 | an object entry without an id marks no product, while an entry with the id, object or bare, marks it |
| Wishlist.WishlistStore.constructor | client/src/context/WishlistContext.jsx:9-10 | empty list, not loading |
| Wishlist.WishlistStore.UserChanged | client/src/context/WishlistContext.jsx:14-20 | a customer's change sends the fetch with loading on and the list kept until the reply; anyone else's list is emptied without a request |
| Wishlist.WishlistStore.Send | client/src/context/WishlistContext.jsx:22-25 | loading goes on and one request for the list goes out; list and toasts unchanged until the reply |
| Wishlist.WishlistStore.FinishFetch | client/src/context/WishlistContext.jsx:25-32 | the reply to the fetch: the server's list on success, an empty list on failure; loading ends off |
| Wishlist.WishlistStore.FinishToggle | client/src/context/WishlistContext.jsx:38-49 | the reply to a toggle: success takes the server's list and toasts its message; failure keeps the list and toasts the server's message or 'Failed to update wishlist'; the outcome is returned, never thrown; loading ends off |
| Wishlist.WishlistStore.FinishRemove | client/src/context/WishlistContext.jsx:62-73 | the reply to a removal: as a toggle, with 'Failed to remove from wishlist' as the default |
| Wishlist.WishlistStore.Answer | client/src/context/WishlistContext.jsx:39-48 | the shared settlement of a toggle and a removal: list, toast and returned outcome for each reply, loading off |
| ProductCard.Round | client/src/components/ProductCard.jsx:49 | `Math.round` gives the integer within a half of its argument, halves rounded up |
| ProductCard.Discount | client/src/components/ProductCard.jsx:47-52 | 0 without a compare-at price, else the percentage by which the price undercuts it, rounded |
| ProductCard.DiscountBounds | client/src/components/ProductCard.jsx:47-52 | with a positive compare-at price the discount is positive exactly when the price is at least half a percent below it; a price between 0 and the compare-at price gives 0 to 100; an equal price gives 0 |
| ProductCard.BadgeOf | client/src/components/ProductCard.jsx:78-90 | 'Sold Out' exactly for a stock of 0; otherwise the discount exactly when positive; otherwise 'New' exactly for a new product |
| ProductCard.TileImage | client/src/components/ProductCard.jsx:54-56 | the first image's url when it has one, the bundled hero picture otherwise |
| ProductCard.CardIgnoresCountInStock | client/src/components/ProductCard.jsx:111 | the tile's add button reads only `stock`: the count in stock never changes it, and without a `stock` it is disabled only while an add is on its way |
| ProductCard.ProductCard.constructor | client/src/components/ProductCard.jsx:13-14 | neither button busy, no redirect |
| ProductCard.ProductCard.BeginAddToCart | client/src/components/ProductCard.jsx:17-111 | a click on the disabled button (stock 0, or an add on its way) does nothing; otherwise a guest is sent to '/login' with no request, and a signed-in user's add of one unit goes out and the add button is disabled |
| ProductCard.ProductCard.FinishAddToCart | client/src/components/ProductCard.jsx:25-28 | the store settles the add and the button is enabled again unless the stock is 0; a failure escapes to the caller |
| ProductCard.ProductCard.BeginToggleWishlist | client/src/components/ProductCard.jsx:31-97 | a click on the disabled heart (a toggle on its way) does nothing; otherwise a guest is sent to '/login' with no request, and a signed-in user's toggle goes out with the heart and the store both busy and the list kept until the reply |
| ProductCard.ProductCard.FinishToggleWishlist | client/src/components/ProductCard.jsx:38-43 | the store settles the toggle: its list follows the reply, its toast shows the backend's message or, on failure, the error or 'Failed to update wishlist'; the store's loading ends and the heart is freed |
| ProductDetail.Images | client/src/pages/ProductDetail.jsx:144-146 | the gallery is never empty: the image list when there is one, else the single image, else the fallback picture |
| ProductDetail.ImageUrl | client/src/pages/ProductDetail.jsx:117-122 | the entry's own url or text when it starts with 'http'; the fallback picture for a null entry and for any url or text that does not |
| ProductDetail.PrevImage | client/src/pages/ProductDetail.jsx:124-126 | one back, wrapping from the first image to the last |
| ProductDetail.NextImage | client/src/pages/ProductDetail.jsx:128-130 | one on, wrapping from the last image to the first |
| ProductDetail.ArrowsInverse | client/src/pages/ProductDetail.jsx:124-130 | within a gallery both arrows stay in range and each undoes the other |
| ProductDetail.NextCycles | client/src/pages/ProductDetail.jsx:128-130 | up to a gallery's length of right-arrow presses moves the selection on by that many places, wrapping once, and a full round returns to the start |
| ProductDetail.ArrowsInverseAll | client/src/pages/ProductDetail.jsx:124-130 | in a gallery of any size both arrows keep every in-range selection in range |
| ProductDetail.StockValue | client/src/pages/ProductDetail.jsx:148 | the count in stock when non-zero, else the stock, else 0 |
| ProductDetail.AddLabel | client/src/pages/ProductDetail.jsx:340 | 'Out of Stock' for a zero stock value, else 'Adding...' while adding, else 'Add to Cart' |
| ProductDetail.StockViewsAgree | client/src/pages/ProductDetail.jsx:148-340 | an enabled button says 'Add to Cart'; a product showing 'Only N left!' can be added; a zero stock disables the button and hides the badge; with a count in stock of 0 or none the badge follows `stock` |
| ProductDetail.Resolve | client/src/pages/ProductDetail.jsx:28-55 | the backend's product when it has an id and a name; otherwise, after a failure or an incomplete answer, the bundled product with the route's id |
| ProductDetail.RelatedFrom | client/src/pages/ProductDetail.jsx:64 | at most four candidates, none of them the product on the page |
| ProductDetail.BundleRelated | client/src/pages/ProductDetail.jsx:61-66 | a bundled product's related list comes from the bundled products of its category slug or bare category; none when it has no category |
| ProductDetail.BackendRelated | client/src/pages/ProductDetail.jsx:67-81 | a backend product's related list comes from the backend's answer for its category id, or on failure from the bundle by the category's slug; none without a category |
| ProductDetail.RelatedExcludesPage | client/src/pages/ProductDetail.jsx:61-81 | whichever way it is found, a related list has at most four products and never the one on the page |
| ProductDetail.ProductDetail.constructor | client/src/pages/ProductDetail.jsx:14-20 | loading, no product, first image selected, the bundled catalogue as its fallback |
| ProductDetail.ProductDetail.LoadAsWritten | client/src/pages/ProductDetail.jsx:24-93 | the load effect as written: product and related list settle as above and the selected image is left where it was |
| ProductDetail.ProductDetail.RouteChanged | client/src/pages/ProductDetail.jsx:11-93 | following another product's link while the page stays mounted changes only the route's id; product, related list and selected image stay until the effect, `LoadAsWritten`, settles |
| ProductDetail.ProductDetail.Load | client/src/pages/ProductDetail.jsx:24-93 | the same load with the selection reset to the first image: the selection is in range and the main picture is the product's first image |
| ProductDetail.ProductDetail.PrevImageClicked | client/src/pages/ProductDetail.jsx:124-126 | the left arrow, drawn only for more than one image, moves the selection one back, wrapping from the first to the last, and keeps an in-range selection in range |
| ProductDetail.ProductDetail.NextImageClicked | client/src/pages/ProductDetail.jsx:128-130 | the right arrow, drawn only for more than one image, moves the selection one on, wrapping from the last to the first, and keeps an in-range selection in range |
| ProductDetail.ProductDetail.ThumbnailClicked | client/src/pages/ProductDetail.jsx:207-211 | the thumbnail strip exists only for a product with more than one image; a thumbnail selects its own image |
| ProductDetail.ProductDetail.BeginAddToCart | client/src/pages/ProductDetail.jsx:95-336 | a click on the disabled button (an add on its way, or stock 0) does nothing; otherwise the button is busy and one add of one unit of the product goes out |
| ProductDetail.ProductDetail.FinishAddToCart | client/src/pages/ProductDetail.jsx:98-103 | the store settles the add; a failure is caught; the button is freed whatever the outcome |
| ProductDetail.ProductDetail.BeginToggleWishlist | client/src/pages/ProductDetail.jsx:106-345 | a click on the disabled heart (a toggle on its way) does nothing; otherwise the heart is disabled and the store's toggle of the product goes out with the store busy; the list is kept until the reply |
| ProductDetail.ProductDetail.FinishToggleWishlist | client/src/pages/ProductDetail.jsx:108-114 | the store settles the toggle: its list follows the reply, its toast shows the backend's message or, on failure, the error or 'Failed to update wishlist'; its loading ends and the heart is enabled again |
| ProductDetail.MainPicture | client/src/pages/ProductDetail.jsx:170 | the main picture is the selected image's url when the selection is in the gallery, and the fallback picture when it is not |
| ProductDetail.StaleSelectionAfterLoad | client/src/pages/ProductDetail.jsx:20-202 | d2 has two images and d9, in the same category, one: with d2's second image selected, the load of d9 as written leaves the selection at 1, so the main picture is the placeholder instead of d9's own picture, and with one image there are no arrows or thumbnails to bring it back |
| ProductDetail.ResetSelectionInRange | client/src/pages/ProductDetail.jsx:124-170 | after the reset the main picture is the product's first image, and both arrows keep every in-range selection in range |
| Orders.OrZero | client/src/pages/OrderDetails.jsx:209 | a JavaScript number fallback: the value when present, else 0 |
| OrderDetails.StatusStep | client/src/pages/OrderDetails.jsx:56-59 | 0 exactly for a status outside the five-step sequence, else the 1-based position of its first occurrence |
| OrderDetails.IndexFrom | client/src/pages/OrderDetails.jsx:58 | `indexOf` plus one from a start position: 0 exactly when absent, else one past the first occurrence |
| OrderDetails.Timeline | client/src/pages/OrderDetails.jsx:98-130 | five steps; a step is completed exactly up to the status's step, current exactly at it, and shows tracking exactly when current with tracking information |
| OrderDetails.TimelineShape | client/src/pages/OrderDetails.jsx:98-130 | the completed steps form a prefix; a known status has exactly one current step, its own; any other status, 'cancelled' included, has none and nothing completed; tracking shows only on the current step |
| OrderDetails.BadgeStyleOf | client/src/pages/OrderDetails.jsx:9-15 | each of the four styled statuses gets its own colours; any other status, 'confirmed' included, gets the pending colours |
| OrderDetails.BadgeIconOf | client/src/pages/OrderDetails.jsx:17-23 | each of the four statuses with its own icon gets it; any other status gets the package |
| OrderDetails.SummaryOf | client/src/pages/OrderDetails.jsx:205-233 | the tax or 0; the discount row exactly for a positive discount, with its amount; 'Razorpay Secure' exactly for the razorpay method |
| OrderDetails.OrderDetailsPage.constructor | client/src/pages/OrderDetails.jsx:37-38 | no order yet, loading |
| OrderDetails.OrderDetailsPage.FetchOrderDetails | client/src/pages/OrderDetails.jsx:45-54 | loading ends; the backend's order on success; the order kept on failure |
| OrderSuccess.DisplayNumber | client/src/pages/OrderSuccess.jsx:92 | the order number when set, else the last eight characters of the id (fewer for a shorter id), upper-cased |
| OrderSuccess.MethodLabel | client/src/pages/OrderSuccess.jsx:123 | 'Cash on Delivery' exactly for the 'cod' method, else 'Online Payment' |
| OrderSuccess.StatusLabel | client/src/pages/OrderSuccess.jsx:125-126 | 'Success' exactly for a completed payment, else 'Pending' |
| OrderSuccess.FallbackTax | client/src/pages/OrderSuccess.jsx:187 | the rounded 18% lies within half a rupee of the exact 18%, halves rounded up |
| OrderSuccess.FallbackTaxUnique | client/src/pages/OrderSuccess.jsx:187 | it is the only whole number that does |
| OrderSuccess.SummaryOf | client/src/pages/OrderSuccess.jsx:164-192 | subtotal and total or 0; 'Free' exactly for a zero shipping; discount and handling rows exactly when positive; the tax, or the rounded 18% of the subtotal when it is absent or 0 |
| OrderSuccess.View | client/src/pages/OrderSuccess.jsx:9-92 | the missing-data notice with its link to '/orders' exactly when no order was handed over; otherwise the confirmation built from the order |
| OrderSuccess.ConfirmationExample | client/src/pages/OrderSuccess.jsx:92-192 | worked example: a cash-on-delivery order without a number or a tax shows the id's last eight characters upper-cased, 18% of its subtotal and the handling row |
| Register.Pad2 | client/src/pages/Register.jsx:36 | the seconds are always written as exactly two digits |
| Register.Pad2Value | client/src/pages/Register.jsx:36 | the two digits read back as the number |
| Register.FormatTimeRoundTrip | client/src/pages/Register.jsx:33-37 | the countdown text is the minutes, a colon and two digits, and reading it back gives the seconds left |
| Register.CodeField | client/src/pages/Register.jsx:297-303 | the code field holds only digits, at most six: the digits of what the six-character field lets in, in order |
| Register.CodeFieldKeepsDigits | client/src/pages/Register.jsx:302 | a field of at most six digits is kept as typed |
| Register.VerifyNeedsSixDigits | client/src/pages/Register.jsx:297-323 | with no request on its way the verify button is enabled exactly when the first six characters typed are all digits; while a request is on its way it is disabled |
| Register.AfterTicks | client/src/pages/Register.jsx:24-31 | after n ticks the countdown is n seconds lower, stopping at 0 |
| Register.ResendWaitsOneMinute | client/src/pages/Register.jsx:314 | after a code is sent and with no request on its way the resend button is enabled exactly from the sixtieth tick on |
| Register.RegisterPage.constructor | client/src/pages/Register.jsx:7-19 | the account step with empty fields, no messages and a full ten-minute countdown |
| Register.RegisterPage.ChangeField | client/src/pages/Register.jsx:39-42 | one field takes the value, the error clears, nothing else changes |
| Register.RegisterPage.SubmitAccount | client/src/pages/Register.jsx:44-234 | does anything exactly when the button is enabled and the browser lets the form through (name, e-mail, password and confirmation non-empty, e-mail valid); then a mismatch is reported before a short password and neither reaches the backend; otherwise one registration goes out and success moves to the code step with a full countdown, failure reports the message or 'Registration failed' |
| Register.ValidEmailParts | client/src/pages/Register.jsx:184-188 | the e-mail field accepts an address exactly when it is a valid local part, an '@' and a valid domain of dot-separated labels |
| Register.DomainHasNoAt | client/src/pages/Register.jsx:184-188 | a valid domain never holds an '@', so an address splits at its first '@' |
| Register.RegisterPage.TypeCode | client/src/pages/Register.jsx:297-304 | the code becomes the digits typed, the error clears |
| Register.RegisterPage.VerifyCode | client/src/pages/Register.jsx:79-323 | pressing the disabled button (loading, or not six characters) does nothing; otherwise one verification with the account details and the code; success goes to '/', failure reports the message or 'Invalid OTP' |
| Register.RegisterPage.ResendCode | client/src/pages/Register.jsx:102-314 | pressing the disabled button (loading, or more than 540 seconds left) does nothing; otherwise registers again; success restarts the countdown with its notice; failure reports 'Failed to resend OTP' whatever the backend said |
| Register.RegisterPage.BackToDetails | client/src/pages/Register.jsx:263-265 | back to the account form with everything typed kept; the countdown stops where it stood |
| Register.RegisterPage.Tick | client/src/pages/Register.jsx:24-31 | one second off the countdown, only on the code step and only while time is left |
| ProtectedRoute.Decide | client/src/components/ProtectedRoute.jsx:5-19 | the loader while the session loads; '/login' for a guest; '/' for a non-admin on an admin route; the page exactly for a signed-in user allowed there |
| ProtectedRoute.Visit | client/src/App.jsx:86-111 | a path no route matches shows nothing, an open route always renders, any other goes through its guard |
| ProtectedRoute.GuardsHold | client/src/App.jsx:93-111 | an admin page renders only for an admin, a signed-in page for any signed-in user, and a guest reaching either is sent to '/login' |
| App.TitleEndsWithBrand | client/src/App.jsx:55-68 | every title but the default ends with a bar and the brand name BuildOwn |
| App.TitleOrder | client/src/App.jsx:56-68 | worked examples: '/products' and '/orders' keep their own titles, paths below them get the detail titles, '/admin/products' gets the default |
| App.TableAndPrefixesDisjoint | client/src/App.jsx:41-68 | no table path lies below a detail prefix, so whether the table or the prefixes are tried first never changes a title |
| App.TableHasNoDetailEntry | client/src/App.jsx:41-53 | no table entry is one of the two detail titles |
| App.TableTitleIsOwn | client/src/App.jsx:41-68 | a table path's title is neither the default nor a detail title |
| App.TitleCases | client/src/App.jsx:56-68 | the default exactly when neither the table nor a prefix applies; each detail title exactly when the table has no entry and the path has that prefix |
| App.AdminRoutesHideChrome | client/src/App.jsx:77-116 | every admin-only route is drawn without the storefront's bar and footer |
| Navbar.SumQuantitiesAppend | client/src/components/Navbar.jsx:64 | the badge count of a concatenation is the sum of the counts |
| Navbar.SumQuantitiesAtLeastLines | client/src/components/Navbar.jsx:64 | with every quantity at least one the count is at least the number of lines |
| Navbar.CartItemsCount | client/src/components/Navbar.jsx:64 | 0 without a cart, else the sum of the line quantities |
| Navbar.BadgeShownIffLines | client/src/components/Navbar.jsx:195-199 | with every quantity at least one, the cart badge shows exactly when there is a cart with at least one line |
| Navbar.MenuLinks | client/src/components/Navbar.jsx:74-87 | the desktop account menu: an admin's holds only '/admin'; anyone else's '/profile' and '/orders' |
| Navbar.DrawerLinks | client/src/components/Navbar.jsx:281-320 | the mobile drawer always starts with '/', '/products' and '/wishlist'; then anyone signed in, admin or not, gets '/profile' and '/orders' and a visitor gets '/login' |
| Navbar.CartLinkMatchesFetch | client/src/components/Navbar.jsx:74-312 | a signed-in user sees the cart link exactly when the cart store fetches their cart; an admin sees no cart link and no orders entry in the desktop menu, while the mobile drawer still offers them '/orders' and no '/admin' |
| Navbar.Navbar.constructor | client/src/components/Navbar.jsx:14-17 | menus closed, empty search |
| Navbar.Navbar.OpenSearch | client/src/components/Navbar.jsx:170-173 | the search icon opens the box and changes nothing else |
| Navbar.Navbar.TypeSearch | client/src/components/Navbar.jsx:150-151 | typing replaces the query and changes nothing else |
| Navbar.Navbar.ClearSearch | client/src/components/Navbar.jsx:159-164 | the clear button empties the query and closes the box; a search then finds no text |
| Navbar.Navbar.Search | client/src/components/Navbar.jsx:55-62 | text that is not all blank goes to the product list with the query as typed and closes the mobile menu and the search box; blank text does nothing |
| Navbar.Navbar.Logout | client/src/components/Navbar.jsx:48-53 | signs out, goes to '/', closes both menus |
| OrderManagement.StatusColorsOfChoices | client/src/pages/admin/OrderManagement.jsx:48-58 | each status the selector offers gets its own classes from the colour table |
| OrderManagement.ChoiceColorsDistinct | client/src/pages/admin/OrderManagement.jsx:49-57 | the six classes on offer are pairwise different and none is the grey fallback |
| OrderManagement.StatusColorsDistinct | client/src/pages/admin/OrderManagement.jsx:48-58 | every status on offer has a badge of its own, different from the others and from grey; every other value is grey; every status of the order timeline is on offer |
| OrderManagement.RequestPathReadsBack | client/src/pages/admin/OrderManagement.jsx:22 | the list request reads back: the page number up to the first '&' parses as the page, then the limit of ten, then the status filter exactly when one is set |
| OrderManagement.RequestPathInjective | client/src/pages/admin/OrderManagement.jsx:22 | different pages or filters never produce the same request |
| OrderManagement.PagingStaysInRange | client/src/pages/admin/OrderManagement.jsx:165-174 | within a non-empty listing both buttons stay within the pages there are and step by exactly one when enabled |
| OrderManagement.EmptyListingNextGoesToPageZero | client/src/pages/admin/OrderManagement.jsx:172-174 | with zero pages reported the next button is enabled on page 1 and asks for page 0 |
| OrderManagement.NextPageAtLeastOne | client/src/pages/admin/OrderManagement.jsx:173 | the clamped next page is never below 1 and equals the button's own result whenever there is a page |
| OrderManagement.NextOnEmptyListing | client/src/pages/admin/OrderManagement.jsx:173-174 | on an empty listing the button as written leaves the page numbering while the clamped one stays on page 1 |
| OrderManagement.ShortNumber | client/src/pages/admin/OrderManagement.jsx:109 | 'ORD' without an order number, else its last four characters (all of a shorter number) |
| OrderManagement.CustomerName | client/src/pages/admin/OrderManagement.jsx:120 | the shipping name when set, else a non-empty fallback ('Guest') |
| OrderManagement.OrderManagementPage.constructor | client/src/pages/admin/OrderManagement.jsx:12-35 | page 1 of all statuses, loading, with its first request sent |
| OrderManagement.OrderManagementPage.BeginFetch | client/src/pages/admin/OrderManagement.jsx:19-22 | loading goes on and one request for the current page and filter goes out |
| OrderManagement.OrderManagementPage.FinishFetch | client/src/pages/admin/OrderManagement.jsx:23-30 | success replaces the orders and the page count; failure keeps both and reports 'Failed to fetch orders'; loading ends |
| OrderManagement.OrderManagementPage.ChangeFilter | client/src/pages/admin/OrderManagement.jsx:75 | the filter takes the value and the list is refetched when it changed; the page number is kept |
| OrderManagement.OrderManagementPage.GoTo | client/src/pages/admin/OrderManagement.jsx:33-35 | the page changes and the list is refetched exactly when the number changed |
| OrderManagement.OrderManagementPage.PrevClicked | client/src/pages/admin/OrderManagement.jsx:165-167 | inert on page 1; above it one page back with a refetch; from a page below 1 back to page 1; a valid state stays valid |
| OrderManagement.OrderManagementPage.NextClickedAsWritten | client/src/pages/admin/OrderManagement.jsx:172-174 | the next button as written: inert on the last page, otherwise the smaller of the page count and the next page |
| OrderManagement.OrderManagementPage.NextClicked | client/src/pages/admin/OrderManagement.jsx:172-174 | the corrected button keeps the page at 1 or above and steps forward by one whenever a later page exists |
| OrderManagement.OrderManagementPage.UpdateStatus | client/src/pages/admin/OrderManagement.jsx:37-46 | success reports 'Order status updated to' the new status and refetches; failure reports 'Failed to update order status' |
| CouponManagement.PayloadOf | client/src/pages/admin/CouponManagement.jsx:62-67 | the payload is the form with its code capitalised: same length, no lower-case letter, same letters ignoring case, every other field as typed |
| Common.LowerOfUpper | client/src/pages/admin/CouponManagement.jsx:66-92 | capitalising a code does not change its lower-case form, which the search compares |
| Common.NumberFieldAcceptsIntText | client/src/pages/admin/CouponManagement.jsx:216-256 | a number field with a minimum and no step holding the text of a whole number lets the form through exactly when that number is at least the minimum |
| CouponManagement.CapitalCodeSentAsTyped | client/src/pages/admin/CouponManagement.jsx:66 | a code typed in capitals is sent exactly as typed |
| CouponManagement.FilteredCoupons | client/src/pages/admin/CouponManagement.jsx:91-93 | exactly the listed coupons whose code contains the term, ignoring case, never more than listed |
| CouponManagement.FilteredCouponsKeepOrder | client/src/pages/admin/CouponManagement.jsx:91-93 | the search keeps list order: it distributes over joined lists, and a single coupon stays exactly when its code matches |
| CouponManagement.EmptySearchKeepsAll | client/src/pages/admin/CouponManagement.jsx:91-93 | an empty search shows every coupon |
| CouponManagement.SearchIgnoresCase | client/src/pages/admin/CouponManagement.jsx:91-93 | a term and its capitalised form select the same coupons |
| CouponManagement.CreatedCouponFoundByTypedCode | client/src/pages/admin/CouponManagement.jsx:66-93 | a coupon created from a form is found by searching for its code as typed, in any case |
| CouponManagement.DiscountLabel | client/src/pages/admin/CouponManagement.jsx:144 | 'N% OFF' for a percentage and '₹N OFF' otherwise, N being the decimal text of the value |
| CouponManagement.DiscountLabelReadsBack | client/src/pages/admin/CouponManagement.jsx:144 | two coupons with the same discount line have the same value and are both percentages or both not |
| CouponManagement.BadgesOfForm | client/src/pages/admin/CouponManagement.jsx:146-161 | for a coupon holding the numbers its form's fields read as, the default form shows neither the minimum nor the limit badge, and a field of digits shows its badge exactly when its number is positive |
| CouponManagement.WithoutCoupon | client/src/pages/admin/CouponManagement.jsx:46 | the coupons left after a deletion are exactly the others |
| CouponManagement.WithoutAbsentCoupon | client/src/pages/admin/CouponManagement.jsx:46 | deleting a coupon that is not listed changes nothing |
| CouponManagement.CouponManagementPage.constructor | client/src/pages/admin/CouponManagement.jsx:8-27 | no coupons, loading, the default form shut, the list request sent |
| CouponManagement.CouponManagementPage.FinishFetch | client/src/pages/admin/CouponManagement.jsx:29-39 | success replaces the coupons; failure keeps them and reports 'Failed to fetch coupons'; loading ends |
| CouponManagement.CouponManagementPage.SetSearchTerm | client/src/pages/admin/CouponManagement.jsx:10 | the term changes and nothing else |
| CouponManagement.CouponManagementPage.EditForm | client/src/pages/admin/CouponManagement.jsx:185-259 | the form takes the typed values and opens or shuts; typed values survive a close |
| CouponManagement.CouponManagementPage.BeginDelete | client/src/pages/admin/CouponManagement.jsx:41-45 | nothing without confirmation; otherwise one deletion request goes out and the list on screen is remembered with it; list unchanged until the reply |
| CouponManagement.CouponManagementPage.FinishDelete | client/src/pages/admin/CouponManagement.jsx:45-51 | success sets the list to the remembered one without that coupon, so a coupon deleted or created meanwhile is brought back or dropped, and reports it; failure keeps the current list and reports it; the settled request is forgotten |
| CouponManagement.CouponManagementPage.BeginSubmit | client/src/pages/admin/CouponManagement.jsx:53-274 | does anything exactly when no creation is pending (the button is disabled then) and the browser lets the form through (code and expiry filled, discount a number of at least 0, minimum empty or at least 0, limit empty or at least 1); then the button shows its spinner, the list on screen is remembered and one creation with the capitalised payload goes out; list and form unchanged until the reply |
| CouponManagement.AcceptedCouponForm | client/src/pages/admin/CouponManagement.jsx:190-256 | the browser never lets the default form through; a form it lets through sends a non-empty code and a discount of at least 0, and its coupon shows the limit badge exactly when a limit was typed |
| CouponManagement.CouponManagementPage.FinishSubmit | client/src/pages/admin/CouponManagement.jsx:70-89 | success sets the list to the one remembered at submission plus the new coupon (a coupon deleted meanwhile reappears), shuts and resets the form; failure keeps list and form and reports the message or 'Failed to create coupon'; the button is enabled again |
| ProductManagement.EditFormOf | client/src/pages/admin/ProductManagement.jsx:62-74 | the edit form holds the product's name and description, its price and stock as text that reads back as them, its category id or '', its images or none, and no new files |
| ProductManagement.PayloadOf | client/src/pages/admin/ProductManagement.jsx:97-103 | the saved fields as typed, the price and the stock read with `Number`, the stock under the key 'stock' |
| ProductManagement.SaveRequestOf | client/src/pages/admin/ProductManagement.jsx:112-120 | an update of the product being edited exactly when one is, else a creation, carrying the payload and the new files |
| ProductManagement.EditThenSaveKeepsValues | client/src/pages/admin/ProductManagement.jsx:62-120 | opening a product and saving it untouched updates that product with its own name, description, price and stock and no files |
| ProductManagement.EditedFormAccepted | client/src/pages/admin/ProductManagement.jsx:62-397 | an opened product saved untouched gets past the browser exactly when it has a name, a description and a category and its price and stock are not negative; the blank form of a new product never does |
| ProductManagement.BlankFormSendsZero | client/src/pages/admin/ProductManagement.jsx:97-103 | the payload reads an empty price or stock field as 0, as `Number("")` does, so the blank form's payload carries price 0 and stock 0 |
| ProductManagement.ExistingImagesNotSent | client/src/pages/admin/ProductManagement.jsx:97-120 | the existing images play no part in a save: removing one leaves the request as it was |
| ProductManagement.DropIndex | client/src/pages/admin/ProductManagement.jsx:294 | every image but the one at the index, in order; an index out of range changes nothing |
| ProductManagement.DropIndexCount | client/src/pages/admin/ProductManagement.jsx:294 | removing a preview removes exactly one image and keeps the others in order |
| ProductManagement.StockDotBands | client/src/pages/admin/ProductManagement.jsx:217 | red exactly up to 0, yellow exactly from 1 to 10, green exactly from 11; more stock never shows a worse dot |
| ProductManagement.ShortId | client/src/pages/admin/ProductManagement.jsx:205 | the last six characters of the id (all of a shorter id) |
| ProductManagement.CategoryLabel | client/src/pages/admin/ProductManagement.jsx:210 | the category's name when set, else a non-empty fallback ('Uncategorized') |
| ProductManagement.WithoutProduct | client/src/pages/admin/ProductManagement.jsx:54 | the products left after a deletion are exactly the others |
| ProductManagement.ProductManagementPage.constructor | client/src/pages/admin/ProductManagement.jsx:8-28 | no products, loading, the blank form shut, both list requests sent |
| ProductManagement.ProductManagementPage.FinishFetchProducts | client/src/pages/admin/ProductManagement.jsx:30-39 | success replaces the list; failure keeps it silently; loading ends |
| ProductManagement.ProductManagementPage.FinishFetchCategories | client/src/pages/admin/ProductManagement.jsx:41-48 | success replaces the categories; failure keeps them |
| ProductManagement.ProductManagementPage.BeginDelete | client/src/pages/admin/ProductManagement.jsx:50-53 | nothing without confirmation; otherwise one deletion request goes out and the list on screen is remembered with it; list unchanged until the reply |
| ProductManagement.ProductManagementPage.FinishDelete | client/src/pages/admin/ProductManagement.jsx:53-59 | success sets the list to the remembered one without that product, so changes made meanwhile are lost; failure keeps the current list and alerts 'Failed to delete product'; the settled request is forgotten |
| ProductManagement.ProductManagementPage.Edit | client/src/pages/admin/ProductManagement.jsx:62-74 | the product is being edited, the form holds its values and opens |
| ProductManagement.ProductManagementPage.AddNew | client/src/pages/admin/ProductManagement.jsx:76-88 | no product is being edited and the blank form opens |
| ProductManagement.ProductManagementPage.EditForm | client/src/pages/admin/ProductManagement.jsx:10-23 | the form takes the typed values and opens or shuts |
| ProductManagement.ProductManagementPage.AddImages | client/src/pages/admin/ProductManagement.jsx:133-137 | chosen files go after those already chosen, in order; no selection changes nothing |
| ProductManagement.ProductManagementPage.RemoveImage | client/src/pages/admin/ProductManagement.jsx:294 | the form loses exactly the existing image at that index |
| ProductManagement.ProductManagementPage.BeginSubmit | client/src/pages/admin/ProductManagement.jsx:90-417 | does anything exactly when not loading (the button is disabled then) and the browser lets the form through (name, category and description filled, price and stock whole numbers of at least 0); then loading goes on, disabling both footer buttons, and one save request goes out; form and list unchanged until the reply |
| ProductManagement.ProductManagementPage.FinishSubmit | client/src/pages/admin/ProductManagement.jsx:122-130 | success shuts the form and refetches the list; failure alerts 'Failed to save product. ' and the backend's message; loading ends either way |

## Left out

- HTTP: the `services/api` module is not part of this model. Every backend call is a `Reply` parameter, and an `Err` carries the backend's message ("" when there is none).
- Payment gateway: the gateway script and its window are not modelled. Checkout takes whether the gateway could be built as a parameter. The gateway's `handler` and `ondismiss` callbacks are events.
- Timers and clocks: the two-second `setTimeout`, the toast auto-removal timer and the code countdown's interval become explicit events (`Tick`, `RemoveToast`, the delay's expiry). `Date.now()` ids and payment ids are parameters.
- Dates: the coupon's start date from the clock, the validity dates on the coupon cards and the date formatting on the order pages are not modelled.
- Randomness: the 'rating' sort's random shuffle and the confetti animation are not modelled.
- Catalog.FilterAndSort: for the 'rating' key the contract states only that the result is a permutation of the filtered products, because the source shuffles them at random.
- Floating point: amounts are whole rupees (`int`). The 18% tax fallbacks and the discount percentage are computed exactly over `real`, and `Math.round` is rounding halves up over rationals. Binary floating-point error is not modelled.
- `toLocaleString` and other locale formatting are not modelled; amounts appear as numbers, not as display text.
- Case mapping is ASCII only. `toLowerCase` and `toUpperCase` leave every other character unchanged, while JavaScript also maps non-ASCII letters.
- `trim()` blank tests count only ASCII white space. Password lengths count characters, not UTF-16 code units.
- `Number()` parsing: `NumberValue` reads an optional '-' followed by digits, and "" as 0. Every other text is treated as NaN (None): decimals, exponents, surrounding blanks and hexadecimal.
- `encodeURIComponent`: the search destination carries the query as typed, without percent-encoding.
- Browser I/O: the `window.confirm` answers are parameters. `alert` is recorded in an `alerts` log. Console logging, `localStorage`, `window.scrollTo`, `URL.createObjectURL`, `FormData` and the contents of uploaded files are not modelled.
- Geolocation and the reverse-geocoding fetch: their outcome is a parameter. The model keeps the field extraction and the state transitions.
- React Router: path matching is exact string comparison. Trailing-slash and case-insensitive matching are not modelled.
- Presentation: JSX markup, CSS, animations, the toast progress bar, the body scroll lock and the 3D viewer are not modelled. Only the values they display (labels, badges, counts, disabled flags) are modelled.
- ProductsPage.ProductsPage.constructor and ProductDetail.ProductDetail.constructor take the bundled catalogue as an argument instead of naming `Catalog.Catalogue`. This keeps the long catalogue text out of their proofs. The application passes `Catalogue`, so no behaviour changes.
- AuthContext is not part of this model: the signed-in user and the session-loading flag are parameters.
- The Home, Login, Profile, Wishlist (page), Orders, Dashboard, Footer, Loader and AdminLayout screens only display backend data, so they are not modelled.
- ProductManagement: removing an existing image only changes the form. The save payload never carries the existing images, so the removal is never sent; `ExistingImagesNotSent` states this.
- ProductsPage: the `inStockOnly` flag is reset and shown but never sent with the request. A category click does not reset the page. The "Clear All Filters" test ignores the minimum price. All three are modelled as written.
- OrderManagement.OrderManagementPage.ChangeFilter: the page number is kept when the filter changes, as the source does.
- CouponManagement and ProductManagement: closing a form keeps the values typed into it, as the source does.
- Checkout: the address inputs stay editable on step 2, so no invariant ties step 2 to a complete address.
- Navbar: the search box's blur handler, which closes the box 200 ms later when the query is empty, is not modelled (a timer).
- Values captured by a pending handler are modelled as written. The created coupon is appended to the list remembered at submission, so a coupon deleted while the creation was pending shows up again. Checkout opens the gateway with the phone and user captured when pay was pressed. A coupon or product deletion filters the list remembered when it was sent, so overlapping deletions bring the first item back and a deletion settling after a creation drops the new coupon.
- Browser form validation is modelled for the register, coupon and product forms (`required`, `type="email"`, `min` on number inputs); the verification code field's `required` is implied by the six-digit check that `VerifyNeedsSixDigits` states. A number input's text is read with `NumberValue`, so a decimal or exponent the browser would accept ("5.0", "1e1") is treated as refused, and text the browser reports as bad input (held as "") is not distinguished from an empty field. A date input is read as filled or empty.
- Register: a resend failure shows a fixed message and ignores the backend's message. This is modelled as written.
- Register.RegisterPage.SubmitAccount, Register.RegisterPage.VerifyCode, Register.RegisterPage.ResendCode and ProductDetail.ProductDetail.LoadAsWritten take the request and its reply in one step. Their `loading` flag is turned on and off within that step, so the moment in between, when the page's buttons are disabled, is not a state of the model. Each contract states the flag as it is after the reply.

## Findings

| source | as written | input that shows it | evidently intended | confidence | as-written member | corrected member |
|---|---|---|---|---|---|---|
| client/src/pages/ProductDetail.jsx:20-202 | `selectedImage` is set only by the arrows and thumbnails. It is not reset when the route moves to another product, because the same page instance is reused. | On product d2 (two images) select the second image, then follow the related link to d9 (one image). The selected index 1 is past d9's gallery, so the main picture is the placeholder instead of d9's photo. With one image no arrows, counter or thumbnails are drawn, so nothing on the page brings the photo back. | loading a product resets the selection to its first image, so the main picture is the product's own | not executed | ProductDetail.StaleSelectionAfterLoad | ProductDetail.ProductDetail.Load |
| client/src/pages/admin/OrderManagement.jsx:172-174 | the next button is disabled only when `page === totalPages` and moves to `Math.min(totalPages, page + 1)` | The backend reports zero pages for an empty listing. On page 1 the button is enabled (1 differs from 0), and pressing it sets the page to 0 and requests `/orders?page=0&limit=10`. | the page never drops below 1 | not executed | OrderManagement.EmptyListingNextGoesToPageZero | OrderManagement.NextPageAtLeastOne |
