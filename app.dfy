/** The application shell: the document title for each path, the route
    table with the guard in front of each route, and the bar and footer that
    every page outside the admin area gets. */
module App {
  import opened Common
  import opened Accounts

  const Brand := "BuildOwn"
  const BrandSuffix := " | BuildOwn"
  const DefaultTitle := "BuildOwn - Build Your Dream PC"
  const ProductDetailsTitle := "Product Details | BuildOwn"
  const OrderDetailsTitle := "Order Details | BuildOwn"

  /** The fixed title table, keyed by path. */
  const Titles: map<string, string> := map[
    "/" := "Hardware Components & Peripherals",
    "/products" := "Shop All Premium Hardware",
    "/cart" := "Your Shopping Cart",
    "/wishlist" := "Your Wishlist",
    "/checkout" := "Secure Checkout",
    "/orders" := "My Orders",
    "/order-success" := "Order Confirmed",
    "/profile" := "My Profile",
    "/login" := "Login | Join Elite Builders",
    "/register" := "Register Account",
    "/admin" := "Admin Dashboard"
  ]

  predicate StartsWith(s: string, prefix: string)
  {
    |prefix| <= |s| && s[..|prefix|] == prefix
  }

  /** `TitleUpdater`: a table entry with the brand appended, else the two
      detail titles by prefix, else the default. */
  function Title(path: string): (t: string)
  {
    if path in Titles then Titles[path] + " | " + Brand
    else if StartsWith(path, "/products/") then ProductDetailsTitle
    else if StartsWith(path, "/orders/") then OrderDetailsTitle
    else DefaultTitle
  }

  /** Every title but the default ends with the brand after a bar: a table
      entry gets it appended, and the two detail titles carry it. */
  lemma TitleEndsWithBrand(path: string)
    ensures Title(path) != DefaultTitle ==>
      |Title(path)| > |BrandSuffix| && Title(path)[|Title(path)| - |BrandSuffix|..] == BrandSuffix
  {
    var t := Title(path);
    if path in Titles {
      assert t == Titles[path] + BrandSuffix;
      assert t[|t| - |BrandSuffix|..] == BrandSuffix;
    } else if StartsWith(path, "/products/") {
      assert t == "Product Details" + BrandSuffix;
      assert t[|t| - |BrandSuffix|..] == BrandSuffix;
    } else if StartsWith(path, "/orders/") {
      assert t == "Order Details" + BrandSuffix;
      assert t[|t| - |BrandSuffix|..] == BrandSuffix;
    }
  }

  /** No table path lies below a detail prefix, so the order in which the
      table and the prefixes are tried never decides a title. */
  lemma TableAndPrefixesDisjoint(path: string)
    requires path in Titles
    ensures !StartsWith(path, "/products/") && !StartsWith(path, "/orders/")
  {
    assert path in {"/", "/products", "/cart", "/wishlist", "/checkout", "/orders",
                    "/order-success", "/profile", "/login", "/register", "/admin"};
    if path == "/profile" {
      assert path[4] == 'f' && path[1] == 'p';
    } else if path == "/order-success" {
      assert path[1] == 'o' && path[6] == '-';
    } else if |path| >= 8 {
      assert path[1] != 'p' || |path| < 10;
      assert path[1] != 'o';
    }
  }

  /** Worked examples: the bare list paths keep their own titles, a path
      below them gets the detail title, and an unknown path the default. */
  lemma TitleOrder()
    ensures Title("/products") == "Shop All Premium Hardware | BuildOwn"
    ensures Title("/orders") == "My Orders | BuildOwn"
    ensures Title("/products/d1") == ProductDetailsTitle
    ensures Title("/orders/65f0") == OrderDetailsTitle
    ensures Title("/admin/products") == DefaultTitle
  {
    assert "/products/d1"[..|"/products/"|] == "/products/";
    assert "/orders/65f0"[..|"/orders/"|] == "/orders/";
    assert "/orders/65f0" !in Titles;
    assert "/products/d1" !in Titles;
    assert "/admin/products" !in Titles;
    assert "/admin/products"[1] != "/products/"[1] && "/admin/products"[1] != "/orders/"[1];
  }

  /** No table entry reads like one of the detail titles. */
  lemma TableHasNoDetailEntry(path: string)
    requires path in Titles
    ensures Titles[path] != "Product Details" && Titles[path] != "Order Details"
  {
    assert path in {"/", "/products", "/cart", "/wishlist", "/checkout", "/orders",
                    "/order-success", "/profile", "/login", "/register", "/admin"};
  }

  /** A table title is neither a detail title nor the default. */
  lemma TableTitleIsOwn(path: string)
    requires path in Titles
    ensures Title(path) != DefaultTitle && Title(path) != ProductDetailsTitle && Title(path) != OrderDetailsTitle
  {
    var e := Titles[path];
    var t := Title(path);
    assert t == e + BrandSuffix;
    TitleEndsWithBrand(path);
    assert DefaultTitle[|DefaultTitle| - |BrandSuffix|..] != BrandSuffix;
    TableHasNoDetailEntry(path);
    assert t[..|t| - |BrandSuffix|] == e;
    assert ProductDetailsTitle[..|ProductDetailsTitle| - |BrandSuffix|] == "Product Details";
    assert OrderDetailsTitle[..|OrderDetailsTitle| - |BrandSuffix|] == "Order Details";
  }

  /** Which rule produced a title can be read off the title: the default
      exactly when neither the table nor a prefix applies, and a detail
      title exactly when the table has no entry and the path has that
      prefix. */
  lemma TitleCases(path: string)
    ensures Title(path) == DefaultTitle <==>
      path !in Titles && !StartsWith(path, "/products/") && !StartsWith(path, "/orders/")
    ensures Title(path) == ProductDetailsTitle <==> path !in Titles && StartsWith(path, "/products/")
    ensures Title(path) == OrderDetailsTitle <==> path !in Titles && StartsWith(path, "/orders/")
  {
    if path in Titles {
      TableTitleIsOwn(path);
    } else if StartsWith(path, "/products/") {
      assert !StartsWith(path, "/orders/") by {
        assert path[1] == 'p';
      }
    }
  }

  /** The bar and the footer are left out on every admin path. */
  predicate ShowsChrome(path: string)
  {
    !StartsWith(path, "/admin")
  }

  /** What stands in front of a route. */
  datatype Guard = Open | SignedIn | AdminOnly

  /** A single non-empty path segment (a route's `:id`). */
  predicate Segment(s: string)
  {
    |s| > 0 && forall i :: 0 <= i < |s| ==> s[i] != '/'
  }

  /** The fixed routes and their guards. */
  const Routes: map<string, Guard> := map[
    "/" := Open, "/products" := Open, "/login" := Open, "/register" := Open,
    "/cart" := SignedIn, "/wishlist" := SignedIn, "/checkout" := SignedIn,
    "/order-success" := SignedIn, "/orders" := SignedIn, "/profile" := SignedIn,
    "/admin" := AdminOnly, "/admin/products" := AdminOnly,
    "/admin/orders" := AdminOnly, "/admin/coupons" := AdminOnly
  ]

  /** The route table: which guard a path sits behind, a product page open
      to all and an order page for signed-in users; None for a path no route
      matches. */
  function RouteGuard(path: string): (g: Option<Guard>)
  {
    if path in Routes then Some(Routes[path])
    else if StartsWith(path, "/products/") && Segment(path[|"/products/"|..]) then Some(Open)
    else if StartsWith(path, "/orders/") && Segment(path[|"/orders/"|..]) then Some(SignedIn)
    else None
  }

  /** Every admin-only route is an admin path, so it is drawn without the
      storefront's bar and footer. */
  lemma AdminRoutesHideChrome(path: string)
    requires RouteGuard(path) == Some(AdminOnly)
    ensures !ShowsChrome(path)
  {
    assert path in Routes;
  }
}
