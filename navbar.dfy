/** The top bar: the cart badge, the search box, the account menu and the
    links each kind of user sees. */
module Navbar {
  import opened Common
  import opened Accounts
  import opened CartStore

  /** The sum of the line quantities, by `reduce` from the left. */
  function SumQuantities(items: seq<CartItem>): int
  {
    if items == [] then 0 else SumQuantities(items[..|items| - 1]) + items[|items| - 1].quantity
  }

  /** Summing a concatenation sums the parts: adding a line adds its
      quantity. */
  lemma {:induction false} SumQuantitiesAppend(a: seq<CartItem>, b: seq<CartItem>)
    ensures SumQuantities(a + b) == SumQuantities(a) + SumQuantities(b)
    decreases |b|
  {
    if b == [] {
      assert a + b == a;
    } else {
      var b' := b[..|b| - 1];
      assert (a + b)[..|a + b| - 1] == a + b';
      assert (a + b)[|a + b| - 1] == b[|b| - 1];
      SumQuantitiesAppend(a, b');
    }
  }

  /** With every quantity at least one, the count is at least the number of
      lines, so a cart with items always shows the badge. */
  lemma {:induction false} SumQuantitiesAtLeastLines(items: seq<CartItem>)
    requires forall i :: 0 <= i < |items| ==> items[i].quantity >= 1
    ensures SumQuantities(items) >= |items|
    decreases |items|
  {
    if items != [] {
      SumQuantitiesAtLeastLines(items[..|items| - 1]);
    }
  }

  /** `cartItemsCount`: 0 without a cart. */
  function CartItemsCount(cart: Option<Cart>): (n: int)
    ensures cart.None? ==> n == 0
    ensures cart.Some? ==> n == SumQuantities(cart.value.items)
  {
    if cart.None? then 0 else SumQuantities(cart.value.items)
  }

  predicate BadgeShown(cart: Option<Cart>)
  {
    CartItemsCount(cart) > 0
  }

  /** With every quantity at least one, the badge shows exactly when there
      is a cart with at least one line. */
  lemma BadgeShownIffLines(cart: Option<Cart>)
    requires cart.Some? ==> forall i :: 0 <= i < |cart.value.items| ==> cart.value.items[i].quantity >= 1
    ensures BadgeShown(cart) <==> cart.Some? && |cart.value.items| > 0
  {
    if cart.Some? {
      SumQuantitiesAtLeastLines(cart.value.items);
      if cart.value.items == [] {
        assert SumQuantities(cart.value.items) == 0;
      }
    }
  }

  /** The cart link is for guests and customers. */
  predicate CartLinkShown(user: Option<User>)
  {
    user.None? || user.value.role == CustomerRole
  }

  /** The desktop account menu's links: the dashboard for an admin,
      profile and orders for anyone else. */
  function MenuLinks(user: User): (links: seq<string>)
    ensures user.role == AdminRole ==> links == ["/admin"]
    ensures user.role != AdminRole ==> links == ["/profile", "/orders"]
  {
    if user.role == AdminRole then ["/admin"] else ["/profile", "/orders"]
  }

  /** The mobile drawer's links: home, the shop and the wishlist for
      everyone, then profile and orders for anyone signed in (admins
      included) or the login page for a guest. The drawer has no dashboard
      link. */
  function DrawerLinks(user: Option<User>): (links: seq<string>)
    ensures |links| >= 4 && links[..3] == ["/", "/products", "/wishlist"]
    ensures user.Some? ==> links[3..] == ["/profile", "/orders"]
    ensures user.None? ==> links[3..] == ["/login"]
  {
    ["/", "/products", "/wishlist"] + if user.Some? then ["/profile", "/orders"] else ["/login"]
  }

  /** The cart link and the store's cart fetch agree: a signed-in user who
      sees the cart link is a customer, whose cart the store fetches. An
      admin sees neither the cart link nor, in the desktop account menu,
      the orders entry; the mobile drawer ignores the role, so it offers an
      admin '/orders' and never the dashboard. */
  lemma CartLinkMatchesFetch(user: Option<User>)
    ensures user.Some? ==> (CartLinkShown(user) <==> ShouldFetchCart(user))
    ensures user.Some? && user.value.role == AdminRole ==>
      && !CartLinkShown(user) && "/orders" !in MenuLinks(user.value)
      && "/orders" in DrawerLinks(user) && "/admin" !in DrawerLinks(user)
  {
    if user.Some? && user.value.role == AdminRole {
      var links := DrawerLinks(user);
      assert links[4] == "/orders";
    }
  }

  predicate IsSpace(c: char)
  {
    c == ' ' || c == '\t' || c == '\n' || c == '\r' || c == '\U{000B}' || c == '\U{000C}'
  }

  /** `query.trim()` is non-empty. */
  predicate HasText(s: string)
  {
    exists i :: 0 <= i < |s| && !IsSpace(s[i])
  }

  /** Where the bar sends the browser. */
  datatype Destination = Home | ProductSearch(query: string)

  class Navbar {
    var showDropdown: bool
    var showMobileMenu: bool
    var searchQuery: string
    var isSearchOpen: bool
    var navigation: seq<Destination>
    var logouts: nat

    constructor ()
      ensures !showDropdown && !showMobileMenu && searchQuery == "" && !isSearchOpen
      ensures navigation == [] && logouts == 0
    {
      showDropdown := false;
      showMobileMenu := false;
      searchQuery := "";
      isSearchOpen := false;
      navigation := [];
      logouts := 0;
    }

    /** The search icon opens the search box. */
    method OpenSearch()
      modifies this
      ensures isSearchOpen
      ensures searchQuery == old(searchQuery) && showDropdown == old(showDropdown)
      ensures showMobileMenu == old(showMobileMenu) && navigation == old(navigation) && logouts == old(logouts)
    {
      isSearchOpen := true;
    }

    /** Typing into either search field (the desktop box or the mobile
        menu's) replaces the query and nothing else. */
    method TypeSearch(text: string)
      modifies this
      ensures searchQuery == text
      ensures isSearchOpen == old(isSearchOpen) && showDropdown == old(showDropdown)
      ensures showMobileMenu == old(showMobileMenu) && navigation == old(navigation) && logouts == old(logouts)
    {
      searchQuery := text;
    }

    /** The box's clear button empties the query and closes the box, so a
        search right after it goes nowhere. */
    method ClearSearch()
      modifies this
      ensures searchQuery == "" && !isSearchOpen && !HasText(searchQuery)
      ensures showDropdown == old(showDropdown) && showMobileMenu == old(showMobileMenu)
      ensures navigation == old(navigation) && logouts == old(logouts)
    {
      searchQuery := "";
      isSearchOpen := false;
    }

    /** `handleSearch`: text that is not all blank goes to the product list
        with the query as typed (encoded into the URL), and the menu and
        the search box close; blank text does nothing. */
    method Search()
      modifies this
      ensures HasText(old(searchQuery)) ==>
        navigation == old(navigation) + [ProductSearch(old(searchQuery))]
        && !showMobileMenu && !isSearchOpen
      ensures !HasText(old(searchQuery)) ==>
        navigation == old(navigation) && showMobileMenu == old(showMobileMenu)
        && isSearchOpen == old(isSearchOpen)
      ensures searchQuery == old(searchQuery) && showDropdown == old(showDropdown) && logouts == old(logouts)
    {
      if HasText(searchQuery) {
        navigation := navigation + [ProductSearch(searchQuery)];
        showMobileMenu := false;
        isSearchOpen := false;
      }
    }

    /** `handleLogout`: signs out, goes home and closes both menus. */
    method Logout()
      modifies this
      ensures logouts == old(logouts) + 1 && navigation == old(navigation) + [Home]
      ensures !showDropdown && !showMobileMenu
      ensures searchQuery == old(searchQuery) && isSearchOpen == old(isSearchOpen)
    {
      logouts := logouts + 1;
      navigation := navigation + [Home];
      showDropdown := false;
      showMobileMenu := false;
    }
  }
}
