/** The product listing: the filter sidebar, the sort selector and the
    pager, the URL that mirrors them, and the fetch that falls back to the
    bundled catalogue when the backend has nothing to show. */
module ProductsPage {
  import opened Common
  import opened Catalog

  const DefaultMinPrice := 0
  const DefaultMaxPrice := 200000
  /** What the minimum and maximum inputs fall back to for text that is not
      a number, or is zero. */
  const MinInputFallback := 0
  const MaxInputFallback := 500
  const DefaultSort := "recommended"
  const PageSize := 12
  const SidebarCategories := 4
  const MobileCategories := 6

  /** `Number(text) || fallback` for a price input. */
  function PriceInput(text: string, fallback: int): (v: int)
    ensures NumberValue(text) == None ==> v == fallback
    ensures NumberValue(text) == Some(0) ==> v == fallback
    ensures NumberValue(text).Some? && NumberValue(text).value != 0 ==> v == NumberValue(text).value
  {
    var n := NumberValue(text);
    if n.None? || n.value == 0 then fallback else n.value
  }

  /** A price typed as the text of a non-zero number is kept exactly. */
  lemma PriceInputRoundTrip(price: int, fallback: int)
    requires price != 0
    ensures PriceInput(IntText(price), fallback) == price
  {
    NumberValueOfIntText(price);
  }

  /** The query string the page keeps in the URL: the category and the
      search term when non-empty, the page when past the first. */
  function UrlParams(category: string, search: string, page: int): seq<(string, string)>
  {
    (if category != "" then [("category", category)] else [])
    + (if search != "" then [("search", search)] else [])
    + (if page > 1 then [("page", IntText(page))] else [])
  }

  /** `searchParams.get(key) || ''`: the first value under the key. */
  function Param(params: seq<(string, string)>, key: string): string
  {
    if params == [] then "" else if params[0].0 == key then params[0].1 else Param(params[1..], key)
  }

  /** Which keys the URL carries, and reading it back: the category and the
      search term read back exactly as the page starts from them, and the
      page number parses back to the page. */
  lemma UrlParamsRoundTrip(category: string, search: string, page: int)
    ensures var u := UrlParams(category, search, page);
      && (category != "" <==> exists i :: 0 <= i < |u| && u[i].0 == "category")
      && (search != "" <==> exists i :: 0 <= i < |u| && u[i].0 == "search")
      && (page > 1 <==> exists i :: 0 <= i < |u| && u[i].0 == "page")
      && Param(u, "category") == category
      && Param(u, "search") == search
      && (page > 1 ==> NumberValue(Param(u, "page")) == Some(page))
  {
    var u := UrlParams(category, search, page);
    var c := if category != "" then [("category", category)] else [];
    var s := if search != "" then [("search", search)] else [];
    var p := if page > 1 then [("page", IntText(page))] else [];
    assert u == c + s + p;
    ParamSkips(c, s + p, "search");
    ParamSkips(c, s + p, "page");
    ParamSkips(s, p, "page");
    assert c + s + p == c + (s + p);
    if page > 1 {
      NumberValueOfIntText(page);
    }
    if category == "" {
      assert u == s + p;
      ParamSkips(s, p, "category");
      ParamSkips(s + p, [], "category");
      assert s + p + [] == s + p;
    }
    if search == "" && category != "" {
      ParamSkips(p, [], "search");
      assert p + [] == p;
    }
    if search == "" && category == "" {
      ParamSkips(p, [], "search");
      assert p + [] == p;
    }
    if category != "" {
      assert u[0] == ("category", category);
    }
    if search != "" {
      assert (s + p)[0] == ("search", search);
    }
  }

  /** A prefix without the key does not change what the lookup finds. */
  lemma {:induction false} ParamSkips(a: seq<(string, string)>, b: seq<(string, string)>, key: string)
    requires forall i :: 0 <= i < |a| ==> a[i].0 != key
    ensures Param(a + b, key) == Param(b, key)
  {
    if a != [] {
      assert (a + b)[0] == a[0] && a[0].0 != key;
      assert (a + b)[1..] == a[1..] + b;
      assert Param(a + b, key) == Param(a[1..] + b, key);
      ParamSkips(a[1..], b, key);
    } else {
      assert a + b == b;
    }
  }

  /** The sidebar's category list: the first four unless expanded. */
  function VisibleCategories(categories: seq<Category>, showAll: bool): (r: seq<Category>)
    ensures showAll ==> r == categories
    ensures !showAll ==> r <= categories && |r| == Min(SidebarCategories, |categories|)
  {
    if showAll then categories else Take(categories, SidebarCategories)
  }

  /** The mobile category strip: at most the first six. */
  function MobileStrip(categories: seq<Category>): (r: seq<Category>)
    ensures r <= categories && |r| <= MobileCategories
  {
    Take(categories, MobileCategories)
  }

  /** Clicking a category selects it, or clears the selection when it was
      the selected one. */
  function Toggled(selected: string, slug: string): (r: string)
    ensures selected == slug ==> r == ""
    ensures selected != slug ==> r == slug
  {
    if selected == slug then "" else slug
  }

  /** Clicking the same category twice returns to the selection before,
      when nothing was selected. */
  lemma ToggleTwice(slug: string)
    requires slug != ""
    ensures Toggled(Toggled("", slug), slug) == ""
    ensures Toggled("", slug) == slug
  {
  }

  /** The "clear all filters" button: a category, a lowered maximum or the
      in-stock box unticked. A raised minimum does not show it. */
  predicate ShowClearAll(selectedCategory: string, maxPrice: int, inStockOnly: bool)
  {
    selectedCategory != "" || maxPrice < DefaultMaxPrice || !inStockOnly
  }

  /** Within the slider's range the button is hidden exactly when the
      category, the maximum and the in-stock box are at the values
      `clearFilters` restores. */
  lemma ClearAllHiddenAtDefaults(selectedCategory: string, maxPrice: int, inStockOnly: bool)
    requires maxPrice <= DefaultMaxPrice
    ensures !ShowClearAll(selectedCategory, maxPrice, inStockOnly) <==>
      selectedCategory == "" && maxPrice == DefaultMaxPrice && inStockOnly
  {
  }

  /** What the backend answers for a product query: its list (empty when
      it sent none) and its page count when it sent pagination. */
  datatype ProductsReply = ProductsReply(products: seq<Product>, pages: Option<int>)

  /** A product query as sent to the backend. The in-stock box is not part
      of it. */
  datatype ProductsRequest = ProductsRequest(
    category: string, sort: string, search: string, minPrice: int, maxPrice: int, page: int, limit: int)

  class ProductsPage {
    /** The bundled catalogue the page falls back to. */
    const bundled: seq<Product>
    var products: seq<Product>
    var categories: seq<Category>
    var loading: bool
    var page: int
    var totalPages: int
    var showAllCategories: bool
    var selectedCategory: string
    var minPrice: int
    var maxPrice: int
    var sortBy: string
    var inStockOnly: bool
    /** The search term the URL carries. */
    var searchParam: string
    var url: seq<(string, string)>
    var requests: seq<ProductsRequest>
    /** Fetches sent and not settled yet. */
    var pending: seq<ProductsRequest>

    /** `bundled` is the catalogue the page module imports (the application
        passes `Catalogue`). */
    constructor (categoryParam: string, searchParam: string, bundled: seq<Product>)
      ensures this.bundled == bundled
      ensures products == [] && categories == [] && loading
      ensures page == 1 && totalPages == 1 && !showAllCategories
      ensures selectedCategory == categoryParam && this.searchParam == searchParam
      ensures minPrice == DefaultMinPrice && maxPrice == DefaultMaxPrice
      ensures sortBy == DefaultSort && inStockOnly
      ensures url == [] && requests == [] && pending == []
    {
      this.bundled := bundled;
      products := [];
      categories := [];
      loading := true;
      page := 1;
      totalPages := 1;
      showAllCategories := false;
      selectedCategory := categoryParam;
      this.searchParam := searchParam;
      minPrice := DefaultMinPrice;
      maxPrice := DefaultMaxPrice;
      sortBy := DefaultSort;
      inStockOnly := true;
      url := [];
      requests := [];
      pending := [];
    }

    /** The filters as they currently stand, as the catalogue takes them. */
    function CurrentQuery(): Query
      reads this
    {
      Query(selectedCategory, searchParam, Some(minPrice), Some(maxPrice), sortBy)
    }

    /** `handlePageChange`: only pages 1 to `totalPages` are accepted. */
    method HandlePageChange(newPage: int)
      modifies this
      ensures 1 <= newPage <= old(totalPages) ==> page == newPage
      ensures !(1 <= newPage <= old(totalPages)) ==> page == old(page)
      ensures totalPages == old(totalPages) && selectedCategory == old(selectedCategory)
      ensures minPrice == old(minPrice) && maxPrice == old(maxPrice) && sortBy == old(sortBy)
      ensures inStockOnly == old(inStockOnly) && searchParam == old(searchParam)
      ensures products == old(products) && url == old(url) && requests == old(requests)
      ensures pending == old(pending) && loading == old(loading)
    {
      if 1 <= newPage <= totalPages {
        page := newPage;
      }
    }

    /** `clearFilters`: every filter back to its default, the first page,
        and an empty query string (so no search term either). */
    method ClearFilters()
      modifies this
      ensures selectedCategory == "" && minPrice == DefaultMinPrice && maxPrice == DefaultMaxPrice
      ensures sortBy == DefaultSort && inStockOnly && page == 1
      ensures url == [] && searchParam == ""
      ensures !ShowClearAll(selectedCategory, maxPrice, inStockOnly)
      ensures totalPages == old(totalPages) && products == old(products)
      ensures requests == old(requests) && pending == old(pending) && loading == old(loading)
    {
      selectedCategory := "";
      minPrice := DefaultMinPrice;
      maxPrice := DefaultMaxPrice;
      sortBy := DefaultSort;
      inStockOnly := true;
      page := 1;
      url := [];
      searchParam := "";
    }

    /** A click on a category in the sidebar or the mobile strip. */
    method ClickCategory(slug: string)
      modifies this
      ensures selectedCategory == Toggled(old(selectedCategory), slug)
      ensures page == old(page) && minPrice == old(minPrice) && maxPrice == old(maxPrice)
      ensures sortBy == old(sortBy) && inStockOnly == old(inStockOnly) && searchParam == old(searchParam)
      ensures products == old(products) && url == old(url) && requests == old(requests)
      ensures pending == old(pending) && loading == old(loading) && totalPages == old(totalPages)
    {
      selectedCategory := Toggled(selectedCategory, slug);
    }

    /** Typing into the minimum or maximum price input. */
    method TypePrice(text: string, isMax: bool)
      modifies this
      ensures isMax ==> maxPrice == PriceInput(text, MaxInputFallback) && minPrice == old(minPrice)
      ensures !isMax ==> minPrice == PriceInput(text, MinInputFallback) && maxPrice == old(maxPrice)
      ensures page == old(page) && selectedCategory == old(selectedCategory)
      ensures sortBy == old(sortBy) && inStockOnly == old(inStockOnly) && searchParam == old(searchParam)
      ensures products == old(products) && url == old(url) && requests == old(requests)
      ensures pending == old(pending) && loading == old(loading) && totalPages == old(totalPages)
    {
      if isMax {
        maxPrice := PriceInput(text, MaxInputFallback);
      } else {
        minPrice := PriceInput(text, MinInputFallback);
      }
    }

    /** Picking an entry of either sort menu (the toolbar's or the mobile
        one) sets the sort key and nothing else. */
    method ChooseSort(key: string)
      modifies this
      ensures sortBy == key
      ensures page == old(page) && selectedCategory == old(selectedCategory)
      ensures minPrice == old(minPrice) && maxPrice == old(maxPrice)
      ensures inStockOnly == old(inStockOnly) && searchParam == old(searchParam)
      ensures products == old(products) && url == old(url) && requests == old(requests)
      ensures pending == old(pending) && loading == old(loading) && totalPages == old(totalPages)
    {
      sortBy := key;
    }

    /** The in-stock box: its tick becomes the flag, and an unticked box
        shows the "clear all filters" button whatever else is set. */
    method TickInStock(checked: bool)
      modifies this
      ensures inStockOnly == checked
      ensures !checked ==> ShowClearAll(selectedCategory, maxPrice, inStockOnly)
      ensures page == old(page) && selectedCategory == old(selectedCategory)
      ensures minPrice == old(minPrice) && maxPrice == old(maxPrice)
      ensures sortBy == old(sortBy) && searchParam == old(searchParam)
      ensures products == old(products) && url == old(url) && requests == old(requests)
      ensures pending == old(pending) && loading == old(loading) && totalPages == old(totalPages)
    {
      inStockOnly := checked;
    }

    /** The effect that follows every change of a filter, the sort or the
        page: it rewrites the query string and sends a product query with
        the current filters (but not the in-stock box). */
    method FiltersChanged()
      modifies this
      ensures url == UrlParams(selectedCategory, searchParam, page)
      ensures loading
      ensures var r := ProductsRequest(selectedCategory, sortBy, searchParam, minPrice, maxPrice, page, PageSize);
        requests == old(requests) + [r] && pending == old(pending) + [r]
      ensures page == old(page) && selectedCategory == old(selectedCategory)
      ensures minPrice == old(minPrice) && maxPrice == old(maxPrice)
      ensures sortBy == old(sortBy) && inStockOnly == old(inStockOnly) && searchParam == old(searchParam)
      ensures products == old(products) && totalPages == old(totalPages)
    {
      loading := true;
      var r := ProductsRequest(selectedCategory, sortBy, searchParam, minPrice, maxPrice, page, PageSize);
      requests := requests + [r];
      pending := pending + [r];
      url := UrlParams(selectedCategory, searchParam, page);
    }

    /** The reply to the fetch sent as `pending[k]`: a non-empty list is
        shown as it is; an empty list or a failure shows the bundled
        catalogue filtered and sorted with the filters of that fetch. The
        page count follows the reply's pagination when it has one. */
    method FetchSettled(k: nat, reply: Reply<ProductsReply>)
      requires k < |pending|
      modifies this
      ensures !loading
      ensures pending == old(pending[..k] + pending[k + 1..])
      ensures reply.Ok? && reply.payload.products != [] ==> products == reply.payload.products
      ensures reply.Err? || reply.payload.products == [] ==>
        var q := old(pending[k]);
        forall p :: p in products <==>
          p in bundled && Selected(Query(q.category, q.search, Some(q.minPrice), Some(q.maxPrice), q.sort), p)
      ensures reply.Err? || reply.payload.products == [] ==>
        var q := old(pending[k]);
        var fallback := Filter(bundled, (p: Product) =>
          Selected(Query(q.category, q.search, Some(q.minPrice), Some(q.maxPrice), q.sort), p));
        && multiset(products) == multiset(fallback)
        && (q.sort == "price-asc" ==> SortedByPrice(products, true))
        && (q.sort == "price-desc" ==> SortedByPrice(products, false))
        && (q.sort != "price-asc" && q.sort != "price-desc" && q.sort != "rating" ==> products == fallback)
      ensures reply.Ok? && reply.payload.pages.Some? ==> totalPages == reply.payload.pages.value
      ensures reply.Err? || reply.payload.pages.None? ==> totalPages == old(totalPages)
      ensures page == old(page) && selectedCategory == old(selectedCategory)
      ensures minPrice == old(minPrice) && maxPrice == old(maxPrice)
      ensures sortBy == old(sortBy) && inStockOnly == old(inStockOnly) && searchParam == old(searchParam)
      ensures url == old(url) && requests == old(requests)
    {
      var q := pending[k];
      if reply.Ok? && reply.payload.pages.Some? {
        totalPages := reply.payload.pages.value;
      }
      if reply.Ok? && reply.payload.products != [] {
        products := reply.payload.products;
      } else {
        products := FilterAndSort(bundled, Query(q.category, q.search, Some(q.minPrice), Some(q.maxPrice), q.sort));
      }
      pending := pending[..k] + pending[k + 1..];
      loading := false;
    }

    /** The category list: the backend's when it has any, the bundled one
        when it has none or fails. */
    method FetchCategories(reply: Reply<seq<Category>>)
      modifies this
      ensures reply.Ok? && reply.payload != [] ==> categories == reply.payload
      ensures reply.Err? || reply.payload == [] ==> categories == Catalog.Categories
      ensures products == old(products) && page == old(page) && selectedCategory == old(selectedCategory)
      ensures minPrice == old(minPrice) && maxPrice == old(maxPrice) && sortBy == old(sortBy)
      ensures inStockOnly == old(inStockOnly) && searchParam == old(searchParam) && url == old(url)
      ensures requests == old(requests) && pending == old(pending) && loading == old(loading)
      ensures totalPages == old(totalPages)
    {
      if reply.Ok? && reply.payload != [] {
        categories := reply.payload;
      } else {
        categories := Catalog.Categories;
      }
    }
  }
}
