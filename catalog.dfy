/** The bundled catalogue the storefront falls back to when the backend has
    no products: eight categories, ten products, and the lookups, filters and
    sorts the pages run over them. */
module Catalog {
  import opened Common

  datatype Category = Category(id: string, name: string, slug: string, image: string)

  /** A product's category as the pages receive it: the category record, a
      bare category id, or nothing. */
  datatype CategoryRef = CategoryObject(cat: Category) | CategoryId(categoryId: string) | NoCategory

  /** One entry of a product's image list: an object with a url (""
      when it has none), a bare string, or null. */
  datatype ImageEntry = ImageObject(url: string) | ImageText(text: string) | NoImage

  /** A product as the pages handle it. `image` is the single-image field some
      products carry ("" when absent); `stock` and `countInStock` are None
      when absent; a missing compare-at price reads as 0. */
  datatype Product = Product(
    id: string, name: string, description: string, price: int, comparePrice: int,
    category: CategoryRef, brand: string, images: seq<ImageEntry>, image: string,
    stock: Option<int>, countInStock: Option<int>, isNew: bool, featured: bool)

  /** The image host every bundled picture comes from. */
  const Unsplash := "https://images.unsplash.com/"

  const Categories: seq<Category> := [
    Category("cat1", "Graphics Cards", "gpu",
      Unsplash + "photo-1591488320449-011701bb6704?auto=format&fit=crop&q=80&w=400"),
    Category("cat2", "Processors", "cpu",
      Unsplash + "photo-1591799264318-7e6ef8ddb7ea?auto=format&fit=crop&q=80&w=400"),
    Category("cat3", "Motherboards", "motherboard",
      Unsplash + "photo-1518770660439-4636190af475?auto=format&fit=crop&q=80&w=400"),
    Category("cat4", "Memory", "ram",
      Unsplash + "photo-1562976540-1502c2145186?auto=format&fit=crop&q=80&w=400"),
    Category("cat5", "Storage", "storage",
      Unsplash + "photo-1597852074816-d933c7d2b988?auto=format&fit=crop&q=80&w=400"),
    Category("cat6", "Cases", "case",
      Unsplash + "photo-1587202372775-e229f172b9d7?auto=format&fit=crop&q=80&w=400"),
    Category("cat7", "Power Supply", "psu",
      Unsplash + "photo-1555618254-71280caa7fb7?auto=format&fit=crop&q=80&w=400"),
    Category("cat8", "Cooling", "cooling",
      Unsplash + "photo-1527219525722-f9767a7f2884?auto=format&fit=crop&q=80&w=400")
  ]

  // The bundled products, one constant each, named after their ids.

  const ProductD1: Product :=
    Product("d1", "GeForce RTX 4090 Gaming OC",
      "Experience unparalleled gaming performance with the NVIDIA GeForce RTX 4090. Featuring 24GB GDDR6X memory and Ada Lovelace architecture, this powerhouse GPU delivers exceptional ray tracing and AI-powered graphics. Perfect for 4K gaming, content creation, and professional workloads.",
      159999, 179999, CategoryObject(Categories[0]), "NVIDIA",
      [ImageObject(Unsplash + "photo-1624705002806-5d72df19c3ad?auto=format&fit=crop&q=80&w=800"), ImageObject(Unsplash + "photo-1591488320449-011701bb6704?auto=format&fit=crop&q=80&w=800")],
      "", Some(5), Some(5), true, true)

  const ProductD2: Product :=
    Product("d2", "Intel Core i9-14900K",
      "The Intel Core i9-14900K is a high-performance processor featuring 24 cores (8 P-cores + 16 E-cores) and 32 threads. With a max turbo frequency of 6.0 GHz, it delivers exceptional performance for gaming, content creation, and multitasking. Unlocked for overclocking.",
      55999, 62999, CategoryObject(Categories[1]), "Intel",
      [ImageObject(Unsplash + "photo-1555680202-c86f0e12f086?auto=format&fit=crop&q=80&w=800"), ImageObject(Unsplash + "photo-1591799264318-7e6ef8ddb7ea?auto=format&fit=crop&q=80&w=800")],
      "", Some(10), Some(10), false, true)

  const ProductD3: Product :=
    Product("d3", "ROG Maximus Z790 Hero",
      "The ASUS ROG Maximus Z790 Hero is a premium ATX motherboard designed for Intel 13th and 14th Gen processors. Features PCIe 5.0, DDR5 support, WiFi 6E, and comprehensive cooling solutions. Perfect for enthusiast builds and overclocking.",
      65999, 72999, CategoryObject(Categories[2]), "ASUS",
      [ImageObject(Unsplash + "photo-1542751371-adc38448a05e?auto=format&fit=crop&q=80&w=800"), ImageObject(Unsplash + "photo-1518770660439-4636190af475?auto=format&fit=crop&q=80&w=800")],
      "", Some(8), Some(8), false, true)

  const ProductD4: Product :=
    Product("d4", "Corsair Vengeance RGB 32GB DDR5",
      "Corsair Vengeance RGB DDR5 RAM delivers cutting-edge performance with speeds up to 6000MHz. 32GB (2x16GB) kit with dynamic RGB lighting, optimized for Intel and AMD platforms. Low-latency timings ensure responsive system performance.",
      12999, 15999, CategoryObject(Categories[3]), "Corsair",
      [ImageObject(Unsplash + "photo-1535295972055-1c762f4483e5?auto=format&fit=crop&q=80&w=800"), ImageObject(Unsplash + "photo-1562976540-1502c2145186?auto=format&fit=crop&q=80&w=800")],
      "", Some(15), Some(15), false, false)

  const ProductD5: Product :=
    Product("d5", "Samsung 990 PRO 2TB NVMe SSD",
      "Samsung 990 PRO delivers exceptional speed with PCIe 4.0 interface, reaching sequential read speeds up to 7,450 MB/s. 2TB capacity with advanced thermal control and power efficiency. Ideal for gaming, professional workloads, and heavy multitasking.",
      16999, 21999, CategoryObject(Categories[4]), "Samsung",
      [ImageObject(Unsplash + "photo-1603302576837-37561b2e2302?auto=format&fit=crop&q=80&w=800"), ImageObject(Unsplash + "photo-1597852074816-d933c7d2b988?auto=format&fit=crop&q=80&w=800")],
      "", Some(20), Some(20), false, false)

  const ProductD6: Product :=
    Product("d6", "NZXT H9 Flow Elite",
      "The NZXT H9 Flow is a premium mid-tower case featuring a panoramic tempered glass side panel and optimized airflow design. Supports up to E-ATX motherboards, 360mm radiators, and includes RGB lighting strips. Cable management system for clean builds.",
      18999, 20999, CategoryObject(Categories[5]), "NZXT",
      [ImageObject(Unsplash + "photo-1593640408182-31c70c8268f5?auto=format&fit=crop&q=80&w=800"), ImageObject(Unsplash + "photo-1587202372775-e229f172b9d7?auto=format&fit=crop&q=80&w=800")],
      "", Some(25), Some(25), false, true)

  const ProductD7: Product :=
    Product("d7", "Corsair RM1000x 80+ Gold Modular PSU",
      "Corsair RM1000x is a fully modular 1000W power supply with 80 PLUS Gold certification. Zero RPM fan mode for silent operation, Japanese capacitors for reliability, and flat ribbon cables for easy cable management. 10-year warranty included.",
      14999, 16999, CategoryObject(Categories[6]), "Corsair",
      [ImageObject(Unsplash + "photo-1587202372775-e229f172b9d7?auto=format&fit=crop&q=80&w=800"), ImageObject(Unsplash + "photo-1555618254-71280caa7fb7?auto=format&fit=crop&q=80&w=800")],
      "", Some(12), Some(12), false, false)

  const ProductD8: Product :=
    Product("d8", "NZXT Kraken Elite 360 RGB AIO",
      "NZXT Kraken Elite 360mm AIO liquid cooler features a customizable LCD display, powerful pump, and three 120mm RGB fans. Whisper-quiet operation with exceptional cooling performance. Compatible with all modern CPU sockets.",
      24999, 28999, CategoryObject(Categories[7]), "NZXT",
      [ImageObject(Unsplash + "photo-1550745165-9bc0b252726f?auto=format&fit=crop&q=80&w=800"), ImageObject(Unsplash + "photo-1527219525722-f9767a7f2884?auto=format&fit=crop&q=80&w=800")],
      "", Some(7), Some(7), false, true)

  const ProductD9: Product :=
    Product("d9", "AMD Ryzen 9 7950X",
      "AMD Ryzen 9 7950X features 16 cores and 32 threads with Zen 4 architecture. Boost clocks up to 5.7 GHz deliver exceptional multi-threaded performance. Includes AMD 3D V-Cache technology for gaming excellence.",
      58999, 64999, CategoryObject(Categories[1]), "AMD",
      [ImageObject(Unsplash + "photo-1555680202-c86f0e12f086?auto=format&fit=crop&q=80&w=800")],
      "", Some(12), Some(12), false, true)

  const ProductD10: Product :=
    Product("d10", "Radeon RX 7900 XTX",
      "AMD Radeon RX 7900 XTX graphics card with RDNA 3 architecture. 24GB GDDR6 memory and chiplet design deliver incredible 4K gaming performance. Advanced cooling solution keeps temperatures in check.",
      89999, 99999, CategoryObject(Categories[0]), "AMD",
      [ImageObject(Unsplash + "photo-1591488320449-011701bb6704?auto=format&fit=crop&q=80&w=800")],
      "", Some(6), Some(6), false, false)

  const Catalogue: seq<Product> := [
    ProductD1, ProductD2, ProductD3, ProductD4, ProductD5,
    ProductD6, ProductD7, ProductD8, ProductD9, ProductD10
  ]

  /** `product.category.slug`, "" when the category is not a record. */
  function SlugOf(p: Product): string
  {
    if p.category.CategoryObject? then p.category.cat.slug else ""
  }

  // ------------------------------------------------------------- lookups

  /** `find` by id over a product list: the first product with that id. */
  function ProductById(source: seq<Product>, id: string): (r: Option<Product>)
    ensures r.None? <==> forall i :: 0 <= i < |source| ==> source[i].id != id
    ensures r.Some? ==>
      exists i :: 0 <= i < |source| && source[i] == r.value && r.value.id == id
        && forall j :: 0 <= j < i ==> source[j].id != id
  {
    Find(source, (p: Product) => p.id == id)
  }

  /** `getProductById`: the first catalogue product with that id. */
  function GetProductById(id: string): (r: Option<Product>)
    ensures r.None? <==> forall i :: 0 <= i < |Catalogue| ==> Catalogue[i].id != id
    ensures r.Some? ==> r.value in Catalogue && r.value.id == id
  {
    ProductById(Catalogue, id)
  }

  /** The category filter over a product list: the whole list for an empty
      slug, else the products of that category in list order. */
  function ProductsByCategory(source: seq<Product>, slug: string): (r: seq<Product>)
    ensures slug == "" ==> r == source
    ensures |r| <= |source|
    ensures slug != "" ==> forall i :: 0 <= i < |r| ==> r[i] in source && SlugOf(r[i]) == slug
    ensures slug != "" ==> forall i :: 0 <= i < |source| && SlugOf(source[i]) == slug ==> source[i] in r
  {
    if slug == "" then source else Filter(source, (p: Product) => SlugOf(p) == slug)
  }

  /** The category filter keeps list order: it distributes over joined
      lists, and a single product stays exactly when it is of the category
      (or no category is asked for). */
  lemma ProductsByCategoryKeepsOrder(a: seq<Product>, b: seq<Product>, slug: string, p: Product)
    ensures ProductsByCategory(a + b, slug) == ProductsByCategory(a, slug) + ProductsByCategory(b, slug)
    ensures ProductsByCategory([p], slug) == if slug == "" || SlugOf(p) == slug then [p] else []
  {
    if slug != "" {
      FilterAppend(a, b, (p: Product) => SlugOf(p) == slug);
    }
  }

  /** `getProductsByCategory`: the whole catalogue for an empty slug, else the
      products of that category in catalogue order. */
  function GetProductsByCategory(slug: string): (r: seq<Product>)
    ensures r == ProductsByCategory(Catalogue, slug)
    ensures slug == "" ==> r == Catalogue
    ensures slug != "" ==> forall i :: 0 <= i < |r| ==> r[i] in Catalogue && SlugOf(r[i]) == slug
    ensures slug != "" ==> forall i :: 0 <= i < |Catalogue| && SlugOf(Catalogue[i]) == slug ==> Catalogue[i] in r
  {
    ProductsByCategory(Catalogue, slug)
  }

  /** The featured filter over a product list: the featured products in
      list order. */
  function FeaturedOf(source: seq<Product>): (r: seq<Product>)
    ensures |r| <= |source|
    ensures forall i :: 0 <= i < |r| ==> r[i] in source && r[i].featured
    ensures forall i :: 0 <= i < |source| && source[i].featured ==> source[i] in r
  {
    Filter(source, (p: Product) => p.featured)
  }

  /** The featured filter keeps list order, as the category filter does. */
  lemma FeaturedKeepsOrder(a: seq<Product>, b: seq<Product>, p: Product)
    ensures FeaturedOf(a + b) == FeaturedOf(a) + FeaturedOf(b)
    ensures FeaturedOf([p]) == if p.featured then [p] else []
  {
    FilterAppend(a, b, (p: Product) => p.featured);
  }

  /** `getFeaturedProducts`: exactly the featured products. */
  function GetFeaturedProducts(): (r: seq<Product>)
    ensures r == FeaturedOf(Catalogue)
    ensures forall i :: 0 <= i < |r| ==> r[i] in Catalogue && r[i].featured
    ensures forall i :: 0 <= i < |Catalogue| && Catalogue[i].featured ==> Catalogue[i] in r
  {
    FeaturedOf(Catalogue)
  }

  /** `getCategoryBySlug`: the first category with that slug. */
  function GetCategoryBySlug(slug: string): (r: Option<Category>)
    ensures r.None? <==> forall i :: 0 <= i < |Categories| ==> Categories[i].slug != slug
    ensures r.Some? ==>
      exists i :: 0 <= i < |Categories| && Categories[i] == r.value && r.value.slug == slug
        && forall j :: 0 <= j < i ==> Categories[j].slug != slug
  {
    Find(Categories, (c: Category) => c.slug == slug)
  }

  // ----------------------------------------------------------- filtering

  /** The arguments of `filterAndSortProducts`; an absent price bound is
      None. */
  datatype Query = Query(category: string, search: string, minPrice: Option<int>, maxPrice: Option<int>, sort: string)

  predicate InCategory(q: Query, p: Product)
  {
    q.category == "" || SlugOf(p) == q.category
  }

  /** The search term, lower-cased, occurs in the lower-cased name,
      description or brand. */
  predicate MatchesSearch(q: Query, p: Product)
  {
    q.search == "" ||
    var term := Lower(q.search);
    Includes(Lower(p.name), term) || Includes(Lower(p.description), term) || Includes(Lower(p.brand), term)
  }

  predicate AboveMin(q: Query, p: Product)
  {
    q.minPrice.None? || p.price >= q.minPrice.value
  }

  predicate BelowMax(q: Query, p: Product)
  {
    q.maxPrice.None? || p.price <= q.maxPrice.value
  }

  /** The products a query keeps. */
  predicate Selected(q: Query, p: Product)
  {
    InCategory(q, p) && MatchesSearch(q, p) && AboveMin(q, p) && BelowMax(q, p)
  }

  // ------------------------------------------------------------- sorting

  /** Whether `a` may come before `b` in a list sorted by price, ascending
      or descending. */
  predicate InOrder(a: Product, b: Product, ascending: bool)
  {
    if ascending then a.price <= b.price else a.price >= b.price
  }

  predicate SortedByPrice(s: seq<Product>, ascending: bool)
  {
    forall i, j :: 0 <= i < j < |s| ==> InOrder(s[i], s[j], ascending)
  }

  /** A product that strictly precedes the head of a sorted list precedes
      all of it. */
  lemma PrependSorted(p: Product, s: seq<Product>, ascending: bool)
    requires SortedByPrice(s, ascending) && |s| > 0 && !InOrder(s[0], p, ascending)
    ensures SortedByPrice([p] + s, ascending)
  {
    var r := [p] + s;
    forall i, j | 0 <= i < j < |r| ensures InOrder(r[i], r[j], ascending) {
      if i == 0 {
        assert r[j] == s[j - 1];
        assert j - 1 == 0 || InOrder(s[0], s[j - 1], ascending);
      } else {
        assert r[i] == s[i - 1] && r[j] == s[j - 1];
      }
    }
  }

  /** The head of a sorted list stays in front of the rest with `p`
      inserted, when it does not come after `p`. */
  lemma ConsSorted(p: Product, s: seq<Product>, rest: seq<Product>, ascending: bool)
    requires SortedByPrice(s, ascending) && |s| > 0 && InOrder(s[0], p, ascending)
    requires multiset(rest) == multiset(s[1..]) + multiset{p} && SortedByPrice(rest, ascending)
    ensures multiset([s[0]] + rest) == multiset(s) + multiset{p}
    ensures SortedByPrice([s[0]] + rest, ascending)
  {
    assert s == [s[0]] + s[1..];
    forall j | 0 <= j < |rest| ensures InOrder(s[0], rest[j], ascending) {
      assert rest[j] in multiset(rest);
      if rest[j] != p {
        assert rest[j] in multiset(s[1..]);
        var k :| 0 <= k < |s[1..]| && s[1..][k] == rest[j];
        assert s[k + 1] == rest[j];
      }
    }
    var r := [s[0]] + rest;
    forall i, j | 0 <= i < j < |r| ensures InOrder(r[i], r[j], ascending) {
      if i == 0 {
        assert r[j] == rest[j - 1];
      } else {
        assert r[i] == rest[i - 1] && r[j] == rest[j - 1];
      }
    }
  }

  /** Places `p` into a sorted list after every element it does not strictly
      precede, so equal prices keep their order. */
  function Insert(p: Product, s: seq<Product>, ascending: bool): (r: seq<Product>)
    requires SortedByPrice(s, ascending)
    ensures multiset(r) == multiset(s) + multiset{p}
    ensures SortedByPrice(r, ascending)
  {
    if s == [] then [p]
    else if !InOrder(s[0], p, ascending) then
      PrependSorted(p, s, ascending);
      [p] + s
    else
      var rest := Insert(p, s[1..], ascending);
      ConsSorted(p, s, rest, ascending);
      [s[0]] + rest
  }

  /** `filtered.sort(...)` by price: a stable insertion sort. */
  function SortByPrice(s: seq<Product>, ascending: bool): (r: seq<Product>)
    ensures multiset(r) == multiset(s)
    ensures SortedByPrice(r, ascending)
  {
    if s == [] then []
    else
      var front := s[..|s| - 1];
      assert s == front + [s[|s| - 1]];
      Insert(s[|s| - 1], SortByPrice(front, ascending), ascending)
  }

  /** The narrowing half of `filterAndSortProducts`, over any product list:
      the category, search and price filters applied one after another. */
  method Narrow(source: seq<Product>, q: Query) returns (filtered: seq<Product>)
    ensures filtered == Filter(source, (p: Product) => Selected(q, p))
  {
    filtered := source;
    ghost var sel1 := (p: Product) => InCategory(q, p);
    if q.category != "" {
      filtered := Filter(filtered, (p: Product) => SlugOf(p) == q.category);
      FilterExt(source, (p: Product) => SlugOf(p) == q.category, sel1);
    } else {
      FilterAll(source, sel1);
    }
    assert filtered == Filter(source, sel1);

    ghost var sel2 := (p: Product) => InCategory(q, p) && MatchesSearch(q, p);
    if q.search != "" {
      var term := Lower(q.search);
      var matches := (p: Product) =>
        Includes(Lower(p.name), term) || Includes(Lower(p.description), term) || Includes(Lower(p.brand), term);
      filtered := Filter(filtered, matches);
      FilterFilter(source, sel1, matches, sel2);
    } else {
      FilterFilter(source, sel1, (p: Product) => true, sel2);
      FilterAll(filtered, (p: Product) => true);
    }
    assert filtered == Filter(source, sel2);

    ghost var sel3 := (p: Product) => sel2(p) && AboveMin(q, p);
    if q.minPrice.Some? {
      var lo := q.minPrice.value;
      filtered := Filter(filtered, (p: Product) => p.price >= lo);
      FilterFilter(source, sel2, (p: Product) => p.price >= lo, sel3);
    } else {
      FilterFilter(source, sel2, (p: Product) => true, sel3);
      FilterAll(filtered, (p: Product) => true);
    }
    assert filtered == Filter(source, sel3);

    ghost var sel := (p: Product) => Selected(q, p);
    if q.maxPrice.Some? {
      var hi := q.maxPrice.value;
      filtered := Filter(filtered, (p: Product) => p.price <= hi);
      FilterFilter(source, sel3, (p: Product) => p.price <= hi, sel);
    } else {
      FilterFilter(source, sel3, (p: Product) => true, sel);
      FilterAll(filtered, (p: Product) => true);
    }
  }

  /** Narrows a product list and orders it by the sort key: ascending or
      descending price, and the list's own order for any other key. */
  method FilterAndSort(source: seq<Product>, q: Query) returns (r: seq<Product>)
    ensures forall p :: p in r <==> p in source && Selected(q, p)
    ensures multiset(r) == multiset(Filter(source, (p: Product) => Selected(q, p)))
    ensures q.sort == "price-asc" ==> SortedByPrice(r, true)
    ensures q.sort == "price-desc" ==> SortedByPrice(r, false)
    ensures q.sort != "price-asc" && q.sort != "price-desc" && q.sort != "rating" ==>
      r == Filter(source, (p: Product) => Selected(q, p))
  {
    var filtered := Narrow(source, q);
    FilterMembers(source, (p: Product) => Selected(q, p));
    if q.sort == "price-asc" {
      r := SortByPrice(filtered, true);
    } else if q.sort == "price-desc" {
      r := SortByPrice(filtered, false);
    } else {
      r := filtered;
    }
    assert forall p :: p in r <==> p in multiset(r);
    assert forall p :: p in filtered <==> p in multiset(filtered);
  }

  /** `filterAndSortProducts`: the bundled catalogue, narrowed and sorted. The
      catalogue itself is a constant and is never changed. */
  method FilterAndSortProducts(q: Query) returns (r: seq<Product>)
    ensures forall p :: p in r <==> p in Catalogue && Selected(q, p)
    ensures multiset(r) == multiset(Filter(Catalogue, (p: Product) => Selected(q, p)))
    ensures q.sort == "price-asc" ==> SortedByPrice(r, true)
    ensures q.sort == "price-desc" ==> SortedByPrice(r, false)
    ensures q.sort != "price-asc" && q.sort != "price-desc" && q.sort != "rating" ==>
      r == Filter(Catalogue, (p: Product) => Selected(q, p))
  {
    r := FilterAndSort(Catalogue, q);
  }

  /** Membership in a filtered catalogue, stated for whole products. */
  lemma FilterMembers(s: seq<Product>, keep: Product -> bool)
    ensures forall p :: p in Filter(s, keep) <==> p in s && keep(p)
  {
    var r := Filter(s, keep);
    forall p | p in s && keep(p) ensures p in r {
      var i :| 0 <= i < |s| && s[i] == p;
    }
    forall p | p in r ensures p in s && keep(p) {
      var i :| 0 <= i < |r| && r[i] == p;
    }
  }
}
