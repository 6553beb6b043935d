/** The catalogue page (ProductList): filtering of the loaded products by
    search term, category and price range, the selected ordering, the
    slicing into pages of twelve, the window of at most five page numbers,
    and the price inputs. Case mapping is on ASCII letters; the collation
    of names (`localeCompare`) is a parameter. */
module Catalog {
  import opened Wrappers
  import opened Text
  import opened ShopData
  import opened Sorting
  import opened Lists

  const PageSize := 12

  /** A page number; the buttons never go below the first page. */
  type Page = n: nat | n >= 1 witness 1
  const MaxPagesToShow := 5

  datatype PriceRange = PriceRange(min: int, max: int)

  // ---------------------------------------------------------------------
  // Filtering

  /** The search test: the lower-cased term occurs in the lower-cased name,
      or in the lower-cased description when there is one. */
  predicate MatchesSearch(p: Product, term: string) {
    var t := ToLower(term);
    Contains(ToLower(p.name), t) || (Truthy(p.description) && Contains(ToLower(p.description.value), t))
  }

  /** The category test: `product.category && product.category.id.toString() === selected` */
  predicate InCategory(p: Product, selected: string) {
    p.category.Some? && IntToString(p.category.value.id) == selected
  }

  /** The price test, inclusive at both ends. */
  predicate InPriceRange(p: Product, range: PriceRange) {
    range.min <= p.price <= range.max
  }

  /** The three tests together; an empty term and the category 'all' pass
      every product. */
  predicate Selected(p: Product, term: string, category: string, range: PriceRange) {
    && (term == "" || MatchesSearch(p, term))
    && (category == "all" || InCategory(p, category))
    && InPriceRange(p, range)
  }

  function SearchTest(term: string): Product -> bool {
    p => term == "" || MatchesSearch(p, term)
  }

  function CategoryTest(category: string): Product -> bool {
    p => category == "all" || InCategory(p, category)
  }

  function PriceTest(range: PriceRange): Product -> bool {
    p => InPriceRange(p, range)
  }

  function SelectedTest(term: string, category: string, range: PriceRange): Product -> bool {
    p => Selected(p, term, category, range)
  }

  function Selection(products: seq<Product>, term: string, category: string, range: PriceRange): seq<Product> {
    Filter(products, SelectedTest(term, category, range))
  }

  /** The three filters of filterProducts, the first two skipped for an
      empty term and for 'all', select exactly as Selection does. */
  lemma FilterStages(products: seq<Product>, term: string, category: string, range: PriceRange)
    ensures var s1 := if term != "" then Filter(products, SearchTest(term)) else products;
            var s2 := if category != "all" then Filter(s1, CategoryTest(category)) else s1;
            Filter(s2, PriceTest(range)) == Selection(products, term, category, range)
  {
    var st, ct := SearchTest(term), CategoryTest(category);
    var s1 := if term != "" then Filter(products, st) else products;
    if term == "" {
      FilterAll(products, st);
    }
    assert s1 == Filter(products, st);
    var s2 := if category != "all" then Filter(s1, ct) else s1;
    if category == "all" {
      FilterAll(s1, ct);
    }
    assert s2 == Filter(s1, ct);
    var both := (p: Product) => st(p) && ct(p);
    FilterTwice(products, st, ct, both);
    FilterTwice(products, both, PriceTest(range), SelectedTest(term, category, range));
  }

  function PriceAscending(a: Product, b: Product): bool { a.price <= b.price }
  function PriceDescending(a: Product, b: Product): bool { a.price >= b.price }

  /** The ordering step; names are ordered by `collate` ("may come before"). */
  function Ordered(sortBy: string, s: seq<Product>, collate: (string, string) -> bool): seq<Product> {
    if sortBy == "price-asc" then SortBy(s, PriceAscending)
    else if sortBy == "price-desc" then SortBy(s, PriceDescending)
    else if sortBy == "name-asc" then SortBy(s, (a: Product, b: Product) => collate(a.name, b.name))
    else if sortBy == "name-desc" then SortBy(s, (a: Product, b: Product) => collate(b.name, a.name))
    else s
  }

  /** What filterProducts stores. */
  function Filtered(products: seq<Product>, term: string, category: string, range: PriceRange,
                    sortBy: string, collate: (string, string) -> bool): seq<Product> {
    Ordered(sortBy, Selection(products, term, category, range), collate)
  }

  /** filterProducts: the three filters one after the other, then the sort. */
  method FilterProducts(products: seq<Product>, term: string, category: string, range: PriceRange,
                        sortBy: string, collate: (string, string) -> bool) returns (filtered: seq<Product>)
    ensures filtered == Filtered(products, term, category, range, sortBy, collate)
  {
    filtered := products;
    if term != "" {
      filtered := Filter(filtered, SearchTest(term));
    }
    if category != "all" {
      filtered := Filter(filtered, CategoryTest(category));
    }
    filtered := Filter(filtered, PriceTest(range));
    FilterStages(products, term, category, range);
    if sortBy == "price-asc" {
      filtered := Sort(filtered, PriceAscending);
    } else if sortBy == "price-desc" {
      filtered := Sort(filtered, PriceDescending);
    } else if sortBy == "name-asc" {
      filtered := Sort(filtered, (a: Product, b: Product) => collate(a.name, b.name));
    } else if sortBy == "name-desc" {
      filtered := Sort(filtered, (a: Product, b: Product) => collate(b.name, a.name));
    }
  }

  /** The page shows exactly the products that pass the three tests, each
      as often as in the loaded list, whatever the ordering. */
  lemma FilteredMembers(products: seq<Product>, term: string, category: string, range: PriceRange,
                        sortBy: string, collate: (string, string) -> bool)
    ensures var r := Filtered(products, term, category, range, sortBy, collate);
            && multiset(r) == multiset(Selection(products, term, category, range))
            && forall p :: p in r <==> p in products && Selected(p, term, category, range)
  {
    var sel := Selection(products, term, category, range);
    FilterMembers(products, SelectedTest(term, category, range));
    var r := Filtered(products, term, category, range, sortBy, collate);
    assert multiset(r) == multiset(sel);
    forall p ensures p in r <==> p in sel {
      assert p in r <==> p in multiset(r);
      assert p in sel <==> p in multiset(sel);
    }
  }

  /** Without a known ordering key ('default', 'newest', …) the list keeps
      the loaded order. */
  lemma DefaultOrderKept(products: seq<Product>, term: string, category: string, range: PriceRange,
                         sortBy: string, collate: (string, string) -> bool)
    requires sortBy != "price-asc" && sortBy != "price-desc" && sortBy != "name-asc" && sortBy != "name-desc"
    ensures Filtered(products, term, category, range, sortBy, collate) == Selection(products, term, category, range)
  {
  }

  /** 'price-asc' yields non-decreasing prices and 'price-desc'
      non-increasing ones. */
  lemma PriceOrders(products: seq<Product>, term: string, category: string, range: PriceRange,
                    collate: (string, string) -> bool)
    ensures var r := Filtered(products, term, category, range, "price-asc", collate);
            forall i, j :: 0 <= i < j < |r| ==> r[i].price <= r[j].price
    ensures var r := Filtered(products, term, category, range, "price-desc", collate);
            forall i, j :: 0 <= i < j < |r| ==> r[i].price >= r[j].price
  {
    var sel := Selection(products, term, category, range);
    assert Total(PriceAscending) && Transitive(PriceAscending);
    assert Total(PriceDescending) && Transitive(PriceDescending);
    SortBySorted(sel, PriceAscending);
    SortBySorted(sel, PriceDescending);
  }

  /** A selected category drops every product without one. */
  lemma UncategorisedDropped(products: seq<Product>, term: string, category: string, range: PriceRange,
                             sortBy: string, collate: (string, string) -> bool, p: Product)
    requires category != "all" && p.category.None?
    ensures p !in Filtered(products, term, category, range, sortBy, collate)
  {
    FilteredMembers(products, term, category, range, sortBy, collate);
  }

  // ---------------------------------------------------------------------
  // Pages

  /** `Math.ceil(n / productsPerPage)` */
  function TotalPages(n: nat): (r: nat)
    ensures r * PageSize >= n
    ensures r > 0 ==> (r - 1) * PageSize < n
  {
    (n + PageSize - 1) / PageSize
  }

  /** `s.slice(start, end)` for non-negative bounds: both are clamped to
      the length. */
  function Slice<T>(s: seq<T>, start: nat, end: nat): (r: seq<T>)
    ensures start <= |s| && start <= end ==> |r| == (if end <= |s| then end else |s|) - start
    ensures !(start <= |s| && start <= end) ==> r == []
  {
    var e := if end <= |s| then end else |s|;
    if start <= e then s[start..e] else []
  }

  /** The products of page `page` (counted from 1). */
  function PageItems<T>(items: seq<T>, page: Page): seq<T> {
    Slice(items, (page - 1) * PageSize, page * PageSize)
  }

  /** Page p holds the items from (p-1)*12 on, at most twelve; exactly the
      pages 1 … TotalPages are non-empty. */
  lemma PageContents<T>(items: seq<T>, page: Page)
    ensures var r := PageItems(items, page);
            && |r| <= PageSize
            && (forall j :: 0 <= j < |r| ==> r[j] == items[(page - 1) * PageSize + j])
            && (r != [] <==> page <= TotalPages(|items|))
  {
  }

  /** The window of page buttons renderPagination lays out. */
  method PaginationWindow(currentPage: int, totalPages: nat) returns (pageNumbers: seq<int>)
    ensures |pageNumbers| == if totalPages < MaxPagesToShow then totalPages else MaxPagesToShow
    ensures forall i :: 0 <= i < |pageNumbers| ==> pageNumbers[i] == pageNumbers[0] + i
    ensures forall i :: 0 <= i < |pageNumbers| ==> 1 <= pageNumbers[i] <= totalPages
    ensures 1 <= currentPage <= totalPages ==> currentPage in pageNumbers
  {
    var startPage := Max(1, currentPage - MaxPagesToShow / 2);
    var endPage := Min(totalPages, startPage + MaxPagesToShow - 1);
    if endPage - startPage + 1 < MaxPagesToShow {
      startPage := Max(1, endPage - MaxPagesToShow + 1);
    }
    pageNumbers := [];
    var i := startPage;
    while i <= endPage
      invariant startPage <= i <= (if endPage < startPage then startPage else endPage + 1)
      invariant |pageNumbers| == i - startPage
      invariant forall k :: 0 <= k < |pageNumbers| ==> pageNumbers[k] == startPage + k
    {
      pageNumbers := pageNumbers + [i];
      i := i + 1;
    }
    if 1 <= currentPage <= totalPages {
      assert pageNumbers[currentPage - startPage] == currentPage;
    }
  }

  function Max(a: int, b: int): int { if a >= b then a else b }
  function Min(a: int, b: int): int { if a <= b then a else b }

  // ---------------------------------------------------------------------
  // Price inputs

  /** The minimum input: `Math.max(0, parseInt(v) || 0)`; `entered` is
      None when parseInt gives NaN. */
  function MinInput(entered: Option<int>): (r: int)
    ensures r >= 0
    ensures entered.Some? && entered.value >= 0 ==> r == entered.value
  {
    Max(0, if entered.Some? && entered.value != 0 then entered.value else 0)
  }

  /** The maximum input: `Math.max(min, parseInt(v) || max)`. An entered 0
      is falsy, so it keeps the old maximum. */
  function MaxInput(range: PriceRange, entered: Option<int>): (r: int)
    ensures r >= range.min
    ensures entered.Some? && entered.value != 0 && entered.value >= range.min ==> r == entered.value
    ensures entered == Some(0) ==> r == Max(range.min, range.max)
  {
    Max(range.min, if entered.Some? && entered.value != 0 then entered.value else range.max)
  }

  /** The highest price of a non-empty list (`Math.max(...prices)`). */
  function MaxPrice(ps: seq<Product>): (r: int)
    requires ps != []
    ensures forall i :: 0 <= i < |ps| ==> ps[i].price <= r
    ensures exists i :: 0 <= i < |ps| && ps[i].price == r
  {
    if |ps| == 1 then ps[0].price
    else
      var m := MaxPrice(ps[1..]);
      assert forall i :: 1 <= i < |ps| ==> ps[i] == ps[1..][i - 1];
      if ps[0].price >= m then ps[0].price else m
  }

  // ---------------------------------------------------------------------
  // The page state

  class ProductListPage {
    var products: seq<Product>
    var filteredProducts: seq<Product>
    var searchTerm: string
    var selectedCategory: string
    var sortBy: string
    var priceRange: PriceRange
    var currentPage: Page
    var failed: bool
    const collate: (string, string) -> bool

    constructor (collate: (string, string) -> bool)
      ensures products == [] && filteredProducts == [] && searchTerm == "" && selectedCategory == "all"
      ensures sortBy == "default" && priceRange == PriceRange(0, 100000) && currentPage == 1 && !failed
      ensures this.collate == collate
    {
      products := [];
      filteredProducts := [];
      searchTerm := "";
      selectedCategory := "all";
      sortBy := "default";
      priceRange := PriceRange(0, 100000);
      currentPage := 1;
      failed := false;
      this.collate := collate;
    }

    /** fetchProducts; `fetched` is None when the request fails or the
        reply reports no success. */
    method FetchProducts(fetched: Option<seq<Product>>)
      modifies this
      ensures fetched.None? ==> products == [] && filteredProducts == [] && failed && priceRange == old(priceRange)
      ensures fetched.Some? ==> products == fetched.value && filteredProducts == fetched.value && !failed
      ensures fetched.Some? && fetched.value != [] ==> priceRange == old(priceRange).(max := MaxPrice(fetched.value))
      ensures fetched.Some? && fetched.value == [] ==> priceRange == old(priceRange)
      ensures searchTerm == old(searchTerm) && selectedCategory == old(selectedCategory) && sortBy == old(sortBy)
      ensures currentPage == old(currentPage)
    {
      failed := false;
      if fetched.None? {
        failed := true;
        products := [];
        filteredProducts := [];
        return;
      }
      products := fetched.value;
      filteredProducts := fetched.value;
      if |fetched.value| > 0 {
        priceRange := priceRange.(max := MaxPrice(fetched.value));
      }
    }

    /** The effect that runs filterProducts whenever one of its inputs
        changes: the filtered list is recomputed and the first page shown. */
    method Refilter()
      modifies this
      ensures filteredProducts == Filtered(products, searchTerm, selectedCategory, priceRange, sortBy, collate)
      ensures currentPage == 1
      ensures products == old(products) && searchTerm == old(searchTerm) && selectedCategory == old(selectedCategory)
      ensures sortBy == old(sortBy) && priceRange == old(priceRange) && failed == old(failed)
    {
      var filtered := FilterProducts(products, searchTerm, selectedCategory, priceRange, sortBy, collate);
      filteredProducts := filtered;
      currentPage := 1;
    }

    function CurrentProducts(): seq<Product>
      reads this
    {
      PageItems(filteredProducts, currentPage)
    }

    /** paginate: every button passes a page number of at least 1. */
    method Paginate(page: Page)
      modifies this
      ensures currentPage == page
      ensures products == old(products) && filteredProducts == old(filteredProducts) && priceRange == old(priceRange)
    {
      currentPage := page;
    }

    method SetMin(entered: Option<int>)
      modifies this
      ensures priceRange == old(priceRange).(min := MinInput(entered))
      ensures products == old(products) && filteredProducts == old(filteredProducts) && currentPage == old(currentPage)
    {
      priceRange := priceRange.(min := MinInput(entered));
    }

    method SetMax(entered: Option<int>)
      modifies this
      ensures priceRange == old(priceRange).(max := MaxInput(old(priceRange), entered))
      ensures priceRange.min <= priceRange.max
      ensures products == old(products) && filteredProducts == old(filteredProducts) && currentPage == old(currentPage)
    {
      priceRange := priceRange.(max := MaxInput(priceRange, entered));
    }

    /** clearFilters resets the criteria and keeps the maximum price (the
        reload it triggers is FetchProducts). */
    method ClearFilters()
      modifies this
      ensures searchTerm == "" && selectedCategory == "all" && sortBy == "default"
      ensures priceRange == PriceRange(0, old(priceRange).max)
      ensures products == old(products) && filteredProducts == old(filteredProducts) && currentPage == old(currentPage)
    {
      searchTerm := "";
      selectedCategory := "all";
      sortBy := "default";
      priceRange := PriceRange(0, priceRange.max);
    }
  }
}
