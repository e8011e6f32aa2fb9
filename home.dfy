/** The catalogue page: the query it sends for the current filters, the
    price sort applied to a copy of the fetched products, and the paging
    state (offset, accumulated products, whether more pages exist). */
module Home {
  import opened Types

  /** Page size of every products request. */
  const Limit: int := 12
  /** Top of the price filter; a maximum at or above it is not sent. */
  const PriceCeiling: int := 1000

  datatype PriceRange = PriceRange(min: int, max: int)

  datatype Filters = Filters(selectedCat: Option<int>, searchQuery: string, priceRange: PriceRange)

  /** The filters the page starts with: every category, no search, 0 to 1000. */
  const InitialFilters: Filters := Filters(None, "", PriceRange(0, PriceCeiling))

  /** The query parameters of a products request; absent optional
      parameters are `None`. */
  datatype Params = Params(
    offset: int,
    limit: int,
    categoryId: Option<int>,
    title: Option<string>,
    priceMin: Option<int>,
    priceMax: Option<int>)

  /** A selected category counts only when its id is truthy (not 0). */
  predicate CategoryChosen(selectedCat: Option<int>) {
    selectedCat.Some? && selectedCat.value != 0
  }

  // ----- the request -----

  /** The request for a page: offset and limit always, and each optional
      parameter exactly when its filter is active, carrying the filter's value. */
  function ParamsFor(f: Filters, currentOffset: int): (p: Params)
    ensures p.offset == currentOffset && p.limit == Limit
    ensures p.categoryId.Some? <==> CategoryChosen(f.selectedCat)
    ensures p.categoryId.Some? ==> p.categoryId == f.selectedCat
    ensures p.title.Some? <==> f.searchQuery != ""
    ensures p.title.Some? ==> p.title.value == f.searchQuery
    ensures p.priceMin.Some? <==> f.priceRange.min > 0
    ensures p.priceMin.Some? ==> p.priceMin.value == f.priceRange.min
    ensures p.priceMax.Some? <==> f.priceRange.max < PriceCeiling
    ensures p.priceMax.Some? ==> p.priceMax.value == f.priceRange.max
  {
    Params(currentOffset, Limit,
      if CategoryChosen(f.selectedCat) then f.selectedCat else None,
      if f.searchQuery != "" then Some(f.searchQuery) else None,
      if f.priceRange.min > 0 then Some(f.priceRange.min) else None,
      if f.priceRange.max < PriceCeiling then Some(f.priceRange.max) else None)
  }

  /** The `params` object, filled in one conditional assignment at a time. */
  method BuildParams(f: Filters, currentOffset: int) returns (p: Params)
    ensures p == ParamsFor(f, currentOffset)
  {
    p := Params(currentOffset, Limit, None, None, None, None);
    if CategoryChosen(f.selectedCat) {
      p := p.(categoryId := f.selectedCat);
    }
    if f.searchQuery != "" {
      p := p.(title := Some(f.searchQuery));
    }
    if f.priceRange.min > 0 {
      p := p.(priceMin := Some(f.priceRange.min));
    }
    if f.priceRange.max < PriceCeiling {
      p := p.(priceMax := Some(f.priceRange.max));
    }
  }

  // ----- the price inputs -----

  /** The minimum box: `parseInt(text) || 0`, where `None` is a text that
      does not parse. */
  function MinFromInput(parsed: Option<int>): (min: int)
    ensures parsed.None? ==> min == 0
    ensures parsed.Some? ==> min == parsed.value
  {
    match parsed
    case None => 0
    case Some(v) => if v != 0 then v else 0
  }

  /** The maximum box: `parseInt(text) || 1000`; a typed 0 is falsy, so it
      too becomes 1000, and the result is never 0. */
  function MaxFromInput(parsed: Option<int>): (max: int)
    ensures parsed.None? ==> max == PriceCeiling
    ensures parsed.Some? && parsed.value != 0 ==> max == parsed.value
    ensures parsed == Some(0) ==> max == PriceCeiling
    ensures max != 0
  {
    match parsed
    case None => PriceCeiling
    case Some(v) => if v != 0 then v else PriceCeiling
  }

  // ----- the sort -----

  /** The comparator `(a, b) => ...` is `Key(a) - Key(b)`: ascending price,
      descending price, or 0 for every pair. */
  function Key(sortBy: SortOption, p: Product): int {
    match sortBy
    case LowHigh => p.price
    case HighLow => -(p.price as int)
    case NoSort => 0
  }

  ghost predicate SortedBy(sortBy: SortOption, s: seq<Product>) {
    forall i, j :: 0 <= i < j < |s| ==> Key(sortBy, s[i]) <= Key(sortBy, s[j])
  }

  /** Insert `x` before the first element whose key is not below its own. */
  function Insert(sortBy: SortOption, x: Product, s: seq<Product>): (r: seq<Product>)
    requires SortedBy(sortBy, s)
    ensures SortedBy(sortBy, r)
    ensures multiset(r) == multiset(s) + multiset{x}
    ensures |r| == |s| + 1 && (r[0] == x || (s != [] && r[0] == s[0]))
  {
    if s == [] || Key(sortBy, x) <= Key(sortBy, s[0]) then [x] + s
    else
      var rest := Insert(sortBy, x, s[1..]);
      assert s == [s[0]] + s[1..];
      assert Key(sortBy, s[0]) <= Key(sortBy, rest[0]);
      [s[0]] + rest
  }

  /** `[...products].sort(comparator)`: a sorted rearrangement of a copy. */
  function SortedProducts(sortBy: SortOption, products: seq<Product>): (r: seq<Product>)
    ensures SortedBy(sortBy, r)
    ensures multiset(r) == multiset(products) && |r| == |products|
  {
    if products == [] then []
    else
      assert products == [products[0]] + products[1..];
      Insert(sortBy, products[0], SortedProducts(sortBy, products[1..]))
  }

  /** Ascending and descending price orders, and the fetched order kept
      untouched when no sort is chosen (the sort is stable and the
      comparator is always 0). */
  lemma {:induction false} SortOrders(sortBy: SortOption, products: seq<Product>)
    ensures var r := SortedProducts(sortBy, products);
      sortBy == LowHigh ==> forall i, j :: 0 <= i < j < |r| ==> r[i].price <= r[j].price
    ensures var r := SortedProducts(sortBy, products);
      sortBy == HighLow ==> forall i, j :: 0 <= i < j < |r| ==> r[i].price >= r[j].price
    ensures sortBy == NoSort ==> SortedProducts(sortBy, products) == products
  {
    var r := SortedProducts(sortBy, products);
    if sortBy == LowHigh {
      forall i, j | 0 <= i < j < |r| ensures r[i].price <= r[j].price {
        assert Key(sortBy, r[i]) <= Key(sortBy, r[j]);
      }
    } else if sortBy == HighLow {
      forall i, j | 0 <= i < j < |r| ensures r[i].price >= r[j].price {
        assert Key(sortBy, r[i]) <= Key(sortBy, r[j]);
      }
    } else if products != [] {
      SortOrders(sortBy, products[1..]);
    }
  }

  // ----- the response -----

  datatype Body = ArrayBody(data: seq<Product>) | OtherBody

  /** What a products request comes back with: a response body, or a thrown error. */
  datatype Outcome = Response(body: Body) | NetworkError

  /** More pages exist exactly when a full page of products came back. */
  function HasMoreAfter(outcome: Outcome): (more: bool)
    ensures more <==> outcome.Response? && outcome.body.ArrayBody? && |outcome.body.data| >= Limit
  {
    match outcome
    case NetworkError => false
    case Response(body) =>
      if !body.ArrayBody? || |body.data| < Limit then false else true
  }

  /** A clearing fetch replaces the list; a further page is appended. */
  function Merged(prev: seq<Product>, data: seq<Product>, clear: bool): (r: seq<Product>)
    ensures clear ==> r == data
    ensures !clear ==> |r| == |prev| + |data| && r[..|prev|] == prev && r[|prev|..] == data
  {
    if clear then data else prev + data
  }

  // ----- the page state -----

  /** Every field of the page's state at one instant. */
  datatype ListingState = ListingState(
    filters: Filters,
    sortBy: SortOption,
    products: seq<Product>,
    offset: int,
    hasMore: bool,
    loading: bool,
    loadingMore: bool)

  class Listing {
    var filters: Filters
    var sortBy: SortOption
    var products: seq<Product>
    var offset: int
    var hasMore: bool
    var loading: bool
    var loadingMore: bool

    ghost function State(): ListingState
      reads this
    {
      ListingState(filters, sortBy, products, offset, hasMore, loading, loadingMore)
    }

    /** The page mounts with no products, offset 0, and the first load pending. */
    constructor()
      ensures State() == ListingState(InitialFilters, NoSort, [], 0, true, true, false)
    {
      filters := InitialFilters;
      sortBy := NoSort;
      products := [];
      offset := 0;
      hasMore := true;
      loading := true;
      loadingMore := false;
    }

    /** What the grid shows. */
    function Shown(): seq<Product>
      reads this
    {
      SortedProducts(sortBy, products)
    }

    /** `fetchProducts`, first half: raise the matching spinner and send the
        request for the current filters. */
    method FetchProducts(currentOffset: int, clear: bool) returns (p: Params)
      modifies this
      ensures p == ParamsFor(filters, currentOffset)
      ensures State() == if clear then old(State()).(loading := true) else old(State()).(loadingMore := true)
    {
      if clear {
        loading := true;
      } else {
        loadingMore := true;
      }
      p := BuildParams(filters, currentOffset);
    }

    /** `fetchProducts`, second half: record whether more pages exist, merge
        an array of products into the list, and lower both spinners. */
    method ReceiveProducts(clear: bool, outcome: Outcome)
      modifies this
      ensures State() == old(State()).(
        hasMore := HasMoreAfter(outcome),
        products := if outcome.Response? && outcome.body.ArrayBody?
          then Merged(old(products), outcome.body.data, clear) else old(products),
        loading := false,
        loadingMore := false)
    {
      match outcome {
        case NetworkError =>
          hasMore := false;
        case Response(body) =>
          if !body.ArrayBody? || |body.data| < Limit {
            hasMore := false;
          } else {
            hasMore := true;
          }
          if body.ArrayBody? {
            products := Merged(products, body.data, clear);
          }
      }
      loading := false;
      loadingMore := false;
    }

    /** The filter effect: back to the first page and request it afresh,
        for the current filters, to replace the list. */
    method RefetchOnFilterChange() returns (p: Params)
      modifies this
      ensures p == ParamsFor(filters, 0)
      ensures State() == old(State()).(offset := 0, loading := true)
    {
      offset := 0;
      p := FetchProducts(0, true);
    }

    /** `loadMore`: advance by one page and request it, for the current
        filters, to append. */
    method LoadMore() returns (p: Params)
      modifies this
      ensures p == ParamsFor(filters, old(offset) + Limit)
      ensures State() == old(State()).(offset := old(offset) + Limit, loadingMore := true)
    {
      var nextOffset := offset + Limit;
      offset := nextOffset;
      p := FetchProducts(nextOffset, false);
    }

    /** A category button (or "All Systems" with `None`). */
    method SelectCategory(c: Option<int>)
      modifies this
      ensures State() == old(State()).(filters := old(filters).(selectedCat := c))
    {
      filters := filters.(selectedCat := c);
    }

    /** A new search text handed down by the parent as a property. */
    method SetSearch(q: string)
      modifies this
      ensures State() == old(State()).(filters := old(filters).(searchQuery := q))
    {
      filters := filters.(searchQuery := q);
    }

    /** The minimum price box. */
    method EditMin(parsed: Option<int>)
      modifies this
      ensures State() == old(State()).(filters :=
        old(filters).(priceRange := old(filters).priceRange.(min := MinFromInput(parsed))))
    {
      filters := filters.(priceRange := filters.priceRange.(min := MinFromInput(parsed)));
    }

    /** The maximum price box. */
    method EditMax(parsed: Option<int>)
      modifies this
      ensures State() == old(State()).(filters :=
        old(filters).(priceRange := old(filters).priceRange.(max := MaxFromInput(parsed))))
    {
      filters := filters.(priceRange := filters.priceRange.(max := MaxFromInput(parsed)));
    }

    /** The range slider sets the maximum to its (always numeric) position. */
    method Slide(position: int)
      modifies this
      ensures State() == old(State()).(filters :=
        old(filters).(priceRange := old(filters).priceRange.(max := position)))
    {
      filters := filters.(priceRange := filters.priceRange.(max := position));
    }
  }
}
