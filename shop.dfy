// src/pages/Shop.tsx: the product list, its search box and filters, the
// optional sort, and the like button.
//
// Prices are whole cents and ratings whole tenths of a star; the page only
// ever compares them (through the sign of a difference), so integers order
// them exactly as the page's numbers do.
module Shop {
  import opened Seqs
  import opened Text

  datatype Product = Product(
    id: int,
    image: string,
    title: string,
    brand: string,
    price: int,
    originalPrice: Option<int>,
    rating: int,
    reviews: int,
    seller: string,
    location: string,
    occasion: string,
    trend: string,
    culture: string,
    event: string,
    religion: string,
    tags: seq<string>,
    isLiked: bool,
    inStock: bool)

  /** The page's initial products. */
  function SampleProducts(): seq<Product>
  {
    [ Product(1, "/lovable-uploads/c586921d-7c27-4b40-bc92-b3edd9b0a3ac.png", "Floral Embroidered Mini Dress",
              "Boho Chic", 8999, Some(12999), 45, 124, "FashionHub Store", "Los Angeles, CA", "Casual", "Floral",
              "Western", "Brunch", "Universal", ["floral", "mini", "embroidered", "summer"], false, true),
      Product(2, "/lovable-uploads/2845e472-b8de-40de-8fbc-aa60ce676d92.png", "Rose Applique Slip Dress",
              "Romantic Rose", 15600, None, 48, 89, "Elegant Designs", "New York, NY", "Evening", "Romantic",
              "Western", "Date Night", "Universal", ["rose", "slip", "romantic", "evening"], false, true),
      Product(3, "/lovable-uploads/5f92f4f7-5095-4e72-9d80-623fdc82905e.png", "Tropical Print Two-Piece Set",
              "Island Vibes", 12450, Some(15999), 43, 67, "Tropical Trends", "Miami, FL", "Vacation", "Tropical",
              "Caribbean", "Beach Party", "Universal", ["tropical", "two-piece", "vacation", "colorful"], false, true),
      Product(4, "/lovable-uploads/d8133fc7-60f5-4eb3-b666-ec4368d76ef5.png", "Bohemian Smocked Mini Dress",
              "Free Spirit", 9800, None, 46, 156, "Boho Boutique", "Austin, TX", "Festival", "Bohemian",
              "Western", "Music Festival", "Universal", ["bohemian", "smocked", "festival", "free-spirit"], false, true),
      Product(5, "/lovable-uploads/6118eec3-f694-4823-8138-93ab83074037.png", "Embroidered Peasant Top & Skirt",
              "Folk Heritage", 14299, None, 47, 93, "Cultural Couture", "San Francisco, CA", "Cultural Event", "Folk",
              "Mexican", "Cultural Festival", "Universal", ["embroidered", "peasant", "cultural", "traditional"], false, true) ]
  }

  /** The `filters` state. An empty string means "no constraint". */
  datatype Filters = Filters(
    occasion: string,
    trend: string,
    brand: string,
    location: string,
    culture: string,
    event: string,
    religion: string,
    priceRange: string,
    sortBy: string)

  /** The filters the page starts with and `clearAllFilters` installs. */
  const DefaultFilters := Filters("", "", "", "", "", "", "", "", "newest")

  const FilterKeys: set<string> :=
    {"occasion", "trend", "brand", "location", "culture", "event", "religion", "priceRange", "sortBy"}

  /** `filters[key]` for one of the declared keys. */
  function FilterField(f: Filters, key: string): string
    requires key in FilterKeys
  {
    if key == "occasion" then f.occasion
    else if key == "trend" then f.trend
    else if key == "brand" then f.brand
    else if key == "location" then f.location
    else if key == "culture" then f.culture
    else if key == "event" then f.event
    else if key == "religion" then f.religion
    else if key == "priceRange" then f.priceRange
    else f.sortBy
  }

  /** `{ ...filters, [filterType]: value }`. A key that is not a declared
      filter only adds a property nothing reads, so the filters are unchanged. */
  function WithFilter(f: Filters, filterType: string, value: string): (r: Filters)
    ensures filterType in FilterKeys ==> FilterField(r, filterType) == value
    ensures forall k :: k in FilterKeys && k != filterType ==> FilterField(r, k) == FilterField(f, k)
    ensures filterType !in FilterKeys ==> r == f
  {
    if filterType == "occasion" then f.(occasion := value)
    else if filterType == "trend" then f.(trend := value)
    else if filterType == "brand" then f.(brand := value)
    else if filterType == "location" then f.(location := value)
    else if filterType == "culture" then f.(culture := value)
    else if filterType == "event" then f.(event := value)
    else if filterType == "religion" then f.(religion := value)
    else if filterType == "priceRange" then f.(priceRange := value)
    else if filterType == "sortBy" then f.(sortBy := value)
    else f
  }

  /** The search test: an empty query matches every product; otherwise the
      lower-cased query must occur in the lower-cased title, brand or one tag. */
  function MatchesSearch(p: Product, query: string): (r: bool)
    ensures query == "" ==> r
    ensures query != "" ==>
              (r <==> (exists i :: OccursAt(Lower(query), Lower(p.title), i))
                      || (exists i :: OccursAt(Lower(query), Lower(p.brand), i))
                      || (exists tag, i :: tag in p.tags && OccursAt(Lower(query), Lower(tag), i)))
  {
    query == ""
    || Includes(Lower(p.title), Lower(query))
    || Includes(Lower(p.brand), Lower(query))
    || (exists tag :: tag in p.tags && Includes(Lower(tag), Lower(query)))
  }

  /** The conjunctive filter test: the search, equality with every non-empty
      filter, and substring containment (case-sensitive) for the location. */
  function Matches(p: Product, f: Filters, query: string): (r: bool)
    ensures r <==> MatchesSearch(p, query)
                   && (f.occasion == "" || p.occasion == f.occasion)
                   && (f.trend == "" || p.trend == f.trend)
                   && (f.brand == "" || p.brand == f.brand)
                   && (f.location == "" || exists i :: OccursAt(f.location, p.location, i))
                   && (f.culture == "" || p.culture == f.culture)
                   && (f.event == "" || p.event == f.event)
                   && (f.religion == "" || p.religion == f.religion)
  {
    MatchesSearch(p, query)
    && (f.occasion == "" || p.occasion == f.occasion)
    && (f.trend == "" || p.trend == f.trend)
    && (f.brand == "" || p.brand == f.brand)
    && (f.location == "" || Includes(p.location, f.location))
    && (f.culture == "" || p.culture == f.culture)
    && (f.event == "" || p.event == f.event)
    && (f.religion == "" || p.religion == f.religion)
  }

  /** `products.filter(product => ...)`: the matching products in list order. */
  function Select(products: seq<Product>, f: Filters, query: string): (r: seq<Product>)
    ensures forall p :: p in r <==> p in products && Matches(p, f, query)
    ensures IsSubsequence(r, products)
    ensures forall p :: multiset(r)[p] == if Matches(p, f, query) then multiset(products)[p] else 0
  {
    Filter(products, (p: Product) => Matches(p, f, query))
  }

  /** The price range filter is stored but never consulted. */
  lemma {:induction false} PriceRangeIgnored(products: seq<Product>, f: Filters, query: string, priceRange: string)
    ensures Select(products, f.(priceRange := priceRange), query) == Select(products, f, query)
  {
    if products != [] {
      PriceRangeIgnored(products[1..], f, query, priceRange);
    }
  }

  /** The sample products have pairwise distinct prices and ratings, so no
      comparator of the sort menu ever sees a tie among them. */
  lemma SampleKeysDistinct()
    ensures var ps := SampleProducts();
            forall i, j :: 0 <= i < j < |ps| ==> ps[i].price != ps[j].price && ps[i].rating != ps[j].rating
  {
  }

  /** The three comparators of the sort menu. */
  datatype SortOrder = PriceLow | PriceHigh | Rating

  /** Which comparator `sortBy` selects; any other value (the default
      "newest") leaves the filtered list in product order. */
  function SortOrderOf(sortBy: string): Option<SortOrder>
  {
    if sortBy == "price-low" then Some(PriceLow)
    else if sortBy == "price-high" then Some(PriceHigh)
    else if sortBy == "rating" then Some(Rating)
    else None
  }

  /** Each comparator `(a, b) => ...` is `Key(a) - Key(b)` for this key: price
      for low-to-high, minus price for high-to-low, minus rating for rating. */
  function Key(p: Product, o: SortOrder): int
  {
    match o
    case PriceLow => p.price
    case PriceHigh => -p.price
    case Rating => -p.rating
  }

  predicate SortedBy(s: seq<Product>, o: SortOrder)
  {
    forall i, j :: 0 <= i < j < |s| ==> Key(s[i], o) <= Key(s[j], o)
  }

  /** Sorted by the comparator's key between positions `lo` and `hi`. */
  ghost predicate SortedBetween(a: seq<Product>, o: SortOrder, lo: int, hi: int)
  {
    forall k, l :: lo <= k < l < hi && 0 <= k && l < |a| ==> Key(a[k], o) <= Key(a[l], o)
  }

  method Swap(a: array<Product>, i: int, j: int)
    requires 0 <= i < a.Length && 0 <= j < a.Length
    modifies a
    ensures a[i] == old(a[j]) && a[j] == old(a[i])
    ensures forall k :: 0 <= k < a.Length && k != i && k != j ==> a[k] == old(a[k])
    ensures multiset(a[..]) == old(multiset(a[..]))
  {
    a[i], a[j] := a[j], a[i];
  }

  /** Midway through inserting `s[j]`: `s[..j]` and `s[j..i+1]` are sorted
      runs, and `s[j-1]` may stand before `s[j+1]`. */
  ghost predicate Inserting(s: seq<Product>, o: SortOrder, j: int, i: int)
  {
    0 <= j <= i < |s|
    && SortedBetween(s, o, 0, j) && SortedBetween(s, o, j, i + 1)
    && (0 < j < i ==> Key(s[j - 1], o) <= Key(s[j + 1], o))
  }

  /** Swapping `s[j-1]` and `s[j]` when they are out of order moves the gap down by one. */
  lemma InsertingStep(s: seq<Product>, t: seq<Product>, o: SortOrder, j: int, i: int)
    requires Inserting(s, o, j, i) && 0 < j && Key(s[j - 1], o) > Key(s[j], o)
    requires |t| == |s| && t[j - 1] == s[j] && t[j] == s[j - 1]
    requires forall k :: 0 <= k < |s| && k != j - 1 && k != j ==> t[k] == s[k]
    ensures Inserting(t, o, j - 1, i)
  {
  }

  /** Once `s[j-1]` and `s[j]` are in order, or `j` is 0, the runs join up. */
  lemma InsertingDone(s: seq<Product>, o: SortOrder, j: int, i: int)
    requires Inserting(s, o, j, i) && (0 < j ==> Key(s[j - 1], o) <= Key(s[j], o))
    ensures SortedBetween(s, o, 0, i + 1)
  {
  }

  /** Moves `a[i]` down into the sorted prefix `a[..i]`. */
  method Insert(a: array<Product>, i: int, o: SortOrder)
    requires 0 <= i < a.Length
    requires SortedBetween(a[..], o, 0, i)
    modifies a
    ensures SortedBetween(a[..], o, 0, i + 1)
    ensures forall k :: i < k < a.Length ==> a[k] == old(a[k])
    ensures multiset(a[..]) == old(multiset(a[..]))
  {
    var j := i;
    while 0 < j && Key(a[j - 1], o) > Key(a[j], o)
      invariant Inserting(a[..], o, j, i)
      invariant forall k :: i < k < a.Length ==> a[k] == old(a[k])
      invariant multiset(a[..]) == old(multiset(a[..]))
    {
      ghost var before := a[..];
      Swap(a, j - 1, j);
      InsertingStep(before, a[..], o, j, i);
      j := j - 1;
    }
    InsertingDone(a[..], o, j, i);
  }

  /** `filtered.sort(comparator)`, as an insertion sort. */
  method SortInPlace(a: array<Product>, o: SortOrder)
    modifies a
    ensures SortedBy(a[..], o)
    ensures multiset(a[..]) == old(multiset(a[..]))
  {
    var i := 0;
    while i < a.Length
      invariant 0 <= i <= a.Length
      invariant SortedBetween(a[..], o, 0, i)
      invariant multiset(a[..]) == old(multiset(a[..]))
    {
      Insert(a, i, o);
      i := i + 1;
    }
  }

  /** What `filterProducts` stores for the given filters and query: the
      selected products in list order, or, when a sort is chosen, the same
      products (as a multiset) sorted by that comparator. */
  predicate IsFilterResult(r: seq<Product>, products: seq<Product>, f: Filters, query: string)
  {
    var selected := Select(products, f, query);
    match SortOrderOf(f.sortBy)
    case None => r == selected
    case Some(o) => multiset(r) == multiset(selected) && SortedBy(r, o)
  }

  /** `filterProducts` without the final state update: filter, then sort a copy in place. */
  method FilterAndSort(products: seq<Product>, f: Filters, query: string) returns (filtered: seq<Product>)
    ensures IsFilterResult(filtered, products, f, query)
    ensures forall p :: p in filtered <==> p in products && Matches(p, f, query)
    ensures SortOrderOf(f.sortBy) == None ==> filtered == Select(products, f, query)
    ensures f.sortBy == "price-low" ==>
              forall i, j :: 0 <= i < j < |filtered| ==> filtered[i].price <= filtered[j].price
    ensures f.sortBy == "price-high" ==>
              forall i, j :: 0 <= i < j < |filtered| ==> filtered[i].price >= filtered[j].price
    ensures f.sortBy == "rating" ==>
              forall i, j :: 0 <= i < j < |filtered| ==> filtered[i].rating >= filtered[j].rating
  {
    var selected := Select(products, f, query);
    match SortOrderOf(f.sortBy)
    case None =>
      filtered := selected;
    case Some(o) =>
      filtered := SortedCopy(selected, o);
      assert forall p :: p in filtered <==> p in multiset(filtered);
      SortOrderMeaning(filtered, f.sortBy, o);
  }

  /** Copies the list into a fresh array, sorts it there and reads it back. */
  method SortedCopy(s: seq<Product>, o: SortOrder) returns (r: seq<Product>)
    ensures multiset(r) == multiset(s) && SortedBy(r, o)
  {
    var a := new Product[|s|](i requires 0 <= i < |s| => s[i]);
    assert a[..] == s;
    SortInPlace(a, o);
    r := a[..];
  }

  /** What sorting by each menu entry's comparator means for prices and ratings. */
  lemma SortOrderMeaning(s: seq<Product>, sortBy: string, o: SortOrder)
    requires SortOrderOf(sortBy) == Some(o) && SortedBy(s, o)
    ensures sortBy == "price-low" ==> forall i, j :: 0 <= i < j < |s| ==> s[i].price <= s[j].price
    ensures sortBy == "price-high" ==> forall i, j :: 0 <= i < j < |s| ==> s[i].price >= s[j].price
    ensures sortBy == "rating" ==> forall i, j :: 0 <= i < j < |s| ==> s[i].rating >= s[j].rating
  {
  }

  /** With every filter cleared, an empty query and no sort, the page shows
      exactly the product list: what `clearAllFilters` installs directly. */
  lemma ClearedFiltersShowAll(products: seq<Product>)
    ensures forall r :: IsFilterResult(r, products, DefaultFilters, "") <==> r == products
  {
    FilterKeepsAll(products, (p: Product) => Matches(p, DefaultFilters, ""));
  }

  /** The product after its like button is pressed, if it has the id. */
  function Flip(p: Product, id: int): Product
  {
    if p.id == id then p.(isLiked := !p.isLiked) else p
  }

  /** `prev.map(product => product.id === id ? { ...product, isLiked: !product.isLiked } : product)` */
  function ToggleLike(products: seq<Product>, id: int): (r: seq<Product>)
    ensures |r| == |products|
    ensures forall i :: 0 <= i < |r| && products[i].id == id ==>
              r[i] == products[i].(isLiked := !products[i].isLiked)
    ensures forall i :: 0 <= i < |r| && products[i].id != id ==> r[i] == products[i]
  {
    if products == [] then [] else [Flip(products[0], id)] + ToggleLike(products[1..], id)
  }

  /** Pressing the same like button twice restores the list. */
  lemma ToggleLikeTwice(products: seq<Product>, id: int)
    ensures ToggleLike(ToggleLike(products, id), id) == products
  {
  }

  /** The like flag plays no part in any match. */
  lemma MatchesIgnoresLike(p: Product, f: Filters, query: string, id: int)
    ensures Matches(Flip(p, id), f, query) == Matches(p, f, query)
  {
  }

  /** Filtering a list with a first element: that element, if it matches, then the rest filtered. */
  lemma SelectCons(products: seq<Product>, f: Filters, query: string)
    requires products != []
    ensures Select(products, f, query)
            == (if Matches(products[0], f, query) then [products[0]] else []) + Select(products[1..], f, query)
  {
  }

  /** Liking commutes with filtering: the like flag plays no part in any match. */
  lemma {:induction false} SelectToggleLike(products: seq<Product>, f: Filters, query: string, id: int)
    ensures Select(ToggleLike(products, id), f, query) == ToggleLike(Select(products, f, query), id)
  {
    if products != [] {
      var p, liked := products[0], ToggleLike(products, id);
      SelectToggleLike(products[1..], f, query, id);
      assert liked[0] == Flip(p, id) && liked[1..] == ToggleLike(products[1..], id);
      MatchesIgnoresLike(p, f, query, id);
      SelectCons(products, f, query);
      SelectCons(liked, f, query);
      var rest := Select(products[1..], f, query);
      if Matches(p, f, query) {
        assert ([p] + rest)[0] == p && ([p] + rest)[1..] == rest;
      } else {
        assert [] + rest == rest;
      }
    }
  }

  /** Liking maps the multiset of products through Flip, which is its own inverse. */
  lemma {:induction false} ToggleLikeMultiset(products: seq<Product>, id: int, q: Product)
    ensures multiset(ToggleLike(products, id))[q] == multiset(products)[Flip(q, id)]
  {
    if products != [] {
      var h, t := products[0], products[1..];
      assert products == [h] + t;
      assert ToggleLike(products, id) == [Flip(h, id)] + ToggleLike(t, id);
      assert Flip(Flip(q, id), id) == q && Flip(Flip(h, id), id) == h;
      ToggleLikeMultiset(t, id, q);
      assert multiset(ToggleLike(products, id)) == multiset{Flip(h, id)} + multiset(ToggleLike(t, id));
      assert multiset(products) == multiset{h} + multiset(t);
    }
  }

  lemma LikePreservesPermutation(a: seq<Product>, b: seq<Product>, id: int)
    requires multiset(a) == multiset(b)
    ensures multiset(ToggleLike(a, id)) == multiset(ToggleLike(b, id))
  {
    forall q
      ensures multiset(ToggleLike(a, id))[q] == multiset(ToggleLike(b, id))[q]
    {
      ToggleLikeMultiset(a, id, q);
      ToggleLikeMultiset(b, id, q);
    }
  }

  /** Pressing a like button keeps the shown list what filtering and sorting
      the liked product list would give, so `handleLike` may map both lists. */
  lemma LikeKeepsFilterResult(r: seq<Product>, products: seq<Product>, f: Filters, query: string, id: int)
    requires IsFilterResult(r, products, f, query)
    ensures IsFilterResult(ToggleLike(r, id), ToggleLike(products, id), f, query)
  {
    var selected := Select(products, f, query);
    SelectToggleLike(products, f, query, id);
    assert Select(ToggleLike(products, id), f, query) == ToggleLike(selected, id);
    match SortOrderOf(f.sortBy)
    case None =>
    case Some(o) =>
      LikePreservesPermutation(r, selected, id);
      LikeKeepsSorted(r, id, o);
  }

  /** The like flag is not a sort key, so liking keeps a sorted list sorted. */
  lemma LikeKeepsSorted(s: seq<Product>, id: int, o: SortOrder)
    requires SortedBy(s, o)
    ensures SortedBy(ToggleLike(s, id), o)
  {
    var t := ToggleLike(s, id);
    assert forall i :: 0 <= i < |t| ==> Key(t[i], o) == Key(s[i], o);
  }

  /** The page's state: the products, the list on screen, the query and the filters. */
  class ShopPage {
    var products: seq<Product>
    var filteredProducts: seq<Product>
    var searchQuery: string
    var filters: Filters

    /** The list on screen is what filtering and sorting the products with the
        current filters and query gives. */
    predicate Consistent()
      reads this
    {
      IsFilterResult(filteredProducts, products, filters, searchQuery)
    }

    constructor ()
      ensures products == SampleProducts() && filteredProducts == SampleProducts()
      ensures searchQuery == "" && filters == DefaultFilters
      ensures Consistent()
    {
      products := SampleProducts();
      filteredProducts := SampleProducts();
      searchQuery := "";
      filters := DefaultFilters;
      ClearedFiltersShowAll(SampleProducts());
    }

    /** `filterProducts(currentFilters, query)`. */
    method FilterProducts(currentFilters: Filters, query: string)
      modifies this`filteredProducts
      ensures IsFilterResult(filteredProducts, products, currentFilters, query)
    {
      filteredProducts := FilterAndSort(products, currentFilters, query);
    }

    /** `handleSearch`: store the query and filter with it. */
    method HandleSearch(query: string)
      modifies this
      ensures searchQuery == query
      ensures products == old(products) && filters == old(filters)
      ensures Consistent()
    {
      searchQuery := query;
      FilterProducts(filters, query);
    }

    /** `handleFilterChange`: set one filter and filter with the new filters. */
    method HandleFilterChange(filterType: string, value: string)
      modifies this
      ensures filters == WithFilter(old(filters), filterType, value)
      ensures products == old(products) && searchQuery == old(searchQuery)
      ensures Consistent()
    {
      var newFilters := WithFilter(filters, filterType, value);
      filters := newFilters;
      FilterProducts(newFilters, searchQuery);
    }

    /** `handleLike`: flip the like flag of the product with this id in both lists. */
    method HandleLike(id: int)
      modifies this
      ensures products == ToggleLike(old(products), id)
      ensures filteredProducts == ToggleLike(old(filteredProducts), id)
      ensures filters == old(filters) && searchQuery == old(searchQuery)
      ensures old(Consistent()) ==> Consistent()
    {
      if Consistent() {
        LikeKeepsFilterResult(filteredProducts, products, filters, searchQuery, id);
      }
      products := ToggleLike(products, id);
      filteredProducts := ToggleLike(filteredProducts, id);
    }

    /** `clearAllFilters`: default filters, empty query, every product shown. */
    method ClearAllFilters()
      modifies this
      ensures filters == DefaultFilters && searchQuery == ""
      ensures filteredProducts == products && products == old(products)
      ensures Consistent()
    {
      filters := DefaultFilters;
      searchQuery := "";
      filteredProducts := products;
      ClearedFiltersShowAll(products);
    }
  }
}
