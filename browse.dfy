/**
 * The browse page: the category taken from the query string, the search
 * filter, and the four sort orders applied by an in-place stable sort.
 */
module Browse {
  import opened Wrappers
  import opened Text
  import opened Seqs
  import opened Catalog

  // ---------------------------------------------------------------------------
  // The category in the query string
  // ---------------------------------------------------------------------------

  /** The query string's entries, in order. */
  type SearchParams = seq<(string, string)>

  /** `searchParams.get(key)`: the first entry with that key. */
  function GetParam(params: SearchParams, key: string): (v: Option<string>)
    ensures v.None? <==> forall i :: 0 <= i < |params| ==> params[i].0 != key
    ensures v.Some? ==> exists i :: 0 <= i < |params| && params[i] == (key, v.value) && forall j :: 0 <= j < i ==> params[j].0 != key
    decreases |params|
  {
    if params == [] then None
    else if params[0].0 == key then Some(params[0].1)
    else
      var v := GetParam(params[1..], key);
      assert forall i :: 0 < i < |params| ==> params[i] == params[1..][i - 1];
      v
  }

  /** `searchParams.get('category') || 'All'` */
  function SelectedCategory(params: SearchParams): (c: string)
    ensures GetParam(params, "category").Some? && GetParam(params, "category").value != "" ==>
              c == GetParam(params, "category").value
    ensures GetParam(params, "category").None? || GetParam(params, "category").value == "" ==> c == AllCategories
  {
    var v := GetParam(params, "category");
    if v.Some? && v.value != "" then v.value else AllCategories
  }

  /** `handleCategoryChange`: `'All'` clears the query string, any other category becomes `{ category }`. */
  function HandleCategoryChange(category: string): SearchParams {
    if category == AllCategories then [] else [("category", category)]
  }

  /** Choosing a category and reading it back gives that category (an empty name reads back as `'All'`). */
  lemma CategoryChangeRoundTrip(category: string)
    ensures SelectedCategory(HandleCategoryChange(category)) == if category == "" then AllCategories else category
    ensures category == AllCategories ==> HandleCategoryChange(category) == []
  {
    if category != AllCategories {
      assert GetParam(HandleCategoryChange(category), "category") == Some(category);
    }
  }

  // ---------------------------------------------------------------------------
  // The search filter
  // ---------------------------------------------------------------------------

  /** The lower-cased query occurs in the lower-cased title, description or category. */
  predicate Matches(query: string, p: Product) {
    || Includes(ToLower(p.title), query)
    || Includes(ToLower(p.description), query)
    || Includes(ToLower(p.category), query)
  }

  /**
   * Applied only when the trimmed query is non-empty; the text searched for
   * is the lower-cased query as typed, not trimmed.
   */
  function SearchFilter(products: seq<Product>, searchQuery: string): (r: seq<Product>)
    ensures Trim(searchQuery) == "" ==> r == products
    ensures Trim(searchQuery) != "" ==> forall p :: p in r <==> p in products && Matches(ToLower(searchQuery), p)
    ensures IsSubsequence(r, products)
  {
    if Trim(searchQuery) != "" then
      var query := ToLower(searchQuery);
      Filter(products, p => Matches(query, p))
    else
      SubsequenceReflexive(products);
      products
  }

  /** A product is kept exactly when the lower-cased query occurs at some position of one of its three texts. */
  lemma SearchMatchIff(products: seq<Product>, searchQuery: string, p: Product)
    requires Trim(searchQuery) != "" && p in products
    ensures p in SearchFilter(products, searchQuery) <==>
              var q := ToLower(searchQuery);
              || (exists i :: OccursAt(ToLower(p.title), q, i))
              || (exists i :: OccursAt(ToLower(p.description), q, i))
              || (exists i :: OccursAt(ToLower(p.category), q, i))
  {
    var q := ToLower(searchQuery);
    IncludesIff(ToLower(p.title), q);
    IncludesIff(ToLower(p.description), q);
    IncludesIff(ToLower(p.category), q);
  }

  /** A query made only of white space filters nothing, whatever its length. */
  lemma BlankQueryKeepsEverything(products: seq<Product>, searchQuery: string)
    requires IsBlank(searchQuery)
    ensures SearchFilter(products, searchQuery) == products
  {
    TrimEmptyIffBlank(searchQuery);
  }

  // ---------------------------------------------------------------------------
  // The sort orders
  // ---------------------------------------------------------------------------

  datatype SortOption = Name | PriceAsc | PriceDesc | Newest

  /** The initial choice. */
  const DefaultSort: SortOption := Newest

  /** `a` may come before `b`: the comparator `(a, b) => ...` is at most zero. */
  predicate Le(order: SortOption, a: Product, b: Product) {
    match order
    case Name => StrLe(a.title, b.title)
    case PriceAsc => a.priceCents <= b.priceCents
    case PriceDesc => b.priceCents <= a.priceCents
    case Newest => b.createdAt <= a.createdAt
  }

  lemma LeTotal(order: SortOption, a: Product, b: Product)
    ensures Le(order, a, b) || Le(order, b, a)
  {
    if order == Name {
      StrLeTotal(a.title, b.title);
    }
  }

  lemma LeTransitive(order: SortOption, a: Product, b: Product, c: Product)
    requires Le(order, a, b) && Le(order, b, c)
    ensures Le(order, a, c)
  {
    if order == Name {
      StrLeTransitive(a.title, b.title, c.title);
    }
  }

  ghost predicate Sorted(order: SortOption, s: seq<Product>) {
    forall i, j :: 0 <= i < j < |s| ==> Le(order, s[i], s[j])
  }

  /**
   * Inserts `x` into `s` after every element that may precede it: scanning
   * from the right, `x` moves left past elements strictly after it only, so
   * equal elements keep their order.
   */
  function Insert(order: SortOption, s: seq<Product>, x: Product): (r: seq<Product>)
    ensures |r| == |s| + 1
    decreases |s|
  {
    if s == [] || Le(order, s[|s| - 1], x) then s + [x]
    else Insert(order, s[..|s| - 1], x) + [s[|s| - 1]]
  }

  /** `Array.prototype.sort` with the order's comparator: a stable sort. */
  function SortBy(order: SortOption, s: seq<Product>): (r: seq<Product>)
    ensures |r| == |s|
    decreases |s|
  {
    if s == [] then [] else Insert(order, SortBy(order, s[..|s| - 1]), s[|s| - 1])
  }

  lemma {:induction false} InsertPermutes(order: SortOption, s: seq<Product>, x: Product)
    ensures multiset(Insert(order, s, x)) == multiset(s) + multiset{x}
    decreases |s|
  {
    if !(s == [] || Le(order, s[|s| - 1], x)) {
      var init, last := s[..|s| - 1], s[|s| - 1];
      InsertPermutes(order, init, x);
      assert Insert(order, s, x) == Insert(order, init, x) + [last];
      assert s == init + [last];
    }
  }

  /** Sorting rearranges: every product appears as often as before. */
  lemma {:induction false} SortByPermutes(order: SortOption, s: seq<Product>)
    ensures multiset(SortBy(order, s)) == multiset(s)
    decreases |s|
  {
    if s != [] {
      var init, last := s[..|s| - 1], s[|s| - 1];
      SortByPermutes(order, init);
      InsertPermutes(order, SortBy(order, init), last);
      assert SortBy(order, s) == Insert(order, SortBy(order, init), last);
      assert s == init + [last];
      assert multiset(s) == multiset(init) + multiset{last};
    }
  }

  lemma {:induction false} InsertSorted(order: SortOption, s: seq<Product>, x: Product)
    requires Sorted(order, s)
    ensures Sorted(order, Insert(order, s, x))
    decreases |s|
  {
    if s == [] || Le(order, s[|s| - 1], x) {
      var r := s + [x];
      forall i, j | 0 <= i < j < |r| ensures Le(order, r[i], r[j]) {
        if j == |s| && i < |s| - 1 {
          LeTransitive(order, s[i], s[|s| - 1], x);
        }
      }
    } else {
      var init := s[..|s| - 1];
      var last := s[|s| - 1];
      InsertSorted(order, init, x);
      InsertPermutes(order, init, x);
      var left := Insert(order, init, x);
      var r := left + [last];
      LeTotal(order, last, x);
      forall i, j | 0 <= i < j < |r| ensures Le(order, r[i], r[j]) {
        if j == |left| {
          assert r[i] in multiset(left);
          assert r[i] in multiset(init) || r[i] == x;
          if r[i] != x {
            var k :| 0 <= k < |init| && init[k] == r[i];
            assert Le(order, s[k], s[|s| - 1]);
          }
        }
      }
    }
  }

  lemma {:induction false} SortBySorted(order: SortOption, s: seq<Product>)
    ensures Sorted(order, SortBy(order, s))
    decreases |s|
  {
    if s != [] {
      SortBySorted(order, s[..|s| - 1]);
      InsertSorted(order, SortBy(order, s[..|s| - 1]), s[|s| - 1]);
    }
  }

  /** Sorting what is already in order changes nothing. */
  lemma {:induction false} SortBySortedIsIdentity(order: SortOption, s: seq<Product>)
    requires Sorted(order, s)
    ensures SortBy(order, s) == s
    decreases |s|
  {
    if s != [] {
      var init := s[..|s| - 1];
      var last := s[|s| - 1];
      assert Sorted(order, init) by {
        forall i, j | 0 <= i < j < |init| ensures Le(order, init[i], init[j]) {
          assert init[i] == s[i] && init[j] == s[j];
        }
      }
      SortBySortedIsIdentity(order, init);
      if init != [] {
        assert Le(order, s[|s| - 2], s[|s| - 1]);
      }
      assert s == init + [last];
    }
  }

  /** `a` and `b` compare equal: the comparator gives zero both ways. */
  predicate Equivalent(order: SortOption, a: Product, b: Product) {
    Le(order, a, b) && Le(order, b, a)
  }

  /** `[x]` if `x` compares equal to `y`, else nothing. */
  function RankOf(order: SortOption, x: Product, y: Product): seq<Product> {
    if Equivalent(order, x, y) then [x] else []
  }

  /** The products of `s` that compare equal to `y`, in their order in `s`. */
  function SameRankIn(order: SortOption, y: Product, s: seq<Product>): seq<Product>
    decreases |s|
  {
    if s == [] then [] else SameRankIn(order, y, s[..|s| - 1]) + RankOf(order, s[|s| - 1], y)
  }

  lemma SameRankInAppend(order: SortOption, y: Product, s: seq<Product>, x: Product)
    ensures SameRankIn(order, y, s + [x]) == SameRankIn(order, y, s) + RankOf(order, x, y)
  {
    assert (s + [x])[..|s|] == s;
  }

  /** Inserting `x` puts it after every product of its rank already present. */
  lemma {:induction false} InsertKeepsRankOrder(order: SortOption, s: seq<Product>, x: Product, y: Product)
    ensures SameRankIn(order, y, Insert(order, s, x)) == SameRankIn(order, y, s) + RankOf(order, x, y)
    decreases |s|
  {
    if s == [] || Le(order, s[|s| - 1], x) {
      SameRankInAppend(order, y, s, x);
    } else {
      var init, last := s[..|s| - 1], s[|s| - 1];
      var left := Insert(order, init, x);
      assert Insert(order, s, x) == left + [last];
      InsertKeepsRankOrder(order, init, x, y);
      SameRankInAppend(order, y, left, last);
      NotBothOfRank(order, x, last, y);
      SwapRanks(order, SameRankIn(order, y, init), x, last, y);
    }
  }

  /** A product `x` moves past is strictly after it, so the two are never of one rank. */
  lemma NotBothOfRank(order: SortOption, x: Product, last: Product, y: Product)
    requires !Le(order, last, x)
    ensures !(Equivalent(order, x, y) && Equivalent(order, last, y))
  {
    if Equivalent(order, x, y) && Equivalent(order, last, y) {
      LeTransitive(order, last, y, x);
    }
  }

  lemma SwapRanks(order: SortOption, a: seq<Product>, x: Product, last: Product, y: Product)
    requires !(Equivalent(order, x, y) && Equivalent(order, last, y))
    ensures a + RankOf(order, x, y) + RankOf(order, last, y) == a + RankOf(order, last, y) + RankOf(order, x, y)
  {
  }

  /**
   * The sort is stable: the products that compare equal to any `y` come out
   * in the order they went in.
   */
  lemma {:induction false} SortByStable(order: SortOption, s: seq<Product>, y: Product)
    ensures SameRankIn(order, y, SortBy(order, s)) == SameRankIn(order, y, s)
    decreases |s|
  {
    if s != [] {
      var init, last := s[..|s| - 1], s[|s| - 1];
      SortByStable(order, init, y);
      InsertKeepsRankOrder(order, SortBy(order, init), last, y);
    }
  }

  /**
   * When every product carries the same timestamp, as products loaded in
   * one instant do, the initial order `newest` lists them as they are.
   */
  lemma DefaultSortOfSimultaneousLoad(s: seq<Product>)
    requires forall i :: 0 <= i < |s| ==> s[i].createdAt == s[0].createdAt
    ensures SortBy(DefaultSort, s) == s
  {
    SortBySortedIsIdentity(DefaultSort, s);
  }

  /**
   * Stable sort of `a` in place, by insertion: the prefix `a[..i]` is the
   * sorted first `i` elements, and each new element is shifted left past the
   * elements that must follow it.
   */
  method SortInPlace(a: array<Product>, order: SortOption)
    modifies a
    ensures a[..] == SortBy(order, old(a[..]))
  {
    ghost var original := a[..];
    var i := 0;
    while i < a.Length
      invariant 0 <= i <= a.Length
      invariant a[..i] == SortBy(order, original[..i])
      invariant a[i..] == original[i..]
    {
      SortOneMore(a, i, order, original);
      i := i + 1;
    }
    assert a[..] == a[..a.Length];
    assert original == original[..a.Length];
  }

  /** One round of the outer loop: the sorted prefix grows by the next original element. */
  method SortOneMore(a: array<Product>, i: nat, order: SortOption, ghost original: seq<Product>)
    requires i < a.Length == |original|
    requires a[..i] == SortBy(order, original[..i]) && a[i..] == original[i..]
    modifies a
    ensures a[..i + 1] == SortBy(order, original[..i + 1]) && a[i + 1..] == original[i + 1..]
  {
    assert a[i] == original[i];
    InsertAt(a, i, order);
    SortByStep(order, original, i);
    assert a[i + 1..] == original[i + 1..];
  }

  /** Moves `a[i]` left into the sorted prefix `a[..i]`; the rest of the array is untouched. */
  method InsertAt(a: array<Product>, i: nat, order: SortOption)
    requires i < a.Length
    modifies a
    ensures a[..i + 1] == Insert(order, old(a[..i]), old(a[i]))
    ensures a[i + 1..] == old(a[i + 1..])
  {
    ghost var sorted := a[..i];
    var x := a[i];
    var j := i;
    while j > 0 && !Le(order, a[j - 1], x)
      invariant 0 <= j <= i
      invariant forall k :: 0 <= k < j ==> a[k] == sorted[k]
      invariant forall k :: j < k <= i ==> a[k] == sorted[k - 1]
      invariant forall k :: i < k < a.Length ==> a[k] == old(a[k])
      invariant forall k :: j <= k < i ==> !Le(order, sorted[k], x)
      decreases j
    {
      a[j] := a[j - 1];
      j := j - 1;
    }
    InsertPosition(order, sorted, x, j);
    a[j] := x;
    Assemble(a[..], sorted, i, j, x);
    Untouched(old(a[..]), a[..], i);
  }

  lemma Untouched(before: seq<Product>, after: seq<Product>, i: nat)
    requires |before| == |after| && i < |after|
    requires forall k :: i < k < |after| ==> after[k] == before[k]
    ensures after[i + 1..] == before[i + 1..]
  {
  }

  /** The array after the inner loop: the prefix before `j`, then `x`, then the shifted elements. */
  lemma Assemble(arr: seq<Product>, sorted: seq<Product>, i: nat, j: nat, x: Product)
    requires i < |arr| && |sorted| == i && j <= i && arr[j] == x
    requires forall k :: 0 <= k < j ==> arr[k] == sorted[k]
    requires forall k :: j < k <= i ==> arr[k] == sorted[k - 1]
    ensures arr[..i + 1] == sorted[..j] + [x] + sorted[j..]
  {
  }

  /**
   * `x` lands at `j` when the element before `j` may precede it and none from
   * `j` on may: exactly where the inner loop stops.
   */
  lemma {:induction false} InsertPosition(order: SortOption, sorted: seq<Product>, x: Product, j: nat)
    requires j <= |sorted|
    requires j == 0 || Le(order, sorted[j - 1], x)
    requires forall k :: j <= k < |sorted| ==> !Le(order, sorted[k], x)
    ensures Insert(order, sorted, x) == sorted[..j] + [x] + sorted[j..]
    decreases |sorted|
  {
    if j == |sorted| {
      assert sorted[..j] == sorted && sorted[j..] == [];
    } else {
      var init, last := sorted[..|sorted| - 1], sorted[|sorted| - 1];
      InsertPosition(order, init, x, j);
      assert init[..j] == sorted[..j];
      assert init[j..] + [last] == sorted[j..];
    }
  }

  lemma SortByStep(order: SortOption, s: seq<Product>, i: nat)
    requires i < |s|
    ensures SortBy(order, s[..i + 1]) == Insert(order, SortBy(order, s[..i]), s[i])
  {
    assert s[..i + 1][..i] == s[..i];
  }

  // ---------------------------------------------------------------------------
  // The whole listing
  // ---------------------------------------------------------------------------

  /** What the page lists: the category's products, searched, then sorted. */
  function BrowseResult(catalog: seq<Product>, category: string, searchQuery: string, sortBy: SortOption): seq<Product> {
    SortBy(sortBy, SearchFilter(GetProductsByCategory(catalog, category), searchQuery))
  }

  /**
   * `filteredAndSortedProducts`. With `'All'` and no search the catalogue
   * array itself is sorted in place and returned; otherwise a new array is.
   */
  method FilteredAndSortedProducts(sampleProducts: array<Product>, selectedCategory: string, searchQuery: string, sortBy: SortOption)
      returns (products: array<Product>)
    modifies sampleProducts
    ensures products[..] == BrowseResult(old(sampleProducts[..]), selectedCategory, searchQuery, sortBy)
    ensures selectedCategory == AllCategories && Trim(searchQuery) == "" ==> products == sampleProducts
    ensures !(selectedCategory == AllCategories && Trim(searchQuery) == "") ==>
              fresh(products) && sampleProducts[..] == old(sampleProducts[..])
  {
    if selectedCategory == AllCategories {
      products := sampleProducts;
    } else {
      products := ArrayOf(GetProductsByCategory(sampleProducts[..], selectedCategory));
    }
    if Trim(searchQuery) != "" {
      products := ArrayOf(SearchFilter(products[..], searchQuery));
    }
    SortInPlace(products, sortBy);
  }

  /** A new array holding `s`: what `filter` returns. */
  method ArrayOf(s: seq<Product>) returns (a: array<Product>)
    ensures fresh(a) && a[..] == s
  {
    a := new Product[|s|](i requires 0 <= i < |s| => s[i]);
  }

  /**
   * The listing holds exactly the category's products that match the search,
   * each as often as in the catalogue, and is in the chosen order.
   */
  lemma BrowseResultProperties(catalog: seq<Product>, category: string, searchQuery: string, sortBy: SortOption)
    ensures var r := BrowseResult(catalog, category, searchQuery, sortBy);
            && multiset(r) == multiset(SearchFilter(GetProductsByCategory(catalog, category), searchQuery))
            && (forall p :: p in r ==> p in GetProductsByCategory(catalog, category))
            && Sorted(sortBy, r)
            && IsSubsequence(SearchFilter(GetProductsByCategory(catalog, category), searchQuery), catalog)
  {
    var listed := GetProductsByCategory(catalog, category);
    var found := SearchFilter(listed, searchQuery);
    SubsequenceTransitive(found, listed, catalog);
    SortBySorted(sortBy, found);
    SortByPermutes(sortBy, found);
    forall p | p in BrowseResult(catalog, category, searchQuery, sortBy) ensures p in listed {
      assert p in multiset(found);
      SubsequenceMembers(found, listed, p);
    }
  }

  lemma {:induction false} SubsequenceMembers<T>(a: seq<T>, b: seq<T>, x: T)
    requires IsSubsequence(a, b) && x in a
    ensures x in b
    decreases |b|
  {
    if b != [] {
      if a != [] && a[0] == b[0] && IsSubsequence(a[1..], b[1..]) {
        if x != a[0] {
          assert x in a[1..];
          SubsequenceMembers(a[1..], b[1..], x);
        }
      } else {
        SubsequenceMembers(a, b[1..], x);
      }
    }
  }

  /** What each order means for neighbouring products. */
  lemma SortOrderMeaning(catalog: seq<Product>, category: string, searchQuery: string, sortBy: SortOption, i: nat)
    requires i + 1 < |BrowseResult(catalog, category, searchQuery, sortBy)|
    ensures var r := BrowseResult(catalog, category, searchQuery, sortBy);
            && (sortBy == PriceAsc ==> r[i].priceCents <= r[i + 1].priceCents)
            && (sortBy == PriceDesc ==> r[i].priceCents >= r[i + 1].priceCents)
            && (sortBy == Newest ==> r[i].createdAt >= r[i + 1].createdAt)
            && (sortBy == Name ==> StrLe(r[i].title, r[i + 1].title))
  {
    BrowseResultProperties(catalog, category, searchQuery, sortBy);
  }
}
