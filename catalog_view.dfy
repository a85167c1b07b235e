/** What the catalogue page shows (client/src/pages/ProductsPage.tsx):
    the tag list offered as filters, the search, tag, free and discounted
    filters, the price sort, and the ten-per-page pagination with its
    clamp. */
module CatalogView {
  import opened Wrappers
  import opened Text
  import opened Types
  import opened Seqs
  import opened Sorting

  // ---------------------------------------------------------------------
  // allTags

  /** The tag names of one product-tab entry. */
  function TagNames(d: ProductData): seq<string>
  {
    if d.tags.Some? then seq(|d.tags.value|, i requires 0 <= i < |d.tags.value| => TagName(d.tags.value[i])) else []
  }

  /** The set of names in a list. */
  function Elems(s: seq<string>): (r: set<string>)
    ensures forall x :: x in r <==> x in s
    decreases |s|
  {
    if s == [] then {} else {s[0]} + Elems(s[1..])
  }

  /** Every tag name used by the given entries. */
  function TagSet(values: seq<ProductData>): set<string>
    decreases |values|
  {
    if values == [] then {} else TagSet(values[..|values| - 1]) + Elems(TagNames(values[|values| - 1]))
  }

  /** Strictly increasing in code-unit order: sorted, and no name twice. */
  predicate StrictlySorted(s: seq<string>)
  {
    forall i, j :: 0 <= i < j < |s| ==> LexLess(s[i], s[j])
  }

  /** Put `x` into its place in a strictly sorted list, unless it is there already. */
  function InsertSorted(x: string, s: seq<string>): seq<string>
    decreases |s|
  {
    if s == [] then [x]
    else if LexLess(x, s[0]) then [x] + s
    else if x == s[0] then s
    else [s[0]] + InsertSorted(x, s[1..])
  }

  lemma {:induction false} InsertSortedSpec(x: string, s: seq<string>)
    requires StrictlySorted(s)
    ensures StrictlySorted(InsertSorted(x, s))
    ensures forall y :: y in InsertSorted(x, s) <==> y == x || y in s
    decreases |s|
  {
    if s != [] && LexLess(x, s[0]) {
      forall j | 0 < j < |s| ensures LexLess(x, s[j]) {
        LexTransitive(x, s[0], s[j]);
      }
    } else if s != [] && x != s[0] {
      var t := s[1..];
      assert StrictlySorted(t) by {
        forall i, j | 0 <= i < j < |t| ensures LexLess(t[i], t[j]) {
          assert t[i] == s[i + 1] && t[j] == s[j + 1];
        }
      }
      InsertSortedSpec(x, t);
      LexTotal(x, s[0]);
      var u := InsertSorted(x, t);
      var r := [s[0]] + u;
      forall j | 0 < j < |r| ensures LexLess(s[0], r[j]) {
        assert r[j] == u[j - 1];
        assert r[j] in u;
        if r[j] != x {
          var m :| 0 <= m < |t| && t[m] == r[j];
          assert s[m + 1] == r[j];
        }
      }
      assert forall y :: y in s <==> y == s[0] || y in t by {
        assert s == [s[0]] + t;
      }
    }
  }

  /** The first loop of allTags: every tag name of every entry, collected
      into a set. */
  method CollectTags(values: seq<ProductData>) returns (seen: set<string>)
    ensures seen == TagSet(values)
  {
    seen := {};
    var i := 0;
    while i < |values|
      invariant 0 <= i <= |values|
      invariant seen == TagSet(values[..i])
    {
      seen := AddNames(seen, TagNames(values[i]));
      assert values[..i + 1][..i] == values[..i];
      i := i + 1;
    }
    assert values[..i] == values;
  }

  /** The inner loop of allTags: one entry's names added to the set. */
  method AddNames(before: set<string>, names: seq<string>) returns (seen: set<string>)
    ensures seen == before + Elems(names)
  {
    seen := before;
    var j := 0;
    while j < |names|
      invariant 0 <= j <= |names|
      invariant seen == before + Elems(names[..j])
    {
      assert Elems(names[..j + 1]) == Elems(names[..j]) + {names[j]} by {
        assert names[..j + 1] == names[..j] + [names[j]];
      }
      seen := seen + {names[j]};
      j := j + 1;
    }
    assert names[..j] == names;
  }

  /** allTags: the distinct tag names of every entry with a tag list (a
      bare name, or the name of a styled tag), sorted. `values` are the
      entries of the product-tab file. */
  method AllTags(values: seq<ProductData>) returns (tags: seq<string>)
    ensures forall t :: t in tags <==> t in TagSet(values)
    ensures StrictlySorted(tags)
  {
    var seen := CollectTags(values);
    tags := [];
    var remaining := seen;
    while remaining != {}
      invariant StrictlySorted(tags)
      invariant forall t :: t in seen <==> t in tags || t in remaining
      decreases remaining
    {
      var x :| x in remaining;
      InsertSortedSpec(x, tags);
      tags := InsertSorted(x, tags);
      remaining := remaining - {x};
    }
  }

  // ---------------------------------------------------------------------
  // displayedPackages: the filters and the sort

  datatype PriceSort = Unsorted | Ascending | Descending

  /** The page's filter controls. */
  datatype Controls = Controls(query: string, selectedTags: seq<string>, onlyFree: bool, onlyDiscounted: bool, sort: PriceSort)

  /** The query, lowercased, occurs in the lowercased name or description. */
  predicate MatchesSearch(p: Package, query: string)
  {
    Contains(ToLower(p.name), ToLower(query)) || Contains(ToLower(p.description), ToLower(query))
  }

  /** The package has tag data listing every selected tag. */
  predicate HasAllTags(data: TabData, p: Package, selected: seq<string>)
  {
    p.id in data && data[p.id].tags.Some? && forall t :: t in selected ==> t in TagNames(data[p.id])
  }

  predicate IsFree(p: Package)
  {
    p.totalPrice == 0
  }

  predicate IsDiscounted(p: Package)
  {
    p.discount > 0
  }

  function SearchTest(query: string): Package -> bool
  {
    p => MatchesSearch(p, query)
  }

  function TagTest(data: TabData, selected: seq<string>): Package -> bool
  {
    p => HasAllTags(data, p, selected)
  }

  function SearchStage(ps: seq<Package>, query: string): seq<Package>
  {
    if query == "" then ps else Filter(ps, SearchTest(query))
  }

  function TagStage(ps: seq<Package>, data: TabData, selected: seq<string>): seq<Package>
  {
    if |selected| == 0 then ps else Filter(ps, TagTest(data, selected))
  }

  function FreeStage(ps: seq<Package>, on: bool): seq<Package>
  {
    if on then Filter(ps, IsFree) else ps
  }

  function DiscountStage(ps: seq<Package>, on: bool): seq<Package>
  {
    if on then Filter(ps, IsDiscounted) else ps
  }

  function Price(p: Package): int
  {
    p.totalPrice
  }

  function NegPrice(p: Package): int
  {
    -p.totalPrice
  }

  /** The comparator `a - b` or `b - a`, as a stable sort by a key. */
  function SortStage(ps: seq<Package>, order: PriceSort): seq<Package>
  {
    match order
    case Unsorted => ps
    case Ascending => SortBy(ps, Price)
    case Descending => SortBy(ps, NegPrice)
  }

  /** The four filters in the page's order. */
  function Filtered(ps: seq<Package>, data: TabData, c: Controls): seq<Package>
  {
    DiscountStage(FreeStage(TagStage(SearchStage(ps, c.query), data, c.selectedTags), c.onlyFree), c.onlyDiscounted)
  }

  function Displayed(ps: seq<Package>, data: TabData, c: Controls): seq<Package>
  {
    SortStage(Filtered(ps, data, c), c.sort)
  }

  /** The package passes every active filter. */
  predicate Passes(p: Package, data: TabData, c: Controls)
  {
    (c.query == "" || MatchesSearch(p, c.query)) &&
    (|c.selectedTags| == 0 || HasAllTags(data, p, c.selectedTags)) &&
    (!c.onlyFree || IsFree(p)) &&
    (!c.onlyDiscounted || IsDiscounted(p))
  }

  function PassTest(data: TabData, c: Controls): Package -> bool
  {
    p => Passes(p, data, c)
  }

  /** Both tests, as one. */
  function Both<T>(p: T -> bool, q: T -> bool): T -> bool
  {
    x => p(x) && q(x)
  }

  lemma {:induction false} FilterFilter<T>(s: seq<T>, p: T -> bool, q: T -> bool)
    ensures Filter(Filter(s, p), q) == Filter(s, Both(p, q))
    decreases |s|
  {
    if s != [] {
      FilterFilter(s[1..], p, q);
      var head := if p(s[0]) then [s[0]] else [];
      FilterAppend(head, Filter(s[1..], p), q);
    }
  }

  /** A stage applied after a filter is again a filter. */
  lemma StageAfterFilter<T>(s: seq<T>, p: T -> bool, on: bool, q: T -> bool, r: T -> bool)
    requires forall x :: r(x) == (p(x) && (!on || q(x)))
    ensures (if on then Filter(Filter(s, p), q) else Filter(s, p)) == Filter(s, r)
  {
    if on {
      FilterFilter(s, p, q);
      FilterExtensional(s, Both(p, q), r);
    } else {
      FilterExtensional(s, p, r);
    }
  }

  /** The tests passed after each stage. */
  function After1(c: Controls): Package -> bool
  {
    p => c.query == "" || MatchesSearch(p, c.query)
  }

  function After2(data: TabData, c: Controls): Package -> bool
  {
    p => After1(c)(p) && (|c.selectedTags| == 0 || HasAllTags(data, p, c.selectedTags))
  }

  function After3(data: TabData, c: Controls): Package -> bool
  {
    p => After2(data, c)(p) && (!c.onlyFree || IsFree(p))
  }

  /** The four stages together keep exactly the packages that pass every
      active filter, in their original order. */
  lemma FilteredIsFilter(ps: seq<Package>, data: TabData, c: Controls)
    ensures Filtered(ps, data, c) == Filter(ps, PassTest(data, c))
  {
    if c.query == "" {
      FilterAllPass(ps, After1(c));
    } else {
      FilterExtensional(ps, SearchTest(c.query), After1(c));
    }
    var s1 := SearchStage(ps, c.query);
    assert s1 == Filter(ps, After1(c));
    StageAfterFilter(ps, After1(c), |c.selectedTags| != 0, TagTest(data, c.selectedTags), After2(data, c));
    var s2 := TagStage(s1, data, c.selectedTags);
    assert s2 == Filter(ps, After2(data, c));
    StageAfterFilter(ps, After2(data, c), c.onlyFree, IsFree, After3(data, c));
    var s3 := FreeStage(s2, c.onlyFree);
    assert s3 == Filter(ps, After3(data, c));
    StageAfterFilter(ps, After3(data, c), c.onlyDiscounted, IsDiscounted, PassTest(data, c));
  }

  /** The displayed list holds every package of the chosen view that passes
      the filters, as often as the view does, and nothing else. */
  lemma DisplayedCounts(ps: seq<Package>, data: TabData, c: Controls)
    ensures forall x :: multiset(Displayed(ps, data, c))[x] == if Passes(x, data, c) then multiset(ps)[x] else 0
  {
    FilteredIsFilter(ps, data, c);
    var f := Filtered(ps, data, c);
    FilterCounts(ps, PassTest(data, c));
    match c.sort
    case Unsorted =>
    case Ascending => SortByPermutation(f, Price);
    case Descending => SortByPermutation(f, NegPrice);
  }

  /** Without a sort the displayed list keeps the view's order; with one it
      is ordered by price, cheapest or dearest first, and packages of equal
      price keep the order they had after filtering. */
  lemma DisplayedOrder(ps: seq<Package>, data: TabData, c: Controls)
    ensures c.sort == Unsorted ==> IsSubsequence(Displayed(ps, data, c), ps)
    ensures c.sort == Ascending ==>
      forall i, j :: 0 <= i < j < |Displayed(ps, data, c)| ==>
        Displayed(ps, data, c)[i].totalPrice <= Displayed(ps, data, c)[j].totalPrice
    ensures c.sort == Descending ==>
      forall i, j :: 0 <= i < j < |Displayed(ps, data, c)| ==>
        Displayed(ps, data, c)[i].totalPrice >= Displayed(ps, data, c)[j].totalPrice
    ensures forall price :: WithKey(Displayed(ps, data, c), Price, price) == WithKey(Filtered(ps, data, c), Price, price)
  {
    FilteredIsFilter(ps, data, c);
    var f := Filtered(ps, data, c);
    FilterIsSubsequence(ps, PassTest(data, c));
    forall price
      ensures WithKey(Displayed(ps, data, c), Price, price) == WithKey(f, Price, price)
    {
      match c.sort
      case Unsorted =>
      case Ascending =>
        SortByStable(f, Price, price);
      case Descending =>
        SortByStable(f, NegPrice, -price);
        WithNegatedKey(SortBy(f, NegPrice), Price, NegPrice, price);
        WithNegatedKey(f, Price, NegPrice, price);
    }
    match c.sort
    case Unsorted =>
    case Ascending => SortBySorted(f, Price);
    case Descending => SortBySorted(f, NegPrice);
  }

  // ---------------------------------------------------------------------
  // Pagination

  const PageSize: nat := 10

  /** paginatedPackages: `slice((page - 1) * 10, (page - 1) * 10 + 10)`. */
  function Page(ps: seq<Package>, page: int): seq<Package>
  {
    JsSlice(ps, (page - 1) * PageSize, (page - 1) * PageSize + PageSize)
  }

  /** totalPages: `Math.ceil(n / 10)`. */
  function TotalPages(n: nat): (t: nat)
    ensures t * PageSize >= n
    ensures n > 0 ==> (t - 1) * PageSize < n
    ensures n == 0 <==> t == 0
  {
    (n + PageSize - 1) / PageSize
  }

  /** The currentPage effect: a page past the end moves to the last page. */
  function Clamp(current: int, total: nat): (r: int)
    ensures r == current || (r == total && total > 0)
    ensures total > 0 && 1 <= current ==> 1 <= r <= total
    ensures total == 0 || current <= total ==> r == current
  {
    if current > total && total > 0 then total else current
  }

  lemma ClampIdempotent(current: int, total: nat)
    ensures Clamp(Clamp(current, total), total) == Clamp(current, total)
  {
  }

  /** The first `k` pages, in order. */
  function Pages(ps: seq<Package>, k: nat): seq<Package>
  {
    if k == 0 then [] else Pages(ps, k - 1) + Page(ps, k)
  }

  /** A page within range holds the next ten packages (fewer on the last
      page); a page past the end is empty. */
  lemma PageContents(ps: seq<Package>, page: int)
    ensures 1 <= page <= TotalPages(|ps|) ==>
      Page(ps, page) == ps[(page - 1) * PageSize .. if page * PageSize < |ps| then page * PageSize else |ps|] &&
      0 < |Page(ps, page)| <= PageSize
    ensures page > TotalPages(|ps|) ==> Page(ps, page) == []
  {
  }

  lemma {:induction false} PagesPrefix(ps: seq<Package>, k: nat)
    requires k <= TotalPages(|ps|)
    ensures Pages(ps, k) == ps[..if k * PageSize < |ps| then k * PageSize else |ps|]
  {
    if k > 0 {
      PagesPrefix(ps, k - 1);
      PageContents(ps, k);
      var a, b := (k - 1) * PageSize, if k * PageSize < |ps| then k * PageSize else |ps|;
      assert ps[..a] + ps[a..b] == ps[..b];
    }
  }

  /** Reading pages 1 to totalPages in turn shows the whole list, each
      package once, in order. */
  lemma PagesCoverAll(ps: seq<Package>)
    ensures Pages(ps, TotalPages(|ps|)) == ps
  {
    PagesPrefix(ps, TotalPages(|ps|));
  }
}
