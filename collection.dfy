/** The catalog page: toggling category and subcategory choices, the filter
    chain and optional sort by price, slicing into pages of 24 items, and
    the list of page buttons with "..." markers. */
module Collection {
  import opened Numbers

  datatype Item = Item(id: string, name: string, category: string, subCategory: string, price: int)

  /** The sort selector's three values. */
  datatype SortType = Relevant | LowHigh | HighLow

  const ItemsPerPage: int := 24
  /** Page buttons shown on each side of the current page. */
  const MaxVisible: int := 2


  // ---------------------------------------------------------------------
  // Toggling a filter value
  // ---------------------------------------------------------------------

  /** `prev.filter(item => item !== v)`. */
  function Without(list: seq<string>, v: string): (r: seq<string>)
    ensures forall x :: x in r <==> x in list && x != v
  {
    if list == [] then []
    else if list[0] == v then Without(list[1..], v)
    else [list[0]] + Without(list[1..], v)
  }

  /** A value already chosen is removed (every copy of it); any other value
      is appended. */
  function Toggle(list: seq<string>, v: string): (r: seq<string>)
    ensures v in r <==> v !in list
    ensures forall x :: x != v ==> (x in r <==> x in list)
  {
    if v in list then Without(list, v) else list + [v]
  }

  lemma {:induction false} WithoutAbsent(list: seq<string>, v: string)
    requires v !in list
    ensures Without(list, v) == list
  {
    if list != [] {
      WithoutAbsent(list[1..], v);
    }
  }

  /** Toggling twice restores the chosen set; when the value was not chosen
      it restores the very same list. */
  lemma ToggleTwice(list: seq<string>, v: string)
    ensures forall x :: x in Toggle(Toggle(list, v), v) <==> x in list
    ensures v !in list ==> Toggle(Toggle(list, v), v) == list
  {
    if v !in list {
      var once := list + [v];
      assert Without(once, v) == Without(list, v) by {
        WithoutAppend(list, [v], v);
        assert Without([v], v) == [];
      }
      WithoutAbsent(list, v);
    }
  }

  lemma {:induction false} WithoutAppend(a: seq<string>, b: seq<string>, v: string)
    ensures Without(a + b, v) == Without(a, v) + Without(b, v)
  {
    if a == [] {
      assert a + b == b;
    } else {
      assert (a + b)[1..] == a[1..] + b;
      WithoutAppend(a[1..], b, v);
    }
  }

  // ---------------------------------------------------------------------
  // Filtering
  // ---------------------------------------------------------------------

  /** ASCII `toLowerCase` of one character. */
  function LowerChar(c: char): char {
    if 'A' <= c <= 'Z' then (c as int + 32) as char else c
  }

  function Lower(s: string): (r: string)
    ensures |r| == |s|
  {
    seq(|s|, i requires 0 <= i < |s| => LowerChar(s[i]))
  }

  /** `s.includes(sub)`. */
  function Includes(s: string, sub: string): (b: bool)
    ensures sub == [] ==> b
    ensures b ==> |sub| <= |s|
  {
    assert sub == [] ==> OccursAt(s, sub, 0) by {
      if sub == [] {
        assert s[0..0] == [];
      }
    }
    exists i :: 0 <= i <= |s| && OccursAt(s, sub, i)
  }

  predicate OccursAt(s: string, sub: string, i: int) {
    0 <= i && i + |sub| <= |s| && s[i..i + |sub|] == sub
  }

  /** `list.some(x => x.toLowerCase() === value.toLowerCase())`. */
  function SomeMatches(list: seq<string>, value: string): (b: bool)
    ensures value in list ==> b
    ensures b ==> |list| > 0
  {
    exists k :: 0 <= k < |list| && Lower(list[k]) == Lower(value)
  }

  predicate SearchActive(search: string, showSearch: bool) {
    showSearch && search != ""
  }

  predicate MatchesSearch(item: Item, search: string) {
    Includes(Lower(item.name), Lower(search))
  }

  /** What the page shows of the catalog: the search text matches the name
      when the search bar is open and not empty, and an empty category or
      subcategory list applies no filter on that field. */
  predicate Selected(item: Item, search: string, showSearch: bool, category: seq<string>, subCategory: seq<string>) {
    && (SearchActive(search, showSearch) ==> MatchesSearch(item, search))
    && (|category| > 0 ==> SomeMatches(category, item.category))
    && (|subCategory| > 0 ==> SomeMatches(subCategory, item.subCategory))
  }

  /** `Array.prototype.filter`: the items that pass, in their order. */
  function FilterBy(s: seq<Item>, keep: Item -> bool): (r: seq<Item>)
    ensures |r| <= |s|
    ensures forall x :: x in r <==> x in s && keep(x)
  {
    if s == [] then []
    else
      var rest := FilterBy(s[1..], keep);
      if keep(s[0]) then [s[0]] + rest else rest
  }

  /** The single-pass reference for the filter chain. */
  function Chosen(products: seq<Item>, search: string, showSearch: bool, category: seq<string>, subCategory: seq<string>): seq<Item>
  {
    FilterBy(products, (x: Item) => Selected(x, search, showSearch, category, subCategory))
  }

  /** Two filters in a row are one filter by the conjunction. */
  lemma {:induction false} FilterTwice(s: seq<Item>, f: Item -> bool, g: Item -> bool, both: Item -> bool)
    requires forall x :: both(x) == (f(x) && g(x))
    ensures FilterBy(FilterBy(s, f), g) == FilterBy(s, both)
  {
    if s != [] {
      FilterTwice(s[1..], f, g, both);
      var rest := FilterBy(s[1..], f);
      if f(s[0]) {
        assert FilterBy(s, f) == [s[0]] + rest;
        assert ([s[0]] + rest)[1..] == rest;
      }
    }
  }

  /** A filter that keeps everything is the identity. */
  lemma {:induction false} FilterAll(s: seq<Item>, keep: Item -> bool)
    requires forall x :: keep(x)
    ensures FilterBy(s, keep) == s
  {
    if s != [] {
      FilterAll(s[1..], keep);
    }
  }

  /** The result keeps the products' relative order: it is a subsequence. */
  lemma {:induction false} FilterIsSubsequence(s: seq<Item>, keep: Item -> bool)
    ensures IsSubsequence(FilterBy(s, keep), s)
  {
    if s != [] {
      FilterIsSubsequence(s[1..], keep);
      var rest := FilterBy(s[1..], keep);
      if keep(s[0]) {
        assert ([s[0]] + rest)[1..] == rest;
      }
    }
  }

  /** `sub` is obtained from `s` by deleting elements. */
  predicate IsSubsequence(sub: seq<Item>, s: seq<Item>)
    decreases |s|
  {
    if sub == [] then true
    else if s == [] then false
    else if sub[0] == s[0] then IsSubsequence(sub[1..], s[1..])
    else IsSubsequence(sub, s[1..])
  }

  // ---------------------------------------------------------------------
  // Sorting by price in place
  // ---------------------------------------------------------------------

  /** The comparators `a.price - b.price` and `b.price - a.price` as a
      sort key: the price, negated for high-to-low. */
  function Key(x: Item, descending: bool): int {
    if descending then -x.price else x.price
  }

  ghost predicate SortedBy(s: seq<Item>, descending: bool) {
    SortedPrefix(s, |s|, descending)
  }

  /** The first n items are in key order. */
  ghost predicate SortedPrefix(s: seq<Item>, n: int, descending: bool)
    requires n <= |s|
  {
    forall p, q :: 0 <= p < q < n ==> Key(s[p], descending) <= Key(s[q], descending)
  }

  /** Low-to-high ascends in price, high-to-low descends. */
  lemma SortedByPrice(s: seq<Item>)
    ensures SortedBy(s, false) <==> forall i, j :: 0 <= i < j < |s| ==> s[i].price <= s[j].price
    ensures SortedBy(s, true) <==> forall i, j :: 0 <= i < j < |s| ==> s[i].price >= s[j].price
  {
  }

  /** `productsCopy.sort(comparator)`: insertion sort; the array ends sorted
      by price and holds the same items. */
  method SortByPrice(a: array<Item>, descending: bool)
    modifies a
    ensures SortedBy(a[..], descending)
    ensures multiset(a[..]) == old(multiset(a[..]))
  {
    var i := 0;
    while i < a.Length
      invariant 0 <= i <= a.Length
      invariant SortedPrefix(a[..], i, descending)
      invariant multiset(a[..]) == old(multiset(a[..]))
    {
      InsertAt(a, i, descending);
      i := i + 1;
    }
  }

  /** While `a[j]` sinks into `a[..i + 1]`: the other items of the prefix are
      in key order and everything after position j has a key at least
      `a[j]`'s. */
  ghost predicate Sinking(s: seq<Item>, j: int, i: int, descending: bool)
    requires 0 <= j <= i < |s|
  {
    && (forall p, q :: 0 <= p < q <= i && p != j && q != j ==> Key(s[p], descending) <= Key(s[q], descending))
    && (forall q :: j < q <= i ==> Key(s[j], descending) <= Key(s[q], descending))
  }

  /** Sink `a[i]` into the sorted prefix `a[..i]` by adjacent swaps, moving
      it past every item whose key is strictly larger. */
  method InsertAt(a: array<Item>, i: int, descending: bool)
    requires 0 <= i < a.Length
    requires SortedPrefix(a[..], i, descending)
    modifies a
    ensures SortedPrefix(a[..], i + 1, descending)
    ensures multiset(a[..]) == old(multiset(a[..]))
  {
    var j := i;
    while j > 0 && Key(a[j - 1], descending) > Key(a[j], descending)
      invariant 0 <= j <= i
      invariant Sinking(a[..], j, i, descending)
      invariant multiset(a[..]) == old(multiset(a[..]))
    {
      ghost var before := a[..];
      a[j - 1], a[j] := a[j], a[j - 1];
      SwapStep(before, a[..], j, i, descending);
      j := j - 1;
    }
    SinkDone(a[..], j, i, descending);
  }

  /** One swap keeps the sinking invariant one place further left and the
      items unchanged as a multiset. */
  lemma SwapStep(before: seq<Item>, after: seq<Item>, j: int, i: int, descending: bool)
    requires 0 < j <= i < |before|
    requires Sinking(before, j, i, descending)
    requires Key(before[j - 1], descending) > Key(before[j], descending)
    requires after == before[j - 1 := before[j]][j := before[j - 1]]
    ensures Sinking(after, j - 1, i, descending)
    ensures multiset(after) == multiset(before)
  {
  }

  /** Once `a[j]` meets a key no larger than its own, the prefix is sorted. */
  lemma SinkDone(s: seq<Item>, j: int, i: int, descending: bool)
    requires 0 <= j <= i < |s|
    requires Sinking(s, j, i, descending)
    requires j == 0 || Key(s[j - 1], descending) <= Key(s[j], descending)
    ensures SortedPrefix(s, i + 1, descending)
  {
    forall p, q | 0 <= p < q <= i
      ensures Key(s[p], descending) <= Key(s[q], descending)
    {
      if q == j && p < j - 1 {
        assert Key(s[p], descending) <= Key(s[j - 1], descending);
      }
    }
  }

  // ---------------------------------------------------------------------
  // Pages
  // ---------------------------------------------------------------------

  /** `Math.ceil(n / 24)`. */
  function TotalPages(n: nat): (pages: nat)
    ensures ItemsPerPage * pages >= n
    ensures ItemsPerPage * (pages - 1) < n
  {
    (n + ItemsPerPage - 1) / ItemsPerPage
  }

  function StartIndex(page: int): int {
    (page - 1) * ItemsPerPage
  }

  /** `s.slice(start, end)` for non-negative bounds: both are cut down to
      the length, and a window that ends before it starts is empty. */
  function JsSlice(s: seq<Item>, start: nat, end: nat): (r: seq<Item>)
    ensures |r| <= |s| && |r| <= Max(end - start, 0)
    ensures forall k :: 0 <= k < |r| ==> start + k < |s| && r[k] == s[start + k]
    ensures r == [] <==> start >= |s| || end <= start
  {
    var lo, hi := Min(start, |s|), Min(end, |s|);
    if hi <= lo then [] else s[lo..hi]
  }

  /** The items shown on `page` (pages count from 1). */
  function CurrentProducts(s: seq<Item>, page: int): (r: seq<Item>)
    requires page >= 1
    ensures |r| <= ItemsPerPage
    ensures r == [] <==> StartIndex(page) >= |s|
    ensures forall k :: 0 <= k < |r| ==> StartIndex(page) + k < |s| && r[k] == s[StartIndex(page) + k]
    ensures StartIndex(page) < |s| ==> |r| == Min(ItemsPerPage, |s| - StartIndex(page))
  {
    JsSlice(s, StartIndex(page), StartIndex(page) + ItemsPerPage)
  }

  /** A page is non-empty exactly when it is one of the TotalPages pages. */
  lemma PageInRange(s: seq<Item>, page: int)
    requires page >= 1
    ensures CurrentProducts(s, page) != [] <==> page <= TotalPages(|s|)
  {
    var n := |s|;
    var t := TotalPages(n);
    if page <= t {
      assert StartIndex(page) <= ItemsPerPage * (t - 1) < n;
    } else {
      assert StartIndex(page) >= ItemsPerPage * t >= n;
    }
  }

  /** The pages from `page` on, one after the other. */
  function PagesFrom(s: seq<Item>, page: int): seq<Item>
    requires page >= 1
    decreases |s| - StartIndex(page)
  {
    if StartIndex(page) >= |s| then []
    else CurrentProducts(s, page) + PagesFrom(s, page + 1)
  }

  /** Reading the pages in order gives back every item exactly once. */
  lemma {:induction false} PagesPartition(s: seq<Item>, page: int)
    requires page >= 1 && StartIndex(page) <= |s|
    ensures PagesFrom(s, page) == s[StartIndex(page)..]
    decreases |s| - StartIndex(page)
  {
    var start := StartIndex(page);
    if start < |s| {
      var cur := CurrentProducts(s, page);
      var next := Min(start + ItemsPerPage, |s|);
      assert cur == s[start..next];
      if next < |s| {
        assert StartIndex(page + 1) == next;
        PagesPartition(s, page + 1);
        assert s[start..] == s[start..next] + s[next..];
      } else {
        assert StartIndex(page + 1) >= |s|;
        assert s[start..] == cur;
      }
    }
  }

  lemma AllPages(s: seq<Item>)
    ensures PagesFrom(s, 1) == s
  {
    PagesPartition(s, 1);
  }

  // ---------------------------------------------------------------------
  // Page buttons
  // ---------------------------------------------------------------------

  /** One entry of the pagination bar: a page number or a "..." marker. */
  datatype Button = PageButton(n: int) | Ellipsis

  /** Every page number ascends strictly, and every gap between two
      neighbouring numbers is marked by one "..." and nothing else. */
  ghost predicate WellSpaced(pages: seq<Button>) {
    && (forall a, b :: 0 <= a < b < |pages| && pages[a].PageButton? && pages[b].PageButton? ==> pages[a].n < pages[b].n)
    && (forall k :: 0 <= k < |pages| - 1 && pages[k].PageButton? && pages[k + 1].PageButton? ==> pages[k + 1].n == pages[k].n + 1)
    && (forall k :: 0 <= k < |pages| && pages[k].Ellipsis? ==>
          && 0 < k < |pages| - 1
          && pages[k - 1].PageButton? && pages[k + 1].PageButton?
          && pages[k + 1].n > pages[k - 1].n + 1)
  }

  /** The numbers from `lo` to `hi`, in order. */
  function Run(lo: int, hi: int): (r: seq<Button>)
    ensures |r| == Max(hi - lo + 1, 0)
    ensures forall k :: 0 <= k < |r| ==> r[k] == PageButton(lo + k)
    decreases hi - lo
  {
    if lo > hi then [] else [PageButton(lo)] + Run(lo + 1, hi)
  }

  /** How the bar for more than seven pages is assembled: `l` and `rr` say
      whether the left and right "..." are shown, and the window holds the
      `w` numbers from `start` to `end`. */
  ghost predicate BarParts(totalPages: int, currentPage: int, l: int, start: int, w: int, rr: int) {
    var end := Min(totalPages - 1, currentPage + MaxVisible);
    && totalPages > 7
    && l == (if currentPage > MaxVisible + 2 then 1 else 0)
    && rr == (if currentPage < totalPages - MaxVisible - 1 then 1 else 0)
    && start == Max(2, currentPage - MaxVisible)
    && w == Max(end - start + 1, 0)
  }

  /** Where each entry sits: page 1, the optional left "...", the window,
      the optional right "...", the last page. */
  ghost predicate Laid(pages: seq<Button>, totalPages: int, l: int, start: int, w: int, rr: int) {
    && 0 <= l <= 1 && 0 <= rr <= 1 && 0 <= w
    && |pages| == 2 + l + w + rr
    && pages[0] == PageButton(1) && pages[|pages| - 1] == PageButton(totalPages)
    && (l == 1 ==> pages[1] == Ellipsis)
    && (rr == 1 ==> pages[1 + l + w] == Ellipsis)
    && (forall k :: 1 + l <= k < 1 + l + w ==> pages[k] == PageButton(start + k - 1 - l))
  }

  /** The arithmetic of the parts: the window lies strictly between the
      first and the last page and within two of the current page, a "..."
      is shown exactly when the window does not reach the end it faces, and
      the window is empty only when one "..." stands in for it. */
  lemma BarArith(totalPages: int, currentPage: int, l: int, start: int, w: int, rr: int)
    requires BarParts(totalPages, currentPage, l, start, w, rr)
    ensures 2 <= start && w <= 2 * MaxVisible + 1
    ensures w > 0 ==> start + w <= totalPages
    ensures l == 0 && w > 0 ==> start == 2
    ensures l == 1 ==> start > 2
    ensures rr == 0 && w > 0 ==> start + w == totalPages
    ensures rr == 1 ==> start + w < totalPages
    ensures w == 0 ==> l + rr == 1
    ensures w > 0 ==> currentPage - MaxVisible <= start && start + w - 1 <= currentPage + MaxVisible
    ensures Min(totalPages - 1, currentPage + MaxVisible) < start + w
  {
  }

  /** getPaginationButtons. Up to seven pages every number is shown;
      beyond that the bar starts at 1 and ends at the last page, shows the
      current page with up to two neighbours on each side, and puts "..."
      exactly where numbers are skipped, in at most nine entries. */
  method PaginationButtons(totalPages: nat, currentPage: int) returns (pages: seq<Button>)
    ensures totalPages <= 7 ==> pages == Run(1, totalPages)
    ensures forall k :: 0 <= k < |pages| && pages[k].PageButton? ==> 1 <= pages[k].n <= totalPages
    ensures totalPages > 7 ==>
      && 3 <= |pages| <= 9
      && pages[0] == PageButton(1) && pages[|pages| - 1] == PageButton(totalPages)
      && WellSpaced(pages)
      && (forall k :: 0 <= k < |pages| && pages[k].PageButton? ==>
            pages[k].n == 1 || pages[k].n == totalPages || currentPage - MaxVisible <= pages[k].n <= currentPage + MaxVisible)
      && (forall p :: 1 <= p <= totalPages && (p == 1 || p == totalPages || currentPage - MaxVisible <= p <= currentPage + MaxVisible) ==>
            PageButton(p) in pages)
  {
    pages := [];
    if totalPages <= 7 {
      var i := 1;
      while i <= totalPages
        invariant 1 <= i <= totalPages + 1
        invariant pages == Run(1, i - 1)
      {
        pages := pages + [PageButton(i)];
        i := i + 1;
      }
    } else {
      pages := pages + [PageButton(1)];
      var l := 0;
      if currentPage > MaxVisible + 2 {
        pages := pages + [Ellipsis];
        l := 1;
      }
      var start := Max(2, currentPage - MaxVisible);
      var end := Min(totalPages - 1, currentPage + MaxVisible);
      var i := start;
      while i <= end
        invariant start <= i <= Max(start, end + 1)
        invariant |pages| == 1 + l + (i - start)
        invariant pages[0] == PageButton(1) && (l == 1 ==> pages[1] == Ellipsis)
        invariant forall k :: 1 + l <= k < |pages| ==> pages[k] == PageButton(start + k - 1 - l)
      {
        pages := pages + [PageButton(i)];
        i := i + 1;
      }
      var w := i - start;
      var rr := 0;
      if currentPage < totalPages - MaxVisible - 1 {
        pages := pages + [Ellipsis];
        rr := 1;
      }
      pages := pages + [PageButton(totalPages)];
      assert BarParts(totalPages, currentPage, l, start, w, rr);
      assert Laid(pages, totalPages, l, start, w, rr);
      BarSpaced(pages, totalPages, currentPage, l, start, w, rr);
      BarCovers(pages, totalPages, currentPage, l, start, w, rr);
    }
  }

  /** The assembled bar has at most nine entries and is well spaced. */
  lemma BarSpaced(pages: seq<Button>, totalPages: int, currentPage: int, l: int, start: int, w: int, rr: int)
    requires BarParts(totalPages, currentPage, l, start, w, rr)
    requires Laid(pages, totalPages, l, start, w, rr)
    ensures 3 <= |pages| <= 9
    ensures WellSpaced(pages)
  {
    BarArith(totalPages, currentPage, l, start, w, rr);
    BarNumbers(pages, totalPages, l, start, w, rr);
    forall a, b | 0 <= a < b < |pages| && pages[a].PageButton? && pages[b].PageButton?
      ensures pages[a].n < pages[b].n
    {
      assert pages[a].n <= a + start - 1 - l || a == 0;
    }
    forall k | 0 <= k < |pages| && pages[k].Ellipsis?
      ensures 0 < k < |pages| - 1 && pages[k - 1].PageButton? && pages[k + 1].PageButton? && pages[k + 1].n > pages[k - 1].n + 1
    {
      assert k == 1 + l + w || (l == 1 && k == 1);
    }
  }

  /** The numbered entries of the bar: 1 first, T last, the window between. */
  lemma BarNumbers(pages: seq<Button>, totalPages: int, l: int, start: int, w: int, rr: int)
    requires Laid(pages, totalPages, l, start, w, rr)
    ensures forall k :: 0 <= k < |pages| && pages[k].PageButton? ==>
      (k == 0 && pages[k].n == 1) || (k == |pages| - 1 && pages[k].n == totalPages)
      || (1 + l <= k < 1 + l + w && pages[k].n == start + k - 1 - l)
    ensures forall k :: 0 <= k < |pages| && pages[k].Ellipsis? ==> (l == 1 && k == 1) || (rr == 1 && k == 1 + l + w)
  {
  }

  /** Every number shown is 1, the last page or near the current page, and
      every such page of the range is shown. */
  lemma BarCovers(pages: seq<Button>, totalPages: int, currentPage: int, l: int, start: int, w: int, rr: int)
    requires BarParts(totalPages, currentPage, l, start, w, rr)
    requires Laid(pages, totalPages, l, start, w, rr)
    ensures forall k :: 0 <= k < |pages| && pages[k].PageButton? ==>
      pages[k].n == 1 || pages[k].n == totalPages || currentPage - MaxVisible <= pages[k].n <= currentPage + MaxVisible
    ensures forall k :: 0 <= k < |pages| && pages[k].PageButton? ==> 1 <= pages[k].n <= totalPages
    ensures forall p :: 1 <= p <= totalPages && (p == 1 || p == totalPages || currentPage - MaxVisible <= p <= currentPage + MaxVisible) ==>
      PageButton(p) in pages
  {
    BarArith(totalPages, currentPage, l, start, w, rr);
    BarNumbers(pages, totalPages, l, start, w, rr);
    forall p | 1 <= p <= totalPages && (p == 1 || p == totalPages || currentPage - MaxVisible <= p <= currentPage + MaxVisible)
      ensures PageButton(p) in pages
    {
      if p == 1 {
        assert pages[0] == PageButton(p);
      } else if p == totalPages {
        assert pages[|pages| - 1] == PageButton(p);
      } else {
        assert pages[1 + l + p - start] == PageButton(p);
      }
    }
  }

  // ---------------------------------------------------------------------
  // The page's state
  // ---------------------------------------------------------------------

  class CollectionPage {
    var category: seq<string>
    var subCategory: seq<string>
    var sortType: SortType
    var currentPage: int
    /** The filtered and sorted products the grid pages through. */
    var filterProducts: seq<Item>

    /** The page is always one of the pages (page 1 when there are none). */
    ghost predicate Valid()
      reads this
    {
      1 <= currentPage <= Max(1, TotalPages(|filterProducts|))
    }

    /** The first render's state, followed by the mount run of the effect,
        which shows the products the context holds at that moment. */
    constructor (products: seq<Item>, search: string, showSearch: bool)
      ensures Valid()
      ensures category == [] && subCategory == [] && sortType == Relevant && currentPage == 1
      ensures Shows(products, search, showSearch)
    {
      category := [];
      subCategory := [];
      sortType := Relevant;
      currentPage := 1;
      filterProducts := [];
      new;
      ApplyFilterAndSort(products, search, showSearch);
    }

    /** What the grid shows for these inputs: exactly the selected products,
        in catalog order for "relevent" and sorted by price otherwise. */
    ghost predicate Shows(products: seq<Item>, search: string, showSearch: bool)
      reads this
    {
      var chosen := Chosen(products, search, showSearch, category, subCategory);
      && multiset(filterProducts) == multiset(chosen)
      && (sortType == Relevant ==> filterProducts == chosen)
      && (sortType == LowHigh ==> SortedBy(filterProducts, false))
      && (sortType == HighLow ==> SortedBy(filterProducts, true))
    }

    /** toggleCategory, followed by the effect that the changed choice sets
        off: the list is re-filtered and re-sorted and the page is 1. */
    method ToggleCategory(v: string, products: seq<Item>, search: string, showSearch: bool)
      requires Valid()
      modifies this
      ensures Valid() && currentPage == 1
      ensures category == Toggle(old(category), v)
      ensures subCategory == old(subCategory) && sortType == old(sortType)
      ensures Shows(products, search, showSearch)
    {
      if v in category {
        category := Without(category, v);
      } else {
        category := category + [v];
      }
      currentPage := 1;
      ApplyFilterAndSort(products, search, showSearch);
    }

    /** toggleSubCategory, followed by the same effect. */
    method ToggleSubCategory(v: string, products: seq<Item>, search: string, showSearch: bool)
      requires Valid()
      modifies this
      ensures Valid() && currentPage == 1
      ensures subCategory == Toggle(old(subCategory), v)
      ensures category == old(category) && sortType == old(sortType)
      ensures Shows(products, search, showSearch)
    {
      if v in subCategory {
        subCategory := Without(subCategory, v);
      } else {
        subCategory := subCategory + [v];
      }
      currentPage := 1;
      ApplyFilterAndSort(products, search, showSearch);
    }

    /** The sort selector's onChange, followed by the effect: the list is
        re-sorted in the new order and the page goes back to 1. The select
        fires only when its choice changes, and React skips an effect whose
        dependencies are unchanged, so the new order differs from the old. */
    method SetSortType(t: SortType, products: seq<Item>, search: string, showSearch: bool)
      requires Valid() && t != sortType
      modifies this
      ensures Valid() && currentPage == 1
      ensures sortType == t
      ensures category == old(category) && subCategory == old(subCategory)
      ensures Shows(products, search, showSearch)
    {
      sortType := t;
      ApplyFilterAndSort(products, search, showSearch);
    }

    /** applyFilterAndSort: narrow the products by search, category and
        subcategory in turn, sort a copy by price when asked, store it, and
        go back to page 1. It runs after every change of the choices, the
        sort order, the products or the search; the last three arrive from
        the context and are this method's parameters. */
    method ApplyFilterAndSort(products: seq<Item>, search: string, showSearch: bool)
      requires Valid()
      modifies this
      ensures Valid() && currentPage == 1
      ensures category == old(category) && subCategory == old(subCategory) && sortType == old(sortType)
      ensures Shows(products, search, showSearch)
    {
      var productsCopy := products;
      if SearchActive(search, showSearch) {
        productsCopy := BySearch(productsCopy, search);
      }
      if |category| > 0 {
        productsCopy := ByCategory(productsCopy, category);
      }
      if |subCategory| > 0 {
        productsCopy := BySubCategory(productsCopy, subCategory);
      }
      ChainIsChosen(products, search, showSearch, category, subCategory);
      var arr := new Item[|productsCopy|](k requires 0 <= k < |productsCopy| => productsCopy[k]);
      assert arr[..] == productsCopy;
      match sortType {
        case LowHigh => SortByPrice(arr, false);
        case HighLow => SortByPrice(arr, true);
        case Relevant =>
      }
      filterProducts := arr[..];
      currentPage := 1;
    }

    /** The "Previous" buttons, disabled on page 1. */
    method PrevPage()
      requires Valid()
      modifies this
      ensures Valid()
      ensures currentPage == if old(currentPage) == 1 then 1 else old(currentPage) - 1
      ensures category == old(category) && subCategory == old(subCategory) && sortType == old(sortType) && filterProducts == old(filterProducts)
    {
      if currentPage != 1 {
        currentPage := currentPage - 1;
      }
    }

    /** The "Next" buttons, shown only when there is more than one page and
        disabled on the last. */
    method NextPage()
      requires Valid() && TotalPages(|filterProducts|) > 1
      modifies this
      ensures Valid()
      ensures var last := TotalPages(|filterProducts|);
        currentPage == if old(currentPage) == last then last else old(currentPage) + 1
      ensures category == old(category) && subCategory == old(subCategory) && sortType == old(sortType) && filterProducts == old(filterProducts)
    {
      if currentPage != TotalPages(|filterProducts|) {
        currentPage := currentPage + 1;
      }
    }

    /** A click on a bar entry: a number goes to that page, "..." is
        disabled. Every number on the bar is a page of the range. */
    method ClickButton(b: Button)
      requires Valid()
      requires b.PageButton? ==> 1 <= b.n <= TotalPages(|filterProducts|)
      modifies this
      ensures Valid()
      ensures currentPage == if b.PageButton? then b.n else old(currentPage)
      ensures category == old(category) && subCategory == old(subCategory) && sortType == old(sortType) && filterProducts == old(filterProducts)
    {
      if b.PageButton? {
        currentPage := b.n;
      }
    }
  }

  function BySearch(s: seq<Item>, search: string): seq<Item> {
    FilterBy(s, (x: Item) => MatchesSearch(x, search))
  }

  function ByCategory(s: seq<Item>, category: seq<string>): seq<Item> {
    FilterBy(s, (x: Item) => SomeMatches(category, x.category))
  }

  function BySubCategory(s: seq<Item>, subCategory: seq<string>): seq<Item> {
    FilterBy(s, (x: Item) => SomeMatches(subCategory, x.subCategory))
  }

  /** The three filters applied in turn, each only when its condition holds. */
  function Chain(products: seq<Item>, search: string, showSearch: bool, category: seq<string>, subCategory: seq<string>): (r: seq<Item>)
    ensures |r| <= |products|
    ensures forall x :: x in r <==> x in products && Selected(x, search, showSearch, category, subCategory)
  {
    var s1 := if SearchActive(search, showSearch) then BySearch(products, search) else products;
    var s2 := if |category| > 0 then ByCategory(s1, category) else s1;
    if |subCategory| > 0 then BySubCategory(s2, subCategory) else s2
  }

  /** The chain selects exactly what the single-pass reference selects, in
      the same order. */
  lemma ChainIsChosen(products: seq<Item>, search: string, showSearch: bool, category: seq<string>, subCategory: seq<string>)
    ensures Chain(products, search, showSearch, category, subCategory) == Chosen(products, search, showSearch, category, subCategory)
  {
    var f1 := (x: Item) => !SearchActive(search, showSearch) || MatchesSearch(x, search);
    var f2 := (x: Item) => |category| == 0 || SomeMatches(category, x.category);
    var f3 := (x: Item) => |subCategory| == 0 || SomeMatches(subCategory, x.subCategory);
    var f12 := (x: Item) => f1(x) && f2(x);
    var all := (x: Item) => Selected(x, search, showSearch, category, subCategory);
    var s1 := FilterBy(products, f1);
    if SearchActive(search, showSearch) {
      FilterSame(products, f1, (x: Item) => MatchesSearch(x, search));
    } else {
      FilterAll(products, f1);
    }
    var s2 := FilterBy(s1, f2);
    if |category| > 0 {
      FilterSame(s1, f2, (x: Item) => SomeMatches(category, x.category));
    } else {
      FilterAll(s1, f2);
    }
    if |subCategory| > 0 {
      FilterSame(s2, f3, (x: Item) => SomeMatches(subCategory, x.subCategory));
    } else {
      FilterAll(s2, f3);
    }
    FilterTwice(products, f1, f2, f12);
    FilterTwice(products, f12, f3, all);
  }

  /** Filters by pointwise-equal predicates agree. */
  lemma {:induction false} FilterSame(s: seq<Item>, f: Item -> bool, g: Item -> bool)
    requires forall x :: f(x) == g(x)
    ensures FilterBy(s, f) == FilterBy(s, g)
  {
    if s != [] {
      FilterSame(s[1..], f, g);
    }
  }
}
