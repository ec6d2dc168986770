/** Asset grid paging (src/components/assetsView/views/AssetGrid.tsx): the slice of the
    token list shown on a page, the number of pages, the page sizes the selector offers,
    and which items are rendered. Item contents are abstract; only whether an item is a
    property (has `rentStatus`) matters. */
module AssetGrid {
  import opened Wrappers
  import opened JsText

  /** `pageSize`: `Infinity` for "All", otherwise a positive number of items. */
  datatype PageSize = All | Finite(size: nat)

  predicate ValidPageSize(pageSize: PageSize) {
    pageSize.All? || pageSize.size >= 1
  }

  /** `Array.prototype.slice(start, end)`: negative positions count from the end, and
      both positions are clamped to the list. */
  function SlicePosition(len: nat, k: int): (p: nat)
    ensures p <= len
    ensures 0 <= k <= len ==> p == k
    ensures k > len ==> p == len
  {
    if k < 0 then (if len + k < 0 then 0 else len + k)
    else if k > len then len
    else k
  }

  function JsSlice<T>(xs: seq<T>, start: int, end: int): seq<T> {
    var s := SlicePosition(|xs|, start);
    var e := SlicePosition(|xs|, end);
    if s < e then xs[s..e] else []
  }

  /** `paginationOffers`: the whole list for "All", otherwise
      `slice((page - 1) * pageSize, (page - 1) * pageSize + pageSize)`. */
  function PaginationOffers<T>(items: seq<T>, page: int, pageSize: PageSize): seq<T> {
    match pageSize
    case All => items
    case Finite(s) =>
      var start := (page - 1) * s;
      JsSlice(items, start, start + s)
  }

  /** The `total` of the pagination control: 0 for "All", otherwise
      `Math.ceil(length / pageSize)`. */
  function PageCount(len: nat, pageSize: PageSize): nat
    requires ValidPageSize(pageSize)
  {
    match pageSize
    case All => 0
    case Finite(s) => if len % s == 0 then len / s else len / s + 1
  }

  /** The page count is the ceiling of `len / size`: the smallest number of pages of
      that size that hold every item. */
  lemma PageCountIsCeiling(len: nat, size: nat)
    requires size >= 1
    ensures var c := PageCount(len, Finite(size));
            && len <= c * size
            && (c >= 1 ==> (c - 1) * size < len)
            && (c == 0 <==> len == 0)
  {
    var c := PageCount(len, Finite(size));
    var q, r := len / size, len % size;
    assert len == q * size + r;
    if r == 0 {
      assert c == q;
      if c >= 1 {
        assert (c - 1) * size == len - size;
      }
    } else {
      assert c == q + 1;
      assert c * size == len - r + size;
      assert (c - 1) * size == q * size;
    }
  }

  /** Page `page` (from 1) of a finite size holds the items from `(page - 1) * size`
      on, at most `size` of them, in list order; a page past the end is empty. */
  lemma PageContents<T>(items: seq<T>, page: int, size: nat)
    requires page >= 1 && size >= 1
    ensures var r := PaginationOffers(items, page, Finite(size));
            var start := (page - 1) * size;
            && |r| <= size
            && (start < |items| ==> r == items[start..if page * size < |items| then page * size else |items|])
            && (start >= |items| ==> r == [])
  {
    var start := (page - 1) * size;
    PageStartStep(size, page);
    SliceWindow(items, start, start + size);
  }

  /** A slice between two positions that are not negative. */
  lemma SliceWindow<T>(items: seq<T>, start: int, end: int)
    requires 0 <= start <= end
    ensures var r := JsSlice(items, start, end);
            && |r| <= end - start
            && (start < |items| ==> r == items[start..if end < |items| then end else |items|])
            && (start >= |items| ==> r == [])
  {
  }

  /** "All" shows the whole list and no page numbers. */
  lemma AllShowsEverything<T>(items: seq<T>, page: int)
    ensures PaginationOffers(items, page, All) == items
    ensures PageCount(|items|, All) == 0
  {
  }

  /** Pages 1 to `k`, one after the other. */
  function PagesUpTo<T>(items: seq<T>, size: nat, k: nat): seq<T>
    decreases k
  {
    if k == 0 then [] else PagesUpTo(items, size, k - 1) + PaginationOffers(items, k, Finite(size))
  }

  /** Where the first `k` pages of size `size` end. */
  function PagesEnd(len: nat, size: nat, k: nat): (e: nat)
    ensures e <= len
  {
    if k * size < len then k * size else len
  }

  lemma PageStartStep(size: nat, k: nat)
    requires k >= 1
    ensures (k - 1) * size + size == k * size
    ensures (k - 1) * size >= 0
  {
  }

  lemma {:induction false} PagesUpToPrefix<T>(items: seq<T>, size: nat, k: nat)
    requires size >= 1
    ensures PagesUpTo(items, size, k) == items[..PagesEnd(|items|, size, k)]
    decreases k
  {
    if k > 0 {
      PagesUpToPrefix(items, size, k - 1);
      PageStartStep(size, k);
      var lo := (k - 1) * size;
      var prev := PagesEnd(|items|, size, k - 1);
      var next := PagesEnd(|items|, size, k);
      var page := PaginationOffers(items, k, Finite(size));
      assert page == JsSlice(items, lo, lo + size);
      if lo < |items| {
        assert prev == lo;
        assert page == items[lo..next];
        assert items[..next] == items[..prev] + items[prev..next];
      } else {
        assert page == [];
        assert next == prev;
      }
    }
  }

  /** Reading pages 1 to the page count in order gives back the whole list, with
      nothing left out and nothing repeated. */
  lemma PagesCoverTheList<T>(items: seq<T>, size: nat)
    requires size >= 1
    ensures PagesUpTo(items, size, PageCount(|items|, Finite(size))) == items
  {
    var c := PageCount(|items|, Finite(size));
    PageCountIsCeiling(|items|, size);
    PagesUpToPrefix(items, size, c);
    assert PagesEnd(|items|, size, c) == |items|;
    assert items[..|items|] == items;
  }

  // ---------------------------------------------------------------------------
  // The page-size selector

  const PAGE_SIZE_VALUES: seq<nat> := [20, 40, 100, 200]

  /** The option values of the selector: `'All'`, then each size's `toString()`. */
  function PageSizeOptions(): (opts: seq<string>)
    ensures |opts| == 1 + |PAGE_SIZE_VALUES|
    ensures opts[0] == "All"
    ensures forall i :: 0 <= i < |PAGE_SIZE_VALUES| ==> opts[i + 1] == BigIntToString(PAGE_SIZE_VALUES[i])
  {
    ["All"] + seq(|PAGE_SIZE_VALUES|, i requires 0 <= i < |PAGE_SIZE_VALUES| => BigIntToString(PAGE_SIZE_VALUES[i]))
  }

  /** `onOptionSubmit(val)`: `'All'` selects `Infinity`, any other option `Number(val)`.
      The option values are integer strings, read here as decimal integers. */
  function PageSizeFor(val: string): Option<PageSize> {
    if val == "All" then Some(All)
    else match StringToBigInt(val)
      case Some(n) => if n >= 0 then Some(Finite(n)) else None
      case None => None
  }

  /** Every option the selector offers selects "All" or one of 20, 40, 100 and 200,
      and each of those can be selected. */
  lemma SelectableSizes(val: string)
    requires val in PageSizeOptions()
    ensures PageSizeFor(val).Some?
    ensures var ps := PageSizeFor(val).value;
            ValidPageSize(ps) && (ps.All? || ps.size in PAGE_SIZE_VALUES)
    ensures forall v :: v in PAGE_SIZE_VALUES ==> PageSizeFor(BigIntToString(v)) == Some(Finite(v))
  {
    var opts := PageSizeOptions();
    forall v | v in PAGE_SIZE_VALUES
      ensures PageSizeFor(BigIntToString(v)) == Some(Finite(v))
    {
      BigIntStringRoundTrip(v);
      assert BigIntToString(v)[0] != 'A';
    }
    var i :| 0 <= i < |opts| && opts[i] == val;
    if i > 0 {
      BigIntStringRoundTrip(PAGE_SIZE_VALUES[i - 1]);
      assert val[0] != 'A';
    }
  }

  // ---------------------------------------------------------------------------
  // Which items are rendered

  /** A grid item: a user's property carries `rentStatus`, another asset does not. */
  datatype GridItem<T> = GridItem(isAProperty: bool, token: T)

  /** The `map` callback: a property always gives a card, another asset only when
      `showOtherAssets` is set (otherwise `null`, which renders nothing). */
  predicate IsShown<T>(item: GridItem<T>, showOtherAssets: bool) {
    item.isAProperty || showOtherAssets
  }

  function Rendered<T>(items: seq<GridItem<T>>, showOtherAssets: bool): seq<GridItem<T>>
    decreases |items|
  {
    if items == [] then []
    else (if IsShown(items[0], showOtherAssets) then [items[0]] else []) + Rendered(items[1..], showOtherAssets)
  }

  /** The cards rendered for the first item followed by those for the rest. */
  lemma RenderedCons<T>(items: seq<GridItem<T>>, showOtherAssets: bool)
    requires items != []
    ensures multiset(Rendered(items, showOtherAssets)) ==
            (if IsShown(items[0], showOtherAssets) then multiset{items[0]} else multiset{}) +
            multiset(Rendered(items[1..], showOtherAssets))
    ensures multiset(items) == multiset{items[0]} + multiset(items[1..])
  {
    var head := if IsShown(items[0], showOtherAssets) then [items[0]] else [];
    assert Rendered(items, showOtherAssets) == head + Rendered(items[1..], showOtherAssets);
    assert items == [items[0]] + items[1..];
  }

  /** Each item is rendered as often as it occurs on the page when shown, never otherwise. */
  lemma {:induction false} RenderedCounts<T>(items: seq<GridItem<T>>, showOtherAssets: bool)
    ensures forall x :: multiset(Rendered(items, showOtherAssets))[x] ==
                        if IsShown(x, showOtherAssets) then multiset(items)[x] else 0
    decreases |items|
  {
    if items != [] {
      RenderedCounts(items[1..], showOtherAssets);
      RenderedCons(items, showOtherAssets);
    }
  }

  /** The rendered items keep their page order. */
  lemma {:induction false} RenderedOrder<T>(items: seq<GridItem<T>>, showOtherAssets: bool)
    ensures IsSubsequence(Rendered(items, showOtherAssets), items)
    ensures forall x :: x in Rendered(items, showOtherAssets) ==> IsShown(x, showOtherAssets)
    ensures |Rendered(items, showOtherAssets)| <= |items|
    decreases |items|
  {
    if items != [] {
      var rest := Rendered(items[1..], showOtherAssets);
      RenderedOrder(items[1..], showOtherAssets);
      if IsShown(items[0], showOtherAssets) {
        assert Rendered(items, showOtherAssets) == [items[0]] + rest;
      } else {
        assert Rendered(items, showOtherAssets) == rest;
        assert rest != [] ==> rest[0] in rest && rest[0] != items[0];
      }
    }
  }

  /** With other assets shown, every item of the page gets a card; without, exactly the
      properties do, each copy once, in page order. */
  lemma {:induction false} RenderedSpec<T>(items: seq<GridItem<T>>, showOtherAssets: bool)
    ensures showOtherAssets ==> Rendered(items, showOtherAssets) == items
    ensures forall x :: x in Rendered(items, showOtherAssets) <==> x in items && IsShown(x, showOtherAssets)
    ensures forall x :: multiset(Rendered(items, showOtherAssets))[x] ==
                        if IsShown(x, showOtherAssets) then multiset(items)[x] else 0
    ensures IsSubsequence(Rendered(items, showOtherAssets), items)
    ensures |Rendered(items, showOtherAssets)| <= |items|
    decreases |items|
  {
    RenderedCounts(items, showOtherAssets);
    RenderedOrder(items, showOtherAssets);
    if items != [] {
      RenderedSpec(items[1..], showOtherAssets);
      assert items == [items[0]] + items[1..];
    }
  }
}
