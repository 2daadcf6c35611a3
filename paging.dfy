/** `Array.prototype.slice` and the page windows the list endpoints cut
    with it: page `p` of size `n` is `slice((p - 1) * n, (p - 1) * n + n)`. */
module Paging {
  import Sorting

  /** The `data` object of a list reply: one page, the number of all
      matches, and the page parameters as read. */
  datatype Listing<T> = Listing(list: seq<T>, total: nat, page: int, pageSize: int)

  function Min(a: int, b: int): int { if a < b then a else b }

  /** How `slice` reads one of its bounds: a negative bound counts from the
      end, and both are clamped to the array. */
  function RelativeIndex(i: int, n: nat): (r: nat)
    ensures r <= n
    ensures 0 <= i ==> r == Min(i, n)
    ensures i < 0 ==> r == if n + i < 0 then 0 else n + i
  {
    if i < 0 then (if n + i < 0 then 0 else n + i) else Min(i, n)
  }

  /** `s.slice(start, end)`. */
  function JsSlice<T>(s: seq<T>, start: int, end: int): (r: seq<T>)
    ensures |r| <= |s|
    ensures forall x :: x in r ==> x in s
  {
    var a := RelativeIndex(start, |s|);
    var b := RelativeIndex(end, |s|);
    if a < b then s[a..b] else []
  }

  /** The window of page `page` (counted from 1) of `size` items. */
  function Page<T>(s: seq<T>, page: int, size: int): (r: seq<T>)
  {
    JsSlice(s, (page - 1) * size, (page - 1) * size + size)
  }

  /** The arithmetic of page offsets, on its own: the earlier pages of a
      page number of at least 1 take `(page - 1) * size` items, and one more
      page ends at `page * size`. */
  lemma OffsetFacts(page: int, size: int)
    requires page >= 1 && size >= 0
    ensures 0 <= (page - 1) * size <= page * size
    ensures (page - 1) * size + size == page * size
  {
  }

  /** For a page number of at least 1 the window is the run of at most
      `size` items that starts after the earlier pages. */
  lemma PageWindow<T>(s: seq<T>, page: int, size: int)
    requires page >= 1 && size >= 0
    ensures Page(s, page, size) == s[Min((page - 1) * size, |s|)..Min(page * size, |s|)]
    ensures |Page(s, page, size)| <= size
  {
    OffsetFacts(page, size);
  }

  /** Consecutive pages adjoin: together they are the window of both. */
  lemma PagesAdjoin<T>(s: seq<T>, page: int, size: int)
    requires page >= 1 && size >= 0
    ensures Page(s, page, size) + Page(s, page + 1, size)
      == s[Min((page - 1) * size, |s|)..Min((page + 1) * size, |s|)]
  {
    PageWindow(s, page, size);
    PageWindow(s, page + 1, size);
    OffsetFacts(page, size);
    OffsetFacts(page + 1, size);
    var a, b, c := Min((page - 1) * size, |s|), Min(page * size, |s|), Min((page + 1) * size, |s|);
    assert a <= b <= c;
    assert s[a..b] + s[b..c] == s[a..c];
  }

  /** The page of position `k`, on its own: it starts at or before `k` and
      ends after it. */
  lemma PageOfPosition(k: nat, size: int)
    requires size > 0
    ensures k / size >= 0
    ensures (k / size + 1 - 1) * size <= k < (k / size + 1) * size
  {
    var q := k / size;
    assert q * size <= k < q * size + size;
    assert (q + 1 - 1) * size == q * size;
    assert (q + 1) * size == q * size + size;
  }

  /** A slice with non-negative bounds holds the items between them. */
  lemma InSlice<T>(s: seq<T>, k: nat, lo: int, hi: int)
    requires 0 <= lo <= k < hi && k < |s|
    ensures s[k] in JsSlice(s, lo, hi)
  {
    var b := Min(hi, |s|);
    assert s[k] == s[lo..b][k - lo];
  }

  /** An item lies on the page whose window covers its position. */
  lemma ItemInWindow<T>(s: seq<T>, k: nat, page: int, size: int)
    requires k < |s| && page >= 1 && size >= 0
    requires (page - 1) * size <= k < page * size
    ensures s[k] in Page(s, page, size)
  {
    OffsetFacts(page, size);
    InSlice(s, k, (page - 1) * size, (page - 1) * size + size);
  }

  /** The item at position `k` is on page `k / size + 1`. */
  lemma ItemOnItsPage<T>(s: seq<T>, k: nat, size: int)
    requires k < |s| && size > 0
    ensures k / size + 1 >= 1 && s[k] in Page(s, k / size + 1, size)
  {
    PageOfPosition(k, size);
    ItemInWindow(s, k, k / size + 1, size);
  }

  /** Every item is on some page. */
  lemma ItemOnSomePage<T>(s: seq<T>, x: T, size: int)
    requires x in s && size > 0
    ensures exists page: nat :: page >= 1 && x in Page(s, page, size)
  {
    var k :| 0 <= k < |s| && s[k] == x;
    ItemOnItsPage(s, k, size);
    var page: nat := k / size + 1;
    assert x in Page(s, page, size);
  }

  /** Page 0 is always empty. */
  lemma PageZeroIsEmpty<T>(s: seq<T>, size: int)
    requires size >= 0
    ensures Page(s, 0, size) == []
  {
  }

  /** Page -1 is not empty: its bounds are negative, and `slice` counts
      them back from the end, so it holds the second-to-last window. */
  lemma NegativePageCountsFromEnd<T>(s: seq<T>, size: int)
    requires size > 0 && |s| >= 2 * size
    ensures Page(s, -1, size) == s[|s| - 2 * size..|s| - size]
    ensures |Page(s, -1, size)| == size
  {
  }

  /** A window of a sorted list is sorted. */
  lemma SortedPage<T>(s: seq<T>, page: int, size: int, key: T -> int)
    requires Sorting.SortedBy(s, key)
    ensures Sorting.SortedBy(Page(s, page, size), key)
  {
    var a := RelativeIndex((page - 1) * size, |s|);
    var b := RelativeIndex((page - 1) * size + size, |s|);
    var w := Page(s, page, size);
    if a < b {
      assert w == s[a..b];
      forall i, j | 0 <= i < j < |w|
        ensures key(w[i]) <= key(w[j])
      {
        assert w[i] == s[a + i] && w[j] == s[a + j];
      }
    }
  }
}
