/**
 * Page arithmetic of the product list pages: the page count, the slice of
 * the filtered list a page shows, the previous/next buttons, and the
 * `currentPage` state that the two effects of the hw4 and hw5 list pages
 * step (reset to 1 when the filters change, pull back to the last page when
 * the list shrinks).
 */
module Pagination {
  import opened Common
  import opened Seqs

  /** `Math.ceil(n / size)` for a whole-number count `n`. */
  function PageCount(n: nat, size: nat): (r: nat)
    requires size > 0
    ensures r * size >= n
    ensures r > 0 ==> (r - 1) * size < n
    ensures r == 0 <==> n == 0
  {
    if n == 0 then 0 else 1 + PageCount(n - Min(n, size), size)
  }

  /** `Math.max(1, Math.ceil(n / size))`: never fewer than one page. */
  function TotalPages(n: nat, size: nat): (r: nat)
    requires size > 0
    ensures r >= 1
    ensures r * size >= n
    ensures n == 0 ==> r == 1
    ensures n > 0 ==> (r - 1) * size < n
  {
    Max(1, PageCount(n, size))
  }

  /** `s.slice((page - 1) * size, page * size)`: what page `page` shows. */
  function PageItems<T>(s: seq<T>, page: int, size: nat): (r: seq<T>)
    requires size > 0
    ensures |r| <= size
  {
    Slice(s, (page - 1) * size, page * size)
  }

  lemma MulMonotone(a: int, b: int, c: nat)
    requires a <= b
    ensures a * c <= b * c
  {
    assert b * c - a * c == (b - a) * c;
  }

  /** Page `page` starts `size` items before where it ends, and never before position 0. */
  lemma PageBounds(page: int, size: nat)
    requires page >= 1
    ensures 0 <= (page - 1) * size
    ensures page * size == (page - 1) * size + size
  {
    MulMonotone(0, page - 1, size);
  }

  /** Page `page` (counting from 1) holds the items from position `(page - 1) * size` on. */
  lemma PageItemsAt<T>(s: seq<T>, page: int, size: nat, j: nat)
    requires size > 0 && page >= 1
    requires j < |PageItems(s, page, size)|
    ensures (page - 1) * size + j < |s|
    ensures PageItems(s, page, size)[j] == s[(page - 1) * size + j]
  {
    PageBounds(page, size);
    var lo := (page - 1) * size;
    assert PageItems(s, page, size) == s[Min(lo, |s|)..Min(lo + size, |s|)];
  }

  /** Pages 1 to `k` laid end to end. */
  function PagesUpTo<T>(s: seq<T>, size: nat, k: nat): seq<T>
    requires size > 0
  {
    if k == 0 then [] else PagesUpTo(s, size, k - 1) + PageItems(s, k, size)
  }

  /** Pages 1 to `k` together are the first `k * size` items. */
  lemma {:induction false} PagesUpToPrefix<T>(s: seq<T>, size: nat, k: nat)
    requires size > 0
    ensures PagesUpTo(s, size, k) == s[..Min(k * size, |s|)]
  {
    if k > 0 {
      PagesUpToPrefix(s, size, k - 1);
      assert (k - 1) * size <= k * size;
      var lo, hi := Min((k - 1) * size, |s|), Min(k * size, |s|);
      assert PageItems(s, k, size) == s[lo..hi];
      assert s[..lo] + s[lo..hi] == s[..hi];
    }
  }

  /** Pages 1 to `PageCount` concatenate to the whole list: nothing is lost or shown twice. */
  lemma PagesPartition<T>(s: seq<T>, size: nat)
    requires size > 0
    ensures PagesUpTo(s, size, PageCount(|s|, size)) == s
    ensures PagesUpTo(s, size, TotalPages(|s|, size)) == s
  {
    PagesUpToPrefix(s, size, PageCount(|s|, size));
    PagesUpToPrefix(s, size, TotalPages(|s|, size));
  }

  /** Every page before the last one is full. */
  lemma FullPagesBeforeLast<T>(s: seq<T>, size: nat, page: int)
    requires size > 0
    requires 1 <= page < TotalPages(|s|, size)
    ensures |PageItems(s, page, size)| == size
  {
    var t := TotalPages(|s|, size);
    PageBounds(page, size);
    MulMonotone(page, t - 1, size);
    var lo := (page - 1) * size;
    assert lo + size <= |s|;
    assert PageItems(s, page, size) == s[lo..lo + size];
  }

  /** The last page of a non-empty list is not empty. */
  lemma LastPageNonEmpty<T>(s: seq<T>, size: nat)
    requires size > 0 && |s| > 0
    ensures |PageItems(s, TotalPages(|s|, size), size)| > 0
  {
  }

  /** A page past the page count shows nothing. */
  lemma PageBeyondEndEmpty<T>(s: seq<T>, size: nat, page: int)
    requires size > 0
    requires page > PageCount(|s|, size)
    ensures PageItems(s, page, size) == []
  {
    var c := PageCount(|s|, size);
    PageBounds(page, size);
    MulMonotone(c, page - 1, size);
    var lo := (page - 1) * size;
    assert PageItems(s, page, size) == s[|s|..Min(lo + size, |s|)];
  }

  /** `if (currentPage > totalPages) setCurrentPage(totalPages)`. */
  function ClampedPage(current: int, total: int): (r: int)
    ensures current <= total ==> r == current
    ensures current > total ==> r == total
    ensures 1 <= current && 1 <= total ==> 1 <= r <= total
  {
    if current > total then total else current
  }

  /** The "previous" button: `Math.max(prev - 1, 1)`. */
  function PreviousPage(p: int): (r: int)
    ensures r >= 1
    ensures p > 1 ==> r == p - 1
    ensures p <= 1 ==> r == 1
  {
    Max(p - 1, 1)
  }

  /** The "next" button: `Math.min(prev + 1, totalPages)`. */
  function NextPage(p: int, total: int): (r: int)
    ensures r <= total
    ensures p < total ==> r == p + 1
    ensures p >= total ==> r == total
  {
    Min(p + 1, total)
  }

  /** `disabled={currentPage === 1}` on the "previous" button. */
  predicate PreviousDisabled(p: int) { p == 1 }

  /** `disabled={currentPage >= totalPages}` on the "next" button. */
  predicate NextDisabled(p: int, total: int) { p >= total }

  /** The pagination controls are rendered only when there is more than one page. */
  predicate ShowControls(total: int) { total > 1 }

  /** The controls appear exactly when the list does not fit on one page. */
  lemma ControlsShownIff(n: nat, size: nat)
    requires size > 0
    ensures ShowControls(TotalPages(n, size)) <==> n > size
  {
    var r := TotalPages(n, size);
    if n > size && r <= 1 {
      MulMonotone(r, 1, size);
    }
  }

  /**
   * From any page in range, both buttons stay in range, and an enabled
   * button moves exactly one page.
   */
  lemma ButtonsStayInRange(p: int, total: int)
    requires 1 <= p <= total
    ensures 1 <= PreviousPage(p) <= total && 1 <= NextPage(p, total) <= total
    ensures !PreviousDisabled(p) ==> PreviousPage(p) == p - 1
    ensures !NextDisabled(p, total) ==> NextPage(p, total) == p + 1
  {
  }

  /**
   * Within range, "previous" is disabled only on page 1 and "next" only on
   * the last page, and a button is disabled exactly when its handler would
   * leave the page where it is.
   */
  lemma ButtonsDisabledAtBounds(p: int, total: int)
    requires 1 <= p <= total
    ensures PreviousDisabled(p) <==> p == 1
    ensures NextDisabled(p, total) <==> p == total
    ensures PreviousDisabled(p) <==> PreviousPage(p) == p
    ensures NextDisabled(p, total) <==> NextPage(p, total) == p
  {
  }

  /**
   * The page after one commit of the list page's two effects, as written:
   * `useEffect(() => setCurrentPage(1), [filters])` and then the clamp
   * effect, which tests the page of the render being committed. Both
   * updates are batched and the later one wins.
   */
  function SettledPageAsWritten(current: int, filtersChanged: bool, total: int): (r: int)
    ensures current > total ==> r == total
    ensures current <= total ==> r == if filtersChanged then 1 else current
  {
    var afterReset := if filtersChanged then 1 else current;
    if current > total then total else afterReset
  }

  /**
   * On page 3 of 3 (13 to 18 matches), applying filters that leave 7
   * matches (2 pages) settles on page 2, not on page 1.
   */
  lemma StaleClampOverridesReset()
    ensures TotalPages(15, 6) == 3 && TotalPages(7, 6) == 2
    ensures SettledPageAsWritten(3, true, TotalPages(7, 6)) == 2
  {
    assert PageCount(1, 6) == 1;
    assert PageCount(3, 6) == 1;
    assert PageCount(9, 6) == 2;
  }

  /** The page after a commit when the reset is applied before the clamp is tested. */
  function SettledPage(current: int, filtersChanged: bool, total: int): (r: int)
    ensures filtersChanged ==> r == 1
    ensures !filtersChanged && current <= total ==> r == current
    ensures !filtersChanged && current > total ==> r == total
    ensures 1 <= current && 1 <= total ==> 1 <= r <= total
  {
    if filtersChanged then 1 else ClampedPage(current, total)
  }

  /** The written effects differ from the reset-first reading exactly when the filters change on a page past the new last page. */
  lemma AsWrittenDiffersOnlyWhenStale(current: int, filtersChanged: bool, total: int)
    requires total >= 1
    ensures SettledPageAsWritten(current, filtersChanged, total) != SettledPage(current, filtersChanged, total)
      <==> filtersChanged && current > total && total != 1
  {
  }

  /** Items per page on the hw4 and hw5 product list pages. */
  const ItemsPerPage: nat := 6

  /** The `currentPage` state of the hw4 and hw5 product list pages. */
  class PageCursor {
    var currentPage: int

    ghost predicate Valid()
      reads this
    {
      currentPage >= 1
    }

    /** `useState(1)`. */
    constructor ()
      ensures Valid() && currentPage == 1
    {
      currentPage := 1;
    }

    /**
     * One commit of the two effects after a render that showed
     * `filteredCount` matches; `filtersChanged` says whether the `filters`
     * prop differs from the previous render's.
     */
    method Commit(filtersChanged: bool, filteredCount: nat)
      requires Valid()
      modifies this
      ensures Valid()
      ensures currentPage == SettledPageAsWritten(old(currentPage), filtersChanged, TotalPages(filteredCount, ItemsPerPage))
      ensures currentPage <= TotalPages(filteredCount, ItemsPerPage)
    {
      var total := TotalPages(filteredCount, ItemsPerPage);
      var next := currentPage;
      if filtersChanged {
        next := 1;
      }
      if currentPage > total {
        next := total;
      }
      currentPage := next;
    }

    /** The "previous" button's handler. */
    method Previous()
      requires Valid()
      modifies this
      ensures Valid()
      ensures currentPage == PreviousPage(old(currentPage))
    {
      currentPage := Max(currentPage - 1, 1);
    }

    /** The "next" button's handler. */
    method Next(filteredCount: nat)
      requires Valid()
      modifies this
      ensures Valid()
      ensures currentPage == NextPage(old(currentPage), TotalPages(filteredCount, ItemsPerPage))
    {
      currentPage := Min(currentPage + 1, TotalPages(filteredCount, ItemsPerPage));
    }

    /** What the grid shows: the current page of the filtered list. */
    function Visible<T>(filtered: seq<T>): (r: seq<T>)
      reads this
      ensures |r| <= ItemsPerPage
    {
      PageItems(filtered, currentPage, ItemsPerPage)
    }
  }
}
