/**
 * Newest-first pagination over a time series, shared by the fund-NAV page
 * (10 rows a page) and the exchange-rate page (15 rows a page).  On every
 * render a page counts its pages as the ceiling of the history length over
 * the page size, starts page p at index (p-1)·k, and shows the reversed
 * history from that index on, k rows at most.  The Previous and Next
 * handlers clamp the page to 1 and to the page count.
 */
module Paging {

  /** A reversed copy of `s`; `s` itself is a value and stays as it was. */
  function Reverse<T>(s: seq<T>): (r: seq<T>)
    ensures |r| == |s|
    ensures forall i :: 0 <= i < |s| ==> r[i] == s[|s| - 1 - i]
  {
    if s == [] then [] else Reverse(s[1..]) + [s[0]]
  }

  lemma ReverseReverse<T>(s: seq<T>)
    ensures Reverse(Reverse(s)) == s
  {
    var rr := Reverse(Reverse(s));
    assert forall i :: 0 <= i < |s| ==> rr[i] == s[i];
  }

  /** `Math.ceil(n / k)` on non-negative integers. */
  function CeilDiv(n: nat, k: nat): (r: nat)
    requires k > 0
    ensures n <= r * k < n + k
  {
    var q := (n + k - 1) / k;
    assert q * k == n + k - 1 - (n + k - 1) % k;
    q
  }

  /** How `Array.prototype.slice` resolves an index argument against a length. */
  function SliceIndex(i: int, len: nat): (r: nat)
    ensures r <= len
    ensures 0 <= i ==> r == (if i < len then i else len)
    ensures i < 0 && -i <= len ==> r == len + i
    ensures len + i < 0 ==> r == 0
  {
    if i < 0 then (if len + i < 0 then 0 else len + i)
    else if i < len then i else len
  }

  /** `slice` of `s` from `start` to `end`, with a negative argument counted back from the end. */
  function JsSlice<T>(s: seq<T>, start: int, end: int): (r: seq<T>)
    ensures |r| <= |s|
    ensures SliceIndex(start, |s|) + |r| <= |s|
    ensures r == s[SliceIndex(start, |s|)..SliceIndex(start, |s|) + |r|]
    ensures |r| == (if SliceIndex(start, |s|) < SliceIndex(end, |s|)
                    then SliceIndex(end, |s|) - SliceIndex(start, |s|) else 0)
  {
    var a, b := SliceIndex(start, |s|), SliceIndex(end, |s|);
    if a < b then s[a..b] else []
  }

  function Min(a: int, b: int): int { if a < b then a else b }

  /** On non-negative bounds, `slice` is the sub-sequence between the bounds cut to the length. */
  lemma JsSliceNonNegative<T>(s: seq<T>, start: nat, end: nat)
    requires start <= end
    ensures JsSlice(s, start, end) == s[Min(start, |s|)..Min(end, |s|)]
  {
  }

  function TotalPages(n: nat, perPage: nat): (r: nat)
    requires perPage > 0
    ensures r * perPage >= n && (r - 1) * perPage < n
    ensures r == 0 <==> n == 0
  {
    CeilDiv(n, perPage)
  }

  /** Where page `page` starts: after the `page - 1` full pages before it, so it ends at `page * perPage`. */
  function StartIndex(page: int, perPage: nat): (r: int)
    ensures page >= 1 ==> r >= 0
    ensures r + perPage == page * perPage
  {
    MulSucc(page - 1, perPage);
    (page - 1) * perPage
  }

  /** The rows shown on the table for `page`: newest first. */
  function TablePage<T>(history: seq<T>, page: int, perPage: nat): (r: seq<T>)
    ensures |r| <= perPage
    ensures forall i :: 0 <= i < |r| ==> r[i] in history
  {
    var start := StartIndex(page, perPage);
    var rev := Reverse(history);
    var r := JsSlice(rev, start, start + perPage);
    var a := SliceIndex(start, |rev|);
    assert forall i :: 0 <= i < |r| ==> r[i] == rev[a + i] == history[|history| - 1 - (a + i)];
    r
  }

  /** What the chart area of a page shows. */
  datatype ChartArea<T> = Chart(series: seq<T>) | EmptyState | Blank | Spinner

  /** The Previous button's updater: one page back, but never below page 1. */
  function PrevPage(page: int): (r: int)
    ensures r >= 1
    ensures page > 1 ==> r == page - 1
  {
    if page - 1 > 1 then page - 1 else 1
  }

  /** The Next button's updater: one page on, but never past the page count. */
  function NextPage(page: int, totalPages: nat): (r: int)
    ensures r <= totalPages
    ensures page < totalPages ==> r == page + 1
  {
    if page + 1 < totalPages then page + 1 else totalPages
  }

  /** The page reached by navigation stays one of the pages there are. */
  ghost predicate PageInRange(page: int, n: nat, perPage: nat)
    requires perPage > 0
  {
    page == 1 || 1 <= page <= TotalPages(n, perPage)
  }

  lemma NavigationStaysInRange(page: int, totalPages: nat)
    requires 1 <= page <= totalPages
    ensures 1 <= PrevPage(page) <= totalPages
    ensures 1 <= NextPage(page, totalPages) <= totalPages
    ensures PrevPage(page) <= page <= NextPage(page, totalPages)
  {
  }

  lemma MulMonotone(a: nat, b: nat, k: nat)
    requires a <= b
    ensures a * k <= b * k
  {
  }

  lemma MulSucc(a: int, k: int)
    ensures (a + 1) * k == a * k + k
  {
  }

  /** Page `p` is the window [(p-1)k, pk) of the reversed history, cut to its length. */
  lemma TablePageWindow<T>(history: seq<T>, page: int, perPage: nat)
    requires perPage > 0 && page >= 1
    ensures StartIndex(page, perPage) >= 0
    ensures TablePage(history, page, perPage)
         == Reverse(history)[Min((page - 1) * perPage, |history|)..Min(page * perPage, |history|)]
    ensures |TablePage(history, page, perPage)| <= perPage
  {
    var start: nat := StartIndex(page, perPage);
    MulSucc(page - 1, perPage);
    var end := start + perPage;
    assert end == page * perPage;
    var r := Reverse(history);
    assert TablePage(history, page, perPage) == JsSlice(r, start, end);
    JsSliceNonNegative(r, start, end);
  }

  /** Every page from 1 to `totalPages` is non-empty, and every page but the last is full. */
  lemma PageFill<T>(history: seq<T>, page: int, perPage: nat)
    requires perPage > 0 && 1 <= page <= TotalPages(|history|, perPage)
    ensures 0 < |TablePage(history, page, perPage)|
    ensures page < TotalPages(|history|, perPage) ==> |TablePage(history, page, perPage)| == perPage
  {
    var total := TotalPages(|history|, perPage);
    TablePageWindow(history, page, perPage);
    MulSucc(total - 1, perPage);
    MulSucc(page - 1, perPage);
    MulMonotone(page - 1, total - 1, perPage);
    assert (total - 1) * perPage < |history|;
    if page < total {
      MulMonotone(page, total - 1, perPage);
    }
  }

  /** The first row of page 1 is the last row of the history. */
  lemma FirstRowIsLast<T>(history: seq<T>, perPage: nat)
    requires perPage > 0 && |history| > 0
    ensures |TablePage(history, 1, perPage)| > 0
    ensures TablePage(history, 1, perPage)[0] == history[|history| - 1]
  {
    TablePageWindow(history, 1, perPage);
  }

  /** Pages 1..n laid end to end. */
  function PagesUpTo<T>(history: seq<T>, perPage: nat, n: nat): seq<T>
  {
    if n == 0 then [] else PagesUpTo(history, perPage, n - 1) + TablePage(history, n, perPage)
  }

  lemma {:induction false} PagesUpToPrefix<T>(history: seq<T>, perPage: nat, n: nat)
    requires perPage > 0
    ensures PagesUpTo(history, perPage, n) == Reverse(history)[..Min(n * perPage, |history|)]
  {
    if n > 0 {
      PagesUpToPrefix(history, perPage, n - 1);
      TablePageWindow(history, n, perPage);
      var r := Reverse(history);
      var a, b := Min((n - 1) * perPage, |history|), Min(n * perPage, |history|);
      assert (n - 1) * perPage <= n * perPage;
      assert r[..a] + r[a..b] == r[..b];
    }
  }

  /** Concatenating pages 1..totalPages gives the reversed history: no row is lost or shown twice. */
  lemma PagesCoverHistory<T>(history: seq<T>, perPage: nat)
    requires perPage > 0
    ensures PagesUpTo(history, perPage, TotalPages(|history|, perPage)) == Reverse(history)
  {
    PagesUpToPrefix(history, perPage, TotalPages(|history|, perPage));
  }
}
