/**
 * Pagination bookkeeping shared by the list views: the "Showing X-Y from Z"
 * range, the row of numbered page buttons, and the previous/next arrows.
 */
module Pagination {
  import opened Replies

  /** The `pagination` object the list endpoints return. */
  datatype PageInfo = PageInfo(currentPage: int, perPage: int, total: int, totalPages: int)

  /** The two numbers of a "Showing X-Y" label. */
  datatype Range = Range(start: int, end: int)

  function Min(a: int, b: int): int {
    if a <= b then a else b
  }

  /** `ceil(total / perPage)` for a positive page size. */
  function CeilDiv(total: int, perPage: int): int
    requires perPage > 0
  {
    (total + perPage - 1) / perPage
  }

  /** The backend's promise about a page object: positive page size,
    * non-negative total, and `total_pages = ceil(total / per_page)`. */
  predicate Consistent(p: PageInfo) {
    p.perPage > 0 && p.total >= 0 && p.totalPages == CeilDiv(p.total, p.perPage)
  }

  /** The label `(current_page - 1) * per_page + 1` to
    * `min(current_page * per_page, total)`: it never runs past the total and
    * never spans more than one page. */
  function Showing(currentPage: int, perPage: int, total: int): (r: Range)
    ensures r.end <= total
    ensures r.end - r.start + 1 <= perPage
    ensures r.end == total || r.end - r.start + 1 == perPage
  {
    assert (currentPage - 1) * perPage == currentPage * perPage - perPage;
    Range((currentPage - 1) * perPage + 1, Min(currentPage * perPage, total))
  }

  /** The label of a page object. */
  function Label(p: PageInfo): (r: Range)
    ensures r.end <= p.total && r.end - r.start + 1 <= p.perPage
  {
    Showing(p.currentPage, p.perPage, p.total)
  }

  lemma MulMonotone(a: int, b: int, d: int)
    requires a <= b && d >= 0
    ensures a * d <= b * d
  {
    assert b * d - a * d == (b - a) * d;
  }

  /** `m * d <= x` exactly when `m <= x / d` (for positive `d`). */
  lemma DivBound(x: int, d: int, m: int)
    requires d > 0
    ensures m * d <= x <==> m <= x / d
  {
    var q, r := x / d, x % d;
    assert x == q * d + r && 0 <= r < d;
    if m <= q {
      MulMonotone(m, q, d);
    } else {
      MulMonotone(q + 1, m, d);
      assert (q + 1) * d == q * d + d;
    }
  }

  /** On a consistent page object whose current page is one of its pages,
    * the label is a non-empty range: the page really shows items. */
  lemma {:induction false} ConsistentPageIsNonEmpty(p: PageInfo)
    requires Consistent(p) && 1 <= p.currentPage <= p.totalPages
    ensures Label(p).start <= Label(p).end
  {
    DivBound(p.total + p.perPage - 1, p.perPage, p.currentPage);
    assert p.currentPage * p.perPage == (p.currentPage - 1) * p.perPage + p.perPage;
  }

  /** The page that holds item number `k` (1-based). */
  function PageOf(k: int, perPage: int): int
    requires perPage > 0
  {
    (k - 1) / perPage + 1
  }

  predicate InLabel(page: int, perPage: int, total: int, k: int) {
    Showing(page, perPage, total).start <= k <= Showing(page, perPage, total).end
  }

  /** The labels of pages 1..ceil(total/perPage) tile the items 1..total:
    * every item falls in the label of exactly one page, and that page is one
    * of the page buttons. */
  lemma {:induction false} PagesTileItems(perPage: int, total: int, k: int)
    requires perPage > 0 && 1 <= k <= total
    ensures 1 <= PageOf(k, perPage) <= CeilDiv(total, perPage)
    ensures InLabel(PageOf(k, perPage), perPage, total, k)
    ensures forall page :: InLabel(page, perPage, total, k) ==> page == PageOf(k, perPage)
  {
    var q := (k - 1) / perPage;
    DivBound(k - 1, perPage, q);
    DivBound(k - 1, perPage, q + 1);
    assert (q + 1) * perPage == q * perPage + perPage;
    DivBound(total + perPage - 1, perPage, q + 1);
    forall page | InLabel(page, perPage, total, k) ensures page == q + 1 {
      assert (page - 1) * perPage + 1 <= k <= page * perPage;
      DivBound(k - 1, perPage, page - 1);
      if page - 1 < q {
        MulMonotone(page, q, perPage);
      }
    }
  }

  /** `Array.from({ length: n }, (_, i) => i + 1)`: a negative length counts as 0. */
  function PageButtons(count: int): (r: seq<int>)
    ensures forall page :: page in r <==> 1 <= page <= count
    ensures forall i, j :: 0 <= i < j < |r| ==> r[i] < r[j]
    ensures r != [] ==> r[0] == 1 && r[|r| - 1] == count
  {
    if count <= 0 then []
    else
      var r := seq(count, i => i + 1);
      assert forall page :: 1 <= page <= count ==> page in r by {
        forall page | 1 <= page <= count ensures page in r {
          assert r[page - 1] == page;
        }
      }
      r
  }

  /** Exactly one page button is highlighted when the current page is one of
    * 1..count, and none otherwise. */
  lemma HighlightedButton(count: int, current: int)
    ensures (exists i :: 0 <= i < |PageButtons(count)| && PageButtons(count)[i] == current)
            <==> 1 <= current <= count
    ensures forall i, j ::
              (0 <= i < |PageButtons(count)| && 0 <= j < |PageButtons(count)|
               && PageButtons(count)[i] == current && PageButtons(count)[j] == current) ==> i == j
  {
    var r := PageButtons(count);
    if 1 <= current <= count {
      assert current in r;
    }
  }

  /** The page the "previous" arrow requests; `None` when it is disabled
    * (`currentPage === 1`). */
  function PrevTarget(currentPage: int): (r: Option<int>)
    ensures r.None? <==> currentPage == 1
    ensures r.Some? ==> r.value < currentPage
  {
    if currentPage == 1 then None else Some(currentPage - 1)
  }

  /** The page the "next" arrow requests; `None` when it is disabled
    * (`currentPage === totalPages`). */
  function NextTarget(currentPage: int, totalPages: int): (r: Option<int>)
    ensures r.None? <==> currentPage == totalPages
    ensures r.Some? ==> r.value > currentPage
  {
    if currentPage == totalPages then None else Some(currentPage + 1)
  }

  /** From a page among 1..totalPages, an enabled arrow never leaves 1..totalPages. */
  lemma ArrowsStayInRange(currentPage: int, totalPages: int)
    requires 1 <= currentPage <= totalPages
    ensures PrevTarget(currentPage).Some? ==> 1 <= PrevTarget(currentPage).value <= totalPages
    ensures NextTarget(currentPage, totalPages).Some? ==> 1 <= NextTarget(currentPage, totalPages).value <= totalPages
  {
  }
}
