/**
 * `PagedResult<T>`: one page of a listing together with the paging figures
 * computed once by the constructor.
 */
module Paging {

  datatype PagedResult<T> = PagedResult(
    items: seq<T>,
    pageIndex: int,
    pageSize: int,
    totalCount: int,
    totalPages: int)

  /**
   * `Math.Ceiling(n / (double)d)` for a positive divisor: the least integer not
   * below n/d. (Dafny's `/` on `int` rounds down for a positive divisor.)
   */
  function CeilDiv(n: int, d: int): (r: int)
    requires d > 0
    ensures (r - 1) * d < n <= r * d
  {
    -((-n) / d)
  }

  /** The constructor: stores its arguments and computes `TotalPages`. */
  function NewPagedResult<T>(items: seq<T>, pageIndex: int, pageSize: int, totalCount: int): (r: PagedResult<T>)
    requires pageSize > 0
    ensures r.items == items && r.pageIndex == pageIndex
    ensures r.pageSize == pageSize && r.totalCount == totalCount
    ensures (r.totalPages - 1) * pageSize < totalCount <= r.totalPages * pageSize
  {
    PagedResult(items, pageIndex, pageSize, totalCount, CeilDiv(totalCount, pageSize))
  }

  /** A whole page of items precedes this one. */
  predicate HasPreviousPage<T>(r: PagedResult<T>): (b: bool)
    ensures r.pageSize > 0 ==> (b <==> r.pageIndex * r.pageSize >= r.pageSize)
  {
    if r.pageSize > 0 && r.pageIndex > 0 then
      MulMonotone(1, r.pageIndex, r.pageSize);
      true
    else if r.pageSize > 0 then
      MulMonotone(r.pageIndex, 0, r.pageSize);
      false
    else r.pageIndex > 0
  }

  /**
   * On a page the constructor built, there is a next page exactly when the
   * items up to the end of this page do not exhaust `TotalCount`.
   */
  predicate HasNextPage<T>(r: PagedResult<T>): (b: bool)
    ensures r.pageSize > 0 && r.totalPages == CeilDiv(r.totalCount, r.pageSize) ==>
      (b <==> (r.pageIndex + 1) * r.pageSize < r.totalCount)
  {
    if r.pageSize > 0 then
      TotalPagesIsLeastCover(r.pageSize, r.totalCount, r.pageIndex + 1);
      r.pageIndex < r.totalPages - 1
    else r.pageIndex < r.totalPages - 1
  }

  /** No items means no pages. */
  lemma EmptyHasNoPages<T>(items: seq<T>, pageIndex: int, pageSize: int)
    requires pageSize > 0
    ensures NewPagedResult(items, pageIndex, pageSize, 0).totalPages == 0
    ensures pageIndex >= -1 ==> !HasNextPage(NewPagedResult(items, pageIndex, pageSize, 0))
  {
    TotalPagesIsLeastCover(pageSize, 0, 0);
    TotalPagesIsLeastCover(pageSize, 0, -1);
  }

  /** `TotalPages` is exactly the number of pages `totalCount` items need. */
  lemma {:induction false} TotalPagesIsLeastCover(pageSize: int, totalCount: int, pages: int)
    requires pageSize > 0
    ensures pages * pageSize >= totalCount <==> pages >= CeilDiv(totalCount, pageSize)
  {
    var t := CeilDiv(totalCount, pageSize);
    if pages >= t {
      MulMonotone(t, pages, pageSize);
    } else {
      MulMonotone(pages, t - 1, pageSize);
    }
  }

  /** The last page (index `TotalPages - 1`) has no next page but, past the first, a previous one. */
  lemma LastPage<T>(items: seq<T>, pageSize: int, totalCount: int)
    requires pageSize > 0 && totalCount > 0
    ensures var r := NewPagedResult(items, CeilDiv(totalCount, pageSize) - 1, pageSize, totalCount);
      !HasNextPage(r) && (HasPreviousPage(r) <==> totalCount > pageSize)
  {
    TotalPagesIsLeastCover(pageSize, totalCount, 1);
  }

  lemma MulMonotone(a: int, b: int, c: int)
    requires a <= b && c > 0
    ensures a * c <= b * c
  {
    assert b * c - a * c == (b - a) * c;
  }
}
