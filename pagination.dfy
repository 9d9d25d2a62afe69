/** PaginationInfo: what the main screen reports about its paging position. */
module Pagination {

  datatype PaginationInfo = PaginationInfo(currentPage: int, pageSize: int, totalItems: int, hasMorePages: bool)
  {
    /**
     * `Int(ceil(Double(totalItems) / Double(pageSize)))`. A page size of 0
     * divides by zero and the conversion to Int traps, so it is excluded.
     */
    function TotalPages(): (n: int)
      requires pageSize != 0
      ensures pageSize > 0 ==> (n - 1) * pageSize < totalItems <= n * pageSize
      ensures pageSize < 0 ==> n * pageSize <= totalItems < (n - 1) * pageSize
    {
      if pageSize > 0 then CeilDiv(totalItems, pageSize) else NegativeCeilDiv(totalItems, pageSize)
    }

    predicate IsFirstPage() {
      currentPage == 0
    }

    predicate IsLastPage() {
      !hasMorePages
    }
  }

  /** The ceiling of a / b for a positive b: the least n with a <= n * b. */
  function CeilDiv(a: int, b: int): (n: int)
    requires b > 0
    ensures (n - 1) * b < a <= n * b
  {
    var q := (-a) / b;
    assert (-a) == b * q + (-a) % b;
    -q
  }

  /** The ceiling of a / b for a negative b, which Euclidean division gives directly. */
  function NegativeCeilDiv(a: int, b: int): (n: int)
    requires b < 0
    ensures n * b <= a < (n - 1) * b
  {
    var q := a / b;
    assert a == b * q + a % b;
    q
  }

  /** With a positive page size, there are no pages exactly when there are no items. */
  lemma NoItemsNoPages(info: PaginationInfo)
    requires info.pageSize > 0 && info.totalItems >= 0
    ensures info.TotalPages() == 0 <==> info.totalItems == 0
    ensures info.TotalPages() >= 0
  {
    var n := info.TotalPages();
    if n > 0 {
      assert (n - 1) * info.pageSize >= 0;
    }
  }
}
