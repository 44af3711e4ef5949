/** Page arithmetic shared by the products, orders and pending-vendors
    tables: the page count, the guard on a requested page, and the offset
    a page starts at. */
module Paging {

  /** Products and pending vendors are listed five to a page. */
  const ItemsPerPage: nat := 5

  /** `Math.ceil(total / size)`: the fewest pages of `size` items that hold `total` items. */
  function TotalPages(total: nat, size: nat): (pages: nat)
    requires size > 0
    ensures pages * size >= total
    ensures pages > 0 ==> (pages - 1) * size < total
  {
    (total + size - 1) / size
  }

  /** The guard of every `goToPage`: a page is reachable when it lies in `1..pages`. */
  predicate InRange(page: int, pages: int)
  {
    1 <= page <= pages
  }

  /** The index of the first item on `page`. */
  function Offset(page: int, size: nat): int
  {
    (page - 1) * size
  }

  /** Every reachable page starts at an item that exists: the guard never
      lets the table ask for a page beyond the last item. */
  lemma {:induction false} ReachablePageStartsInside(page: int, total: nat, size: nat)
    requires size > 0
    requires InRange(page, TotalPages(total, size))
    ensures 0 <= Offset(page, size) < total
  {
    var pages := TotalPages(total, size);
    assert (page - 1) * size <= (pages - 1) * size by {
      MulMonotone(page - 1, pages - 1, size);
    }
  }

  /** Every item lies on exactly one reachable page: item `k` is on page `k / size + 1`. */
  lemma {:induction false} ItemOnReachablePage(k: nat, total: nat, size: nat)
    requires size > 0 && k < total
    ensures InRange(k / size + 1, TotalPages(total, size))
    ensures Offset(k / size + 1, size) <= k < Offset(k / size + 1, size) + size
  {
    var pages := TotalPages(total, size);
    var p := k / size;
    assert p * size <= k;
    if pages <= p {
      MulMonotone(pages, p, size);
    }
  }

  lemma MulMonotone(a: int, b: int, c: nat)
    requires 0 <= a <= b
    ensures a * c <= b * c
  {
  }
}
