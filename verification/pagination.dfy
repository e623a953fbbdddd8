/** The pagination state and page count of the data table (frontend/src/pages/Home/Data.tsx). */
module Pagination {
  import opened Wrappers
  import ZodGetData

  /** The table's position, page size and display mode. */
  datatype TableState = TableState(pageIndex: int, pageSize: int, raw: bool)

  /** The first page of 25 rows, shown as stored. */
  const Initial: TableState := TableState(0, 25, true)

  /** `Math.ceil(t / p)` for a positive divisor, on integers. */
  function CeilDiv(t: int, p: int): (r: int)
    requires p > 0
    ensures (r - 1) * p < t <= r * p
  {
    var q := (-t) / p;
    var m := (-t) % p;
    assert -t == q * p + m && 0 <= m < p;
    assert (-q) * p == t + m;
    assert (-q - 1) * p == t + m - p;
    -q
  }

  /** `pageCount`: one page without data, otherwise `max(1, ceil(total / pageSize))`. */
  function PageCount(data: Option<ZodGetData.DataPage>, pageSize: int): (r: int)
    requires pageSize > 0
    ensures r >= 1
    ensures data.None? ==> r == 1
    ensures data.Some? && data.value.total <= 0 ==> r == 1
    ensures data.Some? && data.value.total > 0 ==> (r - 1) * pageSize < data.value.total <= r * pageSize
  {
    match data
    case None => 1
    case Some(page) =>
      var c := CeilDiv(page.total, pageSize);
      if c > 1 then c else 1
  }

  /** `pageCount` is the least number of pages that holds every row. */
  lemma PageCountIsLeast(page: ZodGetData.DataPage, pageSize: int, k: int)
    requires pageSize > 0 && page.total > 0
    requires k * pageSize >= page.total
    ensures PageCount(Some(page), pageSize) <= k
  {
    var r := PageCount(Some(page), pageSize);
    if r > k {
      assert (r - 1) * pageSize >= k * pageSize by {
        assert r - 1 >= k;
        MultiplyMonotone(k, r - 1, pageSize);
      }
    }
  }

  lemma MultiplyMonotone(a: int, b: int, p: int)
    requires a <= b && p > 0
    ensures a * p <= b * p
  {
    assert b * p - a * p == (b - a) * p;
  }

  /** Worked examples: no rows is one page, 26 rows of 25 per page is two. */
  lemma PageCountExamples()
    ensures PageCount(Some(ZodGetData.DataPage("ok", [], 0)), 25) == 1
    ensures PageCount(Some(ZodGetData.DataPage("ok", [], 26)), 25) == 2
    ensures PageCount(Some(ZodGetData.DataPage("ok", [], 25)), 25) == 1
    ensures PageCount(None, Initial.pageSize) == 1
  {
  }
}
