/** The page arithmetic of the paginated list: defaulting of the page number and page size,
    the row offset of a page, and the number of pages a total spans. */
module Pagination {
  import opened Results

  const DefaultPage := 1
  const DefaultPageSize := 10

  /** `option || fallback` for a number: an undefined or zero option falls back; any other
      number, negative ones included, is kept. */
  function OrDefault(option: Option<int>, fallback: int): (r: int)
    ensures option.Some? && option.value != 0 ==> r == option.value
    ensures option.None? || option.value == 0 ==> r == fallback
  {
    if option.Some? && option.value != 0 then option.value else fallback
  }

  /** The page number used: never zero, the caller's when it is a non-zero number, 1 otherwise. */
  function PageNumber(page: Option<int>): (p: int)
    ensures p != 0
    ensures page.Some? && page.value != 0 ==> p == page.value
    ensures page == None || page == Some(0) ==> p == 1
  {
    OrDefault(page, DefaultPage)
  }

  /** The page size used: never zero, the caller's when it is a non-zero number, 10 otherwise. */
  function PageSize(pageSize: Option<int>): (s: int)
    ensures s != 0
    ensures pageSize.Some? && pageSize.value != 0 ==> s == pageSize.value
    ensures pageSize == None || pageSize == Some(0) ==> s == 10
  {
    OrDefault(pageSize, DefaultPageSize)
  }

  /** The number of rows before the first row of `page`. */
  function Offset(page: int, pageSize: int): int {
    (page - 1) * pageSize
  }

  /** Page 1 starts at row 0, every later page starts where the one before it ends, and
      no page of a positive number starts before row 0. */
  lemma OffsetsTile(page: int, pageSize: int)
    requires page >= 1 && pageSize >= 1
    ensures Offset(1, pageSize) == 0
    ensures 0 <= Offset(page, pageSize)
    ensures Offset(page + 1, pageSize) == Offset(page, pageSize) + pageSize
  {
    assert Offset(page + 1, pageSize) == page * pageSize;
    assert Offset(page, pageSize) == page * pageSize - pageSize;
    assert (page - 1) * pageSize >= 0 by {
      assert page - 1 >= 0;
    }
  }

  /** `Math.ceil(total / pageSize)`, computed exactly on integers for a non-zero divisor. */
  function PageCount(total: int, pageSize: int): int
    requires pageSize != 0
  {
    if pageSize > 0 then -((-total) / pageSize) else -(total / -pageSize)
  }

  /** PageCount is the ceiling of total / pageSize: the least whole number at or above the
      quotient. For a positive size, (c - 1) * size < total <= c * size; for a negative one the
      inequalities turn over. */
  lemma PageCountIsCeiling(total: int, pageSize: int)
    requires pageSize != 0
    ensures var c := PageCount(total, pageSize);
      if pageSize > 0 then (c - 1) * pageSize < total <= c * pageSize
      else c * pageSize <= total < (c - 1) * pageSize
  {
    var c := PageCount(total, pageSize);
    if pageSize > 0 {
      var q := (-total) / pageSize;
      var r := (-total) % pageSize;
      assert -total == q * pageSize + r && 0 <= r < pageSize;
      assert c == -q;
      assert c * pageSize == total + r;
      assert (c - 1) * pageSize == total + r - pageSize;
    } else {
      var d := -pageSize;
      var q := total / d;
      var r := total % d;
      assert total == q * d + r && 0 <= r < d;
      assert c == -q;
      assert c * pageSize == q * d;
      assert (c - 1) * pageSize == q * d + d;
    }
  }

  /** Multiplying by a positive number keeps the order of two numbers. */
  lemma ScaleOrder(a: int, b: int, k: int)
    requires k >= 1
    ensures a < b <==> a * k < b * k
  {
    assert b * k - a * k == (b - a) * k;
    if a < b {
      assert (b - a) * k >= b - a;
    } else {
      assert (a - b) * k >= 0;
    }
  }

  /** For a positive page size: no rows give no pages, and otherwise the pages up to PageCount
      hold every row while the last of them is not empty. */
  lemma PageCountOfTotal(total: nat, pageSize: int)
    requires pageSize >= 1
    ensures total == 0 ==> PageCount(total, pageSize) == 0
    ensures total > 0 ==> PageCount(total, pageSize) >= 1
  {
    PageCountIsCeiling(total, pageSize);
    var c := PageCount(total, pageSize);
    ScaleOrder(c, 0, pageSize);
    ScaleOrder(c - 1, 0, pageSize);
  }

  /** PageCount is the only whole number with the ceiling bounds. */
  lemma PageCountUnique(total: int, pageSize: int, c: int)
    requires pageSize >= 1
    requires (c - 1) * pageSize < total <= c * pageSize
    ensures c == PageCount(total, pageSize)
  {
    var k := PageCount(total, pageSize);
    PageCountIsCeiling(total, pageSize);
    ScaleOrder(c - 1, k, pageSize);
    ScaleOrder(k - 1, c, pageSize);
  }

  /** Row i (counting from 0) of a filtered total lies on page i / pageSize + 1, a page
      between 1 and PageCount, inside that page's window of rows. */
  lemma RowLiesOnPage(total: nat, pageSize: int, i: nat)
    requires pageSize >= 1 && i < total
    ensures var p := i / pageSize + 1;
      1 <= p <= PageCount(total, pageSize) &&
      Offset(p, pageSize) <= i < Offset(p, pageSize) + pageSize
  {
    var p := i / pageSize + 1;
    var c := PageCount(total, pageSize);
    PageCountIsCeiling(total, pageSize);
    assert Offset(p, pageSize) == (i / pageSize) * pageSize;
    assert i == (i / pageSize) * pageSize + i % pageSize;
    ScaleOrder(p - 1, c, pageSize);
  }
}
