/** Pagination arithmetic shared by the user list (routers/users.js) and the
    product list (routers/products.js): `parseInt(q) || default` for the
    page and the page size, the number of documents skipped, and
    `Math.ceil(count / limit)` pages in all. */
module Paging {
  import opened Common
  import opened Numbers

  const DefaultPage := 1
  const DefaultLimit := 10

  /** `parseInt(q) || fallback`: NaN and 0 are falsy and give the fallback. */
  function IntOr(q: string, fallback: int): (r: int)
    ensures ParseInt(q).Some? && ParseInt(q).value != 0 ==> r == ParseInt(q).value
    ensures ParseInt(q).None? || ParseInt(q).value == 0 ==> r == fallback
  {
    match ParseInt(q)
    case Some(v) => if v != 0 then v else fallback
    case None => fallback
  }

  /** The requested page number: never 0, and 1 when the query gives none,
      gives text that does not parse, or gives 0. */
  function PageNumber(q: string): (page: int)
    ensures page != 0
  {
    IntOr(q, DefaultPage)
  }

  /** The requested page size: never 0, and 10 when the query gives none,
      gives text that does not parse, or gives 0. */
  function PageSize(q: string): (limit: int)
    ensures limit != 0
  {
    IntOr(q, DefaultLimit)
  }

  /** How many documents come before the first one of `page`. */
  function Skip(page: int, limit: int): int {
    (page - 1) * limit
  }

  /** `Math.ceil(count / limit)` for the non-zero page size: the least
      whole number of pages that holds `count` documents. Dafny's `/` is
      Euclidean, so the two signs of `limit` are written out. */
  function TotalPages(count: nat, limit: int): (pages: int)
    requires limit != 0
    ensures limit > 0 ==> (pages - 1) * limit < count <= pages * limit
    ensures limit < 0 ==> pages * limit <= count < (pages - 1) * limit
  {
    if limit > 0 then (count + limit - 1) / limit
    else -(count / -limit)
  }

  /** A page given as a decimal number is that page; the defaults apply
      to an absent parameter and to "0". */
  lemma PageNumberReadsQuery(n: nat)
    ensures n >= 1 ==> PageNumber(Decimal(n)) == n && PageSize(Decimal(n)) == n
    ensures PageNumber("") == DefaultPage && PageSize("") == DefaultLimit
    ensures PageNumber("0") == DefaultPage && PageSize("0") == DefaultLimit
  {
    ParseIntReadsDecimal(n);
    ParseIntReadsDigits("0");
    assert Magnitude("") == None;
  }

  /** With a positive page size, pages 1 to TotalPages are exactly the pages
      whose first document exists. */
  lemma PagesCoverCount(count: nat, limit: int, page: int)
    requires limit > 0 && page >= 1
    ensures page <= TotalPages(count, limit) <==> Skip(page, limit) < count
  {
    var pages := TotalPages(count, limit);
    if page <= pages {
      assert (page - 1) * limit <= (pages - 1) * limit;
    } else {
      assert page - 1 >= pages;
      assert (page - 1) * limit >= pages * limit;
    }
  }
}
