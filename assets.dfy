/**
 * Pagination of the asset listing (`GET /api/assets`). Filtering by category
 * and search happens in the database; the model starts from the matching rows
 * in the listing order and works out the page the handler returns and the
 * pagination metadata it reports.
 */
module Assets {
  import opened Wrappers

  const DEFAULT_PAGE: nat := 1
  const DEFAULT_LIMIT: nat := 20

  type Positive = n: nat | n >= 1 witness 1

  function Min(a: nat, b: nat): nat
  {
    if a <= b then a else b
  }

  /** `(page - 1) * limit`: the rows skipped before the page. */
  function Offset(page: Positive, limit: Positive): nat
  {
    (page - 1) * limit
  }

  /** `Math.ceil(total / limit)`: the fewest pages of `limit` rows that hold `total` rows. */
  function PageCount(total: nat, limit: Positive): (pages: nat)
    ensures pages * limit >= total
    ensures pages > 0 ==> (pages - 1) * limit < total
    ensures total == 0 <==> pages == 0
  {
    var q := (total + limit - 1) / limit;
    assert q * limit + (total + limit - 1) % limit == total + limit - 1;
    q
  }

  /** The page with the given number: `skip: offset, take: limit` over the rows. */
  function PageOf<T>(rows: seq<T>, page: Positive, limit: Positive): (r: seq<T>)
    ensures |r| <= limit
    ensures forall k :: 0 <= k < |r| ==> Offset(page, limit) + k < |rows| && r[k] == rows[Offset(page, limit) + k]
    ensures Offset(page, limit) < |rows| ==> |r| == Min(limit, |rows| - Offset(page, limit))
    ensures Offset(page, limit) >= |rows| ==> r == []
  {
    var lo := Min(Offset(page, limit), |rows|);
    rows[lo..Min(lo + limit, |rows|)]
  }

  /** A page number has rows exactly when it is at most the reported page count. */
  lemma PageInRange(total: nat, page: Positive, limit: Positive)
    ensures Offset(page, limit) < total <==> page <= PageCount(total, limit)
  {
  }

  /** Pages 1..k laid end to end. */
  function FirstPages<T>(rows: seq<T>, limit: Positive, k: nat): seq<T>
    decreases k
  {
    if k == 0 then [] else FirstPages(rows, limit, k - 1) + PageOf(rows, k, limit)
  }

  /** Pages 1..k, laid end to end, are the first k * limit rows. */
  lemma {:induction false} FirstPagesArePrefix<T>(rows: seq<T>, limit: Positive, k: nat)
    ensures FirstPages(rows, limit, k) == rows[..Min(k * limit, |rows|)]
    decreases k
  {
    if k > 0 {
      FirstPagesArePrefix(rows, limit, k - 1);
      var lo := Min((k - 1) * limit, |rows|);
      assert k * limit == (k - 1) * limit + limit;
      assert Offset(k, limit) == (k - 1) * limit;
      assert PageOf(rows, k, limit) == rows[lo..Min(k * limit, |rows|)];
      assert rows[..lo] + rows[lo..Min(k * limit, |rows|)] == rows[..Min(k * limit, |rows|)];
    }
  }

  /** Reading every reported page in order returns every matching row once, in order. */
  lemma PagesCoverRows<T>(rows: seq<T>, limit: Positive)
    ensures FirstPages(rows, limit, PageCount(|rows|, limit)) == rows
  {
    FirstPagesArePrefix(rows, limit, PageCount(|rows|, limit));
  }

  datatype Pagination = Pagination(page: nat, limit: nat, total: nat, pages: nat)

  datatype Listing<T> = Listing(assets: seq<T>, pagination: Pagination)

  /**
   * The listing handler over the matching rows; an absent `page` or `limit`
   * takes its default.
   */
  function ListAssets<T>(rows: seq<T>, page: Option<Positive>, limit: Option<Positive>): (r: Listing<T>)
    ensures var p: Positive := if page.Some? then page.value else DEFAULT_PAGE;
            var l: Positive := if limit.Some? then limit.value else DEFAULT_LIMIT;
            && r.pagination == Pagination(p, l, |rows|, PageCount(|rows|, l))
            && r.assets == PageOf(rows, p, l)
    ensures |r.assets| <= r.pagination.limit
    ensures r.assets != [] <==> 1 <= r.pagination.page <= r.pagination.pages
  {
    var p: Positive := if page.Some? then page.value else DEFAULT_PAGE;
    var l: Positive := if limit.Some? then limit.value else DEFAULT_LIMIT;
    PageInRange(|rows|, p, l);
    Listing(PageOf(rows, p, l), Pagination(p, l, |rows|, PageCount(|rows|, l)))
  }
}
