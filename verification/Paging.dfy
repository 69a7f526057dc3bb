/** Paged lists of a user's containers or files. */
module Paging {

  /** The limits a request may ask for, after normalisation. */
  function PageNumber(page: int): int { if page < 1 then 1 else page }

  function PageSize(limit: int): (r: int)
    ensures 1 <= r <= 100
  {
    if limit < 1 then 20 else if limit > 100 then 100 else limit
  }

  /** Integers have 64 bits and wrap around. */
  const TWO_63: int := 0x8000_0000_0000_0000

  predicate IsInt64(n: int) { -TWO_63 <= n < TWO_63 }

  function Wrap(n: int): (r: int)
    ensures IsInt64(r) && (IsInt64(n) ==> r == n)
  {
    (n + TWO_63) % (2 * TWO_63) - TWO_63
  }

  function Offset(page: int, limit: int): int { Wrap((page - 1) * limit) }

  /** The rows the query returns: LIMIT and OFFSET on the ordered rows. */
  function Window<T>(rows: seq<T>, offset: int, limit: int): seq<T>
    requires offset >= 0 && limit >= 0
  {
    if offset >= |rows| then []
    else if offset + limit >= |rows| then rows[offset..]
    else rows[offset..offset + limit]
  }

  datatype Listing<T> = Page(items: seq<T>, total: nat) | QueryFailed

  /** A negative offset or limit is an error of the query. */
  function Fetched<T>(rows: seq<T>, page: int, limit: int): Listing<T> {
    var offset := Offset(page, limit);
    if offset < 0 || limit < 0 then QueryFailed else Page(Window(rows, offset, limit), |rows|)
  }

  function Listed<T>(rows: seq<T>, page: int, limit: int): Listing<T> { Fetched(rows, PageNumber(page), PageSize(limit)) }

  /** One user's rows in the order of the listing, served page by page: counts, queries, and appends
      row after row. */
  class Repository<T> {
    var rows: seq<T>

    constructor (rows: seq<T>)
      ensures this.rows == rows
    {
      this.rows := rows;
    }

    method FindByUser(page: int, limit: int) returns (r: Listing<T>)
      ensures r == Fetched(rows, page, limit)
    {
      var total := |rows|;
      var offset := Offset(page, limit);
      if offset < 0 || limit < 0 { return QueryFailed; }
      var items: seq<T> := [];
      while |items| < limit && offset + |items| < |rows|
        invariant |items| <= limit && (offset + |items| <= |rows| || items == [])
        invariant items == Window(rows, offset, |items|)
        decreases limit - |items|
      {
        items := items + [rows[offset + |items|]];
      }
      r := Page(items, total);
    }

    method List(page: int, limit: int) returns (r: Listing<T>)
      ensures r == Listed(rows, page, limit)
      ensures 1 <= page && 1 <= limit <= 100 ==> r == Fetched(rows, page, limit)
      ensures page < 1 && 1 <= limit <= 100 ==> r == Fetched(rows, 1, limit)
      ensures 1 <= page && limit < 1 ==> r == Fetched(rows, page, 20)
      ensures 1 <= page && limit > 100 ==> r == Fetched(rows, page, 100)
    {
      var p, l := page, limit;
      if p < 1 { p := 1; }
      if l < 1 { l := 20; }
      if l > 100 { l := 100; }
      r := FindByUser(p, l);
    }
  }

  // ---------- the pages are a partition ----------

  function Pages(total: nat, limit: int): nat
    requires limit >= 1
  {
    (total + limit - 1) / limit
  }

  /** Page k of the list, by its meaning. */
  function PageOf<T>(rows: seq<T>, k: int, limit: int): seq<T>
    requires k >= 1 && limit >= 1
  {
    Window(rows, (k - 1) * limit, limit)
  }

  function FirstPages<T>(rows: seq<T>, n: nat, limit: int): seq<T>
    requires limit >= 1
  {
    if n == 0 then [] else FirstPages(rows, n - 1, limit) + PageOf(rows, n, limit)
  }

  lemma {:induction false} FirstPagesArePrefix<T>(rows: seq<T>, n: nat, limit: int)
    requires limit >= 1
    ensures FirstPages(rows, n, limit) == if n * limit < |rows| then rows[..n * limit] else rows
  {
    if n > 0 {
      FirstPagesArePrefix(rows, n - 1, limit);
      assert n * limit == (n - 1) * limit + limit;
    }
  }

  lemma PagesBound(total: nat, limit: int)
    requires limit >= 1
    ensures Pages(total, limit) * limit >= total
    ensures Pages(total, limit) > 0 ==> (Pages(total, limit) - 1) * limit < total
  {
  }

  /** For every limit a request may ask for, pages 1 to ceil(total / limit) together are the user's whole
      list, without gap and without repetition; each of them is full but for the last, which is not
      empty; and every later page is empty. */
  lemma PagesPartition<T>(rows: seq<T>, limit: int)
    ensures var l := PageSize(limit); var n := Pages(|rows|, l);
      && FirstPages(rows, n, l) == rows
      && (forall k :: 1 <= k < n ==> |PageOf(rows, k, l)| == l)
      && (n > 0 ==> 0 < |PageOf(rows, n, l)| <= l)
      && (forall k :: k > n ==> PageOf(rows, k, l) == [])
  {
    var l := PageSize(limit);
    var n := Pages(|rows|, l);
    PagesBound(|rows|, l);
    FirstPagesArePrefix(rows, n, l);
    forall k | 1 <= k < n ensures |PageOf(rows, k, l)| == l { FullPage(rows, k, l); }
    if n > 0 { LastPage(rows, l); }
    forall k | k > n ensures PageOf(rows, k, l) == [] { EmptyPage(rows, k, l); }
  }

  lemma FullPage<T>(rows: seq<T>, k: int, l: int)
    requires l >= 1 && 1 <= k < Pages(|rows|, l)
    ensures |PageOf(rows, k, l)| == l
  {
    PagesBound(|rows|, l);
    Monotone(k, Pages(|rows|, l) - 1, l);
  }

  lemma LastPage<T>(rows: seq<T>, l: int)
    requires l >= 1 && Pages(|rows|, l) > 0
    ensures 0 < |PageOf(rows, Pages(|rows|, l), l)| <= l
  {
    PagesBound(|rows|, l);
    Monotone(Pages(|rows|, l), Pages(|rows|, l), l);
  }

  lemma EmptyPage<T>(rows: seq<T>, k: int, l: int)
    requires l >= 1 && k > Pages(|rows|, l)
    ensures PageOf(rows, k, l) == []
  {
    PagesBound(|rows|, l);
    Monotone(Pages(|rows|, l), k - 1, l);
  }

  lemma Monotone(a: int, b: int, l: int)
    requires 0 <= a <= b && l >= 1
    ensures a * l <= b * l && (a - 1) * l + l == a * l
  {
  }

  // ---------- when a request gets the page it asked for ----------

  /** A request gets the page it asked for, with the right total, exactly when its offset does not wrap
      around, or wraps to another offset past the end. */
  lemma PageServed<T>(rows: seq<T>, page: int, limit: int)
    requires |rows| < TWO_63
    ensures var p, l := PageNumber(page), PageSize(limit);
      && (Offset(p, l) == (p - 1) * l || Offset(p, l) >= |rows| ==> Listed(rows, page, limit) == Page(PageOf(rows, p, l), |rows|))
      && (Listed(rows, page, limit) == Page(PageOf(rows, p, l), |rows|) ==> Offset(p, l) == (p - 1) * l || Offset(p, l) >= |rows|)
  {
    var p, l := PageNumber(page), PageSize(limit);
    Monotone(0, p - 1, l);
    if Offset(p, l) != (p - 1) * l {
      assert (p - 1) * l >= TWO_63;
      assert PageOf(rows, p, l) == [];
    }
  }

  /** So every page up to the last, and every later one within the range of 64 bits, is served. */
  lemma OrdinaryPageServed<T>(rows: seq<T>, page: int, limit: int)
    requires |rows| < TWO_63 && (PageNumber(page) - 1) * PageSize(limit) < TWO_63
    ensures Listed(rows, page, limit) == Page(PageOf(rows, PageNumber(page), PageSize(limit)), |rows|)
  {
    Monotone(0, PageNumber(page) - 1, PageSize(limit));
    PageServed(rows, page, limit);
  }

  /** What a page holds: with page number p (1 if the request's is smaller) and size l (20 if the request's is
      smaller than 1, 100 if it is greater than 100), as many of the ordered rows as there are from position
      (p - 1) * l on, at most l, and the number of all rows. */
  lemma PageHolds<T>(rows: seq<T>, page: int, limit: int, p: int, l: int)
    requires p == (if page < 1 then 1 else page) && l == (if limit < 1 then 20 else if limit > 100 then 100 else limit)
    requires |rows| < TWO_63 && (p - 1) * l < TWO_63
    ensures var r, from := Listed(rows, page, limit), (p - 1) * l;
      && r.Page? && r.total == |rows| && from >= 0
      && |r.items| == (if from >= |rows| then 0 else if |rows| - from < l then |rows| - from else l)
      && forall k :: 0 <= k < |r.items| ==> from + k < |rows| && r.items[k] == rows[from + k]
  {
    Monotone(0, p - 1, l);
    PageServed(rows, page, limit);
  }

  /** The offset does wrap: a page number far past the end gets the first page again, and the largest
      one an error. */
  lemma WrappedPages<T>(rows: seq<T>)
    requires 4 <= |rows| < TWO_63
    ensures Listed(rows, TWO_63 / 2 + 1, 4) == Page(rows[..4], |rows|)
    ensures PageOf(rows, TWO_63 / 2 + 1, 4) == []
    ensures Listed(rows, TWO_63 - 1, 20) == QueryFailed
  {
    assert Offset(TWO_63 / 2 + 1, 4) == 0;
    assert Window(rows, 0, 4) == rows[..4];
    assert Offset(TWO_63 - 1, 20) == -40;
  }
}
