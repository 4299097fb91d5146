/**
  The pagination driver: fetch page 1, then pages 2 up to the page count
  page 1 reported, appending every page's records and stopping at the first
  failed fetch.
 */
module Pagination {
  import opened Results

  /** A decoded response page; the count and page-size fields are never read. */
  datatype Envelope<T> = Envelope(data: seq<T>, totalPages: int)

  /** A fetch that failed: the page asked for and the transport or decoding error. */
  datatype PageFailure = PageFailure(page: int, cause: string)

  /** Every page from `lo` to `hi` (inclusive) is fetched successfully. */
  predicate PagesOk<T>(fetch: int -> Result<Envelope<T>, string>, lo: int, hi: int) {
    forall p :: lo <= p <= hi ==> fetch(p).Ok?
  }

  /** The last page the driver asks for: page 1's page count, and never below 1. */
  function LastPage<T>(fetch: int -> Result<Envelope<T>, string>): (n: int)
    ensures n >= 1
    ensures fetch(1).Ok? ==> n >= fetch(1).value.totalPages
    ensures fetch(1).Ok? && fetch(1).value.totalPages >= 1 ==> n == fetch(1).value.totalPages
    ensures fetch(1).Err? || fetch(1).value.totalPages <= 1 ==> n == 1
  {
    if fetch(1).Ok? && fetch(1).value.totalPages > 1 then fetch(1).value.totalPages else 1
  }

  /** `Data(page 1) ++ Data(page 2) ++ ... ++ Data(page n)`. */
  function Gathered<T>(fetch: int -> Result<Envelope<T>, string>, n: int): seq<T>
    requires PagesOk(fetch, 1, n)
    decreases n
  {
    if n <= 0 then [] else Gathered(fetch, n - 1) + fetch(n).value.data
  }

  /**
    The driver loop. `pages` lists the page numbers asked for, in order: it
    always starts at page 1, goes up one page at a time and never passes
    `LastPage`. When every page up to `LastPage` can be fetched the result is
    the concatenation of their records; otherwise it is the failure of the
    first page that cannot, and no later page is asked for.
   */
  method FetchAllPages<T>(fetch: int -> Result<Envelope<T>, string>)
    returns (r: Result<seq<T>, PageFailure>, pages: seq<int>)
    ensures 1 <= |pages| <= LastPage(fetch)
    ensures forall i :: 0 <= i < |pages| ==> pages[i] == i + 1
    ensures LastPage(fetch) == 1 ==> pages == [1]
    ensures PagesOk(fetch, 1, |pages| - 1)
    ensures PagesOk(fetch, 1, LastPage(fetch)) ==>
      |pages| == LastPage(fetch) && r == Ok(Gathered(fetch, LastPage(fetch)))
    ensures !PagesOk(fetch, 1, LastPage(fetch)) ==>
      fetch(|pages|).Err? && r == Err(PageFailure(|pages|, fetch(|pages|).error))
  {
    pages := [1];
    var initial := fetch(1);
    if initial.Err? {
      return Err(PageFailure(1, initial.error)), pages;
    }
    var all := [] + initial.value.data;
    assert all == Gathered(fetch, 1);
    var page := 2;
    while page <= initial.value.totalPages
      invariant 2 <= page <= LastPage(fetch) + 1
      invariant |pages| == page - 1
      invariant forall i :: 0 <= i < |pages| ==> pages[i] == i + 1
      invariant PagesOk(fetch, 1, page - 1)
      invariant all == Gathered(fetch, page - 1)
      decreases initial.value.totalPages - page
    {
      var response := fetch(page);
      pages := pages + [page];
      if response.Err? {
        return Err(PageFailure(page, response.error)), pages;
      }
      all := all + response.value.data;
      page := page + 1;
    }
    r := Ok(all);
  }

  /** The records of pages 1..n come first, and page n+1's records follow right after them. */
  lemma {:induction false} GatheredSplit<T>(fetch: int -> Result<Envelope<T>, string>, n: nat, m: nat)
    requires PagesOk(fetch, 1, n + m)
    ensures PagesOk(fetch, 1, n)
    ensures Gathered(fetch, n) <= Gathered(fetch, n + m)
    ensures m == 1 ==> Gathered(fetch, n + m) == Gathered(fetch, n) + fetch(n + 1).value.data
    decreases m
  {
    if m > 0 {
      GatheredSplit(fetch, n, m - 1);
    }
  }

  /** The records keep their order: record `j` of page `p` is found right after the records of pages before `p`. */
  lemma GatheredPage<T>(fetch: int -> Result<Envelope<T>, string>, n: nat, p: int, j: nat)
    requires PagesOk(fetch, 1, n)
    requires 1 <= p <= n && j < |fetch(p).value.data|
    ensures |Gathered(fetch, p - 1)| + j < |Gathered(fetch, n)|
    ensures Gathered(fetch, n)[|Gathered(fetch, p - 1)| + j] == fetch(p).value.data[j]
  {
    GatheredSplit(fetch, p - 1, 1);
    GatheredSplit(fetch, p, n - p);
  }

  /**
    Page 1 holds two records and reports two pages, page 2 holds one: the
    driver asks for both pages and returns the three records in order.
   */
  lemma TwoPageExample<T>(fetch: int -> Result<Envelope<T>, string>, a: T, b: T, c: T)
    requires fetch(1) == Ok(Envelope([a, b], 2)) && fetch(2) == Ok(Envelope([c], 2))
    ensures LastPage(fetch) == 2 && PagesOk(fetch, 1, 2)
    ensures Gathered(fetch, LastPage(fetch)) == [a, b, c]
  {
    assert PagesOk(fetch, 1, 2);
    assert Gathered(fetch, 1) == [a, b];
  }
}
