/**
 * The pagination rule of the listings scraper, stated on values.
 *
 * The backend is seen as a total function from a page index to the outcome of
 * one request for that page. A run asks for pages 1, 2, 3, ... and stops at the
 * first page whose request fails, whose listings are empty, or whose reported
 * totalPages equals its own index. This module defines that stopping page, the
 * concatenation of the listings gathered before it, and the outcome of a whole
 * run, and proves what the component promises about them.
 */
module Pagination {

  datatype Option<T> = None | Some(value: T)

  /** The body of one successful response: the page's listings and, when the
      backend sends a number, its totalPages. Listings are opaque records. */
  datatype Page<L> = Page(listings: seq<L>, totalPages: Option<int>)

  /** The outcome of one request: a response body, or a transport failure. */
  datatype Fetched<L> = Ok(page: Page<L>) | Failed

  /** The backend, as seen by the component: what a request for each page index yields. */
  type Upstream<L> = int -> Fetched<L>

  /** Error text that a failed aggregation run publishes. */
  const FetchAllError: string := "Failed to fetch all listings"

  /** Error text that a failed single-page fetch publishes. */
  const FetchOneError: string := "Failed to fetch listings"

  /** The loop's termination test on a successful response for page `index`
      (src/Scraper.js:43). */
  predicate IsLastPage<L>(p: Page<L>, index: int) {
    |p.listings| == 0 || p.totalPages == Some(index)
  }

  /** A request for page `index` ends the run: it failed, or it was the last page. */
  predicate EndsRun<L>(f: Fetched<L>, index: int) {
    f.Failed? || IsLastPage(f.page, index)
  }

  /** Every page in [from, to) was fetched successfully and was not the last one. */
  predicate Continues<L>(up: Upstream<L>, from: int, to: int) {
    forall j :: from <= j < to ==> !EndsRun(up(j), j)
  }

  /** The listings of an outcome; a failed request contributes none. */
  function ListingsOf<L>(f: Fetched<L>): (r: seq<L>) {
    if f.Ok? then f.page.listings else []
  }

  /** The page indices 1, 2, ..., n. */
  function Pages(n: nat): (r: seq<int>)
    ensures |r| == n
    ensures forall i :: 0 <= i < n ==> r[i] == i + 1
  {
    if n == 0 then [] else Pages(n - 1) + [n]
  }

  /** The first page at or after `from` that ends the run; `last` is a page
      known to end it, which bounds the search. */
  function FirstStop<L>(up: Upstream<L>, from: int, last: int): (n: int)
    requires from <= last && EndsRun(up(last), last)
    ensures from <= n <= last
    ensures EndsRun(up(n), n)
    ensures Continues(up, from, n)
    decreases last - from
  {
    if EndsRun(up(from), from) then from else FirstStop(up, from + 1, last)
  }

  /** The listings of pages 1 .. n-1, concatenated in page order: the
      accumulator of src/Scraper.js:31-40 once page n-1 has been appended. */
  function Gathered<L>(up: Upstream<L>, n: int): (r: seq<L>)
    decreases n
  {
    if n <= 1 then [] else Gathered(up, n - 1) + ListingsOf(up(n - 1))
  }

  /** What a whole run leaves behind: the published listings, the error, the
      page indices requested in order, and the value of the page counter. */
  datatype Outcome<L> = Outcome(listings: seq<L>, error: Option<string>, requested: seq<int>, nextPage: int)

  /** The outcome of a whole run against `up` (src/Scraper.js:28-55), given a
      page `last` that ends it. */
  function FetchAllOutcome<L>(up: Upstream<L>, last: int): (o: Outcome<L>)
    requires 1 <= last && EndsRun(up(last), last)
  {
    var n := FirstStop(up, 1, last);
    if up(n).Failed? then Outcome(Gathered(up, n), Some(FetchAllError), Pages(n), n)
    else Outcome(Gathered(up, n + 1), None, Pages(n), n + 1)
  }

  // ---------------------------------------------------------------------------
  // The stopping page

  /** The stopping page is the unique page that ends the run after an unbroken
      stretch of pages that do not; in particular it does not depend on which
      terminating page bounded the search. */
  lemma FirstStopIsUnique<L>(up: Upstream<L>, from: int, last: int, k: int)
    requires from <= last && EndsRun(up(last), last)
    requires from <= k && EndsRun(up(k), k) && Continues(up, from, k)
    ensures FirstStop(up, from, last) == k
  {
  }

  /** A page that does not end the run extends the unbroken stretch by one,
      and the stretch never runs past a page known to end the run. */
  lemma ContinuesExtend<L>(up: Upstream<L>, k: int, last: int)
    requires 1 <= k <= last && EndsRun(up(last), last)
    requires Continues(up, 1, k) && !EndsRun(up(k), k)
    ensures Continues(up, 1, k + 1) && k + 1 <= last
  {
  }

  /** The outcome of a run is fixed by its stopping page k: a failure there
      keeps the listings of pages 1..k-1 and sets the error; a last page there
      adds its own listings and leaves no error. */
  lemma OutcomeAt<L>(up: Upstream<L>, last: int, k: int)
    requires 1 <= last && EndsRun(up(last), last)
    requires 1 <= k && EndsRun(up(k), k) && Continues(up, 1, k)
    ensures FetchAllOutcome(up, last) ==
      if up(k).Failed? then Outcome(Gathered(up, k), Some(FetchAllError), Pages(k), k)
      else Outcome(Gathered(up, k + 1), None, Pages(k), k + 1)
  {
  }

  // ---------------------------------------------------------------------------
  // The gathered listings

  /** The accumulator only grows: what was gathered up to page m is a prefix of
      what is gathered up to any later page. */
  lemma {:induction false} GatheredPrefix<L>(up: Upstream<L>, m: int, n: int)
    requires 1 <= m <= n
    ensures |Gathered(up, m)| <= |Gathered(up, n)|
    ensures Gathered(up, n)[..|Gathered(up, m)|] == Gathered(up, m)
    decreases n - m
  {
    if m < n {
      GatheredPrefix(up, m, n - 1);
      assert Gathered(up, n) == Gathered(up, n - 1) + ListingsOf(up(n - 1));
    }
  }

  /** Page i's listings occupy one contiguous block of the result, right after
      those of pages 1 .. i-1, in their own order: nothing is reordered,
      dropped or deduplicated. */
  lemma PageBlock<L>(up: Upstream<L>, i: int, n: int)
    requires 1 <= i < n
    ensures |Gathered(up, i)| + |ListingsOf(up(i))| <= |Gathered(up, n)|
    ensures Gathered(up, n)[|Gathered(up, i)|..|Gathered(up, i)| + |ListingsOf(up(i))|] == ListingsOf(up(i))
  {
    GatheredPrefix(up, i + 1, n);
    assert Gathered(up, i + 1) == Gathered(up, i) + ListingsOf(up(i));
  }

  // ---------------------------------------------------------------------------
  // Properties of a run

  /** Every run requests pages 1, 2, ..., n for its stopping page n, one each,
      and never a page past it. */
  lemma RequestsAreConsecutive<L>(up: Upstream<L>, last: int)
    requires 1 <= last && EndsRun(up(last), last)
    ensures var o := FetchAllOutcome(up, last);
      && |o.requested| >= 1
      && o.requested[0] == 1
      && (forall i :: 0 < i < |o.requested| ==> o.requested[i] == o.requested[i - 1] + 1)
      && EndsRun(up(|o.requested|), |o.requested|)
      && Continues(up, 1, |o.requested|)
  {
  }

  /** A run whose first k-1 pages continue and whose page k is empty requests
      exactly pages 1..k, publishes their listings and reports no error. */
  lemma StopsAfterEmptyPage<L>(up: Upstream<L>, last: int, k: int)
    requires 1 <= last && EndsRun(up(last), last)
    requires 1 <= k && Continues(up, 1, k)
    requires up(k).Ok? && |up(k).page.listings| == 0
    ensures var o := FetchAllOutcome(up, last);
      && o.requested == Pages(k)
      && k + 1 !in o.requested
      && o.listings == Gathered(up, k)
      && o.error == None
      && o.nextPage == k + 1
  {
  }

  /** A run whose page k reports totalPages == k stops right after it: page k's
      listings are included and page k+1 is never requested. Only that one
      response's totalPages matters; earlier responses merely must not have
      reported their own index. */
  lemma StopsAtTotalPages<L>(up: Upstream<L>, last: int, k: int)
    requires 1 <= last && EndsRun(up(last), last)
    requires 1 <= k && Continues(up, 1, k)
    requires up(k).Ok? && up(k).page.totalPages == Some(k)
    ensures var o := FetchAllOutcome(up, last);
      && o.requested == Pages(k)
      && k + 1 !in o.requested
      && o.listings == Gathered(up, k) + up(k).page.listings
      && o.error == None
      && o.nextPage == k + 1
  {
  }

  /** A failure at page k ends the run at once: the error is set and the
      listings of pages 1..k-1 are kept, not cleared. */
  lemma FailureKeepsPartialResult<L>(up: Upstream<L>, last: int, k: int)
    requires 1 <= last && EndsRun(up(last), last)
    requires 1 <= k && Continues(up, 1, k)
    requires up(k).Failed?
    ensures var o := FetchAllOutcome(up, last);
      && o.requested == Pages(k)
      && o.listings == Gathered(up, k)
      && o.error == Some(FetchAllError)
      && o.nextPage == k
  {
  }

  /** A run reports an error exactly when its last request failed; a run
      without error ends on a page that is empty or whose totalPages is its
      own index, and leaves the page counter one past the pages it fetched. */
  lemma ErrorIffLastRequestFailed<L>(up: Upstream<L>, last: int)
    requires 1 <= last && EndsRun(up(last), last)
    ensures var o := FetchAllOutcome(up, last);
      var n := |o.requested|;
      && (o.error.Some? <==> up(n).Failed?)
      && (o.error == None ==> IsLastPage(up(n).page, n) && o.nextPage == n + 1)
      && (o.error.Some? ==> o.nextPage == n)
  {
  }

  /** When no response reports a totalPages equal to its own index (for
      instance, totalPages is never sent), only an empty page can end a run
      without error. */
  lemma OnlyEmptyPageEndsWithoutTotalPages<L>(up: Upstream<L>, last: int)
    requires 1 <= last && EndsRun(up(last), last)
    requires forall i :: up(i).Ok? ==> up(i).page.totalPages != Some(i)
    ensures var o := FetchAllOutcome(up, last);
      o.error == None ==> |up(|o.requested|).page.listings| == 0
  {
  }

  /** A single-page fetch is the one-request case of a run: when page 1 is a
      successful last page, a run publishes exactly that page's listings,
      which is what a single-page fetch of page 1 publishes. */
  lemma SinglePageRun<L>(up: Upstream<L>)
    requires up(1).Ok? && IsLastPage(up(1).page, 1)
    ensures var o := FetchAllOutcome(up, 1);
      o.listings == up(1).page.listings && o.requested == [1] && o.error == None
  {
    OutcomeAt(up, 1, 1);
    assert Gathered(up, 2) == [] + up(1).page.listings;
  }

  // ---------------------------------------------------------------------------
  // Worked runs

  /** Pages [a], [b], [] without totalPages: the run returns [a, b] after three requests. */
  lemma EmptyPageRun<L>(a: L, b: L)
    ensures var up: Upstream<L> := i =>
        if i == 1 then Ok(Page([a], None))
        else if i == 2 then Ok(Page([b], None))
        else Ok(Page([], None));
      var o := FetchAllOutcome(up, 3);
      o.listings == [a, b] && o.requested == [1, 2, 3] && o.error == None
  {
  }

  /** Pages [a] and [b], both reporting totalPages 2: the run returns [a, b]
      after exactly two requests and never asks for page 3. */
  lemma TotalPagesRun<L>(a: L, b: L)
    ensures var up: Upstream<L> := i =>
        if i == 1 then Ok(Page([a], Some(2)))
        else if i == 2 then Ok(Page([b], Some(2)))
        else Ok(Page([], None));
      var o := FetchAllOutcome(up, 2);
      o.listings == [a, b] && o.requested == [1, 2] && o.error == None
  {
  }

  /** Page 1 gives [a] and reports totalPages 5, page 2 gives [b] and reports 2:
      the latest response wins and the run stops after page 2. */
  lemma LatestTotalPagesWins<L>(a: L, b: L)
    ensures var up: Upstream<L> := i =>
        if i == 1 then Ok(Page([a], Some(5)))
        else if i == 2 then Ok(Page([b], Some(2)))
        else Ok(Page([], None));
      var o := FetchAllOutcome(up, 2);
      o.listings == [a, b] && o.requested == [1, 2]
  {
  }

  /** Page 1 gives [a], the request for page 2 fails: the run keeps [a] and sets the error. */
  lemma PartialFailureRun<L>(a: L)
    ensures var up: Upstream<L> := i =>
        if i == 1 then Ok(Page([a], None)) else Failed;
      var o := FetchAllOutcome(up, 2);
      o.listings == [a] && o.error == Some(FetchAllError) && o.requested == [1, 2]
  {
  }
}
