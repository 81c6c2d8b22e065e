# Listings scraper: the pagination loop

This project models the core of the Scraper component of the Florida Bar
listings front end. The component asks a backend for pages of directory
listings, one page index at a time, and publishes one aggregated collection.

It has two fetch operations:

- `fetchAllData` requests pages 1, 2, 3, … in turn and appends each page's
  `listings` to an accumulator. It stops after a page that comes back empty,
  or after the page whose index equals the `totalPages` reported in that same
  response. A failing request stops it at once and sets the error. It then
  publishes whatever it gathered and clears the loading flag.
- `fetchData` fetches a single page and replaces the listings with it.

The model has two modules:

- `Pagination` (pagination.dfy) states the rule on values. The backend is a
  total function from a page index to `Ok(Page(listings, totalPages))` or
  `Failed`. The module defines:
  - `IsLastPage`: the loop's termination test (src/Scraper.js:43);
  - `FirstStop`: the first page that ends a run (src/Scraper.js:35-50);
  - `Gathered`: the concatenation of the listings of pages 1..n-1, that is
    the accumulator (src/Scraper.js:31-40);
  - `Pages(n)`: the request sequence 1..n (src/Scraper.js:32,44);
  - `FetchAllOutcome`: what a whole run leaves behind (src/Scraper.js:28-55).

  It proves the promised properties of these as lemmas.
- `ScraperComponent` (scraper.dfy) is the component itself.
  - `Scraper` is a class. Its fields `listings`, `isLoading` and `error` are
    the component's state.
  - `FetchAllData` is a method with the source's `while (!lastPage)` loop and
    its `break` on error. Its postcondition ties the new state to
    `FetchAllOutcome`.
  - `FetchData` is the single-page fetch.
  - `PageClient` wraps the backend. Its ghost `log` records every page index
    requested, in order, so each request is visible.

Termination. The loop as written need not terminate: the backend might never
send an empty page or a matching `totalPages`. The model does not change the
loop's rule. Instead, `FetchAllData` takes a ghost page index `last` and
requires that a request for that page ends the run (it fails, is empty, or
reports `totalPages == last`). This is the assumption that the backend is
finite. `last` only bounds the proof. `FetchAllOutcome` does not depend on
which such page is chosen (`FirstStopIsUnique`).

Two points about the component's state are easy to miss:

- A run does not reset `listings` when it starts. It clears only `error`.
  The previous value of `listings` stays until the loop ends (a loop
  invariant of `FetchAllData`).
- On failure the component publishes the partial listings and the error
  together (`FailureKeepsPartialResult`).

## Model

| member | source | states |
|---|---|---|
| `Pagination.Pages` | src/Scraper.js:32-44 | the request sequence of a run that fetched n pages has length n and its i-th entry is page i+1: it starts at 1 and goes up by one, with no gap or repeat |
| `Pagination.IsLastPage` | src/Scraper.js:43 | a successful response for page `index` ends the loop exactly when its listings are empty or its `totalPages` equals `index` (a predicate, no separate contract) |
| `Pagination.Gathered` | src/Scraper.js:31-40 | the accumulator after pages 1..n-1: empty before the first page, then the previous value with the next page's listings appended (a definition; its properties are `GatheredPrefix` and `PageBlock`) |
| `Pagination.FetchAllOutcome` | src/Scraper.js:28-55 | defined for a backend with a page that ends the loop; at the first stopping page n it gives the published listings (pages 1..n on a last page, 1..n-1 on a failure), the error, the requests 1..n and the final counter (a definition; its properties are the lemmas below) |
| `Pagination.FirstStop` | src/Scraper.js:35-50 | the stopping page is a page that ends the loop (failed, empty, or `totalPages` equal to its index), and every page before it was fetched successfully and did not end the loop |
| `Pagination.FirstStopIsUnique` | src/Scraper.js:35-50 | any page that ends the loop after an unbroken run of pages that do not is the stopping page, so the stopping page does not depend on the bound used to find it |
| `Pagination.ContinuesExtend` | src/Scraper.js:43-44 | a page that does not end the loop extends the stretch of fetched pages by one, and that stretch never passes a page known to end the loop |
| `Pagination.OutcomeAt` | src/Scraper.js:28-55 | a run stopping at page k on a failure publishes the listings of pages 1..k-1 with the error, and leaves the counter at k; a run stopping at k on a last page publishes pages 1..k with no error and leaves the counter at k+1; both request exactly 1..k |
| `Pagination.GatheredPrefix` | src/Scraper.js:31-40 | the accumulator is append-only: the listings gathered up to an earlier page are a prefix of those gathered up to any later page |
| `Pagination.PageBlock` | src/Scraper.js:40 | each page's listings sit in one contiguous block of the result, right after the listings of all earlier pages and in their own order: nothing is reordered, dropped or deduplicated |
| `Pagination.RequestsAreConsecutive` | src/Scraper.js:32-44 | a run requests page 1 first, then each next index, one request per page; the last requested page ends the loop and every earlier one did not |
| `Pagination.StopsAfterEmptyPage` | src/Scraper.js:43 | after an empty page k, the run has requested exactly pages 1..k, never page k+1, publishes the listings of pages 1..k-1 with no error, and leaves the counter at k+1 |
| `Pagination.StopsAtTotalPages` | src/Scraper.js:40-44 | when page k reports `totalPages == k`, the run stops right after it: page k's listings are included, page k+1 is never requested, and only that response's `totalPages` is consulted |
| `Pagination.FailureKeepsPartialResult` | src/Scraper.js:46-53 | a failure at page k stops the run at once, sets the error and publishes exactly the listings of pages 1..k-1, not an empty collection |
| `Pagination.ErrorIffLastRequestFailed` | src/Scraper.js:43-53 | a run reports an error exactly when its last request failed; a run without error ended on an empty page or a matching `totalPages`, and leaves the counter one past the pages it fetched |
| `Pagination.OnlyEmptyPageEndsWithoutTotalPages` | src/Scraper.js:43 | if no response reports a `totalPages` equal to its own index, a run without error can only have ended on an empty page |
| `Pagination.SinglePageRun` | src/Scraper.js:28-55 | when page 1 is a successful last page, a run publishes exactly that page's listings after a single request and reports no error |
| `Pagination.EmptyPageRun` | src/Scraper.js:28-55 | pages [a], [b], [] with no `totalPages` give [a, b] after requests 1, 2, 3 and no error |
| `Pagination.TotalPagesRun` | src/Scraper.js:28-55 | pages [a] and [b] that both report `totalPages` 2 give [a, b] after exactly two requests |
| `Pagination.LatestTotalPagesWins` | src/Scraper.js:43 | when page 1 reports 5 and page 2 reports 2 as `totalPages`, the run trusts the latest response and stops after page 2 |
| `Pagination.PartialFailureRun` | src/Scraper.js:46-53 | when page 1 gives [a] and page 2 fails, the run publishes [a] together with the error |
| `ScraperComponent.PageClient.FetchPage` | src/Scraper.js:37 | one request returns the backend's outcome for that page index and adds exactly that index to the request log |
| `ScraperComponent.Scraper.constructor` | src/Scraper.js:9-11 | the component starts with no listings, not loading, and no error |
| `ScraperComponent.Scraper.FetchData` | src/Scraper.js:14-26 | one request for the given page; on success the listings become that page's and the error is cleared; on failure the listings are unchanged and the error is set; loading is false afterwards |
| `ScraperComponent.Scraper.FetchAllData` | src/Scraper.js:28-55 | the published listings, the error, the pages requested and the final page counter are those of `FetchAllOutcome`; loading is false afterwards; (loop invariant, not part of the contract) during the loop loading stays true, the error stays cleared and `listings` keeps its previous value |
| `ScraperComponent.RerunIsIdempotent` | src/Scraper.js:57-59 | two runs in succession on the same component against the same backend publish the same listings and the same error, namely the run's outcome: what the first run left in `listings` and `error` does not affect what the second publishes |
| `ScraperComponent.SingleFetchMatchesOnePageRun` | src/Scraper.js:14-26 | when page 1 is a successful last page, the single-page fetch of page 1 and a full run, each on a fresh component, publish the same listings (page 1's) and neither reports an error |

## Left out

- The HTTP request and the backend URL. The backend is a function from the
  page index to an outcome, and a transport failure is `Failed`.
- A response whose `listings` is not an array. The model assumes every
  successful response carries a list. In the code, a `null` or missing
  `listings` is still appended by `concat` as one extra `null`/`undefined`
  element, and then `data.length` throws into the error path, so that element
  is published with the error. Other non-array values do not throw: a string
  is appended as one element and tested by its own length. An object or a
  number is appended whole. Its `length` is `undefined`, so the emptiness
  test never fires on it, and only a matching `totalPages` can end the loop
  on that page. An object with its own numeric `length` field is tested by
  that field.
- A `totalPages` that is not a number. It can never equal the page counter
  under `===`, so it is modelled as `None`.
- React hooks. `useState` becomes class fields. The `useEffect` on `page` that
  starts a run is modelled only as a fresh call of `FetchAllData`. `page` and
  `setPage` have no other use in the code.
- Overlapping runs. Each run is one sequential call. Async suspension is
  treated as an ordinary call.
- The DataTables set-up and tear-down, the XLSX export, the JSX rendering and
  `console.error` logging. These are UI, foreign libraries and file I/O.
- The fields of a listing. Listings are an opaque type parameter.
- ScraperComponent.Scraper.FetchAllData: the model requires a page that ends
  the loop. It says nothing about a backend that never sends an empty page or
  a matching `totalPages`, where the code would request pages forever.
