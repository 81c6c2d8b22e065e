/**
 * The Scraper component: its state fields and the two fetch operations that
 * update them, with the backend behind a page client.
 */
module ScraperComponent {
  import opened Pagination

  /** The page client: one request per call against a fixed backend. The ghost
      log records, in order, every page index that was requested. */
  class PageClient<L> {
    const upstream: Upstream<L>
    ghost var log: seq<int>

    constructor (up: Upstream<L>)
      ensures upstream == up && log == []
    {
      upstream := up;
      log := [];
    }

    /** Requests page `index` once. */
    method FetchPage(index: int) returns (f: Fetched<L>)
      modifies this
      ensures f == upstream(index)
      ensures log == old(log) + [index]
    {
      f := upstream(index);
      log := log + [index];
    }
  }

  /** The component's state: the published listings, the loading flag and the error. */
  class Scraper<L> {
    var listings: seq<L>
    var isLoading: bool
    var error: Option<string>

    constructor ()
      ensures listings == [] && !isLoading && error == None
    {
      listings := [];
      isLoading := false;
      error := None;
    }

    /** Fetches one page and, on success, replaces the published listings with
        that page's; on failure sets the error and leaves the listings as they
        were. Loading is cleared either way. */
    method FetchData(client: PageClient<L>, pageNum: int)
      modifies this, client
      ensures client.log == old(client.log) + [pageNum]
      ensures !isLoading
      ensures client.upstream(pageNum).Ok? ==>
        listings == client.upstream(pageNum).page.listings && error == None
      ensures client.upstream(pageNum).Failed? ==>
        listings == old(listings) && error == Some(FetchOneError)
    {
      isLoading := true;
      error := None;
      var response := client.FetchPage(pageNum);
      match response {
        case Ok(page) =>
          listings := page.listings;
        case Failed =>
          error := Some(FetchOneError);
      }
      isLoading := false;
    }

    /** Fetches pages 1, 2, 3, ... until one fails, comes back empty, or reports
        a totalPages equal to its own index, and publishes the concatenation of
        everything fetched. `last` is a page known to end the loop; it bounds the
        run for the proof and takes no part in it. The ghost result `finalPage`
        is the value of the loop's page counter at exit. */
    method FetchAllData(client: PageClient<L>, ghost last: int) returns (ghost finalPage: int)
      requires 1 <= last && EndsRun(client.upstream(last), last)
      modifies this, client
      ensures var o := FetchAllOutcome(client.upstream, last);
        && listings == o.listings
        && error == o.error
        && client.log == old(client.log) + o.requested
        && finalPage == o.nextPage
      ensures !isLoading
    {
      ghost var up := client.upstream;
      isLoading := true;
      error := None;
      var allListings: seq<L> := [];
      var currentPage := 1;
      var lastPage := false;

      while !lastPage
        invariant 1 <= currentPage <= last + 1
        invariant isLoading && error == None
        invariant listings == old(listings)  // published only after the loop
        invariant client.log == old(client.log) + Pages(currentPage - 1)
        invariant allListings == Gathered(up, currentPage)
        invariant !lastPage ==> currentPage <= last && Continues(up, 1, currentPage)
        invariant lastPage ==>
          FetchAllOutcome(up, last) == Outcome(allListings, None, Pages(currentPage - 1), currentPage)
        decreases last + 1 - currentPage
      {
        var response := client.FetchPage(currentPage);
        assert Pages(currentPage) == Pages(currentPage - 1) + [currentPage];
        match response {
          case Failed =>
            OutcomeAt(up, last, currentPage);
            error := Some(FetchAllError);
            break;
          case Ok(page) =>
            var data := page.listings;
            allListings := allListings + data;
            lastPage := IsLastPage(page, currentPage);
            if lastPage {
              OutcomeAt(up, last, currentPage);
            } else {
              ContinuesExtend(up, currentPage, last);
            }
            currentPage := currentPage + 1;
        }
      }
      finalPage := currentPage;

      listings := allListings;
      isLoading := false;
    }
  }

  /** Two runs in succession against the same backend publish the same
      listings and the same error: the second run starts from fresh local
      state and discards whatever the first one left in the component. */
  method RerunIsIdempotent<L>(up: Upstream<L>, ghost last: int)
    returns (first: seq<L>, firstError: Option<string>, second: seq<L>, secondError: Option<string>)
    requires 1 <= last && EndsRun(up(last), last)
    ensures first == second && firstError == secondError
    ensures first == FetchAllOutcome(up, last).listings
    ensures firstError == FetchAllOutcome(up, last).error
  {
    var client := new PageClient(up);
    var scraper := new Scraper();
    ghost var counter := scraper.FetchAllData(client, last);
    first, firstError := scraper.listings, scraper.error;
    counter := scraper.FetchAllData(client, last);
    second, secondError := scraper.listings, scraper.error;
  }

  /** When page 1 is a successful last page, a single-page fetch of page 1 and
      a full run, each on a fresh component, publish the same listings and
      neither reports an error: the run is then one request, like the fetch. */
  method SingleFetchMatchesOnePageRun<L>(up: Upstream<L>)
    returns (single: seq<L>, singleError: Option<string>, run: seq<L>, runError: Option<string>)
    requires up(1).Ok? && IsLastPage(up(1).page, 1)
    ensures single == run == up(1).page.listings
    ensures singleError == runError == None
  {
    var client := new PageClient(up);
    var one := new Scraper();
    one.FetchData(client, 1);
    single, singleError := one.listings, one.error;
    var all := new Scraper();
    SinglePageRun(up);
    ghost var counter := all.FetchAllData(client, 1);
    run, runError := all.listings, all.error;
  }
}
