/** The catalog screen as an object: the six state fields and the code that
    changes them. Each method is proved to change the fields exactly as the
    matching transition of module Catalog says. A fetch is split at the
    await of `fetch`: BeginFetch runs up to the request, CompleteFetch runs
    from the response to the end of the finally block. The second await,
    reading the body with `json()`, happens inside the completion; a body
    whose reading throws is `Body.Unreadable`. */
module CatalogScreen {
  import opened Catalog

  class Screen {
    var activeTab: string
    var products: seq<Product>
    var totalCount: int
    var loadingInitial: bool
    var loadingMore: bool
    var error: string

    /** The fields as one value. */
    function State(): ScreenState
      reads this
    {
      ScreenState(activeTab, products, totalCount, loadingInitial, loadingMore, error)
    }

    /** At most one loading flag is raised. */
    predicate AtMostOneLoading()
      reads this
    {
      !(loadingInitial && loadingMore)
    }

    /** The useState defaults. */
    constructor ()
      ensures State() == Initial()
      ensures AtMostOneLoading()
    {
      activeTab := TAB_OPTIONS[0];
      products := [];
      totalCount := 0;
      loadingInitial := true;
      loadingMore := false;
      error := "";
    }

    /** `fetchProducts({skip, append})` up to the await of `fetch`: raise the flag for
        the mode and issue the request for PAGE_SIZE products from `skip`. */
    method BeginFetch(skip: int, append: bool) returns (req: PageRequest)
      modifies this
      ensures State() == Begin(old(State()), append)
      ensures req == PageRequest(PAGE_SIZE, skip, append)
    {
      if append {
        loadingMore := true;
      } else {
        loadingInitial := true;
      }
      req := PageRequest(PAGE_SIZE, skip, append);
    }

    /** `fetchProducts` from the response on: on success set the total, the
        products and clear the error; on failure set the error; finally
        clear both flags. */
    method CompleteFetch(append: bool, outcome: FetchOutcome)
      modifies this
      ensures State() == Complete(old(State()), append, outcome)
      ensures AtMostOneLoading()
    {
      match Settle(outcome) {
        case Ok(page) =>
          totalCount := page.total;
          products := Merge(products, page.items, append);
          error := "";
        case Err(message) =>
          error := message;
      }
      loadingInitial := false;
      loadingMore := false;
    }

    /** The mount effect: the one initial fetch, from offset 0, replacing. */
    method Mount() returns (req: PageRequest)
      modifies this
      ensures State() == Begin(old(State()), false)
      ensures req == PageRequest(PAGE_SIZE, 0, false)
      ensures !old(loadingMore) ==> AtMostOneLoading()
    {
      req := BeginFetch(0, false);
    }

    /** `loadNextPage`: nothing while a fetch is loading or once every product
        is listed; otherwise begin an appending fetch from the list's end. */
    method LoadNextPage() returns (req: Option<PageRequest>)
      modifies this
      ensures req == NextPage(old(State()))
      ensures req.None? ==> State() == old(State())
      ensures req.Some? ==> State() == Begin(old(State()), true)
      ensures old(AtMostOneLoading()) ==> AtMostOneLoading()
    {
      if loadingInitial || loadingMore {
        return None;
      }
      if |products| >= totalCount {
        return None;
      }
      var r := BeginFetch(|products|, true);
      req := Some(r);
    }

    /** A press on a tab pill. */
    method SelectTab(tab: string)
      requires tab in TAB_OPTIONS
      modifies this
      ensures State() == Catalog.SelectTab(old(State()), tab)
      ensures old(AtMostOneLoading()) ==> AtMostOneLoading()
    {
      activeTab := tab;
    }
  }

  /** The first two pages of a catalog: mount, the first page arrives, the
      list end is reached, the second page arrives. The second request
      starts where the first page ended, and the list holds both pages in
      order. */
  method FirstTwoPages(page1: seq<Product>, page2: seq<Product>, total: int)
    returns (second: Option<PageRequest>, shown: seq<Product>)
    requires |page1| < total
    ensures second == Some(PageRequest(PAGE_SIZE, |page1|, true))
    ensures shown == page1 + page2
  {
    var screen := new Screen();
    var first := screen.Mount();
    screen.CompleteFetch(first.append, Responded(200, Json(ProductArray(page1), Some(total))));
    second := screen.LoadNextPage();
    screen.CompleteFetch(true, Responded(200, Json(ProductArray(page2), Some(total))));
    shown := screen.products;
  }
}
