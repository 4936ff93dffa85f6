/** Sequential use of the screen: after mounting, events arrive one at a
    time and at most the one request that is in flight gets a response.
    Append fetches are reached only through `loadNextPage`. */
module Session {
  import opened Catalog
  import CatalogView

  /** The screen's state together with the fetch whose response is awaited. */
  datatype Session = Session(screen: ScreenState, inFlight: Option<PageRequest>)

  /** A press on a tab pill, the list end coming into reach, or the response
      to the request in flight. */
  datatype Event = TabPressed(tab: string) | EndReached | Response(outcome: FetchOutcome)

  /** Right after mounting: the initial state, with the mount effect's fetch
      begun. */
  function Mounted(): (x: Session)
    ensures x.screen == Begin(Initial(), false)
    ensures x.inFlight == Some(PageRequest(PAGE_SIZE, 0, false))
  {
    Session(Begin(Initial(), false), Some(PageRequest(PAGE_SIZE, 0, false)))
  }

  function Step(x: Session, e: Event): Session {
    match e
    case TabPressed(tab) =>
      if tab in TAB_OPTIONS then x.(screen := SelectTab(x.screen, tab)) else x
    case EndReached =>
      (match NextPage(x.screen)
       case None => x
       case Some(req) => Session(Begin(x.screen, true), Some(req)))
    case Response(o) =>
      (match x.inFlight
       case None => x
       case Some(req) => Session(Complete(x.screen, req.append, o), None))
  }

  function Run(x: Session, events: seq<Event>): Session
    decreases |events|
  {
    if events == [] then x else Run(Step(x, events[0]), events[1..])
  }

  /** What holds between events: with no fetch in flight no flag is raised;
      with one in flight exactly the flag of its mode is raised; an
      appending fetch asks for the products after the listed ones and only
      while more remain; the replacing fetch starts at 0; the active tab is
      one of the labels. */
  predicate Consistent(x: Session) {
    var s := x.screen;
    s.activeTab in TAB_OPTIONS &&
    match x.inFlight
    case None => !s.loadingInitial && !s.loadingMore
    case Some(req) =>
      req.limit == PAGE_SIZE &&
      s.loadingMore == req.append && s.loadingInitial == !req.append &&
      (req.append ==> req.skip == |s.products| < s.totalCount) &&
      (!req.append ==> req.skip == 0)
  }

  lemma MountedConsistent()
    ensures Consistent(Mounted())
  {
  }

  lemma StepConsistent(x: Session, e: Event)
    requires Consistent(x)
    ensures Consistent(Step(x, e))
  {
  }

  lemma {:induction false} RunConsistent(x: Session, events: seq<Event>)
    requires Consistent(x)
    ensures Consistent(Run(x, events))
    decreases |events|
  {
    if events != [] {
      StepConsistent(x, events[0]);
      RunConsistent(Step(x, events[0]), events[1..]);
    }
  }

  /** Under sequential use the two loading flags are never both raised, and
      the active tab is always one of the labels. */
  lemma NeverBothLoading(events: seq<Event>)
    ensures !(Run(Mounted(), events).screen.loadingInitial && Run(Mounted(), events).screen.loadingMore)
    ensures Run(Mounted(), events).screen.activeTab in TAB_OPTIONS
  {
    MountedConsistent();
    RunConsistent(Mounted(), events);
  }

  /** A page that arrives for an appending request lands exactly at the
      offset that request asked for: no gap and no overlap. */
  lemma AppendLandsAtOffset(x: Session, o: FetchOutcome)
    requires Consistent(x) && x.inFlight.Some? && x.inFlight.value.append && Settle(o).Ok?
    ensures var skip := x.inFlight.value.skip;
            var after := Step(x, Response(o)).screen.products;
            0 <= skip <= |after| && after[..skip] == x.screen.products && after[skip..] == Settle(o).value.items
  {
  }

  /** A failed appending fetch keeps the list and the total, shows the error,
      and the next time the list end is reached the same page is asked for
      again. */
  lemma FailedAppendRetries(x: Session, o: FetchOutcome)
    requires Consistent(x) && x.inFlight.Some? && x.inFlight.value.append && Settle(o).Err?
    ensures Step(x, Response(o)).screen.products == x.screen.products
    ensures Step(x, Response(o)).screen.totalCount == x.screen.totalCount
    ensures Step(x, Response(o)).screen.error != ""
    ensures Step(Step(x, Response(o)), EndReached).inFlight == x.inFlight
  {
  }

  /** Once every product reported is listed, reaching the list end does nothing. */
  lemma ExhaustedIgnoresEnd(x: Session)
    requires |x.screen.products| >= x.screen.totalCount
    ensures Step(x, EndReached) == x
  {
  }

  /** While a fetch is in flight, reaching the list end does nothing. */
  lemma LoadingIgnoresEnd(x: Session)
    requires Consistent(x) && x.inFlight.Some?
    ensures Step(x, EndReached) == x
  {
  }

  /** Mount; a first page of 10 of 57 products arrives; the list end is
      reached, which asks for the products from 10; a second page of 10
      arrives: the list holds both pages, in order. */
  lemma TwoPagesOf57(page1: seq<Product>, page2: seq<Product>)
    requires |page1| == 10 && |page2| == 10
    ensures var x1 := Step(Mounted(), Response(Responded(200, Json(ProductArray(page1), Some(57)))));
            var x2 := Step(x1, EndReached);
            var x3 := Step(x2, Response(Responded(200, Json(ProductArray(page2), Some(57)))));
            x1.screen.products == page1 && x1.screen.totalCount == 57 && !x1.screen.loadingInitial &&
            x2.inFlight == Some(PageRequest(10, 10, true)) &&
            x3.screen.products == page1 + page2 && |x3.screen.products| == 20
  {
  }

  /** The initial request fails with status 500: the list stays empty, the
      error is the status message, and the empty-list text shows it. */
  lemma InitialServerError()
    ensures var x := Step(Mounted(), Response(Responded(500, Json(NotAnArray, None))));
            x.screen.products == [] && x.screen.error == StatusMessage(500) &&
            CatalogView.ContentOf(x.screen) == CatalogView.ProductGrid([], CatalogView.Spacer, Some(StatusMessage(500)))
  {
  }

  /** The list is not kept within the reported total: a first page may hold
      more products than its `total` says. */
  lemma ProductsMayExceedTotal(p: Product)
    ensures var x := Run(Mounted(), [Response(Responded(200, Json(ProductArray([p]), None)))]);
            |x.screen.products| == 1 && x.screen.totalCount == 0
  {
  }
}
