/** The product catalog screen's data: products, the outcome of one page
    fetch, the screen's six state fields, and the transitions that change them.
    Everything here is a value; the screen object in module CatalogScreen
    changes its fields exactly as these functions say. */
module Catalog {
  import opened Decimal

  /** The tab labels, in display order; the first is active on mount. */
  const TAB_OPTIONS: seq<string> := ["For You", "Scenes", "Featured", "Groups"]

  /** Number of products asked for per page. */
  const PAGE_SIZE: nat := 10

  const STATUS_PREFIX: string := "Request failed with status "
  const DEFAULT_ERROR: string := "Failed to load products"

  datatype Option<T> = None | Some(value: T)

  datatype Result<T> = Ok(value: T) | Err(message: string)

  /** One product as the endpoint describes it. Prices and ratings are only
      displayed, never computed with. */
  datatype Product = Product(id: int, title: string, description: string,
                             thumbnail: string, price: real, rating: real)

  /** A page request: `limit` and `skip` go into the query string; `append`
      says whether the page extends or replaces the list. */
  datatype PageRequest = PageRequest(limit: nat, skip: int, append: bool)

  /** The `products` field of a response body: an array, or anything else. */
  datatype ProductsField = ProductArray(items: seq<Product>) | NotAnArray

  /** A response body: parsed JSON with its `products` field and its `total`
      (None when absent, null or falsy), or a body whose reading threw. */
  datatype Body = Json(products: ProductsField, total: Option<int>) | Unreadable(message: string)

  /** What one fetch produces: a response with a status and a body, or a
      rejected request (transport failure) with the exception's message. */
  datatype FetchOutcome = Responded(status: nat, body: Body) | Rejected(message: string)

  /** A successfully read page, normalised. */
  datatype Page = Page(items: seq<Product>, total: int)

  /** The screen's state fields. */
  datatype ScreenState = ScreenState(activeTab: string, products: seq<Product>, totalCount: int,
                                     loadingInitial: bool, loadingMore: bool, error: string)

  /** `response.ok`: the status is in the range 200 to 299. */
  predicate IsOkStatus(status: nat) {
    200 <= status <= 299
  }

  /** The message of the error thrown for a non-ok status: the fixed prefix
      followed by the status's numeral. */
  function StatusMessage(status: nat): (m: string)
    ensures |m| > |STATUS_PREFIX| && m[..|STATUS_PREFIX|] == STATUS_PREFIX
    ensures AllDigits(m[|STATUS_PREFIX|..])
  {
    STATUS_PREFIX + DecimalString(status)
  }

  /** Recovers the status from a message of the shape StatusMessage makes. */
  function StatusOfMessage(m: string): Option<nat> {
    var p := |STATUS_PREFIX|;
    if |m| > p && m[..p] == STATUS_PREFIX && AllDigits(m[p..]) then Some(DecimalValue(m[p..])) else None
  }

  lemma StatusMessageRoundTrip(status: nat)
    ensures StatusOfMessage(StatusMessage(status)) == Some(status)
  {
    var m := StatusMessage(status);
    var p := |STATUS_PREFIX|;
    assert m[..p] == STATUS_PREFIX;
    assert m[p..] == DecimalString(status);
    DecimalRoundTrip(status);
  }

  /** Different statuses give different messages. */
  lemma StatusMessageInjective(a: nat, b: nat)
    requires StatusMessage(a) == StatusMessage(b)
    ensures a == b
  {
    StatusMessageRoundTrip(a);
    StatusMessageRoundTrip(b);
  }

  /** `err.message || 'Failed to load products'`: the caught message, or the
      default when the message is empty. */
  function ErrorText(message: string): (t: string)
    ensures t != []
    ensures message != [] ==> t == message
    ensures message == [] ==> t == DEFAULT_ERROR
  {
    if message != [] then message else DEFAULT_ERROR
  }

  /** `Array.isArray(data.products) ? data.products : []`. */
  function ItemsOf(f: ProductsField): (r: seq<Product>)
    ensures f.NotAnArray? ==> r == []
    ensures f.ProductArray? ==> r == f.items
  {
    match f
    case ProductArray(items) => items
    case NotAnArray => []
  }

  /** `data.total || 0`. */
  function TotalOf(total: Option<int>): (n: int)
    ensures total.None? ==> n == 0
    ensures total.Some? ==> n == total.value
  {
    match total
    // a zero total is falsy too, and `|| 0` then gives the same 0
    case Some(t) => t
    case None => 0
  }

  /** The try block of a fetch: a page, or the message the catch block stores. */
  function Settle(o: FetchOutcome): (r: Result<Page>)
    ensures r.Ok? <==> o.Responded? && IsOkStatus(o.status) && o.body.Json?
    ensures r.Ok? ==> r.value == Page(ItemsOf(o.body.products), TotalOf(o.body.total))
    ensures r.Err? ==> r.message != []
    ensures o.Responded? && !IsOkStatus(o.status) ==> r == Err(StatusMessage(o.status))
    ensures o.Rejected? ==> r == Err(ErrorText(o.message))
    ensures o.Responded? && IsOkStatus(o.status) && o.body.Unreadable? ==> r == Err(ErrorText(o.body.message))
  {
    match o
    case Rejected(message) => Err(ErrorText(message))
    case Responded(status, body) =>
      if !IsOkStatus(status) then Err(ErrorText(StatusMessage(status)))
      else match body
        case Unreadable(message) => Err(ErrorText(message))
        case Json(products, total) => Ok(Page(ItemsOf(products), TotalOf(total)))
  }

  /** `append ? [...prev, ...next] : next`. */
  function Merge(prev: seq<Product>, next: seq<Product>, append: bool): (r: seq<Product>)
    ensures append ==> |r| == |prev| + |next| && r[..|prev|] == prev && r[|prev|..] == next
    ensures !append ==> r == next
  {
    if append then prev + next else next
  }

  /** The state before the first render: the useState defaults. */
  function Initial(): (s: ScreenState)
    ensures s.activeTab == TAB_OPTIONS[0] && s.products == [] && s.totalCount == 0
    ensures s.loadingInitial && !s.loadingMore && s.error == ""
  {
    ScreenState(TAB_OPTIONS[0], [], 0, true, false, "")
  }

  /** The two states differ at most in their loading flags. */
  predicate SameExceptFlags(s: ScreenState, t: ScreenState) {
    t.activeTab == s.activeTab && t.products == s.products && t.totalCount == s.totalCount && t.error == s.error
  }

  /** The first step of a fetch: raise the loading flag that matches the mode. */
  function Begin(s: ScreenState, append: bool): (t: ScreenState)
    ensures SameExceptFlags(s, t)
    ensures append ==> t.loadingMore && t.loadingInitial == s.loadingInitial
    ensures !append ==> t.loadingInitial && t.loadingMore == s.loadingMore
  {
    if append then s.(loadingMore := true) else s.(loadingInitial := true)
  }

  /** The second step of a fetch, when its outcome is known: on success the
      total, the products (appended or replaced) and a cleared error; on
      failure only the error; in both cases both loading flags cleared. */
  function Complete(s: ScreenState, append: bool, o: FetchOutcome): (t: ScreenState)
    ensures !t.loadingInitial && !t.loadingMore
    ensures t.activeTab == s.activeTab
    ensures Settle(o).Ok? ==> t.error == "" && t.totalCount == Settle(o).value.total
                              && t.products == Merge(s.products, Settle(o).value.items, append)
    ensures Settle(o).Err? ==> t.products == s.products && t.totalCount == s.totalCount
                               && t.error == Settle(o).message && t.error != ""
  {
    var tried := match Settle(o)
      case Ok(page) => s.(totalCount := page.total, products := Merge(s.products, page.items, append), error := "")
      case Err(message) => s.(error := message);
    tried.(loadingInitial := false, loadingMore := false)
  }

  /** `loadNextPage`: the request it issues, if any. It issues none while a
      fetch is loading or once the list holds `totalCount` products. */
  function NextPage(s: ScreenState): (r: Option<PageRequest>)
    ensures r.Some? <==> !s.loadingInitial && !s.loadingMore && |s.products| < s.totalCount
    ensures r.Some? ==> r.value == PageRequest(PAGE_SIZE, |s.products|, true)
  {
    if s.loadingInitial || s.loadingMore then None
    else if |s.products| >= s.totalCount then None
    else Some(PageRequest(PAGE_SIZE, |s.products|, true))
  }

  /** Pressing a tab pill makes its label the active tab and changes nothing else. */
  function SelectTab(s: ScreenState, tab: string): (t: ScreenState)
    requires tab in TAB_OPTIONS
    ensures t.activeTab == tab && t.activeTab in TAB_OPTIONS
    ensures t.(activeTab := s.activeTab) == s
  {
    s.(activeTab := tab)
  }

  /** A successful append puts the page's items after the existing ones. */
  lemma AppendSuccessExtends(s: ScreenState, o: FetchOutcome)
    requires Settle(o).Ok?
    ensures Complete(s, true, o).products == s.products + Settle(o).value.items
  {
  }

  /** A successful replace discards whatever was listed before. */
  lemma ReplaceSuccessForgets(s: ScreenState, s': ScreenState, o: FetchOutcome)
    requires Settle(o).Ok?
    ensures Complete(s, false, o).products == Complete(s', false, o).products == Settle(o).value.items
  {
  }

  /** A body whose `products` field is not an array reads as an empty page. */
  lemma NonArrayIsEmptyPage(s: ScreenState, append: bool, total: Option<int>)
    ensures Complete(s, append, Responded(200, Json(NotAnArray, total))).products
            == if append then s.products else []
  {
  }
}
