# Product catalog screen: pagination state machine

A model of the catalog screen `TestScreen` of `app/test.js`: a tabbed,
two-column, infinitely scrolling grid of products fetched page by page
from a REST endpoint. The logic modelled is the screen's fetch lifecycle
over its six state fields (`activeTab`, `products`, `totalCount`,
`loadingInitial`, `loadingMore`, `error`):

- `fetchProducts({skip, append})`, split at the await of `fetch` into a
  begin step (raise the flag of the mode, issue the request for `PAGE_SIZE`
  = 10 products from `skip`) and a completion step, which also covers the
  second await, reading the body with `json()` (on success set the total,
  append or replace the products and clear the error; on failure set the
  error; in every case clear both flags);
- the mount effect, which begins the one replacing fetch from offset 0;
- the `loadNextPage` guard, which issues an appending fetch from the end of
  the list only when nothing is loading and fewer than `totalCount`
  products are listed;
- tab selection, which changes only `activeTab`;
- the view decisions: full-screen spinner, list footer, empty-list text,
  and which tab pill is drawn selected.

Files and modules:

- `decimal.dfy`, module `Decimal`: the decimal text of an HTTP status, and
  its inverse.
- `catalog.dfy`, module `Catalog`: products, the outcome of a fetch as an
  input value, the state as a value, and the transitions `Begin`,
  `Complete`, `NextPage`, `SelectTab` with the normalisations they use.
- `view.dfy`, module `CatalogView`: what is drawn for a state.
- `screen.dfy`, module `CatalogScreen`: class `Screen` with the six fields;
  its methods change the fields step by step, as the component does, and
  are proved to agree with the transitions of `Catalog`.
- `session.dfy`, module `Session`: sequential use (mount, then one event at
  a time, a response only for the request in flight) and the invariant it
  keeps, from which the flags are never both raised.

The network is an input: a fetch outcome is either `Rejected(message)`
(the request threw) or `Responded(status, body)`, where the body is
`Json(products, total)` or `Unreadable(message)` (reading it threw). The
response counts as ok when its status is in 200..299, as the Fetch standard
defines `response.ok`. Issuing a request returns a `PageRequest(limit,
skip, append)` value instead of performing I/O.

Two consequences of the code worth stating:

- `products.length <= totalCount` is not an invariant of the code: a
  success stores whatever total the body reports, so the list may hold more
  products than that (`Session.ProductsMayExceedTotal`); the guard only
  stops further requests once the list is that long.
- `data.total || 0` gives 0 for any falsy total (absent, null, 0, false,
  an empty string); the model represents these as `None`.

## Model

| member | source | states |
|---|---|---|
| Decimal.DecimalString | app/test.js:61 | the status text is a non-empty string of digits with no leading zero |
| Decimal.DecimalRoundTrip | app/test.js:61 | reading the status text back as a number gives the status |
| Catalog.StatusMessageRoundTrip | app/test.js:61 | the status can be recovered from the non-ok error message |
| Catalog.StatusMessageInjective | app/test.js:61 | different statuses give different error messages |
| Catalog.IsOkStatus | app/test.js:60 | `response.ok`: the status is in 200..299 |
| Catalog.StatusMessage | app/test.js:61 | the message of a non-ok status is "Request failed with status " followed by the status's numeral |
| Catalog.ErrorText | app/test.js:71 | the caught message is stored when non-empty, "Failed to load products" otherwise; never empty |
| Catalog.ItemsOf | app/test.js:65 | an array `products` field gives its items; anything else gives the empty sequence |
| Catalog.TotalOf | app/test.js:67 | the reported total, or 0 when absent or falsy |
| Catalog.Settle | app/test.js:56-71 | a fetch yields a page exactly when it responded with an ok status and a readable body; otherwise a non-empty error message: the status message for a non-ok status, the exception's message or the default otherwise |
| Catalog.Merge | app/test.js:68 | appending keeps the old products as a prefix and the new page as the suffix, length the sum; replacing gives the new page |
| Catalog.Initial | app/test.js:41-46 | the first tab of `TAB_OPTIONS` active, no products, total 0, initial loading raised, no further loading, no error |
| Catalog.Begin | app/test.js:50-54 | beginning a fetch raises `loadingMore` when appending and `loadingInitial` otherwise, and changes nothing else |
| Catalog.Complete | app/test.js:64-75 | after a completion both flags are clear and the tab is kept; a success sets the total, merges the page and clears the error; a failure keeps products and total and sets a non-empty error |
| Catalog.NextPage | app/test.js:82-92 | a request is issued exactly when nothing loads and fewer products than the total are listed; it asks for 10 products from the list's length, appending |
| Catalog.SelectTab | app/test.js:99 | tab selection sets the active tab to the pressed label and changes nothing else |
| Catalog.AppendSuccessExtends | app/test.js:68 | an appending success lists the old products followed by the page |
| Catalog.ReplaceSuccessForgets | app/test.js:68 | a replacing success lists the page whatever was listed before |
| Catalog.NonArrayIsEmptyPage | app/test.js:65 | a non-array `products` field appends nothing or empties the list |
| CatalogView.TabMarks | app/test.js:94-95 | a pill is drawn selected exactly when its label is the active tab |
| CatalogView.MarkedCount | app/test.js:94-95 | among distinct labels exactly one pill is selected when the active tab is one of them, none otherwise |
| CatalogView.OneTabSelected | app/test.js:13 | the four labels are distinct, so exactly one pill is selected for any active label |
| CatalogView.FooterOf | app/test.js:108-120 | the footer is the activity indicator exactly while a further page loads, otherwise the spacer |
| CatalogView.EmptyText | app/test.js:181 | the empty-list text is the error when there is one, "No products available" otherwise; never empty |
| CatalogView.ContentOf | app/test.js:122-185 | the full-screen spinner exactly during the initial load; otherwise the grid of all products, its footer, and the empty-list text exactly when there are no products |
| CatalogView.CompletedView | app/test.js:72-75 | after any completion the grid is shown with the spacer, and a failure on an empty list shows its message as the empty-list text |
| CatalogScreen.Screen.constructor | app/test.js:41-46 | the fields start at the initial state |
| CatalogScreen.Screen.BeginFetch | app/test.js:48-58 | raises the flag of the mode, as `Begin`, and returns the request for 10 products from `skip` |
| CatalogScreen.Screen.CompleteFetch | app/test.js:60-75 | changes the fields as `Complete`, leaving at most one (in fact no) flag raised |
| CatalogScreen.Screen.Mount | app/test.js:78-80 | begins a replacing fetch from offset 0 |
| CatalogScreen.Screen.LoadNextPage | app/test.js:82-92 | returns the request `NextPage` gives; without one nothing changes, with one an appending fetch begins; it never raises the second flag |
| CatalogScreen.Screen.SelectTab | app/test.js:99 | changes only the active tab |
| CatalogScreen.FirstTwoPages | app/test.js:78-92 | driving the object through mount, first page, list end and second page asks for the second page at the first page's length and lists both pages in order |
| Session.Mounted | app/test.js:78-80 | after mounting the one in-flight request asks for 10 products from 0, replacing |
| Session.Step | app/test.js:56-99 | how one event reaches the screen: a tab press selects a label, reaching the list end runs the `loadNextPage` guard and begins the fetch it issues, and a response completes the fetch in flight |
| Session.Consistent | app/test.js:50-91 | the sequential-use invariant: no flag without a fetch in flight, exactly the flag of its mode with one, an appending fetch from the list's end while more remain, the replacing fetch from 0, the active tab a label |
| Session.MountedConsistent | app/test.js:78-80 | the mounted session satisfies the sequential-use invariant |
| Session.StepConsistent | app/test.js:82-99 | every event (tab press, list end, response) keeps the invariant |
| Session.RunConsistent | app/test.js:82-99 | every sequence of events keeps the invariant |
| Session.NeverBothLoading | app/test.js:83-85 | under sequential use from mount the two loading flags are never both raised, and the active tab is a label |
| Session.AppendLandsAtOffset | app/test.js:87-91 | an appended page lands exactly at the offset its request asked for |
| Session.FailedAppendRetries | app/test.js:70-91 | a failed append keeps products and total, sets an error, and the next list end asks for the same page again |
| Session.ExhaustedIgnoresEnd | app/test.js:87-89 | with at least `totalCount` products listed, the list end changes nothing |
| Session.LoadingIgnoresEnd | app/test.js:83-85 | while a fetch is in flight, the list end changes nothing |
| Session.TwoPagesOf57 | app/test.js:78-92 | two pages of 10 of 57: after the first, 10 listed and total 57; the list end asks for skip 10; after the second, both pages in order |
| Session.InitialServerError | app/test.js:60-61 | an initial status 500 leaves the list empty and shows "Request failed with status 500" as the empty-list text |
| Session.ProductsMayExceedTotal | app/test.js:67-68 | a success can list more products than the reported total |

## Left out

- The network call itself (`fetch`, the URL, `response.json()`, JSON parsing): the outcome of a fetch is an input value, and issuing a request returns the `PageRequest` it would send.
- Asynchrony: overlapping fetches from rapid triggers, state captured by stale callbacks, and responses arriving after unmount are React scheduling and concurrency; a fetch is two sequential steps, and `Session` lets a response arrive only for the request in flight.
- Rendering: the list layout, the two-column grid, `ProductCard` markup and text truncation, images, pressables and every style constant; only the choices of what to draw are modelled.
- The scroll threshold (`onEndReachedThreshold` 0.4) is evaluated by the toolkit with floating point; the model has only the `loadNextPage` call it triggers (`EndReached`).
- Catalog.TotalOf: a truthy total that is not a number (such as a string) is not modelled; it would be stored as is and compared by JavaScript coercion. Non-integer totals are left out for the same reason.
- Catalog.ItemsOf: the elements of an array `products` field are taken to be well-formed products; their contents are not checked by the code and not modelled.
- Catalog.Product: price and rating are real numbers that are only displayed; JavaScript number behaviour is not modelled.
