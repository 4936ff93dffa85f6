/** What the screen shows for a given state: the tab bar's marks, the
    full-screen spinner, the list footer and the empty-list text. */
module CatalogView {
  import opened Catalog

  const EMPTY_TEXT: string := "No products available"

  /** The trailing element of the product list: a small activity indicator
      while a further page loads, otherwise a fixed-height spacer. */
  datatype Footer = LoadingIndicator | Spacer

  /** The screen content below the tab bar. */
  datatype Content = FullScreenSpinner | ProductGrid(items: seq<Product>, footer: Footer, emptyText: Option<string>)

  /** One mark per tab: whether that pill is drawn as selected. */
  function TabMarks(tabs: seq<string>, active: string): (marks: seq<bool>)
    ensures |marks| == |tabs|
    ensures forall i :: 0 <= i < |tabs| ==> (marks[i] <==> tabs[i] == active)
  {
    if tabs == [] then [] else [tabs[0] == active] + TabMarks(tabs[1..], active)
  }

  function CountMarked(marks: seq<bool>): nat {
    if marks == [] then 0 else (if marks[0] then 1 else 0) + CountMarked(marks[1..])
  }

  predicate Distinct(tabs: seq<string>) {
    forall i, j :: 0 <= i < j < |tabs| ==> tabs[i] != tabs[j]
  }

  /** Among distinct labels, exactly one pill is selected when the active tab
      is one of them, and none otherwise. */
  lemma {:induction false} MarkedCount(tabs: seq<string>, active: string)
    requires Distinct(tabs)
    ensures CountMarked(TabMarks(tabs, active)) == if active in tabs then 1 else 0
  {
    if tabs != [] {
      var rest := tabs[1..];
      assert Distinct(rest) by {
        forall i, j | 0 <= i < j < |rest| ensures rest[i] != rest[j] {
          assert rest[i] == tabs[i + 1] && rest[j] == tabs[j + 1];
        }
      }
      MarkedCount(rest, active);
      assert TabMarks(tabs, active)[1..] == TabMarks(rest, active);
      if tabs[0] == active {
        assert active !in rest by {
          forall k | 0 <= k < |rest| ensures rest[k] != active {
            assert rest[k] == tabs[k + 1];
          }
        }
      }
      assert active in tabs <==> tabs[0] == active || active in rest;
    }
  }

  /** The labels of TAB_OPTIONS are distinct, so exactly one pill of the tab
      bar is selected whenever the active tab is one of them. */
  lemma OneTabSelected(active: string)
    requires active in TAB_OPTIONS
    ensures CountMarked(TabMarks(TAB_OPTIONS, active)) == 1
  {
    assert TAB_OPTIONS[0][0] == 'F' && TAB_OPTIONS[1][0] == 'S';
    assert TAB_OPTIONS[2][0] == 'F' && TAB_OPTIONS[3][0] == 'G';
    assert TAB_OPTIONS[0][1] != TAB_OPTIONS[2][1];
    assert Distinct(TAB_OPTIONS);
    MarkedCount(TAB_OPTIONS, active);
  }

  /** `renderFooter`. */
  function FooterOf(loadingMore: bool): (f: Footer)
    ensures f == LoadingIndicator <==> loadingMore
  {
    if !loadingMore then Spacer else LoadingIndicator
  }

  /** The text of the empty-list component: the error, or a default when the
      error is empty. Never empty itself. */
  function EmptyText(error: string): (t: string)
    ensures t != []
    ensures error != [] ==> t == error
    ensures error == [] ==> t == EMPTY_TEXT
  {
    if error != [] then error else EMPTY_TEXT
  }

  /** The screen content: the spinner while the initial load runs, otherwise the
      grid of all products with its footer, and the empty-list text exactly
      when there are no products. */
  function ContentOf(s: ScreenState): (b: Content)
    ensures b.FullScreenSpinner? <==> s.loadingInitial
    ensures b.ProductGrid? ==> b.items == s.products
                               && (b.footer == LoadingIndicator <==> s.loadingMore)
                               && (b.emptyText.Some? <==> s.products == [])
                               && (b.emptyText.Some? ==> b.emptyText.value == EmptyText(s.error))
  {
    if s.loadingInitial then FullScreenSpinner
    else ProductGrid(s.products, FooterOf(s.loadingMore),
                     if s.products == [] then Some(EmptyText(s.error)) else None)
  }

  /** After any completion the grid is shown, with the spacer as its footer;
      after a failure that leaves the list empty, the empty-list component
      shows the failure's message. */
  lemma CompletedView(s: ScreenState, append: bool, o: FetchOutcome)
    ensures ContentOf(Complete(s, append, o)).ProductGrid?
    ensures ContentOf(Complete(s, append, o)).footer == Spacer
    ensures Settle(o).Err? && s.products == [] ==>
              ContentOf(Complete(s, append, o)).emptyText == Some(Settle(o).message)
  {
  }
}
