/** The "load more" list both list screens share: the items shown so far, the
    page last asked for, the page count the server last reported, the
    `loading` flag that keeps one request in flight, and the name filter.
    Each user action or server answer is a transition of this value. */
module Pagination {
  import opened Common

  /** Items per page requested by both lists. */
  const PageSize := 10

  /** `service.list(page, size, nome)`. */
  datatype PageRequest = PageRequest(page: nat, size: nat, nome: string)

  /** A page as the server answers it; `pageCount` is the field the screens
      read as their page total. */
  datatype PageResponse<T> = PageResponse(content: seq<T>, pageCount: int)

  datatype Listing<T> = Listing(items: seq<T>, loading: bool, page: nat, totalPages: Option<int>, searchTerm: string)

  /** The listing after an action, and the request the action sends, if any. */
  datatype Transition<T> = Transition(next: Listing<T>, request: Option<PageRequest>)

  /** Nothing loaded, nothing in flight, no page total yet, no filter. */
  function Initial<T>(): Listing<T> {
    Listing([], false, 0, None, "")
  }

  /** `hasMore`: unknown page total, or a page after the current one. */
  predicate HasMore<T>(l: Listing<T>) {
    l.totalPages.None? || l.page + 1 < l.totalPages.value
  }

  /** `loadPets`/`loadTutores`: ignored while a load is in flight; otherwise
      marks the list loading and asks for the current page with the current
      filter. */
  function Load<T>(l: Listing<T>): Transition<T> {
    if l.loading then Transition(l, None)
    else Transition(l.(loading := true), Some(PageRequest(l.page, PageSize, l.searchTerm)))
  }

  /** The `next` callback: the page's items go after those already shown. */
  function LoadSucceeded<T>(l: Listing<T>, res: PageResponse<T>): Listing<T> {
    l.(items := l.items + res.content, totalPages := Some(res.pageCount), loading := false)
  }

  /** The `error` callback: only the flag is cleared. */
  function LoadFailed<T>(l: Listing<T>): Listing<T> {
    l.(loading := false)
  }

  /** `loadMore`: when there is a further page and nothing is in flight, move
      to it and load it. */
  function LoadMore<T>(l: Listing<T>): Transition<T> {
    if !HasMore(l) || l.loading then Transition(l, None)
    else Load(l.(page := l.page + 1))
  }

  /** Back to the first page; a filter that is not blank also empties the
      list before the load. */
  function Restart<T>(l: Listing<T>, term: string): Listing<T> {
    var first := l.(page := 0);
    if Trim(term) != "" then first.(items := []) else first
  }

  /** `onSearchImmediate`: adopts the search box's value as the filter and
      restarts from the first page. */
  function SearchImmediate<T>(l: Listing<T>, searchValue: string): Transition<T> {
    Load(Restart(l.(searchTerm := searchValue), searchValue))
  }

  /** `onSearchChange`: records the filter; the reload comes later, when the
      debounced term is delivered. */
  function SearchChange<T>(l: Listing<T>, value: string): Listing<T> {
    l.(searchTerm := value)
  }

  /** The debounced subscriber: restarts from the first page with the filter
      already recorded. */
  function SearchDebounced<T>(l: Listing<T>, term: string): Transition<T> {
    Load(Restart(l, term))
  }

  /** The `loading` flag admits one request at a time: while a load is in
      flight, loading, loading more and searching send nothing. */
  lemma LoadingGuard<T>(l: Listing<T>, searchValue: string, term: string)
    requires l.loading
    ensures Load(l) == Transition(l, None)
    ensures LoadMore(l) == Transition(l, None)
    ensures SearchImmediate(l, searchValue).request.None?
    ensures SearchDebounced(l, term).request.None?
  {
  }

  /** A load that succeeds appends the page asked for and records the page
      total; one that fails leaves the listing exactly as it was. */
  lemma LoadRoundTrip<T>(l: Listing<T>, res: PageResponse<T>)
    requires !l.loading
    ensures Load(l).request == Some(PageRequest(l.page, PageSize, l.searchTerm))
    ensures LoadSucceeded(Load(l).next, res)
      == l.(items := l.items + res.content, totalPages := Some(res.pageCount))
    ensures LoadFailed(Load(l).next) == l
  {
  }

  /** `loadMore` asks for exactly the next page when `hasMore` holds and
      nothing is in flight, never moves past the reported page total, and
      otherwise changes nothing. */
  lemma LoadMoreAdvances<T>(l: Listing<T>)
    ensures LoadMore(l).request.Some? <==> HasMore(l) && !l.loading
    ensures LoadMore(l).request.Some? ==>
      LoadMore(l).next.page == l.page + 1
      && LoadMore(l).request.value.page == l.page + 1
      && LoadMore(l).next.items == l.items
      && (l.totalPages.Some? ==> LoadMore(l).next.page < l.totalPages.value)
    ensures LoadMore(l).request.None? ==> LoadMore(l).next == l
  {
  }

  /** A search for a term that is not blank shows only the first page of
      results for that term once it arrives. */
  lemma SearchShowsFirstPage<T>(l: Listing<T>, searchValue: string, res: PageResponse<T>)
    requires !l.loading && Trim(searchValue) != ""
    ensures SearchImmediate(l, searchValue).request == Some(PageRequest(0, PageSize, searchValue))
    ensures LoadSucceeded(SearchImmediate(l, searchValue).next, res).items == res.content
  {
  }

  /** A blank search keeps the items already shown and appends the first page
      after them again, so the first page can be listed twice. */
  lemma BlankSearchAppendsFirstPage<T>(l: Listing<T>, searchValue: string, res: PageResponse<T>)
    requires !l.loading && Trim(searchValue) == ""
    ensures SearchImmediate(l, searchValue).request == Some(PageRequest(0, PageSize, searchValue))
    ensures LoadSucceeded(SearchImmediate(l, searchValue).next, res).items == l.items + res.content
  {
  }

  /** A search made while a load is in flight sends nothing; the answer to the
      earlier request then lands in the restarted list, and the new filter is
      never loaded. */
  lemma SearchDuringLoadIsDropped<T>(l: Listing<T>, searchValue: string, res: PageResponse<T>)
    requires l.loading && Trim(searchValue) != ""
    ensures SearchImmediate(l, searchValue).request.None?
    ensures LoadSucceeded(SearchImmediate(l, searchValue).next, res).items == res.content
    ensures LoadSucceeded(SearchImmediate(l, searchValue).next, res).searchTerm == searchValue
    ensures !LoadSucceeded(SearchImmediate(l, searchValue).next, res).loading
  {
  }

  /** Successive loads only ever add items at the end: what was shown stays
      shown, in order, until a restart. */
  lemma {:induction false} LoadsAppend<T>(l: Listing<T>, pages: seq<PageResponse<T>>)
    ensures l.items <= LoadAll(l, pages).items
    ensures |LoadAll(l, pages).items| == |l.items| + TotalCount(pages)
    decreases |pages|
  {
    if pages != [] {
      LoadsAppend(LoadSucceeded(l, pages[0]), pages[1..]);
    }
  }

  /** The listing after each of `pages` has been loaded in turn. */
  function LoadAll<T>(l: Listing<T>, pages: seq<PageResponse<T>>): Listing<T>
    decreases |pages|
  {
    if pages == [] then l else LoadAll(LoadSucceeded(l, pages[0]), pages[1..])
  }

  function TotalCount<T>(pages: seq<PageResponse<T>>): nat
    decreases |pages|
  {
    if pages == [] then 0 else |pages[0].content| + TotalCount(pages[1..])
  }
}
