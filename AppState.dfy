/** The state record of the image finder's root component and its transitions,
    as values: each transition maps the state before it to the state after it.
    The class in AppComponent updates its fields exactly as these functions say. */
module AppState {
  import opened Pagination

  datatype Option<T> = None | Some(value: T)

  /** Error text stored when a fetch fails (App.jsx:74). */
  const FAILURE_MESSAGE: string := "Something went wrong!"

  /** Informational notice shown when a fetch returns no hits (App.jsx:59). */
  const NOT_FOUND_NOTICE: string := "Sorry image not found..."

  /** The component's state (App.jsx:12-19). `error` is `None` for the
      initial `null`, `Some("")` once a fetch succeeded and
      `Some(FAILURE_MESSAGE)` after a failure. */
  datatype Snapshot<Item> = Snapshot(
    searchName: string,
    images: seq<Item>,
    currentPage: nat,
    error: Option<string>,
    isLoading: bool,
    totalPages: nat)

  /** The arguments of one provider call: the query and the page that the
      fetch read from the state when it started (App.jsx:50, 55). */
  datatype Request = Request(query: string, page: nat)

  /** What the provider call delivers: the raw hits of one page with the
      total number of hits for the query, or a rejection of any kind. */
  datatype Reply<Raw> = Success(hits: seq<Raw>, totalHits: nat) | Failure

  /** The state the component is created with: nothing is shown but the
      empty-gallery message, and the request a first fetch would send is the
      empty query on page 1. */
  function Initial<Item>(): (s: Snapshot<Item>)
    ensures !ShowGallery(s) && !ShowLoader(s) && !ShowLoadMore(s)
    ensures RequestOf(s) == Request("", 1) && s.error == None && s.totalPages == 0
  {
    Snapshot("", [], 1, None, false, 0)
  }

  /** The request a fetch started in state `s` sends. */
  function RequestOf<Item>(s: Snapshot<Item>): (request: Request) {
    Request(s.searchName, s.currentPage)
  }

  // ---------------------------------------------------------------------------
  // Fetch trigger (componentDidUpdate)

  /** componentDidUpdate starts a fetch when the query or the page differ
      between the previous and the current state, that is, exactly when the
      request a fetch would send differs from the previous state's. */
  predicate ShouldFetch<Item>(prev: Snapshot<Item>, cur: Snapshot<Item>)
    ensures ShouldFetch(prev, cur) <==> RequestOf(prev) != RequestOf(cur)
  {
    prev.searchName != cur.searchName || prev.currentPage != cur.currentPage
  }

  /** A re-render that changes any field but query and page (images, error,
      loading flag, page count) never fetches. */
  lemma OtherFieldsNeverFetch<Item>(s: Snapshot<Item>, images: seq<Item>, error: Option<string>, isLoading: bool, totalPages: nat)
    ensures !ShouldFetch(s, s.(images := images, error := error, isLoading := isLoading, totalPages := totalPages))
  {
  }

  // ---------------------------------------------------------------------------
  // Visibility rules (render)

  /** The gallery is shown, instead of the empty-gallery message. */
  predicate ShowGallery<Item>(s: Snapshot<Item>) {
    |s.images| > 0
  }

  /** The loading indicator is shown. */
  predicate ShowLoader<Item>(s: Snapshot<Item>) {
    s.isLoading
  }

  /** The "load more" button is shown: images are shown, the page is not the
      page count, and no fetch is in flight. */
  predicate ShowLoadMore<Item>(s: Snapshot<Item>) {
    |s.images| > 0 && s.totalPages != s.currentPage && !s.isLoading
  }

  /** The button is offered only beside a non-empty gallery, never together
      with the loader and never when the current page is the page count. */
  lemma LoadMoreButtonExcludesLoader<Item>(s: Snapshot<Item>)
    ensures ShowLoadMore(s) ==> ShowGallery(s) && !ShowLoader(s) && s.currentPage != s.totalPages
    ensures ShowLoader(s) ==> !ShowLoadMore(s)
  {
  }

  // ---------------------------------------------------------------------------
  // Transitions

  /** handleSubmit(query): a new search starts from an empty gallery on the
      first page. Loading flag, error and page count are left as they were. */
  function Submitted<Item>(s: Snapshot<Item>, query: string): (r: Snapshot<Item>)
    ensures r.searchName == query && r.images == [] && r.currentPage == 1
    ensures r.error == s.error && r.isLoading == s.isLoading && r.totalPages == s.totalPages
    ensures ShouldFetch(s, r) <==> query != s.searchName || s.currentPage != 1
    ensures !ShowGallery(r) && !ShowLoadMore(r)
  {
    s.(searchName := query, images := [], currentPage := 1)
  }

  /** loadMore(): the page goes up by one, nothing else changes, and the
      change always triggers a fetch of the new page. */
  function PageAdvanced<Item>(s: Snapshot<Item>): (r: Snapshot<Item>)
    ensures r.currentPage == s.currentPage + 1
    ensures r == s.(currentPage := r.currentPage)
    ensures ShouldFetch(s, r) && RequestOf(r) == Request(s.searchName, s.currentPage + 1)
  {
    s.(currentPage := s.currentPage + 1)
  }

  /** The start of addImages: the loading flag goes up, so the loader shows
      and the button hides; query and page are untouched, so starting a fetch
      does not trigger another one. */
  function FetchStarted<Item>(s: Snapshot<Item>): (r: Snapshot<Item>)
    ensures r.isLoading && ShowLoader(r) && !ShowLoadMore(r)
    ensures r == s.(isLoading := true)
    ensures !ShouldFetch(s, r) && RequestOf(r) == RequestOf(s)
  {
    s.(isLoading := true)
  }

  /** The end of addImages, applied to the state current when the reply
      arrives (which need not be the state the fetch started in):
      - non-empty hits: the normalised hits are appended to the images, the
        error is cleared and the page count is recomputed from totalHits;
      - no hits: nothing but the loading flag changes (the notice is shown);
      - failure: the error message is set, images and page count stay.
      In every case the `finally` block leaves the loading flag down. */
  function FetchCompleted<Raw, Item>(s: Snapshot<Item>, reply: Reply<Raw>, normalize: seq<Raw> -> seq<Item>): (r: Snapshot<Item>)
    ensures !r.isLoading && !ShowLoader(r)
    ensures r.searchName == s.searchName && r.currentPage == s.currentPage && !ShouldFetch(s, r)
    ensures s.images <= r.images
    ensures reply.Success? && |reply.hits| > 0 ==>
              && r.images[|s.images|..] == normalize(reply.hits)
              && |r.images| == |s.images| + |normalize(reply.hits)|
              && r.error == Some("")
              && PAGE_SIZE * r.totalPages - PAGE_SIZE < reply.totalHits <= PAGE_SIZE * r.totalPages
    ensures reply.Success? && |reply.hits| == 0 ==> r == s.(isLoading := false)
    ensures reply.Failure? ==>
              && r.images == s.images
              && r.totalPages == s.totalPages
              && r.error == Some(FAILURE_MESSAGE)
  {
    match reply
    case Failure =>
      s.(error := Some(FAILURE_MESSAGE), isLoading := false)
    case Success(hits, totalHits) =>
      if |hits| == 0 then
        s.(isLoading := false)
      else
        s.(images := s.images + normalize(hits), isLoading := false, error := Some(""),
           totalPages := TotalPages(totalHits))
  }

  /** A fetch cycle that starts and completes with no other event in between
      changes neither query nor page, and ends with the loader hidden. */
  lemma FetchCycleSettles<Raw, Item>(s: Snapshot<Item>, reply: Reply<Raw>, normalize: seq<Raw> -> seq<Item>)
    ensures var r := FetchCompleted(FetchStarted(s), reply, normalize);
      && RequestOf(r) == RequestOf(s) && !r.isLoading
      && (reply.Success? && |reply.hits| == 0 ==> r == s.(isLoading := false))
      && (reply.Failure? ==> r == s.(isLoading := false, error := Some(FAILURE_MESSAGE)))
  {
  }
}
