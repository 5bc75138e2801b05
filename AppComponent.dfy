/** The root component of the image finder as an object whose fields are
    updated in place. Each method updates the fields the way the matching
    function of AppState maps one state to the next. */
module AppComponent {
  import opened Pagination
  import opened AppState

  class App<Raw, Item> {
    var searchName: string
    var images: seq<Item>
    var currentPage: nat
    var error: Option<string>
    var isLoading: bool
    var totalPages: nat

    /** The provider's normalisation of raw hits into gallery items. Its
        definition is not part of this model; nothing is assumed about it. */
    const normalize: seq<Raw> -> seq<Item>

    /** The current value of the state record. */
    function State(): (s: Snapshot<Item>)
      reads this
    {
      Snapshot(searchName, images, currentPage, error, isLoading, totalPages)
    }

    /** The initial state: no query, no images, first page, no error, not
        loading, no pages known. */
    constructor (normalize: seq<Raw> -> seq<Item>)
      ensures State() == Initial() && this.normalize == normalize
      ensures !ShowGallery(State()) && !ShowLoader(State()) && !ShowLoadMore(State())
    {
      searchName := "";
      images := [];
      currentPage := 1;
      error := None;
      isLoading := false;
      totalPages := 0;
      this.normalize := normalize;
    }

    /** handleSubmit: starts a new search. */
    method HandleSubmit(query: string)
      modifies this
      ensures State() == Submitted(old(State()), query)
    {
      searchName := query;
      images := [];
      currentPage := 1;
    }

    /** loadMore: asks for the next page. There is no guard here; the view
        offers it only while ShowLoadMore holds. */
    method LoadMore()
      modifies this
      ensures State() == PageAdvanced(old(State()))
    {
      currentPage := currentPage + 1;
    }

    /** componentDidUpdate: when the query or the page changed since `prev`,
        starts a fetch and returns the request it sends. */
    method ComponentDidUpdate(prev: Snapshot<Item>) returns (started: Option<Request>)
      modifies this
      ensures started.Some? <==> ShouldFetch(prev, old(State()))
      ensures started.Some? ==> started.value == RequestOf(old(State())) && State() == FetchStarted(old(State()))
      ensures started.None? ==> State() == old(State())
    {
      if ShouldFetch(prev, State()) {
        var request := BeginFetch();
        started := Some(request);
      } else {
        started := None;
      }
    }

    /** The first half of addImages, up to the provider call: reads query and
        page for the request and raises the loading flag. */
    method BeginFetch() returns (request: Request)
      modifies this
      ensures request == RequestOf(old(State()))
      ensures State() == FetchStarted(old(State()))
    {
      request := Request(searchName, currentPage);
      isLoading := true;
    }

    /** The second half of addImages, once the provider call settles: applies
        the reply to the fields as they are now, then runs the `finally`
        block. Returns the informational notice it shows, if any. */
    method CompleteFetch(reply: Reply<Raw>) returns (notice: Option<string>)
      modifies this
      ensures State() == FetchCompleted(old(State()), reply, normalize)
      ensures notice == if reply.Success? && |reply.hits| == 0 then Some(NOT_FOUND_NOTICE) else None
    {
      notice := None;
      match reply {
        case Failure =>
          error := Some(FAILURE_MESSAGE);
        case Success(hits, totalHits) =>
          if |hits| == 0 {
            notice := Some(NOT_FOUND_NOTICE);
          } else {
            var normalized := normalize(hits);
            images := images + normalized;
            isLoading := false;
            error := Some("");
            totalPages := TotalPages(totalHits);
          }
      }
      isLoading := false;
    }
  }
}
