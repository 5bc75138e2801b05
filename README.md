# Image finder: search and pagination state of the root component

This project models the root `App` component of a small image-search page. A
user submits a query. The component resets its gallery to the first page. A
change of query or page triggers a fetch from the image provider. The hits
that come back are normalised and appended to the gallery. A "load more"
button asks for the next page until the last page is reached.

The model is split by concern:

- `Pagination.dfy` (module `Pagination`): the page size of 12 and the page
  count `ceil(totalHits / 12)`, computed on naturals.
- `AppState.dfy` (module `AppState`): the state record as a value
  (`Snapshot`), the provider's reply (`Reply`), the request a fetch sends
  (`Request`), and each transition as a function from one state to the next:
  `Submitted` (handleSubmit), `PageAdvanced` (loadMore), `FetchStarted` and
  `FetchCompleted` (the two halves of addImages around the provider call).
  It also holds the fetch trigger of componentDidUpdate (`ShouldFetch`) and
  the visibility rules of render (`ShowGallery`, `ShowLoader`, `ShowLoadMore`).
- `AppComponent.dfy` (module `AppComponent`): class `App` with the six state
  fields, updated in place. Each method is proved to change the fields exactly
  as the matching `AppState` function says. addImages is split into
  `BeginFetch` and `CompleteFetch`, because the reply arrives later and is
  applied to the fields as they are at that moment.
- `AppSession.dfy` (module `AppSession`): sequences of user events, each
  followed by the fetch it triggers and that fetch's reply. It holds the
  session invariant ("the page never passes the page count once that count
  is known") and the consequences of having no stale-reply check.

The provider call and the normalisation of raw hits are outside the model.
A reply is an input (`Success(hits, totalHits)` or `Failure`). Normalisation
is a function value `normalize` given to the component when it is built.
It is taken to be a total function, but nothing else is assumed about it, not
even that it keeps the number of hits.

Three behaviours of the component are worth knowing:

- The component does not discard stale replies. Every reply is appended to
  the images held when it arrives (App.jsx:67-68).
  `AppSession.StaleReplyIsAppended` shows old hits ending up in a new query's
  gallery.
- Resubmitting the current query on page 1 empties the gallery and fetches
  nothing. A fetch is triggered only when the query or the page changes
  (App.jsx:24-27); see `AppSession.ResubmitOnFirstPageEmptiesWithoutFetch`.
- The empty-result test looks at the raw hits (App.jsx:57), before
  normalisation. Non-empty raw hits that normalise to nothing still update the
  error and the page count.

The session invariant relies on a property of the provider, stated as
`AppSession.Consistent`. The provider returns hits for page `p` only when
`totalHits > 12 * (p - 1)`. Without it, a reply whose `totalHits` shrank
could set the page count below the current page. Then the button's test
`totalPages !== currentPage` would keep offering pages that do not exist.

## Model

| member | source | states |
|---|---|---|
| `Pagination.TotalPages` | src/components/App/App.jsx:71 | The page count is `ceil(totalHits / 12)`: `12 * (pages - 1) < totalHits <= 12 * pages`, and it is 0 exactly when there are no hits. |
| `Pagination.TotalPagesIsLeast` | src/components/App/App.jsx:71 | No smaller page count holds all hits, and the bracketing above picks out the page count uniquely. |
| `Pagination.PageWithinTotal` | src/components/App/App.jsx:71 | When there are more hits than the pages before `page` hold, `page` is at most the page count. |
| `AppState.Initial` | src/components/App/App.jsx:12-19 | The initial state shows neither gallery, loader nor button. Its request is the empty query on page 1, its error is `null` and its page count is 0. |
| `AppState.ShouldFetch` | src/components/App/App.jsx:24-27 | componentDidUpdate fetches exactly when the query or the page differ between the previous and the current state, that is, when the (query, page) request differs. |
| `AppState.OtherFieldsNeverFetch` | src/components/App/App.jsx:22-30 | A state change that touches only images, error, loading flag or page count never triggers a fetch, whatever their new values. |
| `AppState.LoadMoreButtonExcludesLoader` | src/components/App/App.jsx:87-103 | The three visibility rules of render are the predicates `ShowGallery` (line 87), `ShowLoader` (line 100) and `ShowLoadMore` (line 101). The button is shown only beside a non-empty gallery, never with the loader, and never when the page equals the page count. |
| `AppState.Submitted` | src/components/App/App.jsx:40-46 | handleSubmit sets the query, empties the images and goes to page 1. Error, loading flag and page count are kept. It triggers a fetch exactly when the query differs or the page was not 1. Gallery and button are hidden afterwards. |
| `AppState.PageAdvanced` | src/components/App/App.jsx:33-37 | loadMore raises the page by exactly 1 and changes nothing else. It always triggers a fetch of the next page for the same query. |
| `AppState.FetchStarted` | src/components/App/App.jsx:50-52 | Starting a fetch raises the loading flag: the loader shows (`ShowLoader`) and the button hides (`ShowLoadMore` fails). Query and page stay, so no further fetch is triggered. |
| `AppState.FetchCompleted` | src/components/App/App.jsx:49-78 | The loading flag ends down on every path, so `ShowLoader` fails, and query and page are kept. The old images are a prefix of the new ones. Non-empty hits: the normalised hits are appended, length grows by their count, error becomes `''`, page count is `ceil(totalHits/12)`. No hits: only the flag changes. Failure: error is the failure message, images and page count are kept. |
| `AppState.FetchCycleSettles` | src/components/App/App.jsx:49-78 | A fetch that starts and completes with nothing in between keeps the request and ends not loading. An empty or failed reply changes nothing else, apart from the error message on failure. |
| `AppComponent.App.constructor` | src/components/App/App.jsx:12-19 | The initial state is empty query, no images, page 1, `null` error, not loading, page count 0. Nothing is shown but the empty-gallery message. |
| `AppComponent.App.HandleSubmit` | src/components/App/App.jsx:40-46 | The fields become `Submitted` of the old fields. |
| `AppComponent.App.LoadMore` | src/components/App/App.jsx:33-37 | The fields become `PageAdvanced` of the old fields. There is no guard in the method. |
| `AppComponent.App.ComponentDidUpdate` | src/components/App/App.jsx:22-30 | It starts a fetch, and returns the request sent, exactly when `ShouldFetch` holds between the previous and the current state. Otherwise nothing changes. |
| `AppComponent.App.BeginFetch` | src/components/App/App.jsx:50-55 | It returns the current query and page as the request and raises the loading flag (`FetchStarted`). |
| `AppComponent.App.CompleteFetch` | src/components/App/App.jsx:55-77 | The fields become `FetchCompleted` of the fields at completion time. The not-found notice is returned exactly when the reply has no hits. |
| `AppSession.Step` | src/components/App/App.jsx:22-78 | One event, componentDidUpdate and, when it fired, the settled fetch cycle. The turn ends on the query and page the event set. A triggered fetch leaves the loader down; an untriggered turn is just the event's state change. |
| `AppSession.SettledLoadMoreMeansMorePages` | src/components/App/App.jsx:101 | In a settled state, `ShowLoadMore` (the button's `totalPages !== currentPage` test) holds exactly when images are shown and there is a page after the current one. |
| `AppSession.StepKeepsSettled` | src/components/App/App.jsx:22-78 | A submit or a visible-button click, followed by its fetch cycle with a consistent reply, keeps these facts: page at least 1, not loading, page within the page count once that count is non-zero, and a non-zero page count while images are shown. |
| `AppSession.RunKeepsSettled` | src/components/App/App.jsx:22-78 | The same facts hold after any session of such turns. |
| `AppSession.LoadMoreOfferedOnlyBeforeLastPage` | src/components/App/App.jsx:101 | After any such session from the initial state, the page never exceeds a known page count, and the button is offered exactly when images are shown and a next page exists. So "load more" is never offered while loading or on the last page. |
| `AppSession.LoadMoreSessionExtendsGallery` | src/components/App/App.jsx:67-68 | Over any run of "load more" clicks the earlier images remain a prefix, the query is kept, and the page grows by the number of clicks. |
| `AppSession.ResubmitOnFirstPageEmptiesWithoutFetch` | src/components/App/App.jsx:22-46 | Submitting the current query on page 1 empties the gallery and triggers no fetch. |
| `AppSession.StaleReplyIsAppended` | src/components/App/App.jsx:49-78 | A reply for an old query that arrives after a new submission is appended to the new query's gallery and drops the loading flag while the new fetch is pending. |
| `AppSession.TwoPageSearch` | src/components/App/App.jsx:65-101 | With 14 hits in total, the first page gives 2 pages and the button is shown. After the second page the images are the concatenation, the page equals the page count, and the button is hidden. |
| `AppSession.UnsuccessfulFirstSearch` | src/components/App/App.jsx:57-77 | A first search with no hits leaves the gallery empty, the page count 0 and the error `null`. A failed first search sets the failure message. Neither leaves the loader up. |

## Left out

- The provider call `API.getImages` (a network request) is not part of this model: its reply is an input of `App.CompleteFetch` and of each session turn.
- `API.normalizedImages` is not part of this model: it is the function value `normalize`, about which nothing is assumed.
- The toast notification widget is not modelled; the notice `App.CompleteFetch` would show is returned instead.
- JSX markup, styles and the child components (search bar, gallery, loader, button) are presentation only; only the three visibility conditions of `render` are modelled.
- React's scheduling is not modelled: `setState` batching, asynchronous merging and lifecycle ordering. Each method applies its updates at once. On the class, overlapping fetches are expressed by calling `BeginFetch` and `CompleteFetch` in any order. The `Step`-based session lemmas assume each fetch settles before the next event; `AppSession.StaleReplyIsAppended` composes one overlap explicitly.
- `Math.ceil` on floating point is modelled as integer ceiling division on naturals. The two agree for every hit count below 2^53.
- A normalisation that throws is not modelled separately: its exception reaches the same catch block as a failed provider call (App.jsx:65, 73-74), so it is represented by a `Failure` reply, which has the same effect.
- The JavaScript `error` field holds `null` or a string. It is modelled as `Option<string>`.
