/** Whole sessions of the image finder: a user event, the fetch it triggers
    and that fetch's reply, repeated. This is where the guards that live in
    the view (the button shown only while ShowLoadMore holds) and the
    behaviour of the provider are put to use, and where the consequences of
    the component having no stale-reply check are shown. */
module AppSession {
  import opened Pagination
  import opened AppState

  /** What the view hands to the component: a submitted query or a click on
      the "load more" button. */
  datatype UserEvent = Submit(query: string) | ClickLoadMore

  /** One turn of a session: an event, and the reply the provider gives to
      the fetch that the event triggers (ignored when it triggers none). */
  datatype Turn<Raw> = Turn(event: UserEvent, reply: Reply<Raw>)

  /** The state change an event causes. */
  function Apply<Item>(s: Snapshot<Item>, e: UserEvent): (r: Snapshot<Item>) {
    match e
    case Submit(query) => Submitted(s, query)
    case ClickLoadMore => PageAdvanced(s)
  }

  /** A turn in which the fetch triggered by the event settles before the
      next event: the event, componentDidUpdate, and the whole fetch cycle.
      The turn ends on the query and page the event set; when the event
      triggered a fetch the loader is down again, and when it did not the
      event's state change is all that happened. */
  function Step<Raw, Item>(s: Snapshot<Item>, t: Turn<Raw>, normalize: seq<Raw> -> seq<Item>): (r: Snapshot<Item>)
    ensures RequestOf(r) == RequestOf(Apply(s, t.event))
    ensures ShouldFetch(s, Apply(s, t.event)) ==> !r.isLoading
    ensures !ShouldFetch(s, Apply(s, t.event)) ==> r == Apply(s, t.event)
    ensures !s.isLoading ==> !r.isLoading
  {
    var next := Apply(s, t.event);
    if ShouldFetch(s, next) then FetchCompleted(FetchStarted(next), t.reply, normalize) else next
  }

  /** The state after a sequence of turns. */
  function Run<Raw, Item>(s: Snapshot<Item>, turns: seq<Turn<Raw>>, normalize: seq<Raw> -> seq<Item>): (r: Snapshot<Item>)
    decreases |turns|
  {
    if turns == [] then s else Run(Step(s, turns[0], normalize), turns[1..], normalize)
  }

  /** What the provider is relied on for: it returns hits for page `p` only
      when there are more hits than the `p - 1` pages before it hold. */
  predicate Consistent<Raw>(request: Request, reply: Reply<Raw>) {
    reply.Success? && |reply.hits| > 0 ==> reply.totalHits > PAGE_SIZE * (request.page - 1)
  }

  /** A turn the view and the provider can produce from `s`: the button is
      clicked only while shown, and the reply fits the request it answers. */
  predicate Allowed<Raw, Item>(s: Snapshot<Item>, t: Turn<Raw>) {
    && (t.event.ClickLoadMore? ==> ShowLoadMore(s))
    && Consistent(RequestOf(Apply(s, t.event)), t.reply)
  }

  /** Every turn of `turns` is allowed in the state it is taken from. */
  predicate AllAllowed<Raw, Item>(s: Snapshot<Item>, turns: seq<Turn<Raw>>, normalize: seq<Raw> -> seq<Item>)
    decreases |turns|
  {
    turns == [] || (Allowed(s, turns[0]) && AllAllowed(Step(s, turns[0], normalize), turns[1..], normalize))
  }

  /** The state between turns: a valid page, no fetch in flight, a page that
      never exceeds the page count once that count is known, and, while the
      gallery shows images, a known page count. */
  predicate Settled<Item>(s: Snapshot<Item>) {
    && s.currentPage >= 1
    && !s.isLoading
    && (s.totalPages > 0 ==> s.currentPage <= s.totalPages)
    && (|s.images| > 0 ==> s.currentPage <= s.totalPages)
  }

  /** In a settled state the button's test `totalPages !== currentPage` means
      "there is a page after the current one": it is offered exactly when more
      pages exist, and never on the last page. */
  lemma SettledLoadMoreMeansMorePages<Item>(s: Snapshot<Item>)
    requires Settled(s)
    ensures ShowLoadMore(s) <==> |s.images| > 0 && s.currentPage < s.totalPages
  {
  }

  /** Every allowed turn keeps the state settled. */
  lemma StepKeepsSettled<Raw, Item>(s: Snapshot<Item>, t: Turn<Raw>, normalize: seq<Raw> -> seq<Item>)
    requires Settled(s) && Allowed(s, t)
    ensures Settled(Step(s, t, normalize))
  {
  }

  /** Every session made of allowed turns keeps the state settled. */
  lemma {:induction false} RunKeepsSettled<Raw, Item>(s: Snapshot<Item>, turns: seq<Turn<Raw>>, normalize: seq<Raw> -> seq<Item>)
    requires Settled(s) && AllAllowed(s, turns, normalize)
    ensures Settled(Run(s, turns, normalize))
    decreases |turns|
  {
    if turns != [] {
      StepKeepsSettled(s, turns[0], normalize);
      RunKeepsSettled(Step(s, turns[0], normalize), turns[1..], normalize);
    }
  }

  /** From the initial state, after any session of allowed turns, the button
      is offered exactly when there is a next page, and the page is never
      beyond the page count once that count is known. */
  lemma LoadMoreOfferedOnlyBeforeLastPage<Raw, Item>(turns: seq<Turn<Raw>>, normalize: seq<Raw> -> seq<Item>)
    requires AllAllowed(Initial(), turns, normalize)
    ensures var s := Run(Initial(), turns, normalize);
      && s.currentPage >= 1 && !s.isLoading
      && (s.totalPages > 0 ==> s.currentPage <= s.totalPages)
      && (ShowLoadMore(s) <==> |s.images| > 0 && s.currentPage < s.totalPages)
  {
    RunKeepsSettled(Initial(), turns, normalize);
    SettledLoadMoreMeansMorePages(Run(Initial(), turns, normalize));
  }

  /** Between two searches the gallery only grows: a session of "load more"
      clicks keeps the images already shown as a prefix, and keeps the query. */
  lemma {:induction false} LoadMoreSessionExtendsGallery<Raw, Item>(s: Snapshot<Item>, turns: seq<Turn<Raw>>, normalize: seq<Raw> -> seq<Item>)
    requires forall i :: 0 <= i < |turns| ==> turns[i].event.ClickLoadMore?
    ensures var r := Run(s, turns, normalize);
      s.images <= r.images && r.searchName == s.searchName && r.currentPage == s.currentPage + |turns|
    decreases |turns|
  {
    if turns != [] {
      var next := Step(s, turns[0], normalize);
      LoadMoreSessionExtendsGallery(next, turns[1..], normalize);
    }
  }

  /** Submitting the query already shown while on the first page empties the
      gallery but starts no fetch: neither the query nor the page changed. */
  lemma ResubmitOnFirstPageEmptiesWithoutFetch<Item>(s: Snapshot<Item>)
    requires s.currentPage == 1
    ensures var r := Submitted(s, s.searchName);
      !ShouldFetch(s, r) && r.images == [] && !ShowGallery(r)
  {
  }

  /** The component keeps no record of which request a reply answers. When a
      new query is submitted while a fetch for the old one is in flight, and
      the old fetch settles afterwards, the old query's hits land in the new
      query's gallery and the loader goes down while the new fetch is still
      pending. */
  lemma StaleReplyIsAppended<Raw, Item>(s: Snapshot<Item>, query: string, hits: seq<Raw>, totalHits: nat, normalize: seq<Raw> -> seq<Item>)
    requires query != s.searchName && |hits| > 0
    ensures var pending := FetchStarted(s);
      var resubmitted := Submitted(pending, query);
      var newFetch := FetchStarted(resubmitted);
      var r := FetchCompleted(newFetch, Success(hits, totalHits), normalize);
      && ShouldFetch(pending, resubmitted)
      && r.searchName == query
      && r.images == normalize(hits)
      && !r.isLoading
  {
  }

  /** A two-page search, with items that are their own normalised form: a
      search whose provider reports 14 hits yields 2 pages; the button is offered after the first page and withdrawn once
      the second page has been appended. */
  lemma TwoPageSearch(a: int, b: int, c: int)
    ensures var normalize := (hits: seq<int>) => hits;
      var first := Step(Initial(), Turn(Submit("cats"), Success([a, b], 14)), normalize);
      var second := Step(first, Turn(ClickLoadMore, Success([c], 14)), normalize);
      && first.images == [a, b] && first.totalPages == 2 && ShowLoadMore(first)
      && second.images == [a, b, c] && second.currentPage == 2 == second.totalPages
      && !ShowLoadMore(second)
  {
  }

  /** The two unsuccessful outcomes of a first search: no hits leaves the
      gallery empty and no page count known; a failed call stores the
      failure message. Neither leaves the loader up. */
  lemma UnsuccessfulFirstSearch(query: string)
    requires query != ""
    ensures var normalize := (hits: seq<int>) => hits;
      var empty := Step(Initial(), Turn(Submit(query), Success([], 0)), normalize);
      var failed := Step(Initial(), Turn(Submit(query), Failure), normalize);
      && empty.images == [] && empty.totalPages == 0 && !empty.isLoading && empty.error == None
      && failed.images == [] && failed.error == Some(FAILURE_MESSAGE) && !failed.isLoading
  {
  }
}
