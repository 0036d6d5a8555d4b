/**
 * The search screen's session (`GameSearchViewModel`): the current query, the
 * current page, the last-page flag and the screen state, changed by a new
 * search, by loading more, by retrying, and by each emission or failure of
 * the search flow a step launched.
 *
 * Launching a coroutine is modelled as returning the request it will make
 * (query and page, with `forceRefresh` false); its emissions and its failure
 * come back later as separate steps. The pure functions below are the
 * session's transitions; the class runs them on its fields.
 */
module SearchViewModel {
  import opened Wrappers
  import opened KotlinText
  import opened Models
  import opened GameMappers
  import opened CacheRows
  import opened Repository

  /** A launched `searchGamesUseCase(query, page)` call. */
  datatype PageRequest = PageRequest(query: string, page: int)

  /** The view model's fields. */
  datatype Session = Session(currentQuery: string, currentPage: int, isLastPage: bool, uiState: GameSearchUiState)

  /** The state after a step, and the request it launched, if any. */
  datatype Step = Step(session: Session, request: Option<PageRequest>)

  /** Which collector consumes a launched flow: `searchGames` replaces the list, `loadMoreGames` appends to it. */
  datatype Collector = ReplaceGames | AppendGames

  const UnknownError: string := "Unknown error occurred"

  const InitialSession: Session := Session("", 1, false, InitialSearchUiState)

  /**
   * What holds between the fields at every step: pages count from 1, the
   * screen shows the current query, a blank query never leaves page 1, and
   * the private last-page flag is never set without the screen's copy.
   */
  predicate Valid(s: Session) {
    && s.currentPage >= 1
    && s.uiState.searchQuery == s.currentQuery
    && (IsBlank(s.currentQuery) ==> s.currentPage == 1)
    && (s.isLastPage ==> s.uiState.isLastPage)
  }

  /** The request the session's own fields describe. */
  function RequestOf(s: Session): PageRequest {
    PageRequest(s.currentQuery, s.currentPage)
  }

  /** `loadMoreGames` gets past its guard. */
  predicate CanLoadMore(s: Session) {
    !s.uiState.isLoading && !IsBlank(s.currentQuery) && !s.isLastPage
  }

  /** `searchGames(query)`. */
  function SearchStep(s: Session, query: string): (r: Step)
    ensures Valid(s) ==> Valid(r.session)
    ensures r.request.Some? <==> !IsBlank(query)
    ensures r.request.None? ==> r.session == s
    ensures r.request.Some? ==> r.request.value == PageRequest(query, 1) == RequestOf(r.session)
    ensures r.request.Some? ==>
      && r.session.currentQuery == query && r.session.currentPage == 1 && !r.session.isLastPage
      && r.session.uiState == s.uiState.(isLoading := true, games := [], error := None, searchQuery := query)
  {
    if IsBlank(query) then Step(s, None)
    else
      var ui := s.uiState.(isLoading := true, games := [], error := None, searchQuery := query);
      Step(Session(query, 1, false, ui), Some(PageRequest(query, 1)))
  }

  /** `loadMoreGames()`. */
  function LoadMoreStep(s: Session): (r: Step)
    ensures Valid(s) ==> Valid(r.session)
    ensures r.request.Some? <==> CanLoadMore(s)
    ensures r.request.None? ==> r.session == s
    ensures r.request.Some? ==>
      && r.request.value == RequestOf(r.session)
      && r.session.currentQuery == s.currentQuery && r.session.currentPage == s.currentPage + 1
      && r.session.uiState.games == s.uiState.games && r.session.uiState.error == s.uiState.error
  {
    if !CanLoadMore(s) then Step(s, None)
    else
      var page := s.currentPage + 1;
      Step(s.(currentPage := page, uiState := s.uiState.(isLoading := true)), Some(PageRequest(s.currentQuery, page)))
  }

  /** `retry()`: a new search at page 1, otherwise a load of the page after the current one. */
  function RetryStep(s: Session): (r: Step)
    ensures Valid(s) ==> Valid(r.session)
    ensures IsBlank(s.currentQuery) ==> r == Step(s, None)
    ensures r.request.Some? ==> r.request.value == RequestOf(r.session) && r.request.value.query == s.currentQuery
    ensures !IsBlank(s.currentQuery) && s.currentPage == 1 ==> r == SearchStep(s, s.currentQuery)
    ensures !IsBlank(s.currentQuery) && s.currentPage != 1 ==> r == LoadMoreStep(s)
  {
    if IsBlank(s.currentQuery) then Step(s, None)
    else if s.currentPage == 1 then SearchStep(s, s.currentQuery)
    else LoadMoreStep(s)
  }

  /** One list collected from a launched flow. */
  function ShowEmission(s: Session, c: Collector, games: seq<Game>): (r: Session)
    ensures Valid(s) ==> Valid(r)
    ensures !r.uiState.isLoading && r.uiState.error == s.uiState.error
    ensures r.isLastPage == r.uiState.isLastPage == (games == [])
    ensures r.currentQuery == s.currentQuery && r.currentPage == s.currentPage
    ensures c == ReplaceGames ==> r.uiState.games == ToUiModels(games)
    ensures c == AppendGames ==> r.uiState.games == s.uiState.games + ToUiModels(games)
  {
    var shown := if c == ReplaceGames then ToUiModels(games) else s.uiState.games + ToUiModels(games);
    s.(isLastPage := |games| == 0, uiState := s.uiState.(isLoading := false, games := shown, isLastPage := |games| == 0))
  }

  /** The flow threw: its message, or "Unknown error occurred" when it has none. */
  function ShowFailure(s: Session, message: Option<string>): (r: Session)
    ensures Valid(s) ==> Valid(r)
    ensures !r.uiState.isLoading && r.uiState.error == Some(message.GetOr(UnknownError))
    ensures r.currentQuery == s.currentQuery && r.currentPage == s.currentPage && r.isLastPage == s.isLastPage
    ensures r.uiState.games == s.uiState.games && r.uiState.isLastPage == s.uiState.isLastPage
  {
    s.(uiState := s.uiState.(isLoading := false, error := Some(message.GetOr(UnknownError))))
  }

  /** The lists of several emissions, one after another. */
  function Flatten(emissions: seq<seq<Game>>): seq<Game> {
    if emissions == [] then [] else emissions[0] + Flatten(emissions[1..])
  }

  /** A launched flow collected to its end: every emission in order, then the failure, if it threw. */
  function Collected(s: Session, c: Collector, emissions: seq<seq<Game>>, end: FlowEnd): Session
    decreases |emissions|
  {
    if emissions == [] then
      if end.Threw? then ShowFailure(s, end.message) else s
    else
      Collected(ShowEmission(s, c, emissions[0]), c, emissions[1..], end)
  }

  /**
   * What collecting a flow keeps and ends: the invariant, the query and the
   * page stay; any emission or a throw ends loading; a throw shows its
   * message, a normal end keeps the error; an empty normal flow changes nothing.
   */
  lemma {:induction false} CollectedKeeps(s: Session, c: Collector, emissions: seq<seq<Game>>, end: FlowEnd)
    ensures Valid(s) ==> Valid(Collected(s, c, emissions, end))
    ensures var r := Collected(s, c, emissions, end);
      r.currentQuery == s.currentQuery && r.currentPage == s.currentPage
    ensures emissions != [] || end.Threw? ==> !Collected(s, c, emissions, end).uiState.isLoading
    ensures end.Threw? ==> Collected(s, c, emissions, end).uiState.error == Some(end.message.GetOr(UnknownError))
    ensures end == Completed ==> Collected(s, c, emissions, end).uiState.error == s.uiState.error
    ensures emissions == [] && end == Completed ==> Collected(s, c, emissions, end) == s
    decreases |emissions|
  {
    if emissions != [] {
      var next := ShowEmission(s, c, emissions[0]);
      CollectedKeeps(next, c, emissions[1..], end);
    }
  }

  /** Once a flow with emissions is collected, both last-page flags say whether its last emission was empty. */
  lemma {:induction false} CollectedLastPage(s: Session, c: Collector, emissions: seq<seq<Game>>, end: FlowEnd)
    requires emissions != []
    ensures var r := Collected(s, c, emissions, end);
      r.isLastPage == r.uiState.isLastPage == (emissions[|emissions| - 1] == [])
    decreases |emissions|
  {
    var rest := emissions[1..];
    if rest != [] {
      assert rest[|rest| - 1] == emissions[|emissions| - 1];
      CollectedLastPage(ShowEmission(s, c, emissions[0]), c, rest, end);
    } else {
      CollectedKeeps(ShowEmission(s, c, emissions[0]), c, rest, end);
    }
  }

  /** A collected search shows exactly its last emission. */
  lemma {:induction false} CollectedReplacesGames(s: Session, emissions: seq<seq<Game>>, end: FlowEnd)
    requires emissions != []
    ensures Collected(s, ReplaceGames, emissions, end).uiState.games == ToUiModels(emissions[|emissions| - 1])
    decreases |emissions|
  {
    var rest := emissions[1..];
    if rest != [] {
      assert rest[|rest| - 1] == emissions[|emissions| - 1];
      CollectedReplacesGames(ShowEmission(s, ReplaceGames, emissions[0]), rest, end);
    }
  }

  /** The lists of the first emission and of the rest, one after the other, are the lists of all of them. */
  lemma ToUiModelsOfFlatten(emissions: seq<seq<Game>>)
    requires emissions != []
    ensures ToUiModels(emissions[0]) + ToUiModels(Flatten(emissions[1..])) == ToUiModels(Flatten(emissions))
  {
    ToUiModelsAppend(emissions[0], Flatten(emissions[1..]));
  }

  /**
   * One step of collecting a load more: when the rest of the flow appends its
   * lists to what the first emission shows, the whole flow appends all of them.
   */
  lemma CollectedAppendsStep(s: Session, emissions: seq<seq<Game>>, end: FlowEnd)
    requires emissions != []
    requires var next := ShowEmission(s, AppendGames, emissions[0]);
      Collected(next, AppendGames, emissions[1..], end).uiState.games
        == next.uiState.games + ToUiModels(Flatten(emissions[1..]))
    ensures Collected(s, AppendGames, emissions, end).uiState.games == s.uiState.games + ToUiModels(Flatten(emissions))
  {
    var next := ShowEmission(s, AppendGames, emissions[0]);
    assert next.uiState.games == s.uiState.games + ToUiModels(emissions[0]);
    ToUiModelsOfFlatten(emissions);
    AppendAssociates(s.uiState.games, ToUiModels(emissions[0]), ToUiModels(Flatten(emissions[1..])));
  }

  /** Concatenation of screen lists associates. */
  lemma AppendAssociates(a: seq<GameUiModel>, b: seq<GameUiModel>, c: seq<GameUiModel>)
    ensures a + b + c == a + (b + c)
  {
  }

  /** A collected load more appends every emission, in order, to the list it started with. */
  lemma {:induction false} CollectedAppendsGames(s: Session, emissions: seq<seq<Game>>, end: FlowEnd)
    ensures Collected(s, AppendGames, emissions, end).uiState.games == s.uiState.games + ToUiModels(Flatten(emissions))
    decreases |emissions|
  {
    if emissions != [] {
      CollectedAppendsGames(ShowEmission(s, AppendGames, emissions[0]), emissions[1..], end);
      CollectedAppendsStep(s, emissions, end);
    } else {
      assert s.uiState.games + [] == s.uiState.games;
    }
  }

  class GameSearchViewModel {
    var uiState: GameSearchUiState
    var currentQuery: string
    var currentPage: int
    var isLastPage: bool

    function State(): Session
      reads this
    {
      Session(currentQuery, currentPage, isLastPage, uiState)
    }

    constructor()
      ensures State() == InitialSession && Valid(State())
    {
      uiState := InitialSearchUiState;
      currentQuery := "";
      currentPage := 1;
      isLastPage := false;
    }

    /** `searchGames`: a blank query is ignored; otherwise the session restarts at page 1 with an empty list. */
    method SearchGames(query: string) returns (request: Option<PageRequest>)
      modifies this
      ensures Step(State(), request) == SearchStep(old(State()), query)
      ensures IsBlank(query) ==> request == None && State() == old(State())
      ensures !IsBlank(query) ==>
        && currentQuery == query && currentPage == 1 && !isLastPage
        && uiState == old(uiState).(isLoading := true, games := [], error := None, searchQuery := query)
        && request == Some(PageRequest(query, 1))
    {
      if IsBlank(query) {
        request := None;
        return;
      }
      currentQuery := query;
      currentPage := 1;
      isLastPage := false;
      uiState := uiState.(isLoading := true, games := [], error := None, searchQuery := query);
      request := Some(PageRequest(query, currentPage));
    }

    /** `loadMoreGames`: unless loading, blank or at the last page, asks for the next page; list and error stay. */
    method LoadMoreGames() returns (request: Option<PageRequest>)
      modifies this
      ensures Step(State(), request) == LoadMoreStep(old(State()))
      ensures old(uiState.isLoading || IsBlank(currentQuery) || isLastPage) ==>
        request == None && State() == old(State())
      ensures !old(uiState.isLoading || IsBlank(currentQuery) || isLastPage) ==>
        && currentPage == old(currentPage) + 1 && currentQuery == old(currentQuery) && isLastPage == old(isLastPage)
        && uiState == old(uiState).(isLoading := true)
        && request == Some(PageRequest(currentQuery, currentPage))
    {
      if uiState.isLoading || IsBlank(currentQuery) || isLastPage {
        request := None;
        return;
      }
      currentPage := currentPage + 1;
      uiState := uiState.(isLoading := true);
      request := Some(PageRequest(currentQuery, currentPage));
    }

    /** `retry`: nothing for a blank query, a new search at page 1, otherwise `loadMoreGames`. */
    method Retry() returns (request: Option<PageRequest>)
      modifies this
      ensures Step(State(), request) == RetryStep(old(State()))
    {
      if IsBlank(currentQuery) {
        request := None;
        return;
      }
      if currentPage == 1 {
        request := SearchGames(currentQuery);
      } else {
        request := LoadMoreGames();
      }
    }

    /** The `collect` body of `searchGames`: the list on screen becomes the emitted one. */
    method OnSearchEmission(games: seq<Game>)
      modifies this
      ensures State() == ShowEmission(old(State()), ReplaceGames, games)
      ensures uiState == old(uiState).(isLoading := false, games := ToUiModels(games), isLastPage := |games| == 0)
      ensures isLastPage == (|games| == 0) && currentQuery == old(currentQuery) && currentPage == old(currentPage)
    {
      uiState := uiState.(isLoading := false, games := ToUiModels(games), isLastPage := |games| == 0);
      isLastPage := |games| == 0;
    }

    /** The `collect` body of `loadMoreGames`: the emitted list is appended to the one on screen. */
    method OnLoadMoreEmission(newGames: seq<Game>)
      modifies this
      ensures State() == ShowEmission(old(State()), AppendGames, newGames)
      ensures uiState == old(uiState).(isLoading := false, games := old(uiState.games) + ToUiModels(newGames),
                                      isLastPage := |newGames| == 0)
      ensures isLastPage == (|newGames| == 0) && currentQuery == old(currentQuery) && currentPage == old(currentPage)
    {
      uiState := uiState.(isLoading := false, games := uiState.games + ToUiModels(newGames), isLastPage := |newGames| == 0);
      isLastPage := |newGames| == 0;
    }

    /** The `catch` of either launch: loading stops and the error is shown; list and page stay. */
    method OnFailure(message: Option<string>)
      modifies this
      ensures State() == ShowFailure(old(State()), message)
      ensures uiState == old(uiState).(isLoading := false, error := Some(message.GetOr(UnknownError)))
      ensures currentQuery == old(currentQuery) && currentPage == old(currentPage) && isLastPage == old(isLastPage)
    {
      uiState := uiState.(isLoading := false, error := Some(message.GetOr(UnknownError)));
    }

    /** Collects a launched flow: each emission in order, then the failure if it threw. */
    method Collect(c: Collector, emissions: seq<seq<Game>>, end: FlowEnd)
      modifies this
      ensures State() == Collected(old(State()), c, emissions, end)
    {
      var rest := emissions;
      while rest != []
        invariant Collected(State(), c, rest, end) == Collected(old(State()), c, emissions, end)
        decreases |rest|
      {
        if c == ReplaceGames {
          OnSearchEmission(rest[0]);
        } else {
          OnLoadMoreEmission(rest[0]);
        }
        rest := rest[1..];
      }
      if end.Threw? {
        OnFailure(end.message);
      }
    }
  }

  // ---------------------------------------------------------------------------
  // What a session promises

  /**
   * `retry` after a failed load of page p asks for page p + 1: `loadMoreGames`
   * already advanced the page before the failure, and advances it again.
   */
  lemma RetryAfterLoadMoreFailureSkipsPage(s: Session, message: Option<string>)
    requires Valid(s) && CanLoadMore(s)
    ensures var load := LoadMoreStep(s);
      var failed := ShowFailure(load.session, message);
      && load.request == Some(PageRequest(s.currentQuery, s.currentPage + 1))
      && RetryStep(failed).request == Some(PageRequest(s.currentQuery, s.currentPage + 2))
  {
  }

  /**
   * `retry` past page 1 is `loadMoreGames`: when it gets past its guard it
   * moves to the next page and asks for it; otherwise nothing changes.
   */
  lemma RetryOnLaterPageLoadsNext(s: Session)
    requires !IsBlank(s.currentQuery) && s.currentPage != 1
    ensures CanLoadMore(s) ==>
      && RetryStep(s).request == Some(PageRequest(s.currentQuery, s.currentPage + 1))
      && RetryStep(s).session.currentPage == s.currentPage + 1
      && RetryStep(s).session.uiState.isLoading
    ensures !CanLoadMore(s) ==> RetryStep(s) == Step(s, None)
  {
  }

  /** `retry` on page 1 is a new search for the current query: page 1 again, the list cleared. */
  lemma RetryOnFirstPageSearchesAgain(s: Session)
    requires Valid(s) && !IsBlank(s.currentQuery) && s.currentPage == 1
    ensures RetryStep(s) == SearchStep(s, s.currentQuery)
    ensures RetryStep(s).request == Some(PageRequest(s.currentQuery, 1)) && RetryStep(s).session.uiState.games == []
  {
  }

  /** A load after a failure keeps the old error on screen while loading. */
  lemma LoadMoreKeepsError(s: Session, message: Option<string>)
    requires Valid(s) && !IsBlank(s.currentQuery) && !s.isLastPage
    ensures var load := LoadMoreStep(ShowFailure(s, message));
      load.request.Some? && load.session.uiState.isLoading
      && load.session.uiState.error == Some(message.GetOr(UnknownError))
  {
  }

  /** An empty page ends paging: no further `loadMoreGames` launches until the next search. */
  lemma EmptyPageStopsPaging(s: Session, c: Collector)
    ensures LoadMoreStep(ShowEmission(s, c, [])).request == None
  {
  }

  /**
   * A new search resets the private last-page flag but not the screen's copy:
   * after an empty page, the screen still reports the last page until the new
   * search's first emission.
   */
  lemma SearchKeepsShownLastPage(s: Session, query: string)
    requires !IsBlank(query) && s.uiState.isLastPage
    ensures !SearchStep(s, query).session.isLastPage && SearchStep(s, query).session.uiState.isLastPage
  {
  }

  /** Search, a first page, load more, a second page: the screen lists both pages in order. */
  lemma PaginationAppends(s: Session, query: string, first: seq<Game>, second: seq<Game>)
    requires Valid(s) && !IsBlank(query) && first != []
    ensures var s1 := ShowEmission(SearchStep(s, query).session, ReplaceGames, first);
      var load := LoadMoreStep(s1);
      var s2 := ShowEmission(load.session, AppendGames, second);
      && load.request == Some(PageRequest(query, 2))
      && s2.uiState.games == ToUiModels(first + second)
      && s2.currentPage == 2 && s2.isLastPage == (second == [])
  {
    ToUiModelsAppend(first, second);
  }

  /**
   * A search whose fetch succeeds ends showing exactly the fetched games, not
   * loading and without error, whatever the cache held; it is the last page
   * exactly when the fetch returned nothing.
   */
  lemma SearchShowsFetchedGames(s: Session, query: string, store: seq<GameEntity>, dtos: seq<GameDto>, now: Long)
    requires Valid(s) && !IsBlank(query)
    ensures var start := SearchStep(s, query);
      var run := SearchFlow(store, query, 1, false, Fetched(dtos), now);
      var final := Collected(start.session, ReplaceGames, run.emissions, run.end);
      && final.uiState.games == ToUiModels(DtosToDomain(dtos))
      && !final.uiState.isLoading && final.uiState.error == None
      && final.isLastPage == (dtos == []) && Valid(final)
  {
    var start := SearchStep(s, query);
    var run := SearchFlow(store, query, 1, false, Fetched(dtos), now);
    CollectedKeeps(start.session, ReplaceGames, run.emissions, run.end);
    CollectedLastPage(start.session, ReplaceGames, run.emissions, run.end);
    CollectedReplacesGames(start.session, run.emissions, run.end);
  }

  /**
   * A load more of a page with nothing cached, whose fetch succeeds, appends
   * exactly the fetched games to the list on screen and ends loading.
   */
  lemma LoadMoreAppendsFetchedGames(s: Session, store: seq<GameEntity>, dtos: seq<GameDto>, now: Long)
    requires CanLoadMore(s) && PageRows(store, s.currentQuery, s.currentPage + 1) == []
    ensures var load := LoadMoreStep(s);
      var run := SearchFlow(store, s.currentQuery, s.currentPage + 1, false, Fetched(dtos), now);
      var final := Collected(load.session, AppendGames, run.emissions, run.end);
      && final.uiState.games == s.uiState.games + ToUiModels(DtosToDomain(dtos))
      && !final.uiState.isLoading && final.currentPage == s.currentPage + 1
  {
    var load := LoadMoreStep(s);
    var run := SearchFlow(store, s.currentQuery, s.currentPage + 1, false, Fetched(dtos), now);
    CacheMissEmitsFetchedOnly(store, s.currentQuery, s.currentPage + 1, false, dtos, now);
    CollectedAppendsGames(load.session, run.emissions, run.end);
    CollectedKeeps(load.session, AppendGames, run.emissions, run.end);
    assert Flatten(run.emissions) == DtosToDomain(dtos) + Flatten([]);
  }

  /**
   * A search whose fetch fails with nothing cached ends with an empty list and
   * the error shown; with rows cached it ends showing them, with no error.
   */
  lemma SearchFailureOutcome(s: Session, query: string, store: seq<GameEntity>, message: Option<string>, now: Long)
    requires Valid(s) && !IsBlank(query)
    ensures var start := SearchStep(s, query);
      var run := SearchFlow(store, query, 1, false, Failed(message), now);
      var final := Collected(start.session, ReplaceGames, run.emissions, run.end);
      && !final.uiState.isLoading
      && (PageRows(store, query, 1) == [] ==>
            final.uiState.games == [] && final.uiState.error == Some(message.GetOr(UnknownError)))
      && (PageRows(store, query, 1) != [] ==>
            final.uiState.games == ToUiModels(EntitiesToDomain(PageRows(store, query, 1))) && final.uiState.error == None)
  {
  }
}
