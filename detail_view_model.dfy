/**
 * The detail screen's session (`GameDetailViewModel`): one screen state,
 * changed when a load starts, when the flow emits a game, when it fails, and
 * by `retry`. As for the search screen, launching a load returns the request
 * it makes, and its emissions and failure come back as separate steps.
 */
module DetailViewModel {
  import opened Wrappers
  import opened KotlinText
  import opened Models
  import opened GameMappers
  import opened Repository

  /** What the detail screen shows (`GameDetailUiState`). */
  datatype GameDetailUiState = GameDetailUiState(isLoading: bool, game: Option<GameUiModel>, error: Option<string>)

  /** `GameDetailUiState()` with every default. */
  const InitialDetailUiState: GameDetailUiState := GameDetailUiState(false, None, None)

  const UnknownError: string := "Unknown error"

  /** A launched `getGameDetailsUseCase(gameId, forceRefresh)` call. */
  datatype DetailRequest = DetailRequest(gameId: Long, forceRefresh: bool)

  /** The state after `retry`, and the load it launched, if any. */
  datatype RetryOutcome = RetryOutcome(state: GameDetailUiState, request: Option<DetailRequest>)

  /** The view model's private `Game.toUiModel()`, written out again beside the shared mapper. */
  function DetailUiModel(g: Game): (u: GameUiModel)
    ensures u.id == g.id && u.title == g.name && u.description == g.description.GetOr("")
    ensures u.imageUrl == g.imageUrl && u.releaseDate == g.releaseDate
    ensures u.rating.None? <==> g.rating.None?
    ensures u.metacritic.None? <==> g.metacritic.None?
  {
    GameUiModel(
      g.id, g.name, if g.description.Some? then g.description.value else "", g.imageUrl, g.releaseDate,
      if g.rating.None? then None else Some(RatingText(g.rating.value)),
      if g.metacritic.None? then None else Some(ShowInt(g.metacritic.value)))
  }

  /** Start of `loadGameDetails`: loading, the error cleared, the previous game still shown. */
  function StartLoad(s: GameDetailUiState): (r: GameDetailUiState)
    ensures r.isLoading && r.error == None && r.game == s.game
  {
    s.(isLoading := true, error := None)
  }

  /** The `collectLatest` body: the emitted game is shown; the error is left as it is. */
  function ShowGame(s: GameDetailUiState, g: Game): (r: GameDetailUiState)
    ensures !r.isLoading && r.game == Some(DetailUiModel(g)) && r.error == s.error
  {
    s.(isLoading := false, game := Some(DetailUiModel(g)))
  }

  /** The `catch` operator and the outer `catch`: the message, or "Unknown error"; the game is kept. */
  function ShowError(s: GameDetailUiState, message: Option<string>): (r: GameDetailUiState)
    ensures !r.isLoading && r.error == Some(message.GetOr(UnknownError)) && r.game == s.game
  {
    s.(isLoading := false, error := Some(message.GetOr(UnknownError)))
  }

  /** A launched detail flow collected to its end. */
  function Collected(s: GameDetailUiState, emissions: seq<Game>, end: FlowEnd): (r: GameDetailUiState)
    ensures emissions != [] ==> r.game == Some(DetailUiModel(emissions[|emissions| - 1]))
    ensures emissions == [] ==> r.game == s.game
    ensures end.Threw? ==> !r.isLoading && r.error == Some(end.message.GetOr(UnknownError))
    ensures end == Completed ==> r.error == s.error && (emissions != [] ==> !r.isLoading)
    ensures emissions == [] && end == Completed ==> r == s
    decreases |emissions|
  {
    if emissions == [] then
      if end.Threw? then ShowError(s, end.message) else s
    else
      var rest := emissions[1..];
      assert rest != [] ==> rest[|rest| - 1] == emissions[|emissions| - 1];
      Collected(ShowGame(s, emissions[0]), rest, end)
  }

  /** `retry()`: reloads the shown game with `forceRefresh`, or does nothing when no game is shown. */
  function RetryStep(s: GameDetailUiState): (r: RetryOutcome)
    ensures r.request.Some? <==> s.game.Some?
    ensures s.game.None? ==> r.state == s
    ensures s.game.Some? ==> r.request == Some(DetailRequest(s.game.value.id, true)) && r.state == StartLoad(s)
  {
    match s.game
    case None => RetryOutcome(s, None)
    case Some(g) => RetryOutcome(StartLoad(s), Some(DetailRequest(g.id, true)))
  }

  class GameDetailViewModel {
    var uiState: GameDetailUiState

    constructor()
      ensures uiState == InitialDetailUiState
    {
      uiState := InitialDetailUiState;
    }

    /** `loadGameDetails`: marks the screen loading and launches the load. */
    method LoadGameDetails(gameId: Long, forceRefresh: bool) returns (request: DetailRequest)
      modifies this
      ensures uiState == StartLoad(old(uiState))
      ensures request == DetailRequest(gameId, forceRefresh)
    {
      uiState := uiState.(isLoading := true, error := None);
      request := DetailRequest(gameId, forceRefresh);
    }

    method OnGame(game: Game)
      modifies this
      ensures uiState == ShowGame(old(uiState), game)
    {
      uiState := uiState.(isLoading := false, game := Some(DetailUiModel(game)));
    }

    method OnError(message: Option<string>)
      modifies this
      ensures uiState == ShowError(old(uiState), message)
    {
      uiState := uiState.(isLoading := false, error := Some(message.GetOr(UnknownError)));
    }

    /** `retry`: the shown game's id, reloaded with `forceRefresh`; nothing when no game is shown. */
    method Retry() returns (request: Option<DetailRequest>)
      modifies this
      ensures RetryOutcome(uiState, request) == RetryStep(old(uiState))
    {
      if uiState.game.None? {
        request := None;
        return;
      }
      var gameId := uiState.game.value.id;
      var load := LoadGameDetails(gameId, true);
      request := Some(load);
    }
  }

  // ---------------------------------------------------------------------------
  // What the detail screen promises

  /** The private mapping agrees with the shared `Game.toUiModel()` on every game. */
  lemma DetailMappingAgrees(g: Game)
    ensures DetailUiModel(g) == ToUiModel(g)
  {
  }

  /**
   * A load whose fetch succeeds ends showing the fetched game, not loading and
   * without error, whatever `forceRefresh` was.
   */
  lemma LoadShowsFetchedGame(s: GameDetailUiState, id: Long, forceRefresh: bool, dto: GameDto)
    ensures var run := GetGameDetails(id, forceRefresh, Fetched(dto));
      Collected(StartLoad(s), run.emissions, run.end)
        == GameDetailUiState(false, Some(ToUiModel(DtoToDomain(dto))), None)
  {
    DetailMappingAgrees(DtoToDomain(dto));
  }

  /** A load whose fetch fails ends with the error shown and the previously shown game kept. */
  lemma LoadFailureKeepsGame(s: GameDetailUiState, id: Long, forceRefresh: bool, message: Option<string>)
    ensures var run := GetGameDetails(id, forceRefresh, Failed(message));
      Collected(StartLoad(s), run.emissions, run.end) == GameDetailUiState(false, s.game, Some(message.GetOr(UnknownError)))
  {
  }

  /**
   * When the first load of the screen fails, `retry` does nothing: it retries
   * only the game already shown, and none is.
   */
  lemma RetryAfterFirstFailureDoesNothing(id: Long, forceRefresh: bool, message: Option<string>)
    ensures var run := GetGameDetails(id, forceRefresh, Failed(message));
      var failed := Collected(StartLoad(InitialDetailUiState), run.emissions, run.end);
      RetryStep(failed) == RetryOutcome(failed, None) && failed.error == Some(message.GetOr(UnknownError))
  {
  }

  /** After a failed reload of a shown game, `retry` reloads that same game with `forceRefresh`. */
  lemma RetryReloadsShownGame(s: GameDetailUiState, id: Long, forceRefresh: bool, message: Option<string>)
    requires s.game.Some?
    ensures var run := GetGameDetails(id, forceRefresh, Failed(message));
      var failed := Collected(StartLoad(s), run.emissions, run.end);
      RetryStep(failed).request == Some(DetailRequest(s.game.value.id, true))
  {
  }
}
