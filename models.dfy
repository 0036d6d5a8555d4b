/**
 * The value types of the application: the wire record of the game catalog
 * API, the domain record, the cached row and the records the screens show.
 */
module Models {
  import opened Wrappers
  import opened KotlinText

  /** A game object as the catalog API sends it (`GameDto`); absent fields are null. */
  datatype GameDto = GameDto(
    id: Long,
    name: string,
    description: Option<string>,
    backgroundImage: Option<string>,
    released: Option<string>,
    rating: Option<real>,
    metacritic: Option<int>)

  /** The domain record (`Game`). */
  datatype Game = Game(
    id: Long,
    name: string,
    description: Option<string>,
    imageUrl: Option<string>,
    releaseDate: Option<string>,
    rating: Option<real>,
    metacritic: Option<int>)

  /**
   * A cached row (`GameEntity`): a game tagged with the fingerprint
   * (searchQuery, pageNumber) it was fetched under and the time it was written,
   * in milliseconds since the epoch.
   */
  datatype GameEntity = GameEntity(
    id: Long,
    name: string,
    description: Option<string>,
    backgroundImage: Option<string>,
    released: Option<string>,
    rating: Option<real>,
    metacritic: Option<int>,
    searchQuery: string,
    pageNumber: int,
    timestamp: Long)

  /**
   * The text `Double.toString()` gives for a rating. Only which value was
   * rendered is kept; the digits of the rendering are not modelled.
   */
  datatype RatingText = RatingText(value: real)

  /** A game as a screen shows it (`GameUiModel`). */
  datatype GameUiModel = GameUiModel(
    id: Long,
    title: string,
    description: string,
    imageUrl: Option<string>,
    releaseDate: Option<string>,
    rating: Option<RatingText>,
    metacritic: Option<string>)

  /** What the search screen shows (`GameSearchUiState`). */
  datatype GameSearchUiState = GameSearchUiState(
    isLoading: bool,
    games: seq<GameUiModel>,
    error: Option<string>,
    searchQuery: string,
    isLastPage: bool)

  /** `GameSearchUiState()` with every default. */
  const InitialSearchUiState := GameSearchUiState(false, [], None, "", false)
}
