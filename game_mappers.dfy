/**
 * Field-by-field conversions between the API record, the domain record, the
 * cached row and the screen record, and their list versions (Kotlin `map`).
 */
module GameMappers {
  import opened Wrappers
  import opened KotlinText
  import opened Models

  /** `GameDto.toDomainModel()`. */
  function DtoToDomain(dto: GameDto): (g: Game)
    ensures g.id == dto.id && g.name == dto.name && g.description == dto.description
    ensures g.imageUrl == dto.backgroundImage && g.releaseDate == dto.released
    ensures g.rating == dto.rating && g.metacritic == dto.metacritic
  {
    Game(dto.id, dto.name, dto.description, dto.backgroundImage, dto.released, dto.rating, dto.metacritic)
  }

  /** `List<GameDto>.toDomainModel()`. */
  function DtosToDomain(dtos: seq<GameDto>): (games: seq<Game>)
    ensures |games| == |dtos|
    ensures forall i :: 0 <= i < |dtos| ==> games[i] == DtoToDomain(dtos[i]) && games[i].id == dtos[i].id
  {
    if dtos == [] then [] else [DtoToDomain(dtos[0])] + DtosToDomain(dtos[1..])
  }

  /** `GameEntity.toDomainModel()`: drops the fingerprint and the timestamp. */
  function EntityToDomain(e: GameEntity): (g: Game)
    ensures g.id == e.id && g.name == e.name && g.description == e.description
    ensures g.imageUrl == e.backgroundImage && g.releaseDate == e.released
    ensures g.rating == e.rating && g.metacritic == e.metacritic
  {
    Game(e.id, e.name, e.description, e.backgroundImage, e.released, e.rating, e.metacritic)
  }

  /** `List<GameEntity>.toGameDomainModel()`. */
  function EntitiesToDomain(entities: seq<GameEntity>): (games: seq<Game>)
    ensures |games| == |entities|
    ensures forall i :: 0 <= i < |entities| ==> games[i] == EntityToDomain(entities[i]) && games[i].id == entities[i].id
  {
    if entities == [] then [] else [EntityToDomain(entities[0])] + EntitiesToDomain(entities[1..])
  }

  /**
   * `Game.toEntity(searchQuery, pageNumber)`. The row's timestamp defaults to
   * the clock in the source; here the clock reading is the parameter `now`.
   */
  function ToEntity(g: Game, searchQuery: string, pageNumber: int, now: Long): (e: GameEntity)
    ensures e.searchQuery == searchQuery && e.pageNumber == pageNumber && e.timestamp == now
    ensures e.id == g.id
  {
    GameEntity(g.id, g.name, g.description, g.imageUrl, g.releaseDate, g.rating, g.metacritic,
               searchQuery, pageNumber, now)
  }

  /** `List<Game>.toEntity(searchQuery, pageNumber)`: every row carries the same fingerprint. */
  function ToEntities(games: seq<Game>, searchQuery: string, pageNumber: int, now: Long): (entities: seq<GameEntity>)
    ensures |entities| == |games|
    ensures forall i :: 0 <= i < |games| ==>
      entities[i] == ToEntity(games[i], searchQuery, pageNumber, now) && entities[i].id == games[i].id
    ensures forall e :: e in entities ==>
      e.searchQuery == searchQuery && e.pageNumber == pageNumber && e.timestamp == now
  {
    if games == [] then [] else [ToEntity(games[0], searchQuery, pageNumber, now)] + ToEntities(games[1..], searchQuery, pageNumber, now)
  }

  /** `Game.toUiModel()`: `title` is the name, a missing description shows as "". */
  function ToUiModel(g: Game): (u: GameUiModel)
    ensures u.id == g.id && u.title == g.name && u.description == g.description.GetOr("")
    ensures u.imageUrl == g.imageUrl && u.releaseDate == g.releaseDate
    ensures u.rating.None? <==> g.rating.None?
    ensures u.metacritic.None? <==> g.metacritic.None?
    ensures g.metacritic.Some? ==> u.metacritic == Some(ShowInt(g.metacritic.value))
  {
    GameUiModel(
      g.id, g.name, g.description.GetOr(""), g.imageUrl, g.releaseDate,
      if g.rating.Some? then Some(RatingText(g.rating.value)) else None,
      if g.metacritic.Some? then Some(ShowInt(g.metacritic.value)) else None)
  }

  /** `List<Game>.toUiModel()`. */
  function ToUiModels(games: seq<Game>): (models: seq<GameUiModel>)
    ensures |models| == |games|
    ensures forall i :: 0 <= i < |games| ==> models[i] == ToUiModel(games[i]) && models[i].id == games[i].id
  {
    if games == [] then [] else [ToUiModel(games[0])] + ToUiModels(games[1..])
  }

  /** Mapping concatenated lists is concatenating the mapped lists. */
  lemma {:induction false} ToUiModelsAppend(a: seq<Game>, b: seq<Game>)
    ensures ToUiModels(a + b) == ToUiModels(a) + ToUiModels(b)
  {
    var l, r := ToUiModels(a + b), ToUiModels(a) + ToUiModels(b);
    assert |l| == |r|;
    forall i | 0 <= i < |l| ensures l[i] == r[i] {
      if i < |a| { assert (a + b)[i] == a[i]; } else { assert (a + b)[i] == b[i - |a|]; }
    }
  }

  /** Reading rows back commutes with concatenation. */
  lemma {:induction false} EntitiesToDomainAppend(a: seq<GameEntity>, b: seq<GameEntity>)
    ensures EntitiesToDomain(a + b) == EntitiesToDomain(a) + EntitiesToDomain(b)
  {
    var l, r := EntitiesToDomain(a + b), EntitiesToDomain(a) + EntitiesToDomain(b);
    assert |l| == |r|;
    forall i | 0 <= i < |l| ensures l[i] == r[i] {
      if i < |a| { assert (a + b)[i] == a[i]; } else { assert (a + b)[i] == b[i - |a|]; }
    }
  }

  /** A game written as a row and read back is the same game. */
  lemma EntityRoundTrip(g: Game, searchQuery: string, pageNumber: int, now: Long)
    ensures EntityToDomain(ToEntity(g, searchQuery, pageNumber, now)) == g
  {
  }

  /** A row is determined by its game, its fingerprint and its timestamp. */
  lemma EntityRoundTripFromRow(e: GameEntity)
    ensures ToEntity(EntityToDomain(e), e.searchQuery, e.pageNumber, e.timestamp) == e
  {
  }

  /** A list of games written as rows and read back is the same list. */
  lemma {:induction false} EntitiesRoundTrip(games: seq<Game>, searchQuery: string, pageNumber: int, now: Long)
    ensures EntitiesToDomain(ToEntities(games, searchQuery, pageNumber, now)) == games
  {
    var back := EntitiesToDomain(ToEntities(games, searchQuery, pageNumber, now));
    forall i | 0 <= i < |games| ensures back[i] == games[i] {
      EntityRoundTrip(games[i], searchQuery, pageNumber, now);
    }
  }
}
