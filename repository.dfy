/**
 * The repository (`GameRepositoryImpl`): stale-while-revalidate search over
 * the in-memory cache, the detail pass-through, and the two cache clears.
 *
 * A flow is collected to its end: `SearchFlow` gives the lists it emits in
 * order, whether it ends normally or by throwing, and the store afterwards.
 * The remote catalog's answer is a parameter, as is the clock.
 */
module Repository {
  import opened Wrappers
  import opened KotlinText
  import opened Models
  import opened GameMappers
  import opened CacheRows
  import opened LocalData

  /** The outcome of a call to the remote catalog: its value, or the exception it threw, with its message if any. */
  datatype Remote<T> = Fetched(value: T) | Failed(message: Option<string>)

  /** How a collected flow ends after its emissions. */
  datatype FlowEnd = Completed | Threw(message: Option<string>)

  /** One collection of `searchGames`: the lists emitted, how it ended, and the cache rows afterwards. */
  datatype SearchRun = SearchRun(emissions: seq<seq<Game>>, end: FlowEnd, store: seq<GameEntity>)

  /** One collection of `getGameDetails`. */
  datatype DetailRun = DetailRun(emissions: seq<Game>, end: FlowEnd)

  /** The cache emission of a search: present only when the cache is read and has rows for the fingerprint. */
  function CachedEmission(store: seq<GameEntity>, query: string, page: int, forceRefresh: bool): (c: seq<seq<Game>>)
    ensures |c| <= 1
    ensures c != [] <==> !forceRefresh && PageRows(store, query, page) != []
  {
    if !forceRefresh && PageRows(store, query, page) != [] then [EntitiesToDomain(PageRows(store, query, page))] else []
  }

  /**
   * `searchGames(query, page, forceRefresh)` collected to its end, on cache rows
   * `store`, when the remote call answers `remote` and the clock reads `now`.
   */
  function SearchFlow(store: seq<GameEntity>, query: string, page: int, forceRefresh: bool,
                      remote: Remote<seq<GameDto>>, now: Long): (r: SearchRun)
    ensures |r.emissions| <= 2
    ensures r.end.Threw? <==> remote.Failed? && PageRows(store, query, page) == []
    ensures r.end.Threw? ==> r.end.message == remote.message
    ensures remote.Failed? ==> r.store == store
    ensures remote.Fetched? ==>
      r.end == Completed && |r.emissions| >= 1 && r.emissions[|r.emissions| - 1] == DtosToDomain(remote.value)
    ensures r.emissions == CachedEmission(store, query, page, forceRefresh)
                           + (if remote.Fetched? then [DtosToDomain(remote.value)] else [])
    ensures remote.Fetched? ==> r.store == Upserted(store, ToEntities(DtosToDomain(remote.value), query, page, now))
  {
    var cached := CachedEmission(store, query, page, forceRefresh);
    match remote
    case Fetched(dtos) =>
      var domainGames := DtosToDomain(dtos);
      SearchRun(cached + [domainGames], Completed, Upserted(store, ToEntities(domainGames, query, page, now)))
    case Failed(message) =>
      SearchRun(cached, if PageRows(store, query, page) == [] then Threw(message) else Completed, store)
  }

  /** `getGameDetails`: the remote outcome passed through; `forceRefresh` and the cache play no part. */
  function GetGameDetails(id: Long, forceRefresh: bool, remote: Remote<GameDto>): (r: DetailRun)
    ensures |r.emissions| <= 1
    ensures r.end.Threw? <==> remote.Failed?
    ensures remote.Fetched? ==> r.emissions == [DtoToDomain(remote.value)] && r.emissions[0].id == remote.value.id
    ensures remote.Failed? ==> r.emissions == [] && r.end == Threw(remote.message)
  {
    match remote
    case Fetched(dto) => DetailRun([DtoToDomain(dto)], Completed)
    case Failed(message) => DetailRun([], Threw(message))
  }

  /** `clearOldCaches`: the cutoff `now - maxAgeMs`, in 64-bit arithmetic. */
  function CutoffTime(now: Long, maxAgeMs: Long): (t: Long)
    ensures LongMin <= now - maxAgeMs <= LongMax ==> t == now - maxAgeMs
    ensures (t - (now - maxAgeMs)) % LongModulus == 0
  {
    WrapLong(now - maxAgeMs)
  }

  class GameRepositoryImpl {
    const localDataSource: InMemoryGameLocalDataSource

    constructor(localDataSource: InMemoryGameLocalDataSource)
      ensures this.localDataSource == localDataSource
    {
      this.localDataSource := localDataSource;
    }

    /** `searchGames`: cache first (unless forced), then the network, writing the fresh page through to the cache. */
    method SearchGames(query: string, page: int, forceRefresh: bool, remote: Remote<seq<GameDto>>, now: Long)
      returns (emissions: seq<seq<Game>>, end: FlowEnd)
      modifies localDataSource
      ensures SearchRun(emissions, end, localDataSource.games)
           == SearchFlow(old(localDataSource.games), query, page, forceRefresh, remote, now)
    {
      ghost var store := localDataSource.games;
      emissions := [];
      if !forceRefresh {
        var localGames := localDataSource.GetGamesByQueryAndPage(query, page);
        if |localGames| > 0 {
          emissions := emissions + [EntitiesToDomain(localGames)];
        }
      }
      assert emissions == CachedEmission(store, query, page, forceRefresh);
      match remote {
        case Fetched(remoteGames) =>
          var domainGames := DtosToDomain(remoteGames);
          localDataSource.InsertGames(ToEntities(domainGames, query, page, now));
          emissions := emissions + [domainGames];
          end := Completed;
        case Failed(message) =>
          var localGames := localDataSource.GetGamesByQueryAndPage(query, page);
          assert localGames == PageRows(store, query, page);
          if |localGames| == 0 {
            end := Threw(message);
          } else {
            end := Completed;
          }
      }
    }

    /** `clearCache`: drops every row of the query. */
    method ClearCache(query: string)
      modifies localDataSource
      ensures localDataSource.games == Select(old(localDataSource.games), Not(OfQuery(query)))
    {
      var _ := localDataSource.DeleteGamesByQuery(query);
    }

    /** `clearOldCaches`: drops every row written before `now - maxAgeMs`; the clock reading is `now`. */
    method ClearOldCaches(maxAgeMs: Long, now: Long)
      modifies localDataSource
      ensures localDataSource.games == Select(old(localDataSource.games), Not(OlderThan(CutoffTime(now, maxAgeMs))))
    {
      var cutoffTime := CutoffTime(now, maxAgeMs);
      var _ := localDataSource.DeleteOldGames(cutoffTime);
    }
  }

  // ---------------------------------------------------------------------------
  // What a search promises

  /**
   * Without `forceRefresh`, a non-empty cache is emitted first, mapped to
   * games in lookup order; a successful fetch then follows as the second and
   * last emission, whether or not it equals the cached list.
   */
  lemma CacheFirst(store: seq<GameEntity>, query: string, page: int, remote: Remote<seq<GameDto>>, now: Long)
    requires PageRows(store, query, page) != []
    ensures var r := SearchFlow(store, query, page, false, remote, now);
      && r.emissions[0] == EntitiesToDomain(PageRows(store, query, page))
      && |r.emissions| == (if remote.Fetched? then 2 else 1)
      && r.end == Completed
  {
  }

  /** With `forceRefresh` the cache is not read first: one emission on success, none on failure. */
  lemma ForceRefreshSkipsCache(store: seq<GameEntity>, query: string, page: int, remote: Remote<seq<GameDto>>, now: Long)
    ensures var r := SearchFlow(store, query, page, true, remote, now);
      r.emissions == (if remote.Fetched? then [DtosToDomain(remote.value)] else [])
  {
  }

  /**
   * With nothing to show from the cache (the page has no rows, or the cache is
   * skipped), a successful fetch is the one and only emission.
   */
  lemma CacheMissEmitsFetchedOnly(store: seq<GameEntity>, query: string, page: int, forceRefresh: bool,
                                  dtos: seq<GameDto>, now: Long)
    requires forceRefresh || PageRows(store, query, page) == []
    ensures var r := SearchFlow(store, query, page, forceRefresh, Fetched(dtos), now);
      r.emissions == [DtosToDomain(dtos)] && r.end == Completed
  {
  }

  /** A failed fetch with nothing cached for the fingerprint emits nothing and rethrows. */
  lemma FailureWithEmptyCache(store: seq<GameEntity>, query: string, page: int, forceRefresh: bool,
                              message: Option<string>, now: Long)
    requires PageRows(store, query, page) == []
    ensures var r := SearchFlow(store, query, page, forceRefresh, Failed(message), now);
      r.emissions == [] && r.end == Threw(message) && r.store == store
  {
  }

  /**
   * A failed fetch with rows cached for the fingerprint ends normally and adds
   * no emission after the cached one; with `forceRefresh` nothing at all was
   * emitted, and the error is still swallowed.
   */
  lemma FailureWithCacheIsSilent(store: seq<GameEntity>, query: string, page: int, forceRefresh: bool,
                                 message: Option<string>, now: Long)
    requires PageRows(store, query, page) != []
    ensures var r := SearchFlow(store, query, page, forceRefresh, Failed(message), now);
      r.end == Completed && |r.emissions| == (if forceRefresh then 0 else 1)
  {
  }

  /**
   * A successful fetch is written through to the cache under (query, page):
   * the store afterwards holds every fetched game as a row of that fingerprint,
   * and reading the batch back gives the fetched games.
   */
  lemma SuccessWritesThrough(store: seq<GameEntity>, query: string, page: int, forceRefresh: bool,
                             dtos: seq<GameDto>, now: Long)
    ensures var r := SearchFlow(store, query, page, forceRefresh, Fetched(dtos), now);
      var batch := ToEntities(DtosToDomain(dtos), query, page, now);
      && |batch| <= |r.store| && r.store[|r.store| - |batch|..] == batch
      && EntitiesToDomain(batch) == DtosToDomain(dtos)
      && (forall e :: e in batch ==> e in PageRows(r.store, query, page))
  {
    EntitiesRoundTrip(DtosToDomain(dtos), query, page, now);
  }

  /**
   * A successful fetch touches no row outside the batch's ids: those rows stay
   * in the store, in their order, whatever query or page they belong to; every
   * other row of the store afterwards is a fetched one.
   */
  lemma SuccessKeepsOtherRows(store: seq<GameEntity>, query: string, page: int, forceRefresh: bool,
                              dtos: seq<GameDto>, now: Long)
    ensures var r := SearchFlow(store, query, page, forceRefresh, Fetched(dtos), now);
      var batch := ToEntities(DtosToDomain(dtos), query, page, now);
      var others := Not(IdIn(IdsOf(batch)));
      && Select(r.store, others) == Select(store, others)
      && (forall e :: e in r.store && e !in batch ==> e in store && e.id !in IdsOf(batch))
  {
    UpsertKeepsOthers(store, ToEntities(DtosToDomain(dtos), query, page, now));
  }

  /**
   * The next search of the same fingerprint, after a successful fetch written
   * later than every cached row, starts by emitting the fetched games in their
   * order (the whole page carries the one write time `now`), followed by the older rows of that fingerprint the fetch did not
   * replace by id: stale rows stay visible behind the fresh ones.
   */
  lemma FreshGamesServedNext(store: seq<GameEntity>, query: string, page: int, forceRefresh: bool,
                             dtos: seq<GameDto>, now: Long, next: Remote<seq<GameDto>>, later: Long)
    requires forall e :: e in store ==> e.timestamp < now
    requires dtos != []
    ensures var r := SearchFlow(store, query, page, forceRefresh, Fetched(dtos), now);
      var batch := ToEntities(DtosToDomain(dtos), query, page, now);
      SearchFlow(r.store, query, page, false, next, later).emissions[0]
        == DtosToDomain(dtos) + EntitiesToDomain(PageRows(Select(store, Not(IdIn(IdsOf(batch)))), query, page))
  {
    var games := DtosToDomain(dtos);
    var batch := ToEntities(games, query, page, now);
    var older := PageRows(Select(store, Not(IdIn(IdsOf(batch)))), query, page);
    PageRowsAfterUpsert(store, batch, query, page, now);
    OneStampBatchInOrder(batch, query, page, now);
    assert batch[0] in PageRows(Upserted(store, batch), query, page);
    EntitiesToDomainAppend(batch, older);
    EntitiesRoundTrip(games, query, page, now);
  }

  /** `getGameDetails` gives the same result whatever `forceRefresh` says. */
  lemma DetailsIgnoreForceRefresh(id: Long, remote: Remote<GameDto>)
    ensures GetGameDetails(id, true, remote) == GetGameDetails(id, false, remote)
  {
  }

  /**
   * `clearOldCaches(maxAgeMs)` with a cutoff that does not overflow keeps
   * exactly the rows at most `maxAgeMs` old, and a second call at the same
   * instant removes nothing.
   */
  lemma ClearOldCachesKeepsRecent(rows: seq<GameEntity>, maxAgeMs: Long, now: Long)
    requires LongMin <= now - maxAgeMs <= LongMax
    ensures var kept := Select(rows, Not(OlderThan(CutoffTime(now, maxAgeMs))));
      && (forall e :: e in kept <==> e in rows && now - e.timestamp <= maxAgeMs)
      && Select(kept, Not(OlderThan(CutoffTime(now, maxAgeMs)))) == kept
  {
    DeleteOldCount(rows, CutoffTime(now, maxAgeMs));
    DeleteOldTwice(rows, CutoffTime(now, maxAgeMs));
  }
}
