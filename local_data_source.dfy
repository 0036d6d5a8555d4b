/**
 * The in-memory cache (`InMemoryGameLocalDataSource`): one mutable list of
 * rows, changed in place by the insert and the two deletes. Each operation
 * runs under the store's lock in the source; here each is one atomic step.
 */
module LocalData {
  import opened KotlinText
  import opened Models
  import opened RowSort
  import opened CacheRows

  class InMemoryGameLocalDataSource {
    var games: seq<GameEntity>

    constructor()
      ensures games == []
    {
      games := [];
    }

    /** `getGamesByQueryAndPage`: the fingerprint's rows, newest first; the store is left as it is. */
    method GetGamesByQueryAndPage(query: string, page: int) returns (r: seq<GameEntity>)
      ensures r == PageRows(games, query, page)
      ensures forall e :: e in r <==> e in games && e.searchQuery == query && e.pageNumber == page
      ensures forall i, j :: 0 <= i < j < |r| ==> r[i].timestamp >= r[j].timestamp
    {
      r := Sort(NewestFirst, Select(games, AtFingerprint(query, page)));
    }

    /** `getGamesByQuery`: the query's rows by ascending page, newest first within a page. */
    method GetGamesByQuery(query: string) returns (r: seq<GameEntity>)
      ensures r == QueryRows(games, query)
      ensures forall e :: e in r <==> e in games && e.searchQuery == query
    {
      r := Sort(PageThenNewest, Select(games, OfQuery(query)));
    }

    /** `insertGames`: `removeAll` of the batch's ids, then `addAll` of the batch. */
    method InsertGames(batch: seq<GameEntity>)
      modifies this
      ensures games == Upserted(old(games), batch)
    {
      var gameIds := IdsOf(batch);
      games := Select(games, Not(IdIn(gameIds)));
      games := games + batch;
    }

    /** `deleteOldGames`: removes the rows written before `timestamp` and counts them. */
    method DeleteOldGames(timestamp: Long) returns (count: int)
      modifies this
      ensures games == Select(old(games), Not(OlderThan(timestamp)))
      ensures count == |old(games)| - |games| == |Select(old(games), OlderThan(timestamp))|
    {
      var initialSize := |games|;
      DeleteOldCount(games, timestamp);
      games := Select(games, Not(OlderThan(timestamp)));
      count := initialSize - |games|;
    }

    /** `deleteGamesByQuery`: removes the query's rows and counts them. */
    method DeleteGamesByQuery(query: string) returns (count: int)
      modifies this
      ensures games == Select(old(games), Not(OfQuery(query)))
      ensures count == |old(games)| - |games| == |Select(old(games), OfQuery(query))|
    {
      var initialSize := |games|;
      SelectPartition(games, OfQuery(query));
      games := Select(games, Not(OfQuery(query)));
      count := initialSize - |games|;
    }
  }
}
