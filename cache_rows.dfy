/**
 * The row list behind the in-memory cache, as values: the filters its
 * operations use, the two lookups, the id-replacing insert, and what these
 * promise together (last write by id wins, a fingerprint sees only its own
 * rows, deletes remove exactly what they match).
 */
module CacheRows {
  import opened KotlinText
  import opened Models
  import opened RowSort

  /** The row predicates the cache filters and removes by. */
  datatype RowFilter =
    | AtFingerprint(query: string, page: int)
    | OfQuery(query: string)
    | IdIn(ids: set<Long>)
    | OlderThan(cutoff: int)
    | Not(inner: RowFilter)

  predicate Keeps(f: RowFilter, e: GameEntity) {
    match f
    case AtFingerprint(q, p) => e.searchQuery == q && e.pageNumber == p
    case OfQuery(q) => e.searchQuery == q
    case IdIn(ids) => e.id in ids
    case OlderThan(t) => e.timestamp < t
    case Not(g) => !Keeps(g, e)
  }

  /** Kotlin `filter`: the rows `f` keeps, in their order. `removeAll(f)` leaves `Select(s, Not(f))`. */
  function Select(s: seq<GameEntity>, f: RowFilter): (r: seq<GameEntity>)
    ensures |r| <= |s|
    ensures forall e :: e in r <==> e in s && Keeps(f, e)
  {
    if s == [] then [] else (if Keeps(f, s[0]) then [s[0]] else []) + Select(s[1..], f)
  }

  /** The ids of a batch: `games.map { it.id }.toSet()`. */
  function IdsOf(batch: seq<GameEntity>): (ids: set<Long>)
    ensures forall e :: e in batch ==> e.id in ids
    ensures forall id :: id in ids ==> exists e :: e in batch && e.id == id
  {
    set e | e in batch :: e.id
  }

  // ---------------------------------------------------------------------------
  // The operations of the store, on its row list

  /**
   * `getGamesByQueryAndPage`: exactly the rows stored under the fingerprint,
   * newest first; rows written at the same millisecond keep their stored order.
   */
  function PageRows(rows: seq<GameEntity>, query: string, page: int): (r: seq<GameEntity>)
    ensures multiset(r) == multiset(Select(rows, AtFingerprint(query, page)))
    ensures forall e :: e in r <==> e in rows && e.searchQuery == query && e.pageNumber == page
    ensures forall i, j :: 0 <= i < j < |r| ==> r[i].timestamp >= r[j].timestamp
    ensures forall e :: Ties(r, NewestFirst, e) == Ties(Select(rows, AtFingerprint(query, page)), NewestFirst, e)
  {
    var r := Sort(NewestFirst, Select(rows, AtFingerprint(query, page)));
    SameMembers(r, Select(rows, AtFingerprint(query, page)));
    r
  }

  /**
   * `getGamesByQuery`: exactly the rows stored under the query, by ascending
   * page and newest first within a page; full ties keep their stored order.
   */
  function QueryRows(rows: seq<GameEntity>, query: string): (r: seq<GameEntity>)
    ensures multiset(r) == multiset(Select(rows, OfQuery(query)))
    ensures forall e :: e in r <==> e in rows && e.searchQuery == query
    ensures forall i, j :: 0 <= i < j < |r| ==>
      r[i].pageNumber < r[j].pageNumber || (r[i].pageNumber == r[j].pageNumber && r[i].timestamp >= r[j].timestamp)
    ensures forall e :: Ties(r, PageThenNewest, e) == Ties(Select(rows, OfQuery(query)), PageThenNewest, e)
  {
    var r := Sort(PageThenNewest, Select(rows, OfQuery(query)));
    SameMembers(r, Select(rows, OfQuery(query)));
    r
  }

  /**
   * `insertGames`: every stored row whose id occurs in the batch is removed,
   * then the whole batch is appended in its order, duplicates inside the batch
   * included.
   */
  function Upserted(rows: seq<GameEntity>, batch: seq<GameEntity>): (r: seq<GameEntity>)
    ensures forall e :: e in r <==> e in batch || (e in rows && e.id !in IdsOf(batch))
    ensures |batch| <= |r| && r[|r| - |batch|..] == batch
    ensures forall e :: e in r && e.id in IdsOf(batch) ==> e in batch
  {
    var ids := IdsOf(batch);
    assert forall e :: Keeps(Not(IdIn(ids)), e) <==> e.id !in ids;
    Select(rows, Not(IdIn(ids))) + batch
  }

  // ---------------------------------------------------------------------------
  // Facts about Select

  /** Lists that are permutations of each other have the same members. */
  lemma SameMembers(a: seq<GameEntity>, b: seq<GameEntity>)
    requires multiset(a) == multiset(b)
    ensures forall e :: e in a <==> e in b
  {
    forall e ensures e in a <==> e in b {
      assert e in a <==> e in multiset(a);
      assert e in b <==> e in multiset(b);
    }
  }

  lemma {:induction false} SelectAppend(a: seq<GameEntity>, b: seq<GameEntity>, f: RowFilter)
    ensures Select(a + b, f) == Select(a, f) + Select(b, f)
  {
    if a == [] {
      assert a + b == b;
    } else {
      assert (a + b)[0] == a[0];
      assert (a + b)[1..] == a[1..] + b;
      SelectAppend(a[1..], b, f);
    }
  }

  lemma {:induction false} SelectAll(s: seq<GameEntity>, f: RowFilter)
    requires forall e :: e in s ==> Keeps(f, e)
    ensures Select(s, f) == s
  {
    if s != [] {
      SelectAll(s[1..], f);
      assert s == [s[0]] + s[1..];
    }
  }

  lemma SelectNone(s: seq<GameEntity>, f: RowFilter)
    requires forall e :: e in s ==> !Keeps(f, e)
    ensures Select(s, f) == []
  {
  }

  /** Every row is either kept by `f` or by `Not(f)`. */
  lemma {:induction false} SelectPartition(s: seq<GameEntity>, f: RowFilter)
    ensures |Select(s, f)| + |Select(s, Not(f))| == |s|
    ensures multiset(Select(s, f)) + multiset(Select(s, Not(f))) == multiset(s)
  {
    if s != [] {
      SelectPartition(s[1..], f);
      assert s == [s[0]] + s[1..];
    }
  }

  lemma {:induction false} SelectCommutes(s: seq<GameEntity>, f: RowFilter, g: RowFilter)
    ensures Select(Select(s, f), g) == Select(Select(s, g), f)
  {
    if s != [] {
      SelectCommutes(s[1..], f, g);
      var hf := if Keeps(f, s[0]) then [s[0]] else [];
      var hg := if Keeps(g, s[0]) then [s[0]] else [];
      SelectAppend(hf, Select(s[1..], f), g);
      SelectAppend(hg, Select(s[1..], g), f);
    }
  }

  /** Filtering twice by the same predicate filters once. */
  lemma SelectTwice(s: seq<GameEntity>, f: RowFilter)
    ensures Select(Select(s, f), f) == Select(s, f)
  {
    SelectAll(Select(s, f), f);
  }
  /** An upsert leaves the rows whose ids the batch lacks exactly as they were, in order. */
  lemma UpsertKeepsOthers(rows: seq<GameEntity>, batch: seq<GameEntity>)
    ensures Select(Upserted(rows, batch), Not(IdIn(IdsOf(batch)))) == Select(rows, Not(IdIn(IdsOf(batch))))
  {
    var others := Not(IdIn(IdsOf(batch)));
    SelectAppend(Select(rows, others), batch, others);
    SelectTwice(rows, others);
    SelectNone(batch, others);
    assert Select(rows, others) + [] == Select(rows, others);
  }


  // ---------------------------------------------------------------------------
  // What the store promises

  /**
   * Last write by id wins across fingerprints: once a batch tagged with other
   * fingerprints is inserted, a lookup at (query, page) shows none of the
   * batch's ids, and shows exactly the rows it showed before minus those ids.
   */
  lemma UpsertHidesReplacedRows(rows: seq<GameEntity>, batch: seq<GameEntity>, query: string, page: int)
    requires forall e :: e in batch ==> !(e.searchQuery == query && e.pageNumber == page)
    ensures forall e :: e in PageRows(Upserted(rows, batch), query, page) ==> e.id !in IdsOf(batch)
    ensures PageRows(Upserted(rows, batch), query, page) == PageRows(Select(rows, Not(IdIn(IdsOf(batch)))), query, page)
  {
    var kept := Select(rows, Not(IdIn(IdsOf(batch))));
    SelectAppend(kept, batch, AtFingerprint(query, page));
    SelectNone(batch, AtFingerprint(query, page));
    assert Select(kept + batch, AtFingerprint(query, page)) == Select(kept, AtFingerprint(query, page));
  }

  /**
   * Read after write: when a batch tagged with (query, page) is written later
   * than every stored row (each row of the batch with its own time, none
   * earlier than `now`), the lookup at (query, page) is the batch newest first,
   * rows of the batch written at the same millisecond in batch order, followed
   * by the older rows of that fingerprint whose ids the batch did not replace.
   */
  lemma PageRowsAfterUpsert(rows: seq<GameEntity>, batch: seq<GameEntity>, query: string, page: int, now: Long)
    requires forall e :: e in rows ==> e.timestamp < now
    requires forall e :: e in batch ==> e.searchQuery == query && e.pageNumber == page && e.timestamp >= now
    ensures PageRows(Upserted(rows, batch), query, page)
         == PageRows(batch, query, page) + PageRows(Select(rows, Not(IdIn(IdsOf(batch)))), query, page)
  {
    var at := AtFingerprint(query, page);
    var kept := Select(rows, Not(IdIn(IdsOf(batch))));
    var stale := Select(kept, at);
    SelectAppend(kept, batch, at);
    SelectAll(batch, at);
    assert Select(Upserted(rows, batch), at) == stale + batch;
    var newer := PageRows(batch, query, page);
    var older := PageRows(kept, query, page);
    BatchFirstSorted(newer, older, now);
    forall e ensures Ties(stale + batch, NewestFirst, e) == Ties(newer + older, NewestFirst, e) {
      BatchFirstTies(stale, batch, newer, older, now, e);
    }
    SortedTiesUnique(NewestFirst, PageRows(Upserted(rows, batch), query, page), newer + older);
  }

  /** Rows written at `now` or later ahead of a newest-first list of older rows keep it newest first. */
  lemma BatchFirstSorted(newer: seq<GameEntity>, older: seq<GameEntity>, now: Long)
    requires forall e :: e in newer ==> e.timestamp >= now
    requires forall e :: e in older ==> e.timestamp < now
    requires Sorted(NewestFirst, newer) && Sorted(NewestFirst, older)
    ensures Sorted(NewestFirst, newer + older)
  {
    SortedAppend(NewestFirst, newer, older);
  }

  /**
   * Moving the rows written at `now` or later in front of older rows, sorted
   * among themselves by a stable sort, leaves every tie class as it was.
   */
  lemma BatchFirstTies(stale: seq<GameEntity>, batch: seq<GameEntity>, newer: seq<GameEntity>, older: seq<GameEntity>,
                       now: Long, e: GameEntity)
    requires forall x :: x in batch ==> x.timestamp >= now
    requires forall x :: x in newer ==> x.timestamp >= now
    requires forall x :: x in stale ==> x.timestamp < now
    requires forall x :: x in older ==> x.timestamp < now
    requires Ties(stale, NewestFirst, e) == Ties(older, NewestFirst, e)
    requires Ties(batch, NewestFirst, e) == Ties(newer, NewestFirst, e)
    ensures Ties(stale + batch, NewestFirst, e) == Ties(newer + older, NewestFirst, e)
  {
    TiesAppend(stale, batch, NewestFirst, e);
    TiesAppend(newer, older, NewestFirst, e);
    var tb := Ties(batch, NewestFirst, e);
    var to := Ties(older, NewestFirst, e);
    if e.timestamp >= now {
      TiesNone(stale, NewestFirst, e);
      TiesNone(older, NewestFirst, e);
      assert [] + tb == tb + [];
    } else {
      TiesNone(batch, NewestFirst, e);
      TiesNone(newer, NewestFirst, e);
      assert to + [] == [] + to;
    }
  }

  /** A batch of one fingerprint written at a single millisecond reads back in batch order. */
  lemma OneStampBatchInOrder(batch: seq<GameEntity>, query: string, page: int, now: Long)
    requires forall e :: e in batch ==> e.searchQuery == query && e.pageNumber == page && e.timestamp == now
    ensures PageRows(batch, query, page) == batch
  {
    SelectAll(batch, AtFingerprint(query, page));
    SortOfSorted(NewestFirst, batch);
  }

  /**
   * A row of a batch written a millisecond later than the row before it reads
   * back first: the lookup does not keep batch order across clock readings.
   */
  lemma LaterStampReadsFirst(a: GameEntity, b: GameEntity, query: string, page: int)
    requires a.searchQuery == query && a.pageNumber == page
    requires b.searchQuery == query && b.pageNumber == page
    requires a.timestamp < b.timestamp
    ensures PageRows([a, b], query, page) == [b, a]
  {
    var r := PageRows([a, b], query, page);
    SelectAll([a, b], AtFingerprint(query, page));
    forall e ensures Ties(r, NewestFirst, e) == Ties([b, a], NewestFirst, e) {
      UntiedPairTies(a, b, e);
    }
    SortedTiesUnique(NewestFirst, r, [b, a]);
  }

  /** Two rows of different write times are tied with a row in either order alike. */
  lemma UntiedPairTies(a: GameEntity, b: GameEntity, e: GameEntity)
    requires a.timestamp < b.timestamp
    ensures Ties([a, b], NewestFirst, e) == Ties([b, a], NewestFirst, e)
  {
    TiesCons(a, [b], NewestFirst, e);
    TiesCons(b, [a], NewestFirst, e);
    TiesCons(a, [], NewestFirst, e);
    TiesCons(b, [], NewestFirst, e);
    assert [a] + [b] == [a, b] && [b] + [a] == [b, a] && [a] + [] == [a] && [b] + [] == [b];
  }

  /**
   * With no older row of the fingerprint left beside it, a lookup after the
   * insert returns exactly the batch, newest first.
   */
  lemma ReadAfterWrite(rows: seq<GameEntity>, batch: seq<GameEntity>, query: string, page: int, now: Long)
    requires forall e :: e in rows ==> e.timestamp < now
    requires forall e :: e in batch ==> e.searchQuery == query && e.pageNumber == page && e.timestamp >= now
    requires forall e :: e in rows && e.searchQuery == query && e.pageNumber == page ==> e.id in IdsOf(batch)
    ensures PageRows(Upserted(rows, batch), query, page) == PageRows(batch, query, page)
  {
    PageRowsAfterUpsert(rows, batch, query, page, now);
    SelectNone(Select(rows, Not(IdIn(IdsOf(batch)))), AtFingerprint(query, page));
    assert PageRows(Select(rows, Not(IdIn(IdsOf(batch)))), query, page) == [];
    assert PageRows(batch, query, page) + [] == PageRows(batch, query, page);
  }

  /** `deleteOldGames(t)` removes exactly the rows older than `t`, and its count is their number. */
  lemma DeleteOldCount(rows: seq<GameEntity>, cutoff: int)
    ensures |rows| - |Select(rows, Not(OlderThan(cutoff)))| == |Select(rows, OlderThan(cutoff))|
    ensures forall e :: e in Select(rows, Not(OlderThan(cutoff))) <==> e in rows && e.timestamp >= cutoff
  {
    SelectPartition(rows, OlderThan(cutoff));
  }

  /** A second `deleteOldGames(t)` with the same cutoff removes nothing. */
  lemma DeleteOldTwice(rows: seq<GameEntity>, cutoff: int)
    ensures var once := Select(rows, Not(OlderThan(cutoff)));
      Select(once, Not(OlderThan(cutoff))) == once && |Select(once, OlderThan(cutoff))| == 0
  {
    SelectTwice(rows, Not(OlderThan(cutoff)));
    SelectNone(Select(rows, Not(OlderThan(cutoff))), OlderThan(cutoff));
  }

  /**
   * `deleteGamesByQuery(q)` counts exactly the rows of `q`, and every other
   * query keeps all its rows: its lookups give what they gave before.
   */
  lemma DeleteByQueryKeepsOthers(rows: seq<GameEntity>, query: string, other: string, page: int)
    requires other != query
    ensures |rows| - |Select(rows, Not(OfQuery(query)))| == |Select(rows, OfQuery(query))|
    ensures Select(Select(rows, Not(OfQuery(query))), OfQuery(other)) == Select(rows, OfQuery(other))
    ensures QueryRows(Select(rows, Not(OfQuery(query))), other) == QueryRows(rows, other)
    ensures PageRows(Select(rows, Not(OfQuery(query))), other, page) == PageRows(rows, other, page)
  {
    SelectPartition(rows, OfQuery(query));
    var left := Select(rows, Not(OfQuery(query)));
    SelectCommutes(rows, Not(OfQuery(query)), OfQuery(other));
    SelectAll(Select(rows, OfQuery(other)), Not(OfQuery(query)));
    SelectCommutes(rows, Not(OfQuery(query)), AtFingerprint(other, page));
    SelectAll(Select(rows, AtFingerprint(other, page)), Not(OfQuery(query)));
  }
}
