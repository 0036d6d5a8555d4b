# gamedb search cache and session model

A Dafny model of the core of gamedb, a Kotlin Multiplatform client for a game
catalog. The core is a stale-while-revalidate search cache and the state
machines that drive it:

- **The in-memory cache store** (`InMemoryGameLocalDataSource`). This is a class
  over a sequence of `GameEntity` rows. Each row is tagged with the search query
  and page it was fetched under and with the time it was written. The store has
  two sorted lookups, an insert that first removes the rows with the batch's ids,
  and two deletes that return how many rows they removed. Kotlin's stable
  `sortedByDescending` and `sortedWith` are modelled as a stable insertion sort
  (`RowSort`). `RowSort.SortedTiesUnique` shows that its three properties pin the
  result down: sorted, a permutation, and every class of equal keys kept in
  input order.
- **The repository** (`GameRepositoryImpl`). `searchGames` reads the cache and
  emits it, fetches, writes the fetched page through, and emits it again. If the
  fetch fails, it rethrows only when the cache has nothing for the page.
  `Repository.SearchFlow` gives, for a cache state and a remote outcome, the
  lists the flow emits, how it ends and the store afterwards. The class method is
  proved to produce exactly that.
- **The search screen's session** (`GameSearchViewModel`). It holds the current
  query, page and last-page flag plus the screen state. `searchGames`,
  `loadMoreGames` and `retry` are methods that return the request their launched
  coroutine makes. Each emission and failure of that coroutine is a separate
  method. Pure transition functions describe the steps, and `Valid` is the
  invariant they keep.
- **The detail screen's session** (`GameDetailViewModel`), modelled the same way.
- **The mappers** between the wire record, the domain record, the cached row and
  the screen record.
- **Navigation**: the controller's one field, and the saver's text encoding of a
  destination.
- **The web build's API key lookup**: the first `apiKey=` parameter of the page's
  query string.

The remote catalog's answer is a parameter (`Repository.Remote`), and so is the
clock (`now`). The page's query string is a parameter of
`ApiKeyUtil.GetRawgApiKey`. Kotlin's `split`, `isBlank`, `Long.toString` and
`toLongOrNull` are modelled in `KotlinText`, and 64-bit wrap-around in
`KotlinText.WrapLong`.

Some behaviours of the code differ from what a reader of its documentation might
expect. The model follows the code in each case and states the behaviour as a
lemma:

- A search keeps the rows of its page whose ids the new fetch did not return. The
  next read of the page lists them behind the fresh rows
  (`Repository.FreshGamesServedNext`). Reading back gives exactly the written
  batch only when every old row of the page was replaced by id
  (`CacheRows.ReadAfterWrite`).
- `retry` after a failed `loadMoreGames` asks for the page after the one that
  failed (`SearchViewModel.RetryAfterLoadMoreFailureSkipsPage`).
- Nothing tells a stale emission from a current one. Searches carry no
  generation counter, and each emission is applied to whatever the session holds.
- A new search resets the private last-page flag but not the screen's copy
  (`SearchViewModel.SearchKeepsShownLastPage`).
- A forced refresh whose fetch fails while the page is cached emits nothing and
  ends normally (`Repository.FailureWithCacheIsSilent`).
- The detail screen's `retry` does nothing after its first load fails
  (`DetailViewModel.RetryAfterFirstFailureDoesNothing`).
- The saver's `restore` accepts "+7" and "007" as the id 7
  (`Navigation.DecodeOtherSpellings`).

## Model

Source paths are relative to the repository root.

| member | source | states |
|---|---|---|
| KotlinText.WrapLong | composeApp/src/commonMain/kotlin/lod/gamedb/app/data/repository/GameRepositoryImpl.kt:98 | 64-bit `Long` subtraction: the result agrees with the exact value modulo 2^64, and equals it when it is in range |
| KotlinText.Split | composeApp/src/wasmJsMain/kotlin/lod/gamedb/app/util/ApiKeyUtil.kt:24 | `split(c)` gives one piece more than there are delimiters; no piece holds the delimiter; joining the pieces gives the text back |
| KotlinText.SplitUnique | composeApp/src/wasmJsMain/kotlin/lod/gamedb/app/util/ApiKeyUtil.kt:28 | any delimiter-free pieces that join to the text are exactly what `split` returns |
| KotlinText.SplitWithoutDelimiter | composeApp/src/wasmJsMain/kotlin/lod/gamedb/app/util/ApiKeyUtil.kt:28 | text with no delimiter splits into itself alone |
| KotlinText.WhitespaceChars | composeApp/src/commonMain/kotlin/lod/gamedb/app/ui/viewmodel/GameSearchViewModel.kt:35 | `isWhitespace` holds for the ASCII blanks U+0009..U+000D, U+001C..U+001F and space, the no-break spaces U+00A0 and U+2007, the line separator and the ideographic space; not for letters, digits, U+0008, U+0085, U+200B or U+FEFF |
| KotlinText.BlankConcat | composeApp/src/commonMain/kotlin/lod/gamedb/app/ui/viewmodel/GameSearchViewModel.kt:35 | `isBlank` holds for the empty string, and for a concatenation exactly when it holds for both parts |
| KotlinText.NotBlankAt | composeApp/src/commonMain/kotlin/lod/gamedb/app/ui/viewmodel/GameSearchViewModel.kt:78 | one character that is not whitespace makes a string, and each piece of it holding that character, not blank |
| KotlinText.StartsWithAgrees | composeApp/src/commonMain/kotlin/lod/gamedb/app/navigation/NavController.kt:67 | `startsWith(prefix)` holds exactly when the text is at least as long as the prefix and agrees with it at every position of the prefix |
| KotlinText.StartsWithConcat | composeApp/src/commonMain/kotlin/lod/gamedb/app/navigation/NavController.kt:67-68 | prefix + rest starts with prefix, and removing the prefix gives rest back |
| KotlinText.StartsWithSplits | composeApp/src/commonMain/kotlin/lod/gamedb/app/navigation/NavController.kt:67-68 | text that starts with a prefix is the prefix followed by what `removePrefix` leaves |
| KotlinText.ShowNat | composeApp/src/commonMain/kotlin/lod/gamedb/app/navigation/NavController.kt:60 | the decimal text of a natural is non-empty, all digits, and starts with '0' exactly for 0 |
| KotlinText.ShowInt | composeApp/src/commonMain/kotlin/lod/gamedb/app/navigation/NavController.kt:60 | the decimal text of a number is non-empty, starts with '-' exactly for negatives, and is all digits otherwise; no leading zero: it starts with '0' only for 0 itself, and the digit after a '-' is not '0' |
| KotlinText.ToLongOrNull | composeApp/src/commonMain/kotlin/lod/gamedb/app/navigation/NavController.kt:68 | `toLongOrNull` succeeds only on an optional sign followed by digits; empty text and a bare sign give null |
| KotlinText.ToLongOrNullOfSignedDigits | composeApp/src/commonMain/kotlin/lod/gamedb/app/navigation/NavController.kt:68 | on an optional '+' or '-' followed by one or more digits, `toLongOrNull` gives the signed value exactly when it lies within the `Long` range, and null when it does not |
| KotlinText.ToLongOrNullOfShowInt | composeApp/src/commonMain/kotlin/lod/gamedb/app/navigation/NavController.kt:60-68 | parsing the decimal text of any `Long` gives that `Long` back, negative values and the minimum included |
| GameMappers.DtoToDomain | composeApp/src/commonMain/kotlin/lod/gamedb/app/data/mapper/GameMappers.kt:11-21 | every field is copied; `backgroundImage` becomes `imageUrl` and `released` becomes `releaseDate` |
| GameMappers.DtosToDomain | composeApp/src/commonMain/kotlin/lod/gamedb/app/data/mapper/GameMappers.kt:26-28 | same length; each element is the mapping of the element at the same index, with the same id |
| GameMappers.EntityToDomain | composeApp/src/commonMain/kotlin/lod/gamedb/app/data/mapper/GameMappers.kt:33-43 | the game fields of a row are copied; the cache tags are dropped |
| GameMappers.EntitiesToDomain | composeApp/src/commonMain/kotlin/lod/gamedb/app/data/mapper/GameMappers.kt:48-50 | same length, order and ids |
| GameMappers.ToEntity | composeApp/src/commonMain/kotlin/lod/gamedb/app/data/mapper/GameMappers.kt:55-67 | the row carries the given query and page, the write time `now`, and the game's id |
| GameMappers.ToEntities | composeApp/src/commonMain/kotlin/lod/gamedb/app/data/mapper/GameMappers.kt:72-74 | same length and order; every row carries the given query, page and time |
| GameMappers.ToUiModel | composeApp/src/commonMain/kotlin/lod/gamedb/app/data/mapper/GameMappers.kt:79-89 | title is the name; a null description becomes ""; rating and metacritic text are null exactly when the values are; metacritic is shown in decimal |
| GameMappers.ToUiModels | composeApp/src/commonMain/kotlin/lod/gamedb/app/data/mapper/GameMappers.kt:94-96 | same length, order and ids |
| GameMappers.ToUiModelsAppend | composeApp/src/commonMain/kotlin/lod/gamedb/app/data/mapper/GameMappers.kt:94-96 | mapping a concatenation gives the concatenation of the mappings |
| GameMappers.EntitiesToDomainAppend | composeApp/src/commonMain/kotlin/lod/gamedb/app/data/mapper/GameMappers.kt:48-50 | mapping a concatenation gives the concatenation of the mappings |
| GameMappers.EntityRoundTrip | composeApp/src/commonMain/kotlin/lod/gamedb/app/data/mapper/GameMappers.kt:33-67 | a game written as a row and read back is the same game, for every query, page and time |
| GameMappers.EntityRoundTripFromRow | composeApp/src/commonMain/kotlin/lod/gamedb/app/data/mapper/GameMappers.kt:33-67 | a row read as a game and written back under its own tags is the same row |
| GameMappers.EntitiesRoundTrip | composeApp/src/commonMain/kotlin/lod/gamedb/app/data/mapper/GameMappers.kt:48-74 | a list of games written as rows and read back is the same list |
| RowSort.Insert | composeApp/src/commonMain/kotlin/lod/gamedb/app/data/local/InMemoryGameLocalDataSource.kt:18 | inserting adds exactly the one row to the multiset |
| RowSort.InsertSorted | composeApp/src/commonMain/kotlin/lod/gamedb/app/data/local/InMemoryGameLocalDataSource.kt:18 | insertion into a sorted list keeps it sorted |
| RowSort.InsertTies | composeApp/src/commonMain/kotlin/lod/gamedb/app/data/local/InMemoryGameLocalDataSource.kt:18 | insertion puts the new row in front of the rows with an equal key, so each class of equal keys keeps its order |
| RowSort.Sort | composeApp/src/commonMain/kotlin/lod/gamedb/app/data/local/InMemoryGameLocalDataSource.kt:18 | the stable sort: a permutation of its input, sorted, and every class of equal keys in input order |
| RowSort.TiesAppend | composeApp/src/commonMain/kotlin/lod/gamedb/app/data/local/InMemoryGameLocalDataSource.kt:25 | the rows with a given key in a concatenation are those of the first part, then those of the second |
| RowSort.SortedAppend | composeApp/src/commonMain/kotlin/lod/gamedb/app/data/local/InMemoryGameLocalDataSource.kt:25 | two sorted lists, every row of the first before every row of the second, concatenate to a sorted list |
| RowSort.SortedTiesUnique | composeApp/src/commonMain/kotlin/lod/gamedb/app/data/local/InMemoryGameLocalDataSource.kt:15-27 | two sorted lists with the same rows in each key class, in the same order, are equal: the stable sort's result is unique |
| RowSort.SortOfSorted | composeApp/src/commonMain/kotlin/lod/gamedb/app/data/local/InMemoryGameLocalDataSource.kt:18 | sorting a sorted list changes nothing |
| CacheRows.Select | composeApp/src/commonMain/kotlin/lod/gamedb/app/data/local/InMemoryGameLocalDataSource.kt:17 | `filter`: no longer than its input; a row is in the result exactly when it is in the input and passes the test |
| CacheRows.IdsOf | composeApp/src/commonMain/kotlin/lod/gamedb/app/data/local/InMemoryGameLocalDataSource.kt:32 | the id set holds the id of every row of the batch and nothing else |
| CacheRows.PageRows | composeApp/src/commonMain/kotlin/lod/gamedb/app/data/local/InMemoryGameLocalDataSource.kt:15-20 | exactly the stored rows of the query and page, as a multiset; newest first; rows written at the same time in store order |
| CacheRows.QueryRows | composeApp/src/commonMain/kotlin/lod/gamedb/app/data/local/InMemoryGameLocalDataSource.kt:22-27 | exactly the stored rows of the query; ascending page, newest first within a page; ties in store order |
| CacheRows.Upserted | composeApp/src/commonMain/kotlin/lod/gamedb/app/data/local/InMemoryGameLocalDataSource.kt:29-38 | the store holds the batch as its suffix and the old rows whose id the batch lacks; every row with a batch id is a batch row |
| CacheRows.SelectAppend | composeApp/src/commonMain/kotlin/lod/gamedb/app/data/local/InMemoryGameLocalDataSource.kt:17 | filtering distributes over concatenation |
| CacheRows.SelectPartition | composeApp/src/commonMain/kotlin/lod/gamedb/app/data/local/InMemoryGameLocalDataSource.kt:43-44 | the rows a test keeps and the rows it drops add up to the whole store, in count and as multisets |
| CacheRows.SelectCommutes | composeApp/src/commonMain/kotlin/lod/gamedb/app/data/local/InMemoryGameLocalDataSource.kt:17 | two filters give the same result in either order |
| CacheRows.SelectTwice | composeApp/src/commonMain/kotlin/lod/gamedb/app/data/local/InMemoryGameLocalDataSource.kt:17 | filtering is idempotent |
| CacheRows.UpsertKeepsOthers | composeApp/src/commonMain/kotlin/lod/gamedb/app/data/local/InMemoryGameLocalDataSource.kt:29-38 | an upsert leaves the rows whose ids the batch lacks exactly as they were, in order |
| CacheRows.UpsertHidesReplacedRows | composeApp/src/commonMain/kotlin/lod/gamedb/app/data/local/InMemoryGameLocalDataSource.kt:29-38 | last write by id wins across pages: after a batch for another page, the page's lookup shows no row with a batch id |
| CacheRows.PageRowsAfterUpsert | composeApp/src/commonMain/kotlin/lod/gamedb/app/data/local/InMemoryGameLocalDataSource.kt:15-38 | a batch for a page, each of whose rows carries its own write time no earlier than `now` while every stored row is older, reads back as the batch's own newest-first order (ties in batch order), followed by the page's old rows that the batch did not replace by id |
| CacheRows.ReadAfterWrite | composeApp/src/commonMain/kotlin/lod/gamedb/app/data/local/InMemoryGameLocalDataSource.kt:15-38 | when the batch (per-row write times, all no earlier than `now`) replaces every old row of its page by id, the page reads back as exactly the batch, newest first |
| CacheRows.OneStampBatchInOrder | composeApp/src/commonMain/kotlin/lod/gamedb/app/data/local/InMemoryGameLocalDataSource.kt:18 | a page's batch whose rows all carry the same write time reads back in batch order |
| CacheRows.LaterStampReadsFirst | composeApp/src/commonMain/kotlin/lod/gamedb/app/data/local/GameEntity.kt:43 | of two rows of a page, the one whose clock reading is later reads first, whatever their order in the batch |
| CacheRows.DeleteOldCount | composeApp/src/commonMain/kotlin/lod/gamedb/app/data/local/InMemoryGameLocalDataSource.kt:40-46 | deleting old rows removes as many rows as are older than the cutoff, and keeps exactly the rows at or after it |
| CacheRows.DeleteOldTwice | composeApp/src/commonMain/kotlin/lod/gamedb/app/data/local/InMemoryGameLocalDataSource.kt:40-46 | a second delete with the same cutoff removes nothing and returns 0 |
| CacheRows.DeleteByQueryKeepsOthers | composeApp/src/commonMain/kotlin/lod/gamedb/app/data/local/InMemoryGameLocalDataSource.kt:48-54 | deleting a query removes as many rows as it has; both lookups of every other query are unchanged |
| LocalData.InMemoryGameLocalDataSource.constructor | composeApp/src/commonMain/kotlin/lod/gamedb/app/data/local/InMemoryGameLocalDataSource.kt:13 | a new store is empty |
| LocalData.InMemoryGameLocalDataSource.GetGamesByQueryAndPage | composeApp/src/commonMain/kotlin/lod/gamedb/app/data/local/InMemoryGameLocalDataSource.kt:15-20 | returns the fingerprint lookup: exactly the page's rows, newest first; the store is unchanged |
| LocalData.InMemoryGameLocalDataSource.GetGamesByQuery | composeApp/src/commonMain/kotlin/lod/gamedb/app/data/local/InMemoryGameLocalDataSource.kt:22-27 | returns the query lookup: exactly the query's rows, by page then newest first; the store is unchanged |
| LocalData.InMemoryGameLocalDataSource.InsertGames | composeApp/src/commonMain/kotlin/lod/gamedb/app/data/local/InMemoryGameLocalDataSource.kt:29-38 | the store becomes its old rows without the batch's ids, in their order, followed by the whole batch; duplicates inside the batch are kept |
| LocalData.InMemoryGameLocalDataSource.DeleteOldGames | composeApp/src/commonMain/kotlin/lod/gamedb/app/data/local/InMemoryGameLocalDataSource.kt:40-46 | keeps exactly the rows written at or after the cutoff; returns old size minus new size, which is the number of older rows |
| LocalData.InMemoryGameLocalDataSource.DeleteGamesByQuery | composeApp/src/commonMain/kotlin/lod/gamedb/app/data/local/InMemoryGameLocalDataSource.kt:48-54 | keeps exactly the rows of other queries; returns old size minus new size, which is the number of the query's rows |
| Repository.CachedEmission | composeApp/src/commonMain/kotlin/lod/gamedb/app/data/repository/GameRepositoryImpl.kt:36-41 | at most one cache emission, present exactly when the cache is read and holds rows for the page |
| Repository.SearchFlow | composeApp/src/commonMain/kotlin/lod/gamedb/app/data/repository/GameRepositoryImpl.kt:30-59 | at most two emissions; the flow throws exactly when the fetch fails with nothing cached for the page, with the fetch's message; a failure leaves the store alone; a success ends normally with the fetched games as the last emission; the emissions are exactly the cache emission, if any, followed by the fetched games on success; after a success the store is the old store upserted with the fetched page |
| Repository.GetGameDetails | composeApp/src/commonMain/kotlin/lod/gamedb/app/data/repository/GameRepositoryImpl.kt:69-81 | one mapped game on success, nothing and the same error on failure |
| Repository.CutoffTime | composeApp/src/commonMain/kotlin/lod/gamedb/app/data/repository/GameRepositoryImpl.kt:98 | `now - maxAgeMs` in `Long` arithmetic: exact when in range, wrapped modulo 2^64 otherwise |
| Repository.GameRepositoryImpl.constructor | composeApp/src/commonMain/kotlin/lod/gamedb/app/data/repository/GameRepositoryImpl.kt:18-21 | the repository works on the store it is given |
| Repository.GameRepositoryImpl.SearchGames | composeApp/src/commonMain/kotlin/lod/gamedb/app/data/repository/GameRepositoryImpl.kt:30-59 | the emissions, the ending and the store afterwards are those of `SearchFlow` on the store before |
| Repository.GameRepositoryImpl.ClearCache | composeApp/src/commonMain/kotlin/lod/gamedb/app/data/repository/GameRepositoryImpl.kt:88-90 | the store loses exactly the rows of the query |
| Repository.GameRepositoryImpl.ClearOldCaches | composeApp/src/commonMain/kotlin/lod/gamedb/app/data/repository/GameRepositoryImpl.kt:97-100 | the store loses exactly the rows older than `now - maxAgeMs` |
| Repository.CacheFirst | composeApp/src/commonMain/kotlin/lod/gamedb/app/data/repository/GameRepositoryImpl.kt:36-52 | without `forceRefresh`, a cached page is the first emission, in lookup order; a success adds the second and last emission; the flow ends normally |
| Repository.ForceRefreshSkipsCache | composeApp/src/commonMain/kotlin/lod/gamedb/app/data/repository/GameRepositoryImpl.kt:36-52 | with `forceRefresh`, a success emits exactly once and a failure emits nothing |
| Repository.CacheMissEmitsFetchedOnly | composeApp/src/commonMain/kotlin/lod/gamedb/app/data/repository/GameRepositoryImpl.kt:35-52 | with nothing cached for the page, or the cache skipped, a successful fetch is the one and only emission and the flow ends normally |
| Repository.FailureWithEmptyCache | composeApp/src/commonMain/kotlin/lod/gamedb/app/data/repository/GameRepositoryImpl.kt:53-58 | a failure with nothing cached for the page emits nothing, rethrows, and leaves the store alone |
| Repository.FailureWithCacheIsSilent | composeApp/src/commonMain/kotlin/lod/gamedb/app/data/repository/GameRepositoryImpl.kt:53-58 | a failure with the page cached ends normally after the cache emission, or after none under `forceRefresh` |
| Repository.SuccessWritesThrough | composeApp/src/commonMain/kotlin/lod/gamedb/app/data/repository/GameRepositoryImpl.kt:44-52 | a success leaves the fetched page as the store's suffix, every row visible to the page's lookup, and reading the rows back gives the fetched games |
| Repository.SuccessKeepsOtherRows | composeApp/src/commonMain/kotlin/lod/gamedb/app/data/repository/GameRepositoryImpl.kt:48-49 | a successful fetch leaves every row whose id it did not fetch in the store, in order, whatever its query or page; every other row afterwards is a fetched one |
| Repository.FreshGamesServedNext | composeApp/src/commonMain/kotlin/lod/gamedb/app/data/repository/GameRepositoryImpl.kt:36-52 | with the whole page written at the one time `now`, the next search of the page first emits the fetched games in fetch order, then the page's older rows that were not replaced by id |
| Repository.DetailsIgnoreForceRefresh | composeApp/src/commonMain/kotlin/lod/gamedb/app/data/repository/GameRepositoryImpl.kt:69-81 | the detail flow is the same whatever `forceRefresh` says |
| Repository.ClearOldCachesKeepsRecent | composeApp/src/commonMain/kotlin/lod/gamedb/app/data/repository/GameRepositoryImpl.kt:97-100 | without overflow, exactly the rows at most `maxAgeMs` old survive, and a second clear at the same instant removes nothing |
| SearchViewModel.SearchStep | composeApp/src/commonMain/kotlin/lod/gamedb/app/ui/viewmodel/GameSearchViewModel.kt:34-50 | a blank query changes nothing and launches nothing; any other query launches page 1 of it, with the query set, the page 1, the last-page flag cleared, loading on, the list emptied and the error cleared; the session invariant is kept |
| SearchViewModel.LoadMoreStep | composeApp/src/commonMain/kotlin/lod/gamedb/app/ui/viewmodel/GameSearchViewModel.kt:77-86 | launches exactly when not loading, the query is not blank and the last page was not reached; then the page goes up by one and the list and error stay; otherwise nothing changes |
| SearchViewModel.RetryStep | composeApp/src/commonMain/kotlin/lod/gamedb/app/ui/viewmodel/GameSearchViewModel.kt:111-119 | nothing for a blank query; on page 1 exactly the step of a new search for the current query; on any other page exactly the step of `loadMoreGames`; any request is for the current query at the session's new page; the invariant is kept |
| SearchViewModel.RetryOnLaterPageLoadsNext | composeApp/src/commonMain/kotlin/lod/gamedb/app/ui/viewmodel/GameSearchViewModel.kt:111-119 | past page 1, `retry` that gets past the load-more guard moves to the next page, starts loading and asks for that page; held back by the guard it changes nothing |
| SearchViewModel.ShowEmission | composeApp/src/commonMain/kotlin/lod/gamedb/app/ui/viewmodel/GameSearchViewModel.kt:52-61 | loading ends; the list is replaced (search) or extended (load more) by the mapped games; both last-page flags say whether the emission was empty; query, page and error stay |
| SearchViewModel.ShowFailure | composeApp/src/commonMain/kotlin/lod/gamedb/app/ui/viewmodel/GameSearchViewModel.kt:62-69 | loading ends and the error is the message, or "Unknown error occurred"; list, page, query and flags stay |
| SearchViewModel.CollectedKeeps | composeApp/src/commonMain/kotlin/lod/gamedb/app/ui/viewmodel/GameSearchViewModel.kt:50-70 | after a whole flow the invariant, query and page stay; any emission or a throw ends loading; a throw shows its message or "Unknown error occurred", a normal end keeps the error; an empty normal flow changes nothing |
| SearchViewModel.CollectedLastPage | composeApp/src/commonMain/kotlin/lod/gamedb/app/ui/viewmodel/GameSearchViewModel.kt:52-61 | after a flow with emissions, both last-page flags say whether the last emission was empty |
| SearchViewModel.CollectedReplacesGames | composeApp/src/commonMain/kotlin/lod/gamedb/app/ui/viewmodel/GameSearchViewModel.kt:52-61 | a collected search lists exactly its last emission |
| SearchViewModel.CollectedAppendsGames | composeApp/src/commonMain/kotlin/lod/gamedb/app/ui/viewmodel/GameSearchViewModel.kt:52-61 | a collected load more appends every emission, in order, to the list it started with |
| SearchViewModel.GameSearchViewModel.constructor | composeApp/src/commonMain/kotlin/lod/gamedb/app/ui/viewmodel/GameSearchViewModel.kt:21-26 | empty query, page 1, not last page, the default screen state; the invariant holds |
| SearchViewModel.GameSearchViewModel.SearchGames | composeApp/src/commonMain/kotlin/lod/gamedb/app/ui/viewmodel/GameSearchViewModel.kt:34-50 | performs `SearchStep`: a blank query leaves every field; otherwise the query, page 1, the cleared list and error, and loading |
| SearchViewModel.GameSearchViewModel.LoadMoreGames | composeApp/src/commonMain/kotlin/lod/gamedb/app/ui/viewmodel/GameSearchViewModel.kt:77-86 | performs `LoadMoreStep`: no-op behind the guard, else page plus one and loading |
| SearchViewModel.GameSearchViewModel.Retry | composeApp/src/commonMain/kotlin/lod/gamedb/app/ui/viewmodel/GameSearchViewModel.kt:111-119 | performs `RetryStep`: a new search on page 1, else a load of the next page |
| SearchViewModel.GameSearchViewModel.OnSearchEmission | composeApp/src/commonMain/kotlin/lod/gamedb/app/ui/viewmodel/GameSearchViewModel.kt:52-61 | the list becomes the mapped games, loading ends, both last-page flags follow the emission |
| SearchViewModel.GameSearchViewModel.OnLoadMoreEmission | composeApp/src/commonMain/kotlin/lod/gamedb/app/ui/viewmodel/GameSearchViewModel.kt:86-95 | the mapped games are appended to the list, loading ends, both last-page flags follow the emission |
| SearchViewModel.GameSearchViewModel.OnFailure | composeApp/src/commonMain/kotlin/lod/gamedb/app/ui/viewmodel/GameSearchViewModel.kt:96-103 | loading ends and the error is shown; list, query, page and last-page flag stay |
| SearchViewModel.GameSearchViewModel.Collect | composeApp/src/commonMain/kotlin/lod/gamedb/app/ui/viewmodel/GameSearchViewModel.kt:84-103 | collecting a flow emission by emission, then its failure, leaves the session at `Collected` of the session before |
| SearchViewModel.RetryAfterLoadMoreFailureSkipsPage | composeApp/src/commonMain/kotlin/lod/gamedb/app/ui/viewmodel/GameSearchViewModel.kt:111-119 | after loading page p + 1 fails, `retry` asks for page p + 2 |
| SearchViewModel.RetryOnFirstPageSearchesAgain | composeApp/src/commonMain/kotlin/lod/gamedb/app/ui/viewmodel/GameSearchViewModel.kt:111-119 | on page 1 `retry` is a new search of the current query: page 1 again, the list cleared |
| SearchViewModel.LoadMoreKeepsError | composeApp/src/commonMain/kotlin/lod/gamedb/app/ui/viewmodel/GameSearchViewModel.kt:82 | a load after a failure launches and keeps the old error on screen while loading |
| SearchViewModel.EmptyPageStopsPaging | composeApp/src/commonMain/kotlin/lod/gamedb/app/ui/viewmodel/GameSearchViewModel.kt:78-95 | after an empty emission `loadMoreGames` launches nothing |
| SearchViewModel.SearchKeepsShownLastPage | composeApp/src/commonMain/kotlin/lod/gamedb/app/ui/viewmodel/GameSearchViewModel.kt:37-48 | a new search clears the private last-page flag but leaves the screen's copy set |
| SearchViewModel.PaginationAppends | composeApp/src/commonMain/kotlin/lod/gamedb/app/ui/viewmodel/GameSearchViewModel.kt:34-95 | search, first page, load more, second page: the request is for page 2 and the screen lists both pages in order |
| SearchViewModel.SearchShowsFetchedGames | composeApp/src/commonMain/kotlin/lod/gamedb/app/ui/viewmodel/GameSearchViewModel.kt:50-61 | a search whose fetch succeeds ends showing exactly the fetched games, not loading, no error, last page exactly when empty |
| SearchViewModel.LoadMoreAppendsFetchedGames | composeApp/src/commonMain/kotlin/lod/gamedb/app/ui/viewmodel/GameSearchViewModel.kt:77-104 | a load more of an uncached page whose fetch succeeds appends exactly the fetched games to the list on screen, at the next page, and ends loading |
| SearchViewModel.SearchFailureOutcome | composeApp/src/commonMain/kotlin/lod/gamedb/app/ui/viewmodel/GameSearchViewModel.kt:50-69 | a failed search shows the error over an empty list when nothing was cached, and the cached page without error otherwise |
| DetailViewModel.DetailUiModel | composeApp/src/commonMain/kotlin/lod/gamedb/app/ui/viewmodel/GameDetailViewModel.kt:70-80 | title is the name; a null description becomes ""; id, image and release date kept; rating and metacritic text null exactly when the values are |
| DetailViewModel.StartLoad | composeApp/src/commonMain/kotlin/lod/gamedb/app/ui/viewmodel/GameDetailViewModel.kt:34 | loading, error cleared, previous game kept |
| DetailViewModel.ShowGame | composeApp/src/commonMain/kotlin/lod/gamedb/app/ui/viewmodel/GameDetailViewModel.kt:44-49 | loading ends and the game is shown; the error is left as it was |
| DetailViewModel.ShowError | composeApp/src/commonMain/kotlin/lod/gamedb/app/ui/viewmodel/GameDetailViewModel.kt:38-43 | loading ends, the error is the message or "Unknown error", the game is kept |
| DetailViewModel.Collected | composeApp/src/commonMain/kotlin/lod/gamedb/app/ui/viewmodel/GameDetailViewModel.kt:36-55 | after a whole flow: the last emitted game is shown, or the previous one; a throw shows its message; a normal end keeps the error; an empty flow that ends normally changes nothing |
| DetailViewModel.RetryStep | composeApp/src/commonMain/kotlin/lod/gamedb/app/ui/viewmodel/GameDetailViewModel.kt:62-65 | a reload of the shown game's id with `forceRefresh` exactly when a game is shown; nothing otherwise |
| DetailViewModel.GameDetailViewModel.constructor | composeApp/src/commonMain/kotlin/lod/gamedb/app/ui/viewmodel/GameDetailViewModel.kt:23 | the default state: not loading, no game, no error |
| DetailViewModel.GameDetailViewModel.LoadGameDetails | composeApp/src/commonMain/kotlin/lod/gamedb/app/ui/viewmodel/GameDetailViewModel.kt:32-37 | the state becomes `StartLoad` of the old one, and the request is the given id and flag |
| DetailViewModel.GameDetailViewModel.OnGame | composeApp/src/commonMain/kotlin/lod/gamedb/app/ui/viewmodel/GameDetailViewModel.kt:44-49 | the state becomes `ShowGame` of the old one |
| DetailViewModel.GameDetailViewModel.OnError | composeApp/src/commonMain/kotlin/lod/gamedb/app/ui/viewmodel/GameDetailViewModel.kt:50-55 | the state becomes `ShowError` of the old one |
| DetailViewModel.GameDetailViewModel.Retry | composeApp/src/commonMain/kotlin/lod/gamedb/app/ui/viewmodel/GameDetailViewModel.kt:62-65 | performs `RetryStep` |
| DetailViewModel.DetailMappingAgrees | composeApp/src/commonMain/kotlin/lod/gamedb/app/ui/viewmodel/GameDetailViewModel.kt:70-80 | the private mapping equals the shared `toUiModel` on every game |
| DetailViewModel.LoadShowsFetchedGame | composeApp/src/commonMain/kotlin/lod/gamedb/app/ui/viewmodel/GameDetailViewModel.kt:32-57 | a successful load ends showing the fetched game, not loading, no error, whatever `forceRefresh` was |
| DetailViewModel.LoadFailureKeepsGame | composeApp/src/commonMain/kotlin/lod/gamedb/app/ui/viewmodel/GameDetailViewModel.kt:32-57 | a failed load ends with the error and the previously shown game |
| DetailViewModel.RetryAfterFirstFailureDoesNothing | composeApp/src/commonMain/kotlin/lod/gamedb/app/ui/viewmodel/GameDetailViewModel.kt:62-63 | when the first load fails, `retry` changes nothing and launches nothing |
| DetailViewModel.RetryReloadsShownGame | composeApp/src/commonMain/kotlin/lod/gamedb/app/ui/viewmodel/GameDetailViewModel.kt:62-64 | after a failed reload of a shown game, `retry` reloads that game's id with `forceRefresh` |
| Navigation.NavController.constructor | composeApp/src/commonMain/kotlin/lod/gamedb/app/navigation/NavController.kt:18 | a new controller is at Home |
| Navigation.NavController.Navigate | composeApp/src/commonMain/kotlin/lod/gamedb/app/navigation/NavController.kt:26-28 | the destination becomes exactly the one given |
| Navigation.NavController.NavigateToGameDetail | composeApp/src/commonMain/kotlin/lod/gamedb/app/navigation/NavController.kt:35-37 | the destination becomes the detail of the given game |
| Navigation.NavController.NavigateToHome | composeApp/src/commonMain/kotlin/lod/gamedb/app/navigation/NavController.kt:42-44 | the destination becomes Home |
| Navigation.Encode | composeApp/src/commonMain/kotlin/lod/gamedb/app/navigation/NavController.kt:57-61 | "home" exactly for Home; a detail exactly when the text starts with "game_detail:", and then the text is exactly that prefix followed by the id's decimal text (`ShowInt`) |
| Navigation.Save | composeApp/src/commonMain/kotlin/lod/gamedb/app/navigation/NavController.kt:57-61 | the saved text is `Encode` of the controller's destination: "home" exactly at Home, and "game_detail:" plus the decimal id exactly at a detail |
| Navigation.Decode | composeApp/src/commonMain/kotlin/lod/gamedb/app/navigation/NavController.kt:63-73 | a detail exactly for text starting with "game_detail:", with the parsed id or 0; Home otherwise |
| Navigation.Restore | composeApp/src/commonMain/kotlin/lod/gamedb/app/navigation/NavController.kt:63-73 | a fresh controller at the decoded destination |
| Navigation.DecodeEncode | composeApp/src/commonMain/kotlin/lod/gamedb/app/navigation/NavController.kt:57-73 | restoring what was saved gives back every destination, negative ids included |
| Navigation.EncodeInjective | composeApp/src/commonMain/kotlin/lod/gamedb/app/navigation/NavController.kt:57-61 | different destinations save to different text |
| Navigation.DecodeBadId | composeApp/src/commonMain/kotlin/lod/gamedb/app/navigation/NavController.kt:67-70 | "game_detail:" followed by anything that is not a `Long` restores to the detail of game 0 |
| Navigation.DecodeUnknown | composeApp/src/commonMain/kotlin/lod/gamedb/app/navigation/NavController.kt:64-72 | any other unrecognised text restores to Home |
| Navigation.EncodeIsCanonical | composeApp/src/commonMain/kotlin/lod/gamedb/app/navigation/NavController.kt:60 | the id after the prefix is canonical decimal text: never '+', no leading zero except "0" itself, a '-' only for negative ids |
| Navigation.EncodeExamples | composeApp/src/commonMain/kotlin/lod/gamedb/app/navigation/NavController.kt:59-60 | Home saves as "home"; ids 0, 3498 and -12 save as "game_detail:0", "game_detail:3498" and "game_detail:-12" |
| Navigation.DecodeOtherSpellings | composeApp/src/commonMain/kotlin/lod/gamedb/app/navigation/NavController.kt:68 | "+7" and "007" restore as game 7, though saving game 7 writes "7" |
| ApiKeyUtil.FirstApiKey | composeApp/src/wasmJsMain/kotlin/lod/gamedb/app/util/ApiKeyUtil.kt:27-31 | nothing exactly when no parameter is an API key parameter; otherwise the value of the first one, every earlier one skipped |
| ApiKeyUtil.GetRawgApiKey | composeApp/src/wasmJsMain/kotlin/lod/gamedb/app/util/ApiKeyUtil.kt:18-40 | an empty query string gives the placeholder; otherwise the string after its first character, whatever it is, is split on '&' and scanned: the key it finds is returned, and the placeholder when it finds none |
| ApiKeyUtil.ApiKeyParamShape | composeApp/src/wasmJsMain/kotlin/lod/gamedb/app/util/ApiKeyUtil.kt:28-29 | a parameter is accepted with value v exactly when it is "apiKey=" followed by a v without '=' |
| ApiKeyUtil.FirstApiKeyAfterSkipped | composeApp/src/wasmJsMain/kotlin/lod/gamedb/app/util/ApiKeyUtil.kt:27-31 | parameters that are skipped in front of an API key parameter do not change what is found |
| ApiKeyUtil.FindsApiKeyParam | composeApp/src/wasmJsMain/kotlin/lod/gamedb/app/util/ApiKeyUtil.kt:27-31 | the scan returns v for "apiKey=" + v behind skipped parameters |
| ApiKeyUtil.ReadsFirstApiKey | composeApp/src/wasmJsMain/kotlin/lod/gamedb/app/util/ApiKeyUtil.kt:21-31 | for every query string of one leading character (normally "?") followed by parameters joined by '&', the first well-formed API key parameter's value is returned |
| ApiKeyUtil.AfterLead | composeApp/src/wasmJsMain/kotlin/lod/gamedb/app/util/ApiKeyUtil.kt:22-24 | whatever the first character of a non-empty query string, the parameters are read from the text after it |
| ApiKeyUtil.EmptyValueIsKept | composeApp/src/wasmJsMain/kotlin/lod/gamedb/app/util/ApiKeyUtil.kt:29-30 | "?apiKey=" gives the empty key, not the placeholder |
| ApiKeyUtil.ExtraEqualsIsNotApiKeyParam | composeApp/src/wasmJsMain/kotlin/lod/gamedb/app/util/ApiKeyUtil.kt:28-29 | "apiKey=" followed by text with another '=' is skipped |
| ApiKeyUtil.NoEqualsIsNotApiKeyParam | composeApp/src/wasmJsMain/kotlin/lod/gamedb/app/util/ApiKeyUtil.kt:28-29 | a parameter with no '=' is skipped, whatever it starts with |
| ApiKeyUtil.SkipsParamWithTwoEquals | composeApp/src/wasmJsMain/kotlin/lod/gamedb/app/util/ApiKeyUtil.kt:24-31 | a malformed "apiKey=" parameter is passed over for a later well-formed one |
| ApiKeyUtil.FirstCharacterAlwaysDropped | composeApp/src/wasmJsMain/kotlin/lod/gamedb/app/util/ApiKeyUtil.kt:24 | the first character is dropped even when it is not '?', so "apiKey=abc" gives the placeholder |

## Left out

- Coroutines, `Flow`, `Mutex` and `StateFlow` are not modelled. Each store operation is atomic. Launching a coroutine is modelled as returning the request it makes, and each emission or failure is a separate step applied in order. Interleavings of two searches are out, and so is reading `currentQuery` and `currentPage` when the coroutine starts rather than when it is launched. So is the detail screen setting its loading state inside the launched coroutine.
- The `try`/`catch` around the repository's fetch also catches exceptions thrown downstream of `emit`, and the search screen's `catch` also catches exceptions from its own state updates. These are not modelled: only the fetch can fail.
- Networking (the Ktor client, `GameApi`, `GameRemoteDataSource`) is replaced by the `Remote` outcome passed in.
- Room persistence and the per-platform entity and data-source classes are not part of this model.
- The clock is a parameter. The store lemmas `CacheRows.PageRowsAfterUpsert` and `CacheRows.ReadAfterWrite` allow each row its own write time, as the row constructor gives it.
- GameMappers.ToEntities: the whole batch is stamped with the one time `now`, whereas the row constructor reads the clock once per row. A batch that spans a clock tick carries several times, and the page then reads back newest first rather than in fetch order (`CacheRows.LaterStampReadsFirst`).
- Repository.FreshGamesServedNext: the fetched games come back in fetch order only because the page is written at the one time `now`; with a clock tick inside the batch, the rows stamped later come first.
- GameMappers.ToUiModel: the text of a rating (`Double.toString()`) is kept as the value it renders, not as digits, because float formatting is not modelled; the `Double` itself is a `real`.
- Page numbers and metacritic scores are unbounded integers, so `Int` overflow of `currentPage++` is not modelled.
- KotlinText.ToLongOrNull: only ASCII digits are accepted; Kotlin also accepts other Unicode decimal digits. Text is a sequence of `char`, not UTF-16 code units.
- ApiKeyUtil.GetRawgApiKey: the `catch` around the lookup is not modelled, since nothing in the modelled code throws; reading `window.location.search` is replaced by the parameter. The Android, iOS and desktop key lookups read the environment, files and Info.plist and are not part of this model.
- The use cases (`SearchGamesUseCase`, `GetGameDetailsUseCase`) are one-line delegations, modelled by calling the repository functions directly with `forceRefresh` false for searches. Compose screens, the scroll trigger for loading more, the entry points and the build scripts are not part of this model.
