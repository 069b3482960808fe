# BurjX Market Lenz: data layer of the coin lists and the coin-detail chart

This project models, in Dafny, the logic behind the screens of the BurjX
Market Lenz React Native app: the lists of coins on the home tab and the
price chart of one coin. What it models:

- **The two-tier chart store** (`crypto-storage-utils.tsx`). 1D and 1W
  series sit in a key-value store (MMKV); the other timeframes sit in a SQL
  table with a unique key on (crypto, timeframe, timestamp), next to a
  metadata table. The model covers:
  - `getCryptoData`'s choice of tier, its freshness rules and its
    write-through after a fetch;
  - `optimizeStorage` and `clearStorage`.
- **The chart screen** (`CryptoPriceChart.tsx`). The model covers:
  - the bounded FIFO `DataCache` with five-minute expiry;
  - the large-timeframe pre-filter;
  - stride sampling, the chart projection and the price change;
  - the `fetchData` control flow: in-progress guard, cache first, abort and
    unmount, sample fallback.
- **The coin-detail Redux slice** (`redux/cryptoSlice.tsx`): its reducers,
  the `fetchCryptoData` and `backgroundRefreshData` thunks, and the built-in
  sample series.
- **The coin lists**:
  - the `coins` slice and its featured, gainers and losers lists;
  - the `useCoinsData` hook: refresh throttle, offline query, price merge,
    search, top-5 lists;
  - the `CoinsList` screen: scroll trigger, merge, refresh, search;
  - the `CoinListFile` component: the index-based merge;
  - the ranking done in `services/api.ts`;
  - the tab dispatch of `useCoinList`;
  - the `src22` pagination hook;
  - the `CategoryTabs` fetch rule;
  - the `CrytoTabs` tab memo;
  - the two error classifiers;
  - the offline list cache in `storage.ts`.
- **The small Redux slices**: settings (`store/slices/cryptoSlice.ts`),
  authentication and theme.

How the model is built:

- **Mutable state.** Each object the source updates in place is a `class`:
  a Redux store, a hook's refs, `DataCache`, the two storage tiers, the
  AsyncStorage key.
  - Each class has a `State()` snapshot.
  - Each method ensures that its new state equals a specification function
    of the old state and the inputs.
  - The properties the source promises are proved as lemmas about those
    functions.
- **Pure code** (the list transformations, the classifiers, the merges) is
  functions, with lemmas stating what the results mean.
- **Loops** in the source are methods with loops, proved equal to a
  function:
  - the sampler's stride loop;
  - the pre-filter loop;
  - the SQL read loop;
  - the SQL insert loop.
- **Inputs instead of effects.**
  - The clock is a `now` parameter.
  - Each network answer is an abstract outcome parameter, e.g.
    `Result<seq<PricePoint>>`, or an `HttpOutcome` of
    ok / not-ok / not-an-array / aborted.
  - A storage step that can fail takes a parameter saying how it went:
    - the offline list cache and the AsyncStorage key take an `ioOk` flag;
    - the chart store's SQL statements take an `SqlIo`: whether the reads
      succeed, and the error an insert reports, if any;
    - `optimizeStorage`'s random `VACUUM` draw is a `vacuum` flag.
- **Shared modules.**
  - `Sequences`: JavaScript's `slice(0, n)`, `filter` and the stable `sort`,
    the sort written as an insertion sort by a real-valued key. A descending
    comparator `b - a` is an ascending sort on the negated key.
  - `Text`: ASCII case mapping, `includes` and JavaScript's `trim`.
  - `ChartData`: the helpers that the chart screen and the slice define
    identically.
  - `Wrappers`: `Option` and `Result`.

Behaviours the proofs make explicit:

- **Freshness boundaries differ by tier.** The key-value tier misses at
  exactly its maximum age (`<`). The SQL tier still serves data exactly
  30 minutes old (`>`).
- **`DataCache.set` on a full map evicts the first-inserted key, even when
  the key being set is already present.** Reading an entry never moves it,
  so the cache is FIFO, not LRU.
- **A failed background refresh dispatches an empty payload.** That blanks
  the chart, the price, the change and the market data
  (`FailedRefreshBlanksData`).
- **As written, every background refresh fails and blanks the chart.**
  `backgroundRefreshData` writes through `storage` and
  `storeChartDataInSQLite`, which its module neither imports nor defines.
  So after a good fetch the write throws, and the catch dispatches the empty
  payload. This is `FailedRefreshBlanksData` with the write flag false; it
  blanks a chart that was just served from storage.
  `RefreshShowsFreshSeries` describes the path that only exists once those
  helpers are defined.
- **A rejected SQL write-through turns a good fetch into the sample
  fallback.** The insert's error rejects `getCryptoData`, the transaction
  rolls back, and `fetchCryptoData` shows the sample series with that error
  (`RejectedWriteRejects`, `RejectedWriteShowsSample`). A failed SQL read is
  only a miss (`FailedSqlReadIsMiss`).
- **`clearStorage` clears only the key-value tier.** Its SQL transaction
  ends with `VACUUM`, which SQLite refuses inside a transaction. The
  transaction then rolls back its two deletes, and the promise still
  resolves `true`. The same rollback undoes `optimizeStorage`'s deletes on
  its one-in-ten `VACUUM` draw (`ClearedLookups`,
  `OptimizeCallPreservesLookups`).
- **A `/coin-prices-all` body that is not an array leaves the `coins` slice
  `loading`.** The other readers of that endpoint unwrap a `data` field. On
  such an envelope, `[...action.payload]` throws in the fulfilled reducer,
  Immer discards the draft, and nothing but the `pending` status remains
  (`CoinsSlice.ThunkOutcomes`).
- **`CoinListFile`'s merge pairs coins by position, not by id.** When a poll
  comes back in another order, a coin takes its neighbour's price
  (`CoinListFile.IndexMergeIgnoresIds`).
- **`useCoinsData`'s "top gainers" has no sign filter.** It can list a
  falling coin (`CoinsDataHook.GainersMayFall`).
- **`CategoryTabs` fetches twice on first load.** It fetches once while idle
  and once more while loading, because `lastFetched` is still null. It
  refetches after every failure, and its one-minute interval does nothing.
- **On the ranked tabs of `useCoinList`, the next-page rule compares the
  pageSize-long ranked page with pageSize.** So another page is requested
  exactly when the raw response held at least pageSize coins.
- **The `CoinsList` search does not trim the query.** A single space
  matches no coin whose name and symbol lack spaces.
- **The chart screen's fallback series is always the btc sample**, whatever
  coin is shown.

Other facts about the code that the model records:

- The built-in sample series of `getSampleData` for eth, sol and ada each
  open and close at the same price. So the price change shown for them on
  the fallback path is exactly 0 (`SamplePriceChanges`).
- The two error classifiers word the unreachable-server message
  differently. The home `api.ts` says "Please check your network
  connection."; the list screens say "Please check the API URL or your
  network." (`HomeApi.HomeAgreesWithList`).

Source paths below are relative to the repository root.

## Model

| member | source | states |
|---|---|---|
| CryptoStorage.ProjectRows | src/screens/Home/CoinDetails/utils/crypto-storage-utils.tsx:195-206 | a SQL read yields exactly one chart point per selected row |
| CryptoStorage.ReadRows | src/screens/Home/CoinDetails/utils/crypto-storage-utils.tsx:194-206 | the read loop builds exactly the usd projection of the rows, in row order |
| CryptoStorage.RowsOf | src/screens/Home/CoinDetails/utils/crypto-storage-utils.tsx:255-275 | the insert statements build one row per fetched point |
| CryptoStorage.Optimize | src/screens/Home/CoinDetails/utils/crypto-storage-utils.tsx:86-114 | key-value tier untouched; a row survives iff it is not a 1D row older than a day nor a 1W row older than a week; a metadata row survives, unchanged, iff its timestamp is not before `now - 1 day` |
| CryptoStorage.TieredStore.constructor | src/screens/Home/CoinDetails/utils/crypto-storage-utils.tsx:5-10 | both tiers start empty and the unique-key invariant holds |
| CryptoStorage.TieredStore.ReadTier | src/screens/Home/CoinDetails/utils/crypto-storage-utils.tsx:140-230 | the storage half of `getCryptoData` answers exactly the tier lookup at `now`, changing nothing; a SQL read that rejects (214, 220) is a miss (226-229) |
| CryptoStorage.InsertPoints | src/screens/Home/CoinDetails/utils/crypto-storage-utils.tsx:255-275 | the insert loop upserts the points one after another, in order, each replacing any row with its key |
| CryptoStorage.TieredStore.StoreInSql | src/screens/Home/CoinDetails/utils/crypto-storage-utils.tsx:240-281 | stamp metadata, delete the pair's rows, upsert each point in one transaction: with no insert error the new state is the SQL write-through and it reports success; an insert error (272, 279) rolls everything back and reports failure; the invariant is kept |
| CryptoStorage.TieredStore.GetCryptoData | src/screens/Home/CoinDetails/utils/crypto-storage-utils.tsx:138-293 | resolves to the fresh tier hit (a failed SQL read counts as a miss), else to the fetched series tagged `api` with no refresh; a failed fetch, or a rejected SQL write-through, rejects with its error and leaves both tiers unchanged; the tiers change only on the `api` path |
| CryptoStorage.TieredStore.OptimizeStorage | src/screens/Home/CoinDetails/utils/crypto-storage-utils.tsx:82-132 | without the `VACUUM` draw the new state is the three deletes applied to the old one; with it the transaction rolls back and nothing changes; the invariant is kept |
| CryptoStorage.TieredStore.ClearStorage | src/screens/Home/CoinDetails/utils/crypto-storage-utils.tsx:298-314 | the key-value tier is emptied; the SQL deletes roll back with the refused `VACUUM`, so the SQL tier is unchanged and the invariant is kept |
| CryptoStorage.FilterUnique | src/screens/Home/CoinDetails/utils/crypto-storage-utils.tsx:39 | deleting rows keeps UNIQUE(crypto_id, timeframe, timestamp) |
| CryptoStorage.UpsertUnique | src/screens/Home/CoinDetails/utils/crypto-storage-utils.tsx:258-260 | `INSERT OR REPLACE` keeps the unique key |
| CryptoStorage.InsertAllUnique | src/screens/Home/CoinDetails/utils/crypto-storage-utils.tsx:255-275 | the whole insert loop keeps the unique key |
| CryptoStorage.OptimizeValid | src/screens/Home/CoinDetails/utils/crypto-storage-utils.tsx:82-132 | pruning old rows and old metadata keeps the unique key and the metadata invariant |
| CryptoStorage.WriteThroughValid | src/screens/Home/CoinDetails/utils/crypto-storage-utils.tsx:236-282 | the write-through of either tier preserves the store invariant |
| CryptoStorage.SortedPairMembers | src/screens/Home/CoinDetails/utils/crypto-storage-utils.tsx:184-187 | every row the ordered query returns belongs to the requested (crypto, timeframe) pair |
| CryptoStorage.SqlReadOrdered | src/screens/Home/CoinDetails/utils/crypto-storage-utils.tsx:183-206 | with the unique key, a SQL read lists strictly increasing dates carrying only usd prices |
| CryptoStorage.PairAfterUpsert | src/screens/Home/CoinDetails/utils/crypto-storage-utils.tsx:257-273 | upserting a row removes the pair's row with the same timestamp and appends the new one |
| CryptoStorage.OtherPairAfterUpsert | src/screens/Home/CoinDetails/utils/crypto-storage-utils.tsx:257-273 | an upsert leaves every other pair's rows unchanged |
| CryptoStorage.PairAfterInsertAll | src/screens/Home/CoinDetails/utils/crypto-storage-utils.tsx:255-275 | into an emptied pair, the insert loop leaves exactly the rows of the last point of each date |
| CryptoStorage.OtherPairAfterInsertAll | src/screens/Home/CoinDetails/utils/crypto-storage-utils.tsx:255-275 | the insert loop leaves every other pair's rows unchanged |
| CryptoStorage.DeletePairEmpties | src/screens/Home/CoinDetails/utils/crypto-storage-utils.tsx:249-252 | the pair's DELETE leaves no row of that pair |
| CryptoStorage.DeletePairKeepsOthers | src/screens/Home/CoinDetails/utils/crypto-storage-utils.tsx:249-252 | the pair's DELETE leaves every other pair's rows unchanged |
| CryptoStorage.SqlWriteReplacesPair | src/screens/Home/CoinDetails/utils/crypto-storage-utils.tsx:243-275 | after the SQL write-through the pair holds exactly the de-duplicated new series, and its metadata row carries the write time |
| CryptoStorage.SqlWriteIsolation | src/screens/Home/CoinDetails/utils/crypto-storage-utils.tsx:243-275 | the SQL write-through leaves other pairs' rows, other metadata keys and the key-value tier unchanged |
| CryptoStorage.DedupLastMembers | src/screens/Home/CoinDetails/utils/crypto-storage-utils.tsx:258-260 | duplicate timestamps keep the last point written, and only that one |
| CryptoStorage.DedupLastNonEmpty | src/screens/Home/CoinDetails/utils/crypto-storage-utils.tsx:255-275 | a non-empty series never de-duplicates to nothing |
| CryptoStorage.FastFreshnessBoundary | src/screens/Home/CoinDetails/utils/crypto-storage-utils.tsx:148-160 | key-value max age is 5 min for 1D and 30 min for 1W; a hit one millisecond before it, a miss exactly at it; a zero timestamp never hits |
| CryptoStorage.SqlFreshnessBoundary | src/screens/Home/CoinDetails/utils/crypto-storage-utils.tsx:171-180 | the SQL tier serves data exactly 30 minutes old, tagged `database`, and misses one millisecond later |
| CryptoStorage.SqlMisses | src/screens/Home/CoinDetails/utils/crypto-storage-utils.tsx:189-192 | a missing metadata row or zero rows is a SQL miss |
| CryptoStorage.RefreshBoundary | src/screens/Home/CoinDetails/utils/crypto-storage-utils.tsx:157 | a hit asks for background refresh exactly when its age exceeds half the maximum age |
| CryptoStorage.FastRoundTrip | src/screens/Home/CoinDetails/utils/crypto-storage-utils.tsx:236-238 | a series written through the key-value tier at `t` comes back unchanged, tagged `cache`, while younger than the maximum age |
| CryptoStorage.SqlRoundTrip | src/screens/Home/CoinDetails/utils/crypto-storage-utils.tsx:164-212 | a non-empty series written through the SQL tier at `t` comes back as its sorted, de-duplicated usd projection, tagged `database`, up to 30 minutes later |
| CryptoStorage.ReadBackOrdered | src/screens/Home/CoinDetails/utils/crypto-storage-utils.tsx:183-206 | the read-back series has strictly increasing dates and no aed prices |
| CryptoStorage.ReadBackMembers | src/screens/Home/CoinDetails/utils/crypto-storage-utils.tsx:255-275 | the read-back points are exactly the usd projections of the last point of each date |
| CryptoStorage.OptimizeKeepsSqlPairs | src/screens/Home/CoinDetails/utils/crypto-storage-utils.tsx:91-104 | pruning deletes no row outside the 1D and 1W timeframes |
| CryptoStorage.OptimizePreservesLookups | src/screens/Home/CoinDetails/utils/crypto-storage-utils.tsx:86-114 | `optimizeStorage` at `now` never changes what a lookup at `now` or later serves |
| CryptoStorage.OptimizeCallPreservesLookups | src/screens/Home/CoinDetails/utils/crypto-storage-utils.tsx:82-132 | on either draw, `optimizeStorage` at `now` never changes what a lookup at `now` or later serves |
| CryptoStorage.ClearedLookups | src/screens/Home/CoinDetails/utils/crypto-storage-utils.tsx:298-314 | after `clearStorage` every 1D/1W lookup misses and every SQL lookup answers as before |
| CryptoStorage.FailedSqlReadIsMiss | src/screens/Home/CoinDetails/utils/crypto-storage-utils.tsx:163-229 | a rejected SQL read goes on exactly as a read of empty tables: to the API, tagged `api` when the write succeeds |
| CryptoStorage.RejectedWriteRejects | src/screens/Home/CoinDetails/utils/crypto-storage-utils.tsx:233-291 | after a miss and a good fetch, an insert error rejects the call with that error; without one, or on the key-value tier, it resolves `api` |
| ChartData.Stride | src/screens/Home/CoinDetails/CryptoPriceChart.tsx:104 | `Math.ceil(n / m)`: at least 1, and `(s - 1) * m < n <= s * m` |
| ChartData.InteriorBounds | src/screens/Home/CoinDetails/CryptoPriceChart.tsx:111-113 | the interior indices from a start `i` are at least `i`, stay more than one stride below the length, and strictly increase |
| ChartData.InteriorMultiples | src/screens/Home/CoinDetails/CryptoPriceChart.tsx:111-113 | the k-th interior index from `i` is `i + k * s` |
| ChartData.SampledIndicesShape | src/screens/Home/CoinDetails/CryptoPriceChart.tsx:99-119 | the sampled indices are in range and strictly increasing, except the degenerate one-point, zero-`maxPoints` case, which picks `[0, 0]` |
| ChartData.SampleDataPoints | src/screens/Home/CoinDetails/CryptoPriceChart.tsx:99-119 | the push loop returns exactly the specified sample |
| ChartData.SampledIdentity | src/screens/Home/CoinDetails/CryptoPriceChart.tsx:100-102 | at most `maxPoints` points come back unchanged |
| ChartData.SampledShape | src/screens/Home/CoinDetails/CryptoPriceChart.tsx:104-116 | a larger input keeps its first and last point, and every interior point sits at a multiple of the stride below `len - s` |
| ChartData.SampledBound | src/screens/Home/CoinDetails/CryptoPriceChart.tsx:99-119 | with `maxPoints >= 2` the sample has at most `maxPoints` points |
| ChartData.FormatChartData | src/screens/Home/CoinDetails/CryptoPriceChart.tsx:121-147 | candle and line projections have equal length and timestamps, each line value is the close, and empty input gives empty projections |
| ChartData.FormatSmallSeries | src/screens/Home/CoinDetails/CryptoPriceChart.tsx:127-146 | up to 300 points are projected one for one, each candle carrying its point's usd OHLC |
| ChartData.FormatLargeSeries | src/screens/Home/CoinDetails/CryptoPriceChart.tsx:128-131 | more than 300 points shrink to at most 200 while keeping the first and last timestamps |
| ChartData.CalculatePriceChange | src/screens/Home/CoinDetails/CryptoPriceChart.tsx:149-156 | 0 below two points; `(last.close - first.open) / first.open * 100` otherwise; not finite when the first open is 0 |
| ChartData.PriceChangeSign | src/screens/Home/CoinDetails/CryptoPriceChart.tsx:149-156 | with a positive first open the sign of the change is the sign of `last.close - first.open` |
| PriceChartCache.Delete | src/screens/Home/CoinDetails/CryptoPriceChart.tsx:75 | `Map.delete` removes exactly that key and keeps the keys distinct |
| PriceChartCache.DataCache.constructor | src/screens/Home/CoinDetails/CryptoPriceChart.tsx:65-68 | an empty map with the given `maxSize` |
| PriceChartCache.DataCache.Get | src/screens/Home/CoinDetails/CryptoPriceChart.tsx:70-80 | the answer and new map are the `get` specification: null when missing; null and deleted when older than 5 minutes; otherwise the value |
| PriceChartCache.DataCache.Set | src/screens/Home/CoinDetails/CryptoPriceChart.tsx:82-92 | the new map is the `set` specification: evict the first key when full, then write the entry stamped `now` |
| PriceChartCache.SetKeepsValid | src/screens/Home/CoinDetails/CryptoPriceChart.tsx:82-92 | `set` never leaves more than `maxSize` entries and keeps keys distinct |
| PriceChartCache.GetExpiredDeletes | src/screens/Home/CoinDetails/CryptoPriceChart.tsx:74-77 | an expired lookup answers null and deletes that entry and no other |
| PriceChartCache.GetHitKeepsOrder | src/screens/Home/CoinDetails/CryptoPriceChart.tsx:70-80 | a hit (age at most 5 minutes) changes nothing, so reads do not refresh an entry's position |
| PriceChartCache.SetThenGet | src/screens/Home/CoinDetails/CryptoPriceChart.tsx:70-92 | a value set at `t` is served up to and including `t + 5 min`, and not one millisecond later |
| PriceChartCache.SetEvictsOldest | src/screens/Home/CoinDetails/CryptoPriceChart.tsx:83-86 | a full map drops its first-inserted key when another key is set |
| PriceChartCache.SetExistingKeepsPosition | src/screens/Home/CoinDetails/CryptoPriceChart.tsx:88-91 | below capacity, re-setting a present key keeps the insertion order |
| PriceChartCache.SetOldestMovesToEnd | src/screens/Home/CoinDetails/CryptoPriceChart.tsx:83-91 | when full, setting the oldest key itself deletes it and writes it again at the end |
| PriceChart.TimeFrameMap | src/screens/Home/CoinDetails/CryptoPriceChart.tsx:55-61 | defined exactly for 1D, 1W, 1M, 1Y and ALL, with the same `days` as the thunk's mapping |
| PriceChart.PreFilter | src/screens/Home/CoinDetails/CryptoPriceChart.tsx:327-336 | the loop keeps exactly the points the gap rule keeps, starting from timestamp 0 |
| PriceChart.KeepFromSubsequence | src/screens/Home/CoinDetails/CryptoPriceChart.tsx:331-336 | the pre-filter's output is a subsequence of its input |
| PriceChart.KeepFromSpaced | src/screens/Home/CoinDetails/CryptoPriceChart.tsx:331-336 | each kept point is at least one gap after the previously kept point, the first at least one gap after 0 |
| PriceChart.KeepFromSpacedIdentity | src/screens/Home/CoinDetails/CryptoPriceChart.tsx:331-336 | a series already spaced by the gap passes through whole |
| PriceChart.DropsTooSoon | src/screens/Home/CoinDetails/CryptoPriceChart.tsx:332 | a point less than one gap after the last kept one is dropped |
| PriceChart.ProcessResponse | src/screens/Home/CoinDetails/CryptoPriceChart.tsx:321-343 | output is a subsequence; untouched unless 1Y/ALL with more than 1000 points; then spaced by 7 days above 5000 points, else 1 day |
| PriceChart.ChartScreen.constructor | src/screens/Home/CoinDetails/CryptoPriceChart.tsx:271-273 | mounted, no fetch in progress, over the module cache of size 20 and the store |
| PriceChart.ChartScreen.Unmount | src/screens/Home/CoinDetails/CryptoPriceChart.tsx:299-308 | only `isMounted` becomes false |
| PriceChart.ChartScreen.FetchData | src/screens/Home/CoinDetails/CryptoPriceChart.tsx:347-452 | the new cache, store and refs, and whether the network was called, are the `fetchData` specification |
| PriceChart.InProgressGuard | src/screens/Home/CoinDetails/CryptoPriceChart.tsx:348 | while a fetch is in progress a call changes nothing and calls no network |
| PriceChart.InProgressCleared | src/screens/Home/CoinDetails/CryptoPriceChart.tsx:449-451 | every started call ends with the in-progress flag cleared and the mount flag unchanged |
| PriceChart.CacheHitSkipsNetwork | src/screens/Home/CoinDetails/CryptoPriceChart.tsx:360-374 | a fresh entry under (productId, days) is dispatched through `fetchSuccess` with no network call |
| PriceChart.SuccessfulMissStores | src/screens/Home/CoinDetails/CryptoPriceChart.tsx:383-415 | a successful miss stores the built payload under the key, and dispatches it only while mounted |
| PriceChart.AbortOrUnmountIsSilent | src/screens/Home/CoinDetails/CryptoPriceChart.tsx:417 | an abort, or any failure after unmount, dispatches nothing after `fetchStart` |
| PriceChart.FailureShowsSample | src/screens/Home/CoinDetails/CryptoPriceChart.tsx:416-441 | a non-ok status, non-array or empty body on a mounted screen shows the btc sample's projection and last close, not loading, with no error recorded and the source defaulted to `api` |
| PriceChart.RefetchServedFromCache | src/screens/Home/CoinDetails/CryptoPriceChart.tsx:362-374 | a second fetch of the same coin and timeframe within five minutes of a successful one is served from the cache |
| PriceChart.SampleDataIsBtc | src/screens/Home/CoinDetails/CryptoPriceChart.tsx:33-44 | the screen's fallback is the slice's two-point btc sample |
| CoinDetailsSlice.GetSampleData | src/screens/Home/CoinDetails/redux/cryptoSlice.tsx:320-373 | two points with increasing dates and positive opens for every id; btc for btc and for any unknown id |
| CoinDetailsSlice.SamplePriceChanges | src/screens/Home/CoinDetails/redux/cryptoSlice.tsx:320-373 | the btc sample falls; the eth, sol and ada samples have a price change of exactly 0 |
| CoinDetailsSlice.DetailsSlice.constructor | src/screens/Home/CoinDetails/redux/cryptoSlice.tsx:14-33 | the initial state: btc, 1D, line chart, not loading, placeholders |
| CoinDetailsSlice.DetailsSlice.CopyPayload | src/screens/Home/CoinDetails/redux/cryptoSlice.tsx:61-65 | copies the four data fields of the payload and nothing else |
| CoinDetailsSlice.DetailsSlice.Dispatch | src/screens/Home/CoinDetails/redux/cryptoSlice.tsx:39-99 | the fields assigned in place give the reducer's state |
| CoinDetailsSlice.DetailsSlice.FetchCryptoData | src/screens/Home/CoinDetails/redux/cryptoSlice.tsx:121-200 | store and slice end as the `fetchCryptoData` specification of the storage outcome, including a failed SQL read and a rejected write-through; the tiers change as `getCryptoData` says |
| CoinDetailsSlice.DetailsSlice.BackgroundRefreshData | src/screens/Home/CoinDetails/redux/cryptoSlice.tsx:203-258 | start, then complete with the fresh series if the fetch and the write returned, otherwise with an empty payload |
| CoinDetailsSlice.SelectionSetters | src/screens/Home/CoinDetails/redux/cryptoSlice.tsx:40-52 | selecting a coin starts loading, clears the error and empties the chart; selecting a timeframe does the same but keeps the chart |
| CoinDetailsSlice.FetchSuccessEffects | src/screens/Home/CoinDetails/redux/cryptoSlice.tsx:60-69 | copies the payload, ends loading, stamps `lastUpdated`, defaults the source to `api`, keeps the error |
| CoinDetailsSlice.CachedDataLoadedEffects | src/screens/Home/CoinDetails/redux/cryptoSlice.tsx:89-98 | copies the payload, ends loading, defaults the source to `cache` |
| CoinDetailsSlice.BackgroundRefreshIsolation | src/screens/Home/CoinDetails/redux/cryptoSlice.tsx:74-87 | the background actions never touch loading, selection or error; completion tags the source `api` |
| CoinDetailsSlice.FailedRefreshBlanksData | src/screens/Home/CoinDetails/redux/cryptoSlice.tsx:251-257 | a failed background refresh leaves chart, price, change and market data undefined |
| CoinDetailsSlice.RefreshShowsFreshSeries | src/screens/Home/CoinDetails/redux/cryptoSlice.tsx:233-249 | had the storage write returned, the refresh would show the projection of the fresh series and its last close; as written the write always throws |
| CoinDetailsSlice.FetchCryptoDataSucceeds | src/screens/Home/CoinDetails/redux/cryptoSlice.tsx:149-173 | success records the series with the source storage returned, and schedules a background refresh exactly when `needsRefresh` |
| CoinDetailsSlice.FetchCryptoDataFallsBack | src/screens/Home/CoinDetails/redux/cryptoSlice.tsx:175-199 | a thrown fetch or an empty series ends not loading, tagged `fallback`, with the error still set and no refresh |
| CoinDetailsSlice.ApiAnswerSchedulesNoRefresh | src/screens/Home/CoinDetails/redux/cryptoSlice.tsx:170-173 | when the tier answers nothing (a miss or a failed SQL read), no background refresh is scheduled |
| CoinDetailsSlice.RejectedWriteShowsSample | src/screens/Home/CoinDetails/redux/cryptoSlice.tsx:175-199 | a good fetch whose SQL write is rejected ends with the sample series tagged `fallback`, the insert's error recorded and no refresh |
| Coins.Flatten | src/screens/Home/hooks/useCoinsData.tsx:334-338 | `pages.flat()` starts with the first page |
| Coins.NextPageParam | src/screens/Home/hooks/useCoinsData.tsx:74-76 | a next page `pages + 1` exactly when the last page exists and holds 15 coins |
| Coins.FindById | src/screens/Home/hooks/useCoinsData.tsx:208 | `find` by id: none iff no coin has the id, otherwise the first one that has it |
| Coins.MergeKeepsShape | src/screens/Home/hooks/useCoinsData.tsx:200-224 | the merge changes only page 0, keeps its length, and keeps each coin's id and non-price fields |
| Coins.MergeTakesMatch | src/screens/Home/hooks/useCoinsData.tsx:207-217 | a coin matched by id takes the first match's price and change; an unmatched coin is unchanged |
| Coins.MergeIdempotent | src/screens/Home/hooks/useCoinsData.tsx:200-224 | merging the same poll twice equals merging it once |
| Coins.TruncateToFirstPage | src/screens/Home/CoinsList/index.tsx:314-317 | the cache keeps only its first page, with `pageParams [1]` |
| Coins.TruncateIdempotent | src/screens/Home/CoinsList/index.tsx:314-317 | truncating twice equals truncating once |
| Coins.RetryDelay | src/screens/Home/CoinsList/index.tsx:234 | `min(1000 * 2^a, 30000)` lies between 1000 and 30000 |
| Coins.RetryDelayMonotone | src/screens/Home/CoinsList/index.tsx:234 | the delay never decreases with the attempt and is capped from attempt 5 on |
| Coins.ListErrorPrecedence | src/screens/Home/CoinsList/index.tsx:44-56 | each message is chosen exactly under its condition: ECONNABORTED, then 429, then status at least 500, then ENOTFOUND/ECONNREFUSED, else generic |
| HomeApi.HomeErrorPrecedence | src/screens/Home/utils/api.ts:80-97 | the same precedence; the last branch uses the error's own message, or the default when it is empty |
| HomeApi.HomeAgreesWithList | src/screens/Home/utils/api.ts:92-97 | the two classifiers agree except for the unreachable wording and the fallback message |
| CoinsSlice.Settle | src/store/slices/coinsSlice.ts:4-22 | the thunk fulfils iff a body was read, with a non-array body iff the response was not an array; not-ok rejects with 'Server error!' |
| CoinsSlice.CoinsStore.constructor | src/store/slices/coinsSlice.ts:39-47 | the initial state: idle, empty lists, no error |
| CoinsSlice.CoinsStore.Dispatch | src/store/slices/coinsSlice.ts:53-86 | the store's fields become the reducer's new state |
| CoinsSlice.CoinsStore.FetchCryptoData | src/store/slices/coinsSlice.ts:4-22 | pending, then fulfilled or rejected as the outcome says; a non-array body leaves the state as `pending` left it |
| CoinsSlice.PendingRejectedReset | src/store/slices/coinsSlice.ts:53-86 | pending sets only the status; rejected sets failed and the payload or the default message, lists untouched; resetError clears error and goes idle |
| CoinsSlice.FeaturedIsSmallestCaps | src/store/slices/coinsSlice.ts:69-71 | the first min(20, n) payload coins by ascending market cap: a sub-multiset, sorted, none larger than a coin left out |
| CoinsSlice.TopGainersSelect | src/store/slices/coinsSlice.ts:73-76 | at most 20 payload coins, each with change > 0 (missing counts as 0) |
| CoinsSlice.TopGainersOrdered | src/store/slices/coinsSlice.ts:73-76 | non-increasing by change |
| CoinsSlice.TopGainersBest | src/store/slices/coinsSlice.ts:73-76 | no rising coin left out beats one listed |
| CoinsSlice.TopLosersSelect | src/store/slices/coinsSlice.ts:78-81 | at most 20 payload coins, each with change < 0 |
| CoinsSlice.TopLosersOrdered | src/store/slices/coinsSlice.ts:78-81 | non-decreasing by change |
| CoinsSlice.TopLosersBest | src/store/slices/coinsSlice.ts:78-81 | no falling coin left out falls further than one listed |
| CoinsSlice.GainersLosersDisjoint | src/store/slices/coinsSlice.ts:73-81 | no coin is both a gainer and a loser |
| CoinsSlice.FulfilledDerives | src/store/slices/coinsSlice.ts:63-81 | fulfilled sets succeeded, the payload, `lastFetched` and the three derived lists, each a sub-multiset of the payload |
| CoinsSlice.ThunkOutcomes | src/store/slices/coinsSlice.ts:4-22 | a coin array succeeds with it; a non-array body stays `loading` with everything else unchanged (69); each rejection ends `failed` with its message |
| CryptoTabs.TabDescription | src/components/CrytoTabs.tsx:149-160 | empty exactly for tabs other than 0, 1 and 2 |
| CryptoTabs.AllCryptosByMarketCap | src/components/CrytoTabs.tsx:19-50 | ALL_CRYPTOS is declared in ascending market-cap order |
| CryptoTabs.FeaturedTabOnSortedList | src/components/CrytoTabs.tsx:137-144 | on a list sorted by market cap, tab 0 and any unknown tab both give the first 20 |
| CryptoTabs.FeaturedTabIsDeclaredOrder | src/components/CrytoTabs.tsx:135-146 | over ALL_CRYPTOS tab 0 equals the default branch |
| CryptoTabs.GainersTabSelect | src/components/CrytoTabs.tsx:139-140 | at most 20 coins of the list, each with change > 0 |
| CryptoTabs.GainersTabOrdered | src/components/CrytoTabs.tsx:139-140 | non-increasing by change |
| CryptoTabs.GainersTabBest | src/components/CrytoTabs.tsx:139-140 | no rising coin left out beats one listed |
| CryptoTabs.LosersTabSelect | src/components/CrytoTabs.tsx:141-142 | at most 20 coins of the list, each with change < 0 |
| CryptoTabs.LosersTabOrdered | src/components/CrytoTabs.tsx:141-142 | non-decreasing by change |
| CryptoTabs.LosersTabBest | src/components/CrytoTabs.tsx:141-142 | no falling coin left out falls further than one listed |
| OfflineStorage.OfflineStore.constructor | src/screens/Home/utils/storage.ts:5 | the key holds whatever was stored before |
| OfflineStorage.OfflineStore.Persist | src/screens/Home/utils/storage.ts:25-37 | overwrites the key with `{allCoins, timestamp: now, nextPageParam}`, or leaves it on a write error |
| OfflineStorage.OfflineStore.Load | src/screens/Home/utils/storage.ts:43-63 | answers the load specification, changing nothing |
| OfflineStorage.OfflineStore.Clear | src/screens/Home/utils/storage.ts:68-74 | removes the key, or leaves it on error |
| OfflineStorage.OfflineStore.GetLastFetchTimestamp | src/screens/Home/utils/storage.ts:77-91 | answers the timestamp specification, changing nothing |
| OfflineStorage.PersistThenLoad | src/screens/Home/utils/storage.ts:43-58 | a record written at `t` loads back exactly iff `now - t` is under 5 minutes |
| OfflineStorage.TimestampOutlivesRecord | src/screens/Home/utils/storage.ts:77-85 | an expired record no longer loads, but its timestamp is still reported |
| OfflineStorage.NothingToRead | src/screens/Home/utils/storage.ts:45-62 | a missing key, an unparseable value or a read error gives null from both readers |
| OfflineStorage.LoadImpliesTimestamp | src/screens/Home/utils/storage.ts:43-91 | whatever loads reports its own timestamp |
| CoinsDataHook.LowerKeepsWhiteSpace | src/screens/Home/hooks/useCoinsData.tsx:343-344 | lowercasing neither creates nor removes a whitespace-only query |
| CoinsDataHook.BlankQueryShowsAll | src/screens/Home/hooks/useCoinsData.tsx:341-346 | an empty or whitespace-only query returns all coins |
| CoinsDataHook.QueryFilters | src/screens/Home/hooks/useCoinsData.tsx:341-355 | otherwise: the coins whose lowercased name or symbol contains the lowercased, trimmed query, in order |
| CoinsDataHook.FeaturedIsListPrefix | src/screens/Home/hooks/useCoinsData.tsx:358-360 | the first 5 coins |
| CoinsDataHook.TopGainersSpec | src/screens/Home/hooks/useCoinsData.tsx:362-368 | min(5, n) coins from the list, non-increasing by change, none left out higher |
| CoinsDataHook.TopLosersSpec | src/screens/Home/hooks/useCoinsData.tsx:370-376 | min(5, n) coins from the list, non-decreasing by change, none left out lower |
| CoinsDataHook.GainersMayFall | src/screens/Home/hooks/useCoinsData.tsx:362-368 | a falling coin can be listed as a top gainer |
| CoinsDataHook.QueryFn | src/screens/Home/hooks/useCoinsData.tsx:62-73 | answers the query specification from the offline store, changing nothing |
| CoinsDataHook.QueryFnCases | src/screens/Home/hooks/useCoinsData.tsx:62-73 | offline page 1: the fresh cached coins, or the offline error; otherwise the API's answer |
| CoinsDataHook.OfflineServesFreshCopy | src/screens/Home/hooks/useCoinsData.tsx:64-68 | a record under five minutes old is served offline as is |
| CoinsDataHook.CoinsData.constructor | src/screens/Home/hooks/useCoinsData.tsx:18-30 | the refs' initial values |
| CoinsDataHook.CoinsData.ShouldRefresh | src/screens/Home/hooks/useCoinsData.tsx:33-47 | answer and new refs are the throttle specification |
| CoinsDataHook.CoinsData.HandleRefresh | src/screens/Home/hooks/useCoinsData.tsx:288-310 | answer and new state are the refresh specification |
| CoinsDataHook.CoinsData.RefreshSettled | src/screens/Home/hooks/useCoinsData.tsx:306-309 | only the refreshing flag clears |
| CoinsDataHook.CoinsData.UpdatePrices | src/screens/Home/hooks/useCoinsData.tsx:185-231 | the new state is the poll specification |
| CoinsDataHook.CoinsData.Unmount | src/screens/Home/hooks/useCoinsData.tsx:103-106 | only the mount flag clears |
| CoinsDataHook.ThrottleRule | src/screens/Home/hooks/useCoinsData.tsx:33-47 | true iff 5000 ms have passed since the last accepted refresh and none is in flight; true records `now`; false changes nothing |
| CoinsDataHook.RefreshesAreSpaced | src/screens/Home/hooks/useCoinsData.tsx:33-47 | after an accepted refresh a second one is refused, and changes nothing, while the first is in flight |
| CoinsDataHook.RefreshStartsFreshKey | src/screens/Home/hooks/useCoinsData.tsx:288-299 | an accepted refresh moves to an unused query key and resets the scroll and loading tracking |
| CoinsDataHook.UpdatePricesTouchesOnlyCurrent | src/screens/Home/hooks/useCoinsData.tsx:200-224 | a poll changes only the current key's cache, by the price merge |
| CoinsListScreen.SearchSpec | src/screens/Home/CoinsList/index.tsx:344-353 | the coins whose lowercased name or symbol contains the lowercased query, untrimmed, in order; the empty query keeps all |
| CoinsListScreen.SpaceQueryMatchesNothing | src/screens/Home/CoinsList/index.tsx:344-353 | a single space matches no coin whose name and symbol lack spaces |
| CoinsListScreen.CoinsList.constructor | src/screens/Home/CoinsList/index.tsx:186-193 | the refs' initial values |
| CoinsListScreen.CoinsList.HandleScroll | src/screens/Home/CoinsList/index.tsx:239-266 | answer and new refs are the scroll specification |
| CoinsListScreen.CoinsList.ScrollEnded | src/screens/Home/CoinsList/index.tsx:200-205 | only the loading flag clears |
| CoinsListScreen.CoinsList.UpdatePrices | src/screens/Home/CoinsList/index.tsx:275-306 | the new state is the poll specification |
| CoinsListScreen.CoinsList.HandleRefresh | src/screens/Home/CoinsList/index.tsx:313-323 | the new state is the refresh specification |
| CoinsListScreen.ScrollTriggerRule | src/screens/Home/CoinsList/index.tsx:239-266 | fetches iff pagination is on, no page is in flight, the scroll is downward, under 20% of the viewport remains, the content grew and a next page exists; then records the height and sets loading |
| CoinsListScreen.OneRequestPerScrollBurst | src/screens/Home/CoinsList/index.tsx:239-266 | after a trigger, no scroll triggers again until the loading flag clears |
| CoinsListScreen.NoRetriggerWithoutGrowth | src/screens/Home/CoinsList/index.tsx:239-266 | even after loading clears, no trigger until the content grows |
| CoinsListScreen.PollTouchesOnlyPrices | src/screens/Home/CoinsList/index.tsx:280-301 | a poll changes nothing but the cached query; with no cache, a failed poll or an empty answer nothing changes; a cache never appears or vanishes |
| CoinsListScreen.RefreshKeepsFirstPage | src/screens/Home/CoinsList/index.tsx:313-323 | refresh truncates the cache to its first page and resets the scroll tracking |
| CoinListFile.FileNextPageParam | src/components/CoinListFile.tsx:76-78 | a missing last page throws; otherwise the shared 15-coin next-page rule |
| CoinListFile.IndexMergeSpec | src/components/CoinListFile.tsx:97-106 | first-page coin `i` takes `newData[i]`'s price when present, else keeps its own; nothing else changes |
| CoinListFile.IndexMergeIgnoresIds | src/components/CoinListFile.tsx:97-106 | a reordered poll hands each coin its neighbour's price |
| CoinListFile.IndexMergeNoop | src/components/CoinListFile.tsx:97-110 | missing old pages or new data leave the cache unchanged |
| CoinListFile.CoinList.constructor | src/components/CoinListFile.tsx:60 | no cached query data |
| CoinListFile.CoinList.UpdatePrices | src/components/CoinListFile.tsx:88-115 | skipped while fetching or refetching or on a failed poll; otherwise the index merge |
| CoinListFile.CoinList.HandleRefresh | src/components/CoinListFile.tsx:123-130 | the cache becomes its first page with `pageParams [1]` |
| CoinsApi.FeaturedRequest | src/services/api.ts:48-54 | page, pageSize and currency forwarded unchanged |
| CoinsApi.RankedRequest | src/services/api.ts:61 | gainers and losers request `pageSize * 3` coins |
| CoinsApi.RankingKeepsEnvelope | src/services/api.ts:69-75 | only `data` changes; unsuccessful or data-less responses pass through |
| CoinsApi.GainersRanked | src/services/api.ts:63-72 | min(pageSize, n) coins of the response, non-increasing by change, none left out higher |
| CoinsApi.LosersRanked | src/services/api.ts:85-94 | min(pageSize, n) coins of the response, non-decreasing by change, none left out lower |
| CoinListQuery.FetcherFor | src/hooks/useCoinData.ts:7-20 | gainers or losers for their tab names, featured for anything else |
| CoinListQuery.QueryNextPageParam | src/hooks/useCoinData.ts:25-30 | `pages + 1` iff the last page succeeded, has data and holds at least pageSize coins |
| CoinListQuery.ChartQueryEnabled | src/hooks/useCoinData.ts:35-40 | enabled iff the coin id is non-empty |
| CoinListQuery.RequestsPerTab | src/hooks/useCoinData.ts:7-20 | the request each tab sends |
| CoinListQuery.RankedTabNextPage | src/hooks/useCoinData.ts:25-30 | on a ranked tab another page exists iff the raw response succeeded with at least pageSize coins |
| CoinsListHook.CoinsList.constructor | src22/hooks/useCoinData.ts:6-11 | no coins, loading, no error, page 1, more to come |
| CoinsListHook.CoinsList.LoadCoins | src22/hooks/useCoinData.ts:13-53 | the new state is the load specification |
| CoinsListHook.CoinsList.Refresh | src22/hooks/useCoinData.ts:59 | a load from page 1 |
| CoinsListHook.CoinsList.LoadMore | src22/hooks/useCoinData.ts:60-64 | starts iff not loading and more remain; otherwise nothing changes |
| CoinsListHook.ProcessSpec | src22/hooks/useCoinData.ts:20-36 | at most 20 coins; gainers descending, losers ascending, others in API order |
| CoinsListHook.LoadOutcomes | src22/hooks/useCoinData.ts:38-46 | refresh replaces the coins and sets page 2; a load appends and increments the page; `hasMore` iff the raw page had 20 coins |
| CoinsListHook.FailedLoadKeepsList | src22/hooks/useCoinData.ts:47-52 | an error sets the message and keeps coins, page and `hasMore`; loading ends false |
| CoinsListHook.GrowthPerLoad | src22/hooks/useCoinData.ts:38-44 | a load adds at most 20 coins; a refresh leaves at most 20 |
| CategoryTabs.CategoryOf | src/screens/Home/CategoryTabs/index.tsx:14-18 | tabs 0, 1, 2 map to featured, top gainers and top losers; no other index maps |
| CategoryTabs.DescriptionsAgree | src/screens/Home/CategoryTabs/index.tsx:20-24 | each tab's description equals the tab component's |
| CategoryTabs.ActiveTabLists | src/screens/Home/CategoryTabs/index.tsx:33-48 | tabs 0-2 show their slice list; any other index has no list, because `TABS[index].category` throws before the switch's `default` |
| CategoryTabs.FreshDataIsNotRefetched | src/screens/Home/CategoryTabs/index.tsx:52-59 | after a fulfilled fetch at `t`, no refetch until more than one minute has passed |
| CategoryTabs.FirstLoadFetchesTwice | src/screens/Home/CategoryTabs/index.tsx:52-59 | the rule holds when idle and still holds once loading, before the first answer |
| CategoryTabs.FailuresRefetch | src/screens/Home/CategoryTabs/index.tsx:52-59 | with no earlier success, after any failure the rule holds again |
| StoreCryptoSlice.SettingsStore.constructor | src/store/slices/cryptoSlice.ts:27-47 | the initial settings |
| StoreCryptoSlice.SettingsStore.Dispatch | src/store/slices/cryptoSlice.ts:54-81 | the fields assigned in place give the reducer's state |
| StoreCryptoSlice.FetchReducers | src/store/slices/cryptoSlice.ts:54-69 | start: loading, no error; success: the four fields, not loading, error kept; error: the error, not loading |
| StoreCryptoSlice.SettersTouchOwnField | src/store/slices/cryptoSlice.ts:70-78 | each setter changes only its field; unlike the detail slice, selecting a coin keeps loading and chart |
| StoreCryptoSlice.ToggleIsInvolution | src/store/slices/cryptoSlice.ts:79-81 | the toggle negates only `showCryptoList`, and twice restores the state |
| AuthSlice.AuthStore.constructor | src/store/slices/authSlice.ts:8-11 | the initial state |
| AuthSlice.AuthStore.Dispatch | src/store/slices/authSlice.ts:17-22 | the field assigned in place gives the reducer's state |
| AuthSlice.SettersAreIndependent | src/store/slices/authSlice.ts:17-22 | each setter sets its own flag and leaves the other; the two commute |
| AuthSlice.SettersIdempotent | src/store/slices/authSlice.ts:17-22 | applying a setter twice equals applying it once |
| AuthSlice.StartsSignedOut | src/store/slices/authSlice.ts:8-11 | both flags start false |
| ThemeSlice.ThemeStore.constructor | src/store/slices/themeSlice.ts:8-10 | dark mode on |
| ThemeSlice.ThemeStore.Dispatch | src/store/slices/themeSlice.ts:16-21 | the field assigned in place gives the reducer's state |
| ThemeSlice.ThemeLaws | src/store/slices/themeSlice.ts:16-21 | toggle negates and twice restores; set is idempotent and a toggle after it gives the negation |
| ThemeSlice.StartsDark | src/store/slices/themeSlice.ts:8-18 | dark at start, light after one toggle |

## Left out

- Rendering: components, styles, charts and formatting (`toLocaleString`,
  the ×19,000,000 / ×500,000 / ×1.2 market figures, which are modelled as
  unspecified text derived from the last close).
- Network, query and storage engines. `fetch`, axios, react-query,
  MMKV/SQLite and AsyncStorage are replaced by parameters: abstract fetch
  outcomes and storage outcomes (`ioOk`, `SqlIo`, `vacuum`).
  - react-query's own caching, retries and stale times are not modelled;
    only the callbacks the app passes to it are.
  - JSON encoding is taken to round-trip exactly.
- Schema DDL, migration and the storage-statistics query: they have no
  effect on the stored rows.
- `VACUUM` itself is modelled only by its effect on the transaction around
  it. Two documented library rules are assumed, not checked: SQLite refuses
  `VACUUM` inside a transaction, and react-native-sqlite-storage rolls a
  transaction back when a statement fails without an error callback that
  returns `false`. If the library ran `VACUUM` outside the transaction,
  `clearStorage` and the `VACUUM` draw of `optimizeStorage` would also prune
  the SQL tier. The model does not cover that reading. `Math.random`'s draw
  is the `vacuum` parameter.
- A failing metadata `INSERT` or pair `DELETE` in the SQL write-through:
  neither has an error callback, and the transaction has none either. The
  transaction rolls back, and `getCryptoData`'s promise never settles. A
  call that never settles is not modelled; only insert errors
  (`SqlIo.writeError`) are.
- CryptoStorage.StateValid: line 245 calls `Date.now()` twice, once for the
  metadata value and once for its timestamp. The model reads the clock once,
  so the two are equal; the source guarantees only `value <= timestamp`.
  `OptimizePreservesLookups` needs only that inequality.
- Timers and concurrency: polling intervals, AppState listeners, debounce,
  AbortController delivery and interleavings of concurrent async calls.
  Each async operation runs to completion in one step; only the sequential
  guards (in-progress, loading and refreshing flags) are modelled.
- `useCoinsData`'s `handleScroll` and `handleLoadMore` are not modelled
  separately: the same trigger rule is modelled once, for the `CoinsList`
  screen (`CoinsListScreen.ScrollTriggerRule`).
- `useCoinsData`'s `onSuccess` hands the flattened pages to
  `persistDataToStorage`, which is `OfflineStore.Persist`. The callback
  itself belongs to react-query's lifecycle and is not modelled.
- `CoinsList`'s `handleLoadMore`: its guard reads a stale `hasNextPage`
  closure that only a model of React re-rendering could express.
- `CoinListFile`'s `onEndReached` guard (`hasNextPage &&
  !isFetchingNextPage`, then `fetchNextPage`): react-query's paging call,
  not modelled.
- `backgroundRefreshData`'s storage write: the helpers it calls are
  neither imported nor defined in that module. So as written it always
  throws, and the refresh always completes with the empty payload. The
  write is a boolean parameter saying whether it returned, and its effect
  on storage is not modelled.
- `useCoinDetails`, and the `useCoinChart` of `src/hooks/useCoinChart.ts`:
  query glue with no logic of their own. The `useCoinChart` of
  `src/hooks/useCoinData.ts` is modelled only for its `enabled` flag
  (`CoinListQuery.ChartQueryEnabled`); its query call is glue.
- The settings slice's `fetchCryptoData` thunk and its `dataCache` field:
  the thunk's body has no effect on the state, and the field is never
  read.
- Floating point: prices and percentages are exact reals.
  - `CalculatePriceChange`: a zero first open gives JavaScript's
    `Infinity`/`NaN`, modelled as `NotFinite`.
  - The 20 % scroll threshold is exact.
- Text: case mapping is ASCII only. Unicode case folding and normalisation
  are not modelled. `trim` uses the ASCII and common Unicode space
  characters.
- Sorting: `Array.prototype.sort` is stable (ES2019), so the model is a
  stable insertion sort by key. JavaScript's comparator sort is not
  modelled for comparators other than the key differences the code uses.
- ChartData.SampleDataPoints: models the chart screen's copy; the slice's
  copy at src/screens/Home/CoinDetails/redux/cryptoSlice.tsx:297-317 is
  textually identical and shares the model, as do `formatChartData` and
  `calculatePriceChange` at 261-295.
