/** The coin-detail chart screen: its timeframe table, the pre-filter that
    thins very long series, and the `fetchData` flow that consults the
    screen's `DataCache` before the network and falls back to the sample
    series. */
module PriceChart {
  import opened Wrappers
  import opened Sequences
  import opened ChartData
  import opened CoinDetailsSlice
  import PriceChartCache

  datatype TimeFrameInfo = TimeFrameInfo(days: Days, interval: string)

  /** `timeFrameMap[tf]`; `None` where the object has no such property. */
  function TimeFrameMap(tf: string): (r: Option<TimeFrameInfo>)
    ensures r.Some? <==> tf in ["1D", "1W", "1M", "1Y", "ALL"]
    ensures r.Some? ==> r.value.days == ThunkDays(tf)
  {
    if tf == "1D" then Some(TimeFrameInfo(Count(1), "hour"))
    else if tf == "1W" then Some(TimeFrameInfo(Count(7), "day"))
    else if tf == "1M" then Some(TimeFrameInfo(Count(30), "day"))
    else if tf == "1Y" then Some(TimeFrameInfo(Count(365), "week"))
    else if tf == "ALL" then Some(TimeFrameInfo(Max, "month"))
    else None
  }

  /** The coins the screen's picker offers. */
  const Cryptocurrencies: seq<CryptoInfo> := [
    DefaultCrypto,
    CryptoInfo("eth", 3, "Ethereum", "ETH", "#627EEA", 3524.78),
    CryptoInfo("sol", 16, "Solana", "SOL", "#00FFA3", 187.65),
    CryptoInfo("ada", 4, "Cardano", "ADA", "#0033AD", 0.45)]

  /** The screen's own fallback series: the btc sample, whatever coin is shown. */
  const SampleData: seq<PricePoint> := BtcSample

  const ScreenCacheSize: int := 20
  predicate IsLargeTimeframe(tf: string)
  {
    tf == "ALL" || tf == "1Y"
  }

  // ---------------------------------------------------------------------
  // The pre-filter

  const DayMs: int := 24 * 60 * 60 * 1000
  const WeekMs: int := 7 * DayMs
  const PreFilterThreshold: int := 1000
  const WideGapThreshold: int := 5000

  /** The minimum spacing kept for a series of `n` points. */
  function GapFor(n: nat): int
  {
    if n > WideGapThreshold then WeekMs else DayMs
  }

  /** The points the pre-filter keeps from `data` when the last kept point
      was at `last`. */
  function KeepFrom(data: seq<PricePoint>, last: int, gap: int): seq<PricePoint>
    decreases |data|
  {
    if data == [] then []
    else if data[0].date - last >= gap then [data[0]] + KeepFrom(data[1..], data[0].date, gap)
    else KeepFrom(data[1..], last, gap)
  }

  /** Each point is at least `gap` after the one before it, and the first at
      least `gap` after `start`. */
  ghost predicate SpacedFrom(r: seq<PricePoint>, start: int, gap: int)
  {
    (r != [] ==> r[0].date - start >= gap) &&
    forall k :: 0 < k < |r| ==> r[k].date - r[k - 1].date >= gap
  }

  /** The pre-filter loop of `fetchDataWithPagination`. */
  method PreFilter(data: seq<PricePoint>, gap: int) returns (filtered: seq<PricePoint>)
    ensures filtered == KeepFrom(data, 0, gap)
  {
    filtered := [];
    var lastTimestamp := 0;
    var i := 0;
    while i < |data|
      invariant 0 <= i <= |data|
      invariant filtered + KeepFrom(data[i..], lastTimestamp, gap) == KeepFrom(data, 0, gap)
    {
      var point := data[i];
      assert data[i..][1..] == data[i + 1..];
      if point.date - lastTimestamp >= gap {
        filtered := filtered + [point];
        lastTimestamp := point.date;
      }
      i := i + 1;
    }
    assert data[i..] == [];
  }

  /** What the pre-filter keeps is a subsequence of its input. */
  lemma {:induction false} KeepFromSubsequence(data: seq<PricePoint>, last: int, gap: int)
    ensures Subsequence(KeepFrom(data, last, gap), data)
    decreases |data|
  {
    if data != [] {
      KeepFromSubsequence(data[1..], data[0].date, gap);
      KeepFromSubsequence(data[1..], last, gap);
    }
  }

  /** Every kept point is at least one gap after the previously kept point,
      the first one at least one gap after `last`. */
  lemma {:induction false} KeepFromSpaced(data: seq<PricePoint>, last: int, gap: int)
    ensures SpacedFrom(KeepFrom(data, last, gap), last, gap)
    decreases |data|
  {
    if data != [] {
      if data[0].date - last >= gap {
        var rest := KeepFrom(data[1..], data[0].date, gap);
        KeepFromSpaced(data[1..], data[0].date, gap);
        var r := [data[0]] + rest;
        forall k | 0 < k < |r| ensures r[k].date - r[k - 1].date >= gap {
          if k > 1 {
            assert r[k] == rest[k - 1] && r[k - 1] == rest[k - 2];
          }
        }
      } else {
        KeepFromSpaced(data[1..], last, gap);
      }
    }
  }

  /** A series that is already spaced by the gap passes through whole: the
      filter drops only points that come too soon. */
  lemma {:induction false} KeepFromSpacedIdentity(data: seq<PricePoint>, last: int, gap: int)
    requires SpacedFrom(data, last, gap)
    ensures KeepFrom(data, last, gap) == data
    decreases |data|
  {
    if data != [] {
      assert SpacedFrom(data[1..], data[0].date, gap) by {
        forall k | 0 < k < |data[1..]| ensures data[1..][k].date - data[1..][k - 1].date >= gap {
          assert data[1..][k] == data[k + 1] && data[1..][k - 1] == data[k];
        }
        if |data| > 1 {
          assert data[1..][0] == data[1];
        }
      }
      KeepFromSpacedIdentity(data[1..], data[0].date, gap);
      assert data == [data[0]] + data[1..];
    }
  }

  /** A point that comes less than one gap after `last` is dropped. */
  lemma DropsTooSoon(p: PricePoint, rest: seq<PricePoint>, last: int, gap: int)
    requires p.date - last < gap
    ensures KeepFrom([p] + rest, last, gap) == KeepFrom(rest, last, gap)
  {
    assert ([p] + rest)[1..] == rest;
  }

  /** The response processing of `fetchDataWithPagination`: only a 1Y or ALL
      series of more than 1000 points is thinned, to one point per week when
      it has more than 5000 and per day otherwise. */
  function ProcessResponse(tf: string, data: seq<PricePoint>): (r: seq<PricePoint>)
    ensures Subsequence(r, data)
    ensures !IsLargeTimeframe(tf) || |data| <= PreFilterThreshold ==> r == data
    ensures IsLargeTimeframe(tf) && |data| > PreFilterThreshold ==>
      SpacedFrom(r, 0, if |data| > WideGapThreshold then WeekMs else DayMs)
  {
    KeepFromSubsequence(data, 0, GapFor(|data|));
    KeepFromSpaced(data, 0, GapFor(|data|));
    SubsequenceReflexive(data);
    if IsLargeTimeframe(tf) && |data| > PreFilterThreshold then KeepFrom(data, 0, GapFor(|data|)) else data
  }

  // ---------------------------------------------------------------------
  // fetchData

  /** The module cache's key `${productId}-${days}`, kept as the pair it is
      built from. */
  type CacheKey = (int, Days)

  /** What the request in `fetchDataWithPagination` ends with. */
  datatype HttpOutcome =
    | NotOk(status: int)                 // the response is not ok: an Error is thrown
    | Aborted                            // the request rejects with an AbortError
    | NotAnArray                         // the body is null or not an array
    | Received(points: seq<PricePoint>)  // an array body

  /** The payload the screen builds: no `dataSource`, and the coin's symbol
      as the circulating supply. */
  function ScreenPayload(data: seq<PricePoint>, symbol: string): Payload
    requires data != []
  {
    var close := data[|data| - 1].usd.close;
    Payload(Some(FormatChartData(data)), Some(close), Some(CalculatePriceChange(data)), Some(MarketFor(close, symbol)), None)
  }

  datatype ScreenState = ScreenState(inProgress: bool, isMounted: bool,
                                     cache: PriceChartCache.CacheState<CacheKey, Payload>, details: DetailsState)

  /** The state after the `catch` block: the sample series is dispatched
      unless the request was aborted or the screen is gone. */
  function Failed(s: ScreenState, cache: PriceChartCache.CacheState<CacheKey, Payload>, started: DetailsState, now: int): ScreenState
  {
    var details := if s.isMounted then Reduce(started, FetchSuccess(ScreenPayload(SampleData, started.selectedCrypto.symbol)), now)
                   else started;
    ScreenState(false, s.isMounted, cache, details)
  }

  /** `fetchData` at time `now`, given what the request would end with: the
      new state and whether the network was asked. */
  function FetchDataSpec(s: ScreenState, maxSize: int, now: int, http: HttpOutcome): (ScreenState, bool)
  {
    if s.inProgress then (s, false)
    else
      var started := Reduce(s.details, FetchStart, now);
      var info := TimeFrameMap(started.selectedTimeFrame);
      if info.None? then (Failed(s, s.cache, started, now), false)
      else
        var key := (started.selectedCrypto.productId, info.value.days);
        var (hit, cache) := PriceChartCache.GetSpec(s.cache, key, now);
        if hit.Some? then (ScreenState(false, s.isMounted, cache, Reduce(started, FetchSuccess(hit.value), now)), false)
        else
          match http
          case Aborted => (ScreenState(false, s.isMounted, cache, started), true)
          case Received(points) =>
            var data := ProcessResponse(started.selectedTimeFrame, points);
            if data == [] then (Failed(s, cache, started, now), true)
            else
              var result := ScreenPayload(data, started.selectedCrypto.symbol);
              var stored := PriceChartCache.SetSpec(cache, maxSize, key, result, now);
              (ScreenState(false, s.isMounted, stored, if s.isMounted then Reduce(started, FetchSuccess(result), now) else started), true)
          case _ => (Failed(s, cache, started, now), true)
  }

  class ChartScreen {
    /** `dataFetchingInProgress.current` and `isMounted.current`. */
    var inProgress: bool
    var isMounted: bool
    /** The module-level `dataCache` and the Redux store's crypto slice. */
    const cache: PriceChartCache.DataCache<CacheKey, Payload>
    const store: DetailsSlice

    ghost predicate Valid()
      reads this, cache
    {
      cache.Valid() && cache.maxSize == ScreenCacheSize
    }

    function State(): ScreenState
      reads this, cache, store
    {
      ScreenState(inProgress, isMounted, cache.State(), store.State())
    }

    constructor (cache: PriceChartCache.DataCache<CacheKey, Payload>, store: DetailsSlice)
      requires cache.Valid() && cache.maxSize == ScreenCacheSize
      ensures Valid() && this.cache == cache && this.store == store
      ensures State() == ScreenState(false, true, cache.State(), store.State())
    {
      this.cache := cache;
      this.store := store;
      inProgress := false;
      isMounted := true;
    }

    /** The unmount cleanup: later completions dispatch nothing. */
    method Unmount()
      modifies this
      ensures Valid() == old(Valid())
      ensures State() == old(State()).(isMounted := false)
    {
      isMounted := false;
    }

    /** `fetchData()`, with `http` standing for how the request would end. */
    method FetchData(now: int, http: HttpOutcome) returns (networkCalled: bool)
      requires Valid()
      modifies this, cache, store
      ensures Valid()
      ensures (State(), networkCalled) == FetchDataSpec(old(State()), ScreenCacheSize, now, http)
    {
      networkCalled := false;
      if inProgress {
        return;
      }
      ghost var s0 := State();
      inProgress := true;
      store.Dispatch(FetchStart, now);
      ghost var started := store.State();
      assert started == Reduce(s0.details, FetchStart, now) && cache.State() == s0.cache;
      var crypto := store.selectedCrypto;
      var timeFrame := store.selectedTimeFrame;
      var info := TimeFrameMap(timeFrame);
      var failed := false;
      if info.None? {
        failed := true;
      } else {
        var key := (crypto.productId, info.value.days);
        var cached := cache.Get(key, now);
        ghost var afterGet := cache.State();
        assert (cached, afterGet) == PriceChartCache.GetSpec(s0.cache, key, now) && store.State() == started;
        if cached.Some? {
          store.Dispatch(FetchSuccess(cached.value), now);
          inProgress := false;
          return;
        }
        networkCalled := true;
        match http {
          case Aborted =>
          case Received(points) =>
            var data := points;
            if IsLargeTimeframe(timeFrame) && |points| > PreFilterThreshold {
              data := PreFilter(points, GapFor(|points|));
            }
            assert data == ProcessResponse(timeFrame, points);
            if |data| == 0 {
              failed := true;
            } else {
              var result := ScreenPayload(data, crypto.symbol);
              cache.Set(key, result, now);
              assert cache.State() == PriceChartCache.SetSpec(afterGet, ScreenCacheSize, key, result, now);
              assert store.State() == started;
              if isMounted {
                store.Dispatch(FetchSuccess(result), now);
              }
            }
          case NotOk(_) =>
            failed := true;
          case NotAnArray =>
            failed := true;
        }
      }
      if failed && isMounted {
        store.Dispatch(FetchSuccess(ScreenPayload(SampleData, crypto.symbol)), now);
      }
      inProgress := false;
    }
  }

  // ---------------------------------------------------------------------
  // Properties of fetchData

  /** While a fetch is in progress a call does nothing at all. */
  lemma InProgressGuard(s: ScreenState, maxSize: int, now: int, http: HttpOutcome)
    requires s.inProgress
    ensures FetchDataSpec(s, maxSize, now, http) == (s, false)
  {
  }

  /** A call that starts always clears the in-progress flag again, and it
      never changes whether the screen is mounted. */
  lemma InProgressCleared(s: ScreenState, maxSize: int, now: int, http: HttpOutcome)
    requires !s.inProgress
    ensures var (t, _) := FetchDataSpec(s, maxSize, now, http);
      !t.inProgress && t.isMounted == s.isMounted
  {
  }

  /** A fresh cache entry under `${productId}-${days}` is dispatched without
      asking the network, even after unmount, and leaves the cache as it was. */
  lemma CacheHitSkipsNetwork(s: ScreenState, maxSize: int, now: int, http: HttpOutcome)
    requires !s.inProgress
    requires var info := TimeFrameMap(s.details.selectedTimeFrame);
      info.Some? &&
      var key := (s.details.selectedCrypto.productId, info.value.days);
      key in s.cache.store && now - s.cache.store[key].timestamp <= PriceChartCache.CacheDuration
    ensures var key := (s.details.selectedCrypto.productId, TimeFrameMap(s.details.selectedTimeFrame).value.days);
      var (t, called) := FetchDataSpec(s, maxSize, now, http);
      !called && t.cache == s.cache &&
      t.details == Reduce(Reduce(s.details, FetchStart, now), FetchSuccess(s.cache.store[key].value), now)
  {
  }

  /** A successful miss stores the result under the key and dispatches it
      only while the screen is mounted. */
  lemma SuccessfulMissStores(s: ScreenState, maxSize: int, now: int, points: seq<PricePoint>)
    requires !s.inProgress
    requires var info := TimeFrameMap(s.details.selectedTimeFrame);
      info.Some? &&
      PriceChartCache.GetSpec(s.cache, (s.details.selectedCrypto.productId, info.value.days), now).0 == None
    requires ProcessResponse(s.details.selectedTimeFrame, points) != []
    ensures var key := (s.details.selectedCrypto.productId, TimeFrameMap(s.details.selectedTimeFrame).value.days);
      var data := ProcessResponse(s.details.selectedTimeFrame, points);
      var result := ScreenPayload(data, s.details.selectedCrypto.symbol);
      var (t, called) := FetchDataSpec(s, maxSize, now, Received(points));
      called && key in t.cache.store && t.cache.store[key] == PriceChartCache.Entry(result, now) &&
      t.details == (if s.isMounted then Reduce(Reduce(s.details, FetchStart, now), FetchSuccess(result), now)
                    else Reduce(s.details, FetchStart, now))
  {
  }

  /** An aborted request, or any failure or completion after unmount,
      dispatches nothing beyond the initial `fetchStart`; an unknown
      timeframe fails before any request, so only unmount silences it. */
  lemma AbortOrUnmountIsSilent(s: ScreenState, maxSize: int, now: int, http: HttpOutcome)
    requires !s.inProgress
    requires var info := TimeFrameMap(s.details.selectedTimeFrame);
      if info.None? then !s.isMounted
      else PriceChartCache.GetSpec(s.cache, (s.details.selectedCrypto.productId, info.value.days), now).0 == None &&
           (http.Aborted? || !s.isMounted)
    ensures FetchDataSpec(s, maxSize, now, http).0.details == Reduce(s.details, FetchStart, now)
  {
  }

  /** A failed request on a mounted screen shows the btc sample series; as
      the payload names no source, the slice records it as `api`, and the
      error stays cleared. */
  lemma FailureShowsSample(s: ScreenState, maxSize: int, now: int, http: HttpOutcome)
    requires !s.inProgress && s.isMounted
    requires http.NotOk? || http.NotAnArray? || (http.Received? && ProcessResponse(s.details.selectedTimeFrame, http.points) == [])
    requires var info := TimeFrameMap(s.details.selectedTimeFrame);
      info.None? ||
      PriceChartCache.GetSpec(s.cache, (s.details.selectedCrypto.productId, info.value.days), now).0 == None
    ensures var t := FetchDataSpec(s, maxSize, now, http).0.details;
      t.chartData == Some(FormatChartData(SampleData)) && t.currentPrice == Some(94218.0) &&
      t.dataSource == Some(Api) && t.error == None && !t.isLoading
  {
  }

  /** A second fetch of the same coin and timeframe within five minutes of a
      successful one is served from the cache, without the network. */
  lemma RefetchServedFromCache(s: ScreenState, now: int, later: int, points: seq<PricePoint>, http: HttpOutcome)
    requires !s.inProgress && s.isMounted && now <= later <= now + PriceChartCache.CacheDuration
    requires var info := TimeFrameMap(s.details.selectedTimeFrame);
      info.Some? &&
      PriceChartCache.GetSpec(s.cache, (s.details.selectedCrypto.productId, info.value.days), now).0 == None
    requires ProcessResponse(s.details.selectedTimeFrame, points) != []
    ensures var t := FetchDataSpec(s, ScreenCacheSize, now, Received(points)).0;
      var (u, called) := FetchDataSpec(t, ScreenCacheSize, later, http);
      !called && u.details.chartData == Some(FormatChartData(ProcessResponse(s.details.selectedTimeFrame, points)))
  {
    var t := FetchDataSpec(s, ScreenCacheSize, now, Received(points)).0;
    SuccessfulMissStores(s, ScreenCacheSize, now, points);
    assert Reduce(t.details, FetchStart, later).selectedTimeFrame == s.details.selectedTimeFrame;
    assert Reduce(t.details, FetchStart, later).selectedCrypto == s.details.selectedCrypto;
  }

  /** The screen's fallback is the btc sample of the slice. */
  lemma SampleDataIsBtc()
    ensures SampleData == GetSampleData("btc") && |SampleData| == 2
  {
  }
}
