/** The coin-detail screen's Redux slice: the selection, loading and
    data-source state, its reducers, and the two thunks that load a chart
    through the tiered store and refresh it in the background. */
module CoinDetailsSlice {
  import opened Wrappers
  import opened Text
  import opened ChartData
  import CryptoStorage

  datatype CryptoInfo = CryptoInfo(id: string, productId: int, name: string, symbol: string, color: string, currentPrice: real)

  /** One market-data field: a placeholder text, or an amount that the
      screen renders with `toLocaleString`. */
  datatype MarketFigure = Label(text: string) | Amount(value: real)

  datatype MarketData = MarketData(marketCap: MarketFigure, volume24h: MarketFigure,
                                   circulatingSupply: MarketFigure, allTimeHigh: MarketFigure)

  /** An action payload; a field the payload object lacks is `None`. */
  datatype Payload = Payload(chartData: Option<ChartSeries>, currentPrice: Option<real>, priceChange: Option<Percent>,
                             marketData: Option<MarketData>, dataSource: Option<DataSource>)

  datatype DetailsState = DetailsState(
    selectedCrypto: CryptoInfo,
    selectedTimeFrame: string,
    chartType: string,
    isLoading: bool,
    error: Option<string>,
    chartData: Option<ChartSeries>,
    currentPrice: Option<real>,
    priceChange: Option<Percent>,
    marketData: Option<MarketData>,
    lastUpdated: Option<int>,
    dataSource: Option<DataSource>,
    isBackgroundRefreshing: bool)

  datatype Action =
    | SelectCrypto(crypto: CryptoInfo)
    | SelectTimeFrame(timeFrame: string)
    | SelectChartType(kind: string)
    | FetchStart
    | FetchSuccess(payload: Payload)
    | FetchError(message: string)
    | BackgroundRefreshStart
    | BackgroundRefreshComplete(payload: Payload)
    | CachedDataLoaded(payload: Payload, source: Option<DataSource>)  // this reducer reads the payload's `source`, not `dataSource`

  const DefaultCrypto := CryptoInfo("btc", 2, "Bitcoin", "BTC", "#F7931A", 94258.0)

  const EmptySeries := ChartSeries([], [])

  const Placeholder := MarketData(Label("-"), Label("-"), Label("-"), Label("-"))

  const InitialState := DetailsState(DefaultCrypto, "1D", "line", false, None, Some(EmptySeries),
                                     Some(DefaultCrypto.currentPrice), Some(Pct(0.0)), Some(Placeholder),
                                     None, None, false)

  /** The payload `backgroundRefreshComplete({})` carries. */
  const EmptyPayload := Payload(None, None, None, None, None)

  /** The message of the `TypeError` the JavaScript engine raises when the
      series is empty and `lastItem.usd` is read from `undefined` (Hermes's
      wording). */
  const MissingLastItem := "Cannot read property 'usd' of undefined"

  /** The slice's reducers; `now` is `Date.now()`. */
  function Reduce(s: DetailsState, a: Action, now: int): DetailsState
  {
    match a
    case SelectCrypto(c) => s.(selectedCrypto := c, isLoading := true, error := None, chartData := Some(EmptySeries))
    case SelectTimeFrame(tf) => s.(selectedTimeFrame := tf, isLoading := true, error := None)
    case SelectChartType(k) => s.(chartType := k)
    case FetchStart => s.(isLoading := true, error := None)
    case FetchSuccess(p) =>
      s.(chartData := p.chartData, currentPrice := p.currentPrice, priceChange := p.priceChange,
         marketData := p.marketData, isLoading := false, lastUpdated := Some(now),
         dataSource := Some(if p.dataSource.Some? then p.dataSource.value else Api))
    case FetchError(m) => s.(error := Some(m), isLoading := false)
    case BackgroundRefreshStart => s.(isBackgroundRefreshing := true)
    case BackgroundRefreshComplete(p) =>
      s.(chartData := p.chartData, currentPrice := p.currentPrice, priceChange := p.priceChange,
         marketData := p.marketData, lastUpdated := Some(now), isBackgroundRefreshing := false,
         dataSource := Some(Api))
    case CachedDataLoaded(p, src) =>
      s.(chartData := p.chartData, currentPrice := p.currentPrice, priceChange := p.priceChange,
         marketData := p.marketData, isLoading := false,
         dataSource := Some(if src.Some? then src.value else Cache), lastUpdated := Some(now))
  }

  // ---------------------------------------------------------------------
  // Thunk helpers

  /** The `days` value the thunks put into the OHLC request. */
  function ThunkDays(timeframe: string): Days
  {
    if timeframe == "1D" then Count(1)
    else if timeframe == "1W" then Count(7)
    else if timeframe == "1M" then Count(30)
    else if timeframe == "1Y" then Count(365)
    else Max
  }

  /** The market figures derived from the last close; `supply` is the text
      shown as the circulating supply. */
  function MarketFor(close: real, supply: string): MarketData
  {
    MarketData(Amount(close * 19000000.0), Amount(close * 500000.0), Label(supply), Amount(close * 1.2))
  }

  /** The success payload the thunks build from a non-empty series. */
  function SeriesPayload(data: seq<PricePoint>, cryptoId: string, source: Option<DataSource>): (p: Payload)
    requires data != []
  {
    var close := data[|data| - 1].usd.close;
    Payload(Some(FormatChartData(data)), Some(close), Some(CalculatePriceChange(data)), Some(MarketFor(close, ToUpper(cryptoId))), source)
  }

  function Pt(date: int, o: real, h: real, l: real, c: real, ao: real, ah: real, al: real, ac: real): PricePoint
  {
    PricePoint(date, Ohlc(o, h, l, c), Some(Ohlc(ao, ah, al, ac)))
  }

  const SampleStart: int := 1745672400000
  const SampleEnd: int := 1745674200000

  const BtcSample := [Pt(SampleStart, 94345.0, 94345.0, 94251.0, 94258.0, 346528.0, 346528.0, 346184.0, 346211.0),
                      Pt(SampleEnd, 94262.0, 94296.0, 94218.0, 94218.0, 346223.0, 346348.0, 346064.0, 346064.0)]

  /** `getSampleData`: the built-in two-point series for btc, eth, sol and
      ada, and the btc series for any other id. */
  function GetSampleData(cryptoId: string): (r: seq<PricePoint>)
    ensures |r| == 2 && r[0].date == SampleStart && r[1].date == SampleEnd && r[0].date < r[1].date
    ensures forall k :: 0 <= k < 2 ==> r[k].usd.open > 0.0 && r[k].aed.Some?
    ensures cryptoId == "btc" || !(cryptoId in ["eth", "sol", "ada"]) ==> r == BtcSample
  {
    if cryptoId == "eth" then
      [Pt(SampleStart, 3524.78, 3538.55, 3511.23, 3525.42, 12941.9, 12995.9, 12895.8, 12944.8),
       Pt(SampleEnd, 3525.42, 3532.18, 3518.75, 3524.78, 12944.8, 12971.3, 12923.4, 12941.9)]
    else if cryptoId == "sol" then
      [Pt(SampleStart, 187.65, 188.92, 186.54, 187.28, 688.97, 693.45, 684.84, 687.42),
       Pt(SampleEnd, 187.28, 189.05, 186.42, 187.65, 687.42, 693.94, 684.40, 688.97)]
    else if cryptoId == "ada" then
      [Pt(SampleStart, 0.45, 0.46, 0.44, 0.45, 1.65, 1.69, 1.61, 1.65),
       Pt(SampleEnd, 0.45, 0.45, 0.44, 0.45, 1.65, 1.65, 1.61, 1.65)]
    else BtcSample
  }

  /** The sample series' price change: btc falls; eth, sol and ada each
      close exactly where they opened, so their change is zero. */
  lemma SamplePriceChanges()
    ensures CalculatePriceChange(GetSampleData("btc")).Pct? && CalculatePriceChange(GetSampleData("btc")).value < 0.0
    ensures CalculatePriceChange(GetSampleData("eth")) == Pct(0.0)
    ensures CalculatePriceChange(GetSampleData("sol")) == Pct(0.0)
    ensures CalculatePriceChange(GetSampleData("ada")) == Pct(0.0)
  {
    PriceChangeSign(GetSampleData("btc"));
    PriceChangeSign(GetSampleData("eth"));
    PriceChangeSign(GetSampleData("sol"));
    PriceChangeSign(GetSampleData("ada"));
  }

  /** `fetchCryptoData` once `getCryptoData` has settled with `res`: the final
      state and whether a background refresh was dispatched. */
  function FetchCryptoDataSpec(s: DetailsState, cryptoId: string, res: Result<CryptoStorage.CryptoResult>, now: int): (DetailsState, bool)
  {
    var started := Reduce(s, FetchStart, now);
    if res.Ok? && res.value.data != [] then
      (Reduce(started, FetchSuccess(SeriesPayload(res.value.data, cryptoId, Some(res.value.source))), now), res.value.needsRefresh)
    else
      var message := if res.Err? then res.message else MissingLastItem;
      var failed := Reduce(started, FetchError(message), now);
      (Reduce(failed, FetchSuccess(SeriesPayload(GetSampleData(cryptoId), cryptoId, Some(Fallback))), now), false)
  }

  /** `backgroundRefreshData` given the fetch outcome and whether the
      storage write returned. The write calls `storage` and
      `storeChartDataInSQLite`, which the module neither imports nor
      defines, so as written `writeReturned` is always false. */
  function BackgroundRefreshSpec(s: DetailsState, cryptoId: string, fetched: Result<seq<PricePoint>>, writeReturned: bool, now: int): DetailsState
  {
    var started := Reduce(s, BackgroundRefreshStart, now);
    if fetched.Ok? && writeReturned && fetched.value != [] then
      Reduce(started, BackgroundRefreshComplete(SeriesPayload(fetched.value, cryptoId, None)), now)
    else
      Reduce(started, BackgroundRefreshComplete(EmptyPayload), now)
  }

  // ---------------------------------------------------------------------
  // The store

  class DetailsSlice {
    var selectedCrypto: CryptoInfo
    var selectedTimeFrame: string
    var chartType: string
    var isLoading: bool
    var error: Option<string>
    var chartData: Option<ChartSeries>
    var currentPrice: Option<real>
    var priceChange: Option<Percent>
    var marketData: Option<MarketData>
    var lastUpdated: Option<int>
    var dataSource: Option<DataSource>
    var isBackgroundRefreshing: bool

    function State(): DetailsState
      reads this
    {
      DetailsState(selectedCrypto, selectedTimeFrame, chartType, isLoading, error, chartData,
                   currentPrice, priceChange, marketData, lastUpdated, dataSource, isBackgroundRefreshing)
    }

    constructor ()
      ensures State() == InitialState
    {
      selectedCrypto := DefaultCrypto;
      selectedTimeFrame := "1D";
      chartType := "line";
      isLoading := false;
      error := None;
      chartData := Some(EmptySeries);
      currentPrice := Some(DefaultCrypto.currentPrice);
      priceChange := Some(Pct(0.0));
      marketData := Some(Placeholder);
      lastUpdated := None;
      dataSource := None;
      isBackgroundRefreshing := false;
    }

    method CopyPayload(p: Payload)
      modifies this
      ensures State() == old(State()).(chartData := p.chartData, currentPrice := p.currentPrice,
                                       priceChange := p.priceChange, marketData := p.marketData)
    {
      chartData := p.chartData;
      currentPrice := p.currentPrice;
      priceChange := p.priceChange;
      marketData := p.marketData;
    }

    /** `dispatch(action)`: the reducer updates the fields in place. */
    method Dispatch(a: Action, now: int)
      modifies this
      ensures State() == Reduce(old(State()), a, now)
    {
      match a {
        case SelectCrypto(c) =>
          selectedCrypto := c;
          isLoading := true;
          error := None;
          chartData := Some(EmptySeries);
        case SelectTimeFrame(tf) =>
          selectedTimeFrame := tf;
          isLoading := true;
          error := None;
        case SelectChartType(k) =>
          chartType := k;
        case FetchStart =>
          isLoading := true;
          error := None;
        case FetchSuccess(p) =>
          CopyPayload(p);
          isLoading := false;
          lastUpdated := Some(now);
          dataSource := Some(if p.dataSource.Some? then p.dataSource.value else Api);
        case FetchError(m) =>
          error := Some(m);
          isLoading := false;
        case BackgroundRefreshStart =>
          isBackgroundRefreshing := true;
        case BackgroundRefreshComplete(p) =>
          CopyPayload(p);
          lastUpdated := Some(now);
          isBackgroundRefreshing := false;
          dataSource := Some(Api);
        case CachedDataLoaded(p, src) =>
          CopyPayload(p);
          isLoading := false;
          dataSource := Some(if src.Some? then src.value else Cache);
          lastUpdated := Some(now);
      }
    }

    /** `fetchCryptoData(cryptoId, productId, timeframe)`: `fetchStart`, the
        storage lookup (with `io` standing for how its SQL statements go and
        `fetched` for the API call it may make), then success, or the error
        and the sample fallback. Returns whether `backgroundRefreshData` was
        dispatched. */
    method FetchCryptoData(store: CryptoStorage.TieredStore, cryptoId: string, productId: int, timeframe: string,
                           now: int, io: CryptoStorage.SqlIo, fetched: Result<seq<PricePoint>>) returns (refreshScheduled: bool)
      requires store.Valid()
      modifies this, store
      ensures store.Valid()
      ensures var res := CryptoStorage.Outcome(old(store.State()), cryptoId, timeframe, now, io, fetched);
        (State(), refreshScheduled) == FetchCryptoDataSpec(old(State()), cryptoId, res, now) &&
        store.State() == if res.Ok? && res.value.source == Api
                         then CryptoStorage.WriteThrough(old(store.State()), cryptoId, productId, timeframe, fetched.value, now)
                         else old(store.State())
    {
      Dispatch(FetchStart, now);
      var res := store.GetCryptoData(cryptoId, productId, timeframe, now, io, fetched);
      if res.Ok? && |res.value.data| > 0 {
        var data := res.value.data;
        Dispatch(FetchSuccess(SeriesPayload(data, cryptoId, Some(res.value.source))), now);
        refreshScheduled := res.value.needsRefresh;
      } else {
        var message := if res.Err? then res.message else MissingLastItem;
        Dispatch(FetchError(message), now);
        var sample := GetSampleData(cryptoId);
        Dispatch(FetchSuccess(SeriesPayload(sample, cryptoId, Some(Fallback))), now);
        refreshScheduled := false;
      }
    }

    /** `backgroundRefreshData`: start, then complete with the fresh series,
        or with an empty payload when anything failed. */
    method BackgroundRefreshData(cryptoId: string, now: int, fetched: Result<seq<PricePoint>>, writeReturned: bool)
      modifies this
      ensures State() == BackgroundRefreshSpec(old(State()), cryptoId, fetched, writeReturned, now)
    {
      Dispatch(BackgroundRefreshStart, now);
      if fetched.Ok? && writeReturned && |fetched.value| > 0 {
        Dispatch(BackgroundRefreshComplete(SeriesPayload(fetched.value, cryptoId, None)), now);
      } else {
        Dispatch(BackgroundRefreshComplete(EmptyPayload), now);
      }
    }
  }

  // ---------------------------------------------------------------------
  // Properties

  /** Choosing a coin starts loading, clears the error and empties the
      chart; choosing a timeframe does the same but keeps the chart. */
  lemma SelectionSetters(s: DetailsState, c: CryptoInfo, tf: string, now: int)
    ensures var t := Reduce(s, SelectCrypto(c), now);
      t.selectedCrypto == c && t.isLoading && t.error == None && t.chartData == Some(EmptySeries) &&
      t.selectedTimeFrame == s.selectedTimeFrame && t.dataSource == s.dataSource
    ensures var t := Reduce(s, SelectTimeFrame(tf), now);
      t.selectedTimeFrame == tf && t.isLoading && t.error == None && t.chartData == s.chartData &&
      t.selectedCrypto == s.selectedCrypto && t.dataSource == s.dataSource
  {
  }

  /** `fetchSuccess` ends loading, stamps `lastUpdated`, defaults the source
      to `api`, and leaves any error in place. */
  lemma FetchSuccessEffects(s: DetailsState, p: Payload, now: int)
    ensures var t := Reduce(s, FetchSuccess(p), now);
      !t.isLoading && t.lastUpdated == Some(now) && t.error == s.error &&
      t.chartData == p.chartData && t.currentPrice == p.currentPrice &&
      t.dataSource == Some(if p.dataSource == None then Api else p.dataSource.value)
  {
  }

  /** Loading from storage ends loading and defaults the source to `cache`. */
  lemma CachedDataLoadedEffects(s: DetailsState, p: Payload, src: Option<DataSource>, now: int)
    ensures var t := Reduce(s, CachedDataLoaded(p, src), now);
      !t.isLoading && t.lastUpdated == Some(now) && t.error == s.error && t.chartData == p.chartData &&
      t.dataSource == Some(if src == None then Cache else src.value) &&
      t.isBackgroundRefreshing == s.isBackgroundRefreshing
  {
  }

  /** The background-refresh actions never touch loading, selection or the
      error; completing always records `api` and copies the payload. */
  lemma BackgroundRefreshIsolation(s: DetailsState, a: Action, now: int)
    requires a.BackgroundRefreshStart? || a.BackgroundRefreshComplete?
    ensures var t := Reduce(s, a, now);
      t.isLoading == s.isLoading && t.error == s.error && t.selectedCrypto == s.selectedCrypto &&
      t.selectedTimeFrame == s.selectedTimeFrame && t.chartType == s.chartType
    ensures a.BackgroundRefreshStart? ==> Reduce(s, a, now) == s.(isBackgroundRefreshing := true)
    ensures a.BackgroundRefreshComplete? ==>
      var t := Reduce(s, a, now);
      !t.isBackgroundRefreshing && t.dataSource == Some(Api) && t.chartData == a.payload.chartData &&
      t.currentPrice == a.payload.currentPrice && t.priceChange == a.payload.priceChange &&
      t.marketData == a.payload.marketData
  {
  }

  /** A failed background refresh blanks the chart, price, change and market
      data (it completes with an empty payload) and still tags the state
      `api`; the loading flag and the error are untouched. */
  lemma FailedRefreshBlanksData(s: DetailsState, cryptoId: string, fetched: Result<seq<PricePoint>>, writeReturned: bool, now: int)
    requires fetched.Err? || !writeReturned || fetched.value == []
    ensures var t := BackgroundRefreshSpec(s, cryptoId, fetched, writeReturned, now);
      t.chartData == None && t.currentPrice == None && t.priceChange == None && t.marketData == None &&
      t.dataSource == Some(Api) && !t.isBackgroundRefreshing && t.isLoading == s.isLoading && t.error == s.error
  {
  }

  /** Had the storage write returned, the background refresh would show the
      fresh series; as written the write always throws, and
      `FailedRefreshBlanksData` describes every refresh. */
  lemma RefreshShowsFreshSeries(s: DetailsState, cryptoId: string, data: seq<PricePoint>, now: int)
    requires data != []
    ensures var t := BackgroundRefreshSpec(s, cryptoId, Ok(data), true, now);
      t.chartData == Some(FormatChartData(data)) && t.currentPrice == Some(data[|data| - 1].usd.close) &&
      t.dataSource == Some(Api) && !t.isBackgroundRefreshing && t.isLoading == s.isLoading
  {
  }

  /** On success `fetchCryptoData` records the series with the source the
      store reported, clears the error, and schedules a background refresh
      exactly when the store asked for one. */
  lemma FetchCryptoDataSucceeds(s: DetailsState, cryptoId: string, r: CryptoStorage.CryptoResult, now: int)
    requires r.data != []
    ensures var (t, scheduled) := FetchCryptoDataSpec(s, cryptoId, Ok(r), now);
      !t.isLoading && t.error == None && t.dataSource == Some(r.source) &&
      t.chartData == Some(FormatChartData(r.data)) && t.currentPrice == Some(r.data[|r.data| - 1].usd.close) &&
      t.lastUpdated == Some(now) && scheduled == r.needsRefresh
  {
  }

  /** A thrown fetch, or an empty series, ends with the sample series tagged
      `fallback`, loading finished, the error still recorded, and no
      background refresh. */
  lemma FetchCryptoDataFallsBack(s: DetailsState, cryptoId: string, res: Result<CryptoStorage.CryptoResult>, now: int)
    requires res.Err? || res.value.data == []
    ensures var (t, scheduled) := FetchCryptoDataSpec(s, cryptoId, res, now);
      !t.isLoading && t.dataSource == Some(Fallback) && !scheduled &&
      t.error == Some(if res.Err? then res.message else MissingLastItem) &&
      t.chartData == Some(FormatChartData(GetSampleData(cryptoId))) &&
      t.currentPrice == Some(GetSampleData(cryptoId)[1].usd.close)
  {
  }

  /** An API answer never asks for a background refresh, so a miss served
      by the API ends the thunk without one. */
  lemma ApiAnswerSchedulesNoRefresh(s: DetailsState, store: CryptoStorage.StoreState, cryptoId: string, timeframe: string,
                                    now: int, io: CryptoStorage.SqlIo, fetched: Result<seq<PricePoint>>)
    requires CryptoStorage.TierAnswer(store, cryptoId, timeframe, now, io) == None
    ensures !FetchCryptoDataSpec(s, cryptoId, CryptoStorage.Outcome(store, cryptoId, timeframe, now, io, fetched), now).1
  {
  }

  /** A good fetch whose SQL write-through is rejected ends, like any thrown
      lookup, with the sample series tagged `fallback`, the insert's error
      recorded and no background refresh. */
  lemma RejectedWriteShowsSample(s: DetailsState, store: CryptoStorage.StoreState, cryptoId: string, timeframe: string,
                                 now: int, io: CryptoStorage.SqlIo, data: seq<PricePoint>)
    requires !CryptoStorage.UsesFastTier(timeframe) && io.writeError.Some?
    requires CryptoStorage.TierAnswer(store, cryptoId, timeframe, now, io) == None
    ensures var (t, scheduled) := FetchCryptoDataSpec(s, cryptoId, CryptoStorage.Outcome(store, cryptoId, timeframe, now, io, Ok(data)), now);
      !t.isLoading && t.dataSource == Some(Fallback) && t.error == Some(io.writeError.value) && !scheduled &&
      t.chartData == Some(FormatChartData(GetSampleData(cryptoId)))
  {
    CryptoStorage.RejectedWriteRejects(store, cryptoId, timeframe, now, io, data);
    FetchCryptoDataFallsBack(s, cryptoId, CryptoStorage.Outcome(store, cryptoId, timeframe, now, io, Ok(data)), now);
  }
}
