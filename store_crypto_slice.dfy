/** The store's `crypto` slice: chart settings and the last fetched chart,
    changed only by its synchronous reducers. Its `fetchCryptoData` thunk
    has no reducer cases, so dispatching it leaves the state as it is. */
module StoreCryptoSlice {
  import opened Wrappers
  import opened ChartData
  import Details = CoinDetailsSlice

  /** A `fetchSuccess` payload; any field may be absent. */
  datatype ChartPayload = ChartPayload(chartData: Option<ChartSeries>, currentPrice: Option<real>,
                                       priceChange: Option<real>, marketData: Option<Details.MarketData>)

  datatype SettingsState = SettingsState(
    selectedCrypto: Details.CryptoInfo,
    selectedTimeFrame: string,
    chartType: string,
    showCryptoList: bool,
    isLoading: bool,
    error: Option<string>,
    chartData: Option<ChartSeries>,
    currentPrice: Option<real>,
    priceChange: Option<real>,
    marketData: Option<Details.MarketData>)

  const Dashes := Details.MarketData(Details.Label("--"), Details.Label("--"), Details.Label("--"), Details.Label("--"))

  const InitialState := SettingsState(Details.DefaultCrypto, "1D", "line", false, false, None,
                                      Some(Details.EmptySeries), Some(94258.0), Some(0.0), Some(Dashes))

  datatype SettingsAction =
    | FetchStart
    | FetchSuccess(payload: ChartPayload)
    | FetchError(reason: Option<string>)
    | SetSelectedCrypto(crypto: Details.CryptoInfo)
    | SetSelectedTimeFrame(timeFrame: string)
    | SetChartType(kind: string)
    | ToggleCryptoList

  function Reduce(s: SettingsState, a: SettingsAction): SettingsState
  {
    match a
    case FetchStart => s.(isLoading := true, error := None)
    case FetchSuccess(p) =>
      s.(chartData := p.chartData, currentPrice := p.currentPrice, priceChange := p.priceChange,
         marketData := p.marketData, isLoading := false)
    case FetchError(e) => s.(error := e, isLoading := false)
    case SetSelectedCrypto(c) => s.(selectedCrypto := c)
    case SetSelectedTimeFrame(tf) => s.(selectedTimeFrame := tf)
    case SetChartType(k) => s.(chartType := k)
    case ToggleCryptoList => s.(showCryptoList := !s.showCryptoList)
  }

  class SettingsStore {
    var selectedCrypto: Details.CryptoInfo
    var selectedTimeFrame: string
    var chartType: string
    var showCryptoList: bool
    var isLoading: bool
    var error: Option<string>
    var chartData: Option<ChartSeries>
    var currentPrice: Option<real>
    var priceChange: Option<real>
    var marketData: Option<Details.MarketData>

    function State(): SettingsState
      reads this
    {
      SettingsState(selectedCrypto, selectedTimeFrame, chartType, showCryptoList, isLoading, error,
                    chartData, currentPrice, priceChange, marketData)
    }

    constructor ()
      ensures State() == InitialState
    {
      selectedCrypto, selectedTimeFrame, chartType := Details.DefaultCrypto, "1D", "line";
      showCryptoList, isLoading, error := false, false, None;
      chartData, currentPrice, priceChange, marketData := Some(Details.EmptySeries), Some(94258.0), Some(0.0), Some(Dashes);
    }

    method Dispatch(a: SettingsAction)
      modifies this
      ensures State() == Reduce(old(State()), a)
    {
      match a {
        case FetchStart =>
          isLoading := true;
          error := None;
        case FetchSuccess(p) =>
          chartData := p.chartData;
          currentPrice := p.currentPrice;
          priceChange := p.priceChange;
          marketData := p.marketData;
          isLoading := false;
        case FetchError(e) =>
          error := e;
          isLoading := false;
        case SetSelectedCrypto(c) =>
          selectedCrypto := c;
        case SetSelectedTimeFrame(tf) =>
          selectedTimeFrame := tf;
        case SetChartType(k) =>
          chartType := k;
        case ToggleCryptoList =>
          showCryptoList := !showCryptoList;
      }
    }
  }

  /** The fetch reducers: start sets loading and clears the error; success
      replaces the four data fields and stops loading but keeps any error;
      an error records its payload and stops loading. None touches the
      selection, the chart type or the list toggle. */
  lemma FetchReducers(s: SettingsState, p: ChartPayload, e: Option<string>)
    ensures var t := Reduce(s, FetchStart); t.isLoading && t.error.None? && t.chartData == s.chartData
    ensures var t := Reduce(s, FetchSuccess(p));
      !t.isLoading && t.error == s.error && t.chartData == p.chartData && t.currentPrice == p.currentPrice &&
      t.priceChange == p.priceChange && t.marketData == p.marketData
    ensures var t := Reduce(s, FetchError(e)); !t.isLoading && t.error == e && t.chartData == s.chartData
    ensures forall a :: a in [FetchStart, FetchSuccess(p), FetchError(e)] ==>
      var t := Reduce(s, a);
      t.selectedCrypto == s.selectedCrypto && t.selectedTimeFrame == s.selectedTimeFrame &&
      t.chartType == s.chartType && t.showCryptoList == s.showCryptoList
  {
  }

  /** Each setter changes its own field only; in particular selecting a
      crypto here neither starts loading nor clears the chart, unlike the
      coin-details slice, whose `setSelectedCrypto` does both. */
  lemma SettersTouchOwnField(s: SettingsState, c: Details.CryptoInfo, tf: string, k: string, d: Details.DetailsState)
    ensures Reduce(s, SetSelectedCrypto(c)) == s.(selectedCrypto := c)
    ensures Reduce(s, SetSelectedTimeFrame(tf)) == s.(selectedTimeFrame := tf)
    ensures Reduce(s, SetChartType(k)) == s.(chartType := k)
    ensures Reduce(s, SetSelectedCrypto(c)).isLoading == s.isLoading
    ensures Details.Reduce(d, Details.SelectCrypto(c), 0).isLoading &&
            Details.Reduce(d, Details.SelectCrypto(c), 0).chartData == Some(Details.EmptySeries)
  {
  }

  /** Toggling the crypto list twice restores the state, and once flips
      only that flag. */
  lemma ToggleIsInvolution(s: SettingsState)
    ensures Reduce(Reduce(s, ToggleCryptoList), ToggleCryptoList) == s
    ensures Reduce(s, ToggleCryptoList).(showCryptoList := s.showCryptoList) == s
    ensures Reduce(s, ToggleCryptoList).showCryptoList != s.showCryptoList
  {
  }
}
