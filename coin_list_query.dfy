/** `useCoinList` and `useCoinChart`: the tab decides the fetcher, the last
    page decides whether there is another, and an empty coin id disables
    the chart query. */
module CoinListQuery {
  import opened Wrappers
  import opened CoinsApi

  datatype Fetcher = FeaturedFetcher | GainersFetcher | LosersFetcher

  const InitialPageParam: int := 1
  const DefaultPageSize: nat := 10

  /** The `switch (tabType)`: anything but the three named tabs, `'All
      Coins'` included, uses the featured fetcher. */
  function FetcherFor(tabType: string): (f: Fetcher)
    ensures f.GainersFetcher? <==> tabType == "Top Gainers"
    ensures f.LosersFetcher? <==> tabType == "Top Losers"
    ensures f.FeaturedFetcher? <==> tabType != "Top Gainers" && tabType != "Top Losers"
  {
    if tabType == "Featured" then FeaturedFetcher
    else if tabType == "Top Gainers" then GainersFetcher
    else if tabType == "Top Losers" then LosersFetcher
    else FeaturedFetcher
  }

  /** The `fetchCoins` request a page of the tab's query makes. */
  function RequestFor(tabType: string, pageParam: int, pageSize: int): CoinsRequest
  {
    match FetcherFor(tabType)
    case FeaturedFetcher => FeaturedRequest("usd", pageParam, pageSize)
    case _ => RankedRequest("usd", pageParam, pageSize)
  }

  /** The response the tab's query stores for a page, from the raw
      `fetchCoins` response. */
  function PageFor(tabType: string, raw: ApiResponse, pageSize: nat): ApiResponse
  {
    match FetcherFor(tabType)
    case FeaturedFetcher => raw
    case GainersFetcher => RankGainers(raw, pageSize)
    case LosersFetcher => RankLosers(raw, pageSize)
  }

  /** `getNextPageParam`: none after an unsuccessful page, a page without
      data or a page shorter than `pageSize`; otherwise the page count plus one. */
  function QueryNextPageParam(lastPage: ApiResponse, pageCount: nat, pageSize: nat): (r: Option<nat>)
    ensures r.Some? <==> lastPage.success && lastPage.data.Some? && |lastPage.data.value| >= pageSize
    ensures r.Some? ==> r.value == pageCount + 1
  {
    if !lastPage.success || lastPage.data.None? || |lastPage.data.value| < pageSize then None
    else Some(pageCount + 1)
  }

  /** `enabled: !!coinId`. */
  function ChartQueryEnabled(coinId: string): (r: bool)
    ensures r <==> |coinId| > 0
  {
    coinId != ""
  }

  /** Every tab asks page `pageParam` in dollars; only the ranked tabs ask
      for three times the page size. */
  lemma RequestsPerTab(tabType: string, pageParam: int, pageSize: int)
    ensures var r := RequestFor(tabType, pageParam, pageSize);
      r.page == pageParam && r.currency == "usd" &&
      (r.pageSize == 3 * pageSize <==> (tabType in {"Top Gainers", "Top Losers"} || pageSize == 0)) &&
      (!(tabType in {"Top Gainers", "Top Losers"}) ==> r.pageSize == pageSize)
  {
  }

  /** On a ranked tab the stored page is cut to `pageSize`, so another page is
      offered exactly when the raw response held at least `pageSize` coins,
      although it asked for three times as many. */
  lemma RankedTabNextPage(tabType: string, raw: ApiResponse, pageCount: nat, pageSize: nat)
    requires tabType in {"Top Gainers", "Top Losers"}
    ensures QueryNextPageParam(PageFor(tabType, raw, pageSize), pageCount, pageSize).Some? <==>
      raw.success && raw.data.Some? && |raw.data.value| >= pageSize
  {
    if raw.success && raw.data.Some? {
      if tabType == "Top Gainers" {
        GainersRanked(raw, pageSize);
      } else {
        LosersRanked(raw, pageSize);
      }
    }
  }
}
