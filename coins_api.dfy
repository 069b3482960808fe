/** The tab fetchers of the coin-list service: the featured fetcher forwards
    its arguments, and the gainers and losers fetchers ask for three pages'
    worth of coins and keep the best page of them. */
module CoinsApi {
  import opened Wrappers
  import opened Sequences

  /** The part of an API coin the post-processing reads. */
  datatype ApiCoin = ApiCoin(productId: string, symbol: string, change: real)

  /** `ApiResponse<Coin[]>`; `data` may be missing from the body. */
  datatype ApiResponse = ApiResponse(data: Option<seq<ApiCoin>>, status: int, success: bool, message: Option<string>)

  /** The arguments of a `fetchCoins(page, pageSize, currency)` call. */
  datatype CoinsRequest = CoinsRequest(page: int, pageSize: int, currency: string)

  /** `fetchFeaturedCoins(currency, page, pageSize)` is that very request. */
  function FeaturedRequest(currency: string, page: int, pageSize: int): (r: CoinsRequest)
    ensures r.page == page && r.pageSize == pageSize && r.currency == currency
  {
    CoinsRequest(page, pageSize, currency)
  }

  /** The gainers and losers fetchers over-fetch by a factor of three. */
  function RankedRequest(currency: string, page: int, pageSize: int): (r: CoinsRequest)
    ensures r.page == page && r.pageSize == 3 * pageSize && r.currency == currency
  {
    CoinsRequest(page, pageSize * 3, currency)
  }

  function DescendingChange(c: ApiCoin): real { -c.change }
  function AscendingChange(c: ApiCoin): real { c.change }

  /** The post-processing of `fetchTopGainers`: a successful response with
      data keeps its other fields and gets its `pageSize` highest-change
      coins, highest first; any other response is returned as it came. */
  function RankGainers(response: ApiResponse, pageSize: nat): ApiResponse
  {
    if response.success && response.data.Some? then
      response.(data := Some(Take(SortBy(response.data.value, DescendingChange), pageSize)))
    else response
  }

  /** The post-processing of `fetchTopLosers`, lowest change first. */
  function RankLosers(response: ApiResponse, pageSize: nat): ApiResponse
  {
    if response.success && response.data.Some? then
      response.(data := Some(Take(SortBy(response.data.value, AscendingChange), pageSize)))
    else response
  }

  /** Ranking touches `data` only, and only on a successful response with data. */
  lemma RankingKeepsEnvelope(response: ApiResponse, pageSize: nat)
    ensures RankGainers(response, pageSize).(data := response.data) == response
    ensures RankLosers(response, pageSize).(data := response.data) == response
    ensures !(response.success && response.data.Some?) ==>
      RankGainers(response, pageSize) == response && RankLosers(response, pageSize) == response
  {
  }

  /** Gainer data: at most `pageSize` coins of the response, non-increasing
      by change, and none left out has a higher change. */
  lemma GainersRanked(response: ApiResponse, pageSize: nat)
    requires response.success && response.data.Some?
    ensures var d := response.data.value; var g := RankGainers(response, pageSize).data.value;
      |g| == (if |d| < pageSize then |d| else pageSize) && multiset(g) <= multiset(d) &&
      (forall i, j :: 0 <= i < j < |g| ==> g[i].change >= g[j].change) &&
      forall x, y :: x in g && y in multiset(d) - multiset(g) ==> x.change >= y.change
  {
    var d := response.data.value;
    var g := RankGainers(response, pageSize).data.value;
    SmallestN(d, DescendingChange, pageSize);
    forall i, j | 0 <= i < j < |g| ensures g[i].change >= g[j].change {
      assert DescendingChange(g[i]) <= DescendingChange(g[j]);
    }
    forall x, y | x in g && y in multiset(d) - multiset(g) ensures x.change >= y.change {
      assert DescendingChange(x) <= DescendingChange(y);
    }
  }

  /** Loser data: at most `pageSize` coins of the response, non-decreasing
      by change, and none left out has a lower change. */
  lemma LosersRanked(response: ApiResponse, pageSize: nat)
    requires response.success && response.data.Some?
    ensures var d := response.data.value; var l := RankLosers(response, pageSize).data.value;
      |l| == (if |d| < pageSize then |d| else pageSize) && multiset(l) <= multiset(d) &&
      (forall i, j :: 0 <= i < j < |l| ==> l[i].change <= l[j].change) &&
      forall x, y :: x in l && y in multiset(d) - multiset(l) ==> x.change <= y.change
  {
    var d := response.data.value;
    var l := RankLosers(response, pageSize).data.value;
    SmallestN(d, AscendingChange, pageSize);
    forall i, j | 0 <= i < j < |l| ensures l[i].change <= l[j].change {
      assert AscendingChange(l[i]) <= AscendingChange(l[j]);
    }
    forall x, y | x in l && y in multiset(d) - multiset(l) ensures x.change <= y.change {
      assert AscendingChange(x) <= AscendingChange(y);
    }
  }
}
