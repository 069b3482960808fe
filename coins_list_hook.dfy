/** `useCoinsList` of the second app tree: a page-numbered coin list for one
    category, loaded by refresh (page 1, replacing) or load-more (the next
    page, appending). */
module CoinsListHook {
  import opened Wrappers
  import opened Sequences

  datatype ListedCoin = ListedCoin(id: string, change: real)

  const PageSize: nat := 20
  const LoadError := "Failed to load coins"

  function DescendingChange(c: ListedCoin): real { -c.change }
  function AscendingChange(c: ListedCoin): real { c.change }

  /** The `sortedData` of `loadCoins`: gainers by change descending, losers
      ascending, any other category in API order; then the first 20. */
  function Process(category: string, data: seq<ListedCoin>): seq<ListedCoin>
  {
    Take(if category == "gainers" then SortBy(data, DescendingChange)
         else if category == "losers" then SortBy(data, AscendingChange)
         else data, PageSize)
  }

  datatype ListState = ListState(coins: seq<ListedCoin>, loading: bool, error: Option<string>, page: int, hasMore: bool)

  const InitialState := ListState([], true, None, 1, true)

  /** `loadCoins(refresh)` once its fetch of page `refresh ? 1 : page` has
      settled: a refresh replaces the coins and moves to page 2, any other
      load appends and moves on a page; `hasMore` is whether the raw page was
      full. A failed fetch only records the error. Loading ends false either
      way, and a success leaves an earlier error in place. */
  function LoadSpec(s: ListState, category: string, refresh: bool, fetched: Result<seq<ListedCoin>>): ListState
  {
    match fetched
    case Err(_) => s.(error := Some(LoadError), loading := false)
    case Ok(data) =>
      var processed := Process(category, data);
      s.(coins := if refresh then processed else s.coins + processed,
         page := if refresh then 2 else s.page + 1,
         hasMore := |data| == PageSize,
         loading := false)
  }

  /** The page `loadCoins(refresh)` asks for. */
  function RequestedPage(s: ListState, refresh: bool): int
  {
    if refresh then 1 else s.page
  }

  class CoinsList {
    const category: string
    var coins: seq<ListedCoin>
    var loading: bool
    var error: Option<string>
    var page: int
    var hasMore: bool

    function State(): ListState
      reads this
    {
      ListState(coins, loading, error, page, hasMore)
    }

    constructor (category: string)
      ensures this.category == category && State() == InitialState
    {
      this.category := category;
      coins, loading, error, page, hasMore := [], true, None, 1, true;
    }

    method LoadCoins(refresh: bool, fetched: Result<seq<ListedCoin>>)
      modifies this
      ensures State() == LoadSpec(old(State()), category, refresh, fetched)
    {
      loading := true;
      if fetched.Ok? {
        var sortedData := Process(category, fetched.value);
        if refresh {
          coins := sortedData;
          page := 2;
        } else {
          coins := coins + sortedData;
          page := page + 1;
        }
        hasMore := |fetched.value| == PageSize;
      } else {
        error := Some(LoadError);
      }
      loading := false;
    }

    method Refresh(fetched: Result<seq<ListedCoin>>)
      modifies this
      ensures State() == LoadSpec(old(State()), category, true, fetched)
    {
      LoadCoins(true, fetched);
    }

    /** `loadMore`: a no-op while loading or once the last page was short. */
    method LoadMore(fetched: Result<seq<ListedCoin>>) returns (started: bool)
      modifies this
      ensures started <==> !old(loading) && old(hasMore)
      ensures State() == if started then LoadSpec(old(State()), category, false, fetched) else old(State())
    {
      started := !loading && hasMore;
      if started {
        LoadCoins(false, fetched);
      }
    }
  }

  /** Gainers come highest change first, losers lowest first, and any other
      category keeps the API's first 20 in order; never more than 20. */
  lemma ProcessSpec(category: string, data: seq<ListedCoin>)
    ensures var r := Process(category, data);
      |r| == (if |data| < PageSize then |data| else PageSize) && multiset(r) <= multiset(data) &&
      (category == "gainers" ==> forall i, j :: 0 <= i < j < |r| ==> r[i].change >= r[j].change) &&
      (category == "losers" ==> forall i, j :: 0 <= i < j < |r| ==> r[i].change <= r[j].change) &&
      (category != "gainers" && category != "losers" ==> r == data[..|r|])
  {
    if category == "gainers" {
      GainersPage(data);
    } else if category == "losers" {
      LosersPage(data);
    } else {
      TakeSubMultiset(data, PageSize);
    }
  }

  lemma GainersPage(data: seq<ListedCoin>)
    ensures var r := Process("gainers", data);
      |r| == (if |data| < PageSize then |data| else PageSize) && multiset(r) <= multiset(data) &&
      forall i, j :: 0 <= i < j < |r| ==> r[i].change >= r[j].change
  {
    var r := Process("gainers", data);
    assert r == Take(SortBy(data, DescendingChange), PageSize);
    RankedPage(data, DescendingChange);
    forall i, j | 0 <= i < j < |r| ensures r[i].change >= r[j].change {
      assert DescendingChange(r[i]) <= DescendingChange(r[j]);
    }
  }

  lemma LosersPage(data: seq<ListedCoin>)
    ensures var r := Process("losers", data);
      |r| == (if |data| < PageSize then |data| else PageSize) && multiset(r) <= multiset(data) &&
      forall i, j :: 0 <= i < j < |r| ==> r[i].change <= r[j].change
  {
    var r := Process("losers", data);
    assert r == Take(SortBy(data, AscendingChange), PageSize);
    RankedPage(data, AscendingChange);
    forall i, j | 0 <= i < j < |r| ensures r[i].change <= r[j].change {
      assert AscendingChange(r[i]) <= AscendingChange(r[j]);
    }
  }

  /** The first page of `data` sorted by `key`. */
  lemma RankedPage(data: seq<ListedCoin>, key: ListedCoin -> real)
    ensures var r := Take(SortBy(data, key), PageSize);
      |r| == (if |data| < PageSize then |data| else PageSize) && multiset(r) <= multiset(data) &&
      forall i, j :: 0 <= i < j < |r| ==> key(r[i]) <= key(r[j])
  {
    SmallestN(data, key, PageSize);
  }

  /** A refresh asks page 1 and, on success, shows just that page's processed
      coins and moves to page 2; a load-more asks the current page and
      appends. `hasMore` is exactly "the raw page had 20 coins". */
  lemma LoadOutcomes(s: ListState, category: string, refresh: bool, data: seq<ListedCoin>)
    ensures var t := LoadSpec(s, category, refresh, Ok(data));
      !t.loading && t.error == s.error && (t.hasMore <==> |data| == PageSize) &&
      (refresh ==> RequestedPage(s, refresh) == 1 && t.coins == Process(category, data) && t.page == 2) &&
      (!refresh ==> RequestedPage(s, refresh) == s.page && t.coins[..|s.coins|] == s.coins &&
                    t.coins[|s.coins|..] == Process(category, data) && t.page == s.page + 1)
  {
  }

  /** A failed load keeps the coins, the page and `hasMore`, records the
      error and stops loading. */
  lemma FailedLoadKeepsList(s: ListState, category: string, refresh: bool, message: string)
    ensures var t := LoadSpec(s, category, refresh, Err(message));
      t.coins == s.coins && t.page == s.page && t.hasMore == s.hasMore &&
      t.error == Some(LoadError) && !t.loading
  {
  }

  /** Each load adds at most one processed page: the list never grows by
      more than 20 coins per load. */
  lemma GrowthPerLoad(s: ListState, category: string, fetched: Result<seq<ListedCoin>>)
    ensures |LoadSpec(s, category, false, fetched).coins| <= |s.coins| + PageSize
    ensures |LoadSpec(s, category, true, fetched).coins| <= (if fetched.Ok? then PageSize else |s.coins|)
  {
    if fetched.Ok? {
      ProcessSpec(category, fetched.value);
    }
  }
}
