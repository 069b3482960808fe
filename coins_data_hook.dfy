/** `useCoinsData`, the home screen's coin-list hook: a throttled refresh,
    an offline-aware page fetch, a polled price merge into the first page,
    and the search and ranking memos over the flattened pages. */
module CoinsDataHook {
  import opened Wrappers
  import opened Sequences
  import opened Text
  import opened Coins
  import opened OfflineStorage

  const RefreshThrottle: int := 5000
  const FeaturedCount: nat := 5
  const OfflineMessage := "You are offline and no cached data is available"

  // ---------------------------------------------------------------------
  // The memos

  /** `data?.pages?.flat() ?? []`. */
  function AllCoins(data: Option<InfiniteData>): seq<Coin>
  {
    if data.Some? then Flatten(data.value.pages) else []
  }

  /** `filteredCoins`: no query, or one that is blank once lower-cased and
      trimmed, shows every coin; otherwise the coins whose lower-cased name
      or symbol contains it. */
  function FilteredCoins(all: seq<Coin>, searchQuery: string): seq<Coin>
  {
    if searchQuery == [] then all
    else
      var q := Trim(ToLower(searchQuery));
      if q == [] then all else Filter(all, SearchMatch(q))
  }

  lemma LowerKeepsWhiteSpace(s: string)
    ensures (forall i :: 0 <= i < |s| ==> IsJsWhiteSpace(s[i])) <==>
            (forall i :: 0 <= i < |ToLower(s)| ==> IsJsWhiteSpace(ToLower(s)[i]))
  {
    forall i | 0 <= i < |s| ensures IsJsWhiteSpace(s[i]) <==> IsJsWhiteSpace(ToLower(s)[i]) {
      assert ToLower(s)[i] == LowerChar(s[i]);
    }
  }

  /** A blank query (empty or all white space) filters nothing out. */
  lemma BlankQueryShowsAll(all: seq<Coin>, searchQuery: string)
    requires forall i :: 0 <= i < |searchQuery| ==> IsJsWhiteSpace(searchQuery[i])
    ensures FilteredCoins(all, searchQuery) == all
  {
    LowerKeepsWhiteSpace(searchQuery);
    TrimEmptyIff(ToLower(searchQuery));
  }

  /** Any other query keeps exactly the coins that match its lower-cased,
      trimmed form, in their original order. */
  lemma QueryFilters(all: seq<Coin>, searchQuery: string)
    requires exists i :: 0 <= i < |searchQuery| && !IsJsWhiteSpace(searchQuery[i])
    ensures var (r, q) := (FilteredCoins(all, searchQuery), Trim(ToLower(searchQuery)));
      q != [] && Subsequence(r, all) &&
      forall c :: c in r <==> c in all && (Contains(ToLower(c.name), q) || Contains(ToLower(c.symbol), q))
  {
    LowerKeepsWhiteSpace(searchQuery);
    TrimEmptyIff(ToLower(searchQuery));
    FilterSubsequence(all, SearchMatch(Trim(ToLower(searchQuery))));
  }

  function FeaturedCoins(all: seq<Coin>): seq<Coin>
  {
    Take(all, FeaturedCount)
  }

  function DescendingChange(c: Coin): real { -c.change }
  function AscendingChange(c: Coin): real { c.change }

  /** `topGainers`: the five largest 24h changes, whatever their sign. */
  function TopGainers(all: seq<Coin>): seq<Coin>
  {
    if |all| == 0 then [] else Take(SortBy(all, DescendingChange), FeaturedCount)
  }

  /** `topLosers`: the five smallest 24h changes, whatever their sign. */
  function TopLosers(all: seq<Coin>): seq<Coin>
  {
    if |all| == 0 then [] else Take(SortBy(all, AscendingChange), FeaturedCount)
  }

  /** The featured section is the first five coins in list order. */
  lemma FeaturedIsListPrefix(all: seq<Coin>)
    ensures var f := FeaturedCoins(all);
      |f| == (if |all| < FeaturedCount then |all| else FeaturedCount) &&
      forall i :: 0 <= i < |f| ==> f[i] == all[i]
  {
  }

  /** `topGainers` is five coins (or all, if fewer) of the list, highest
      change first, and no coin left out has a higher change. */
  lemma TopGainersSpec(all: seq<Coin>)
    ensures var g := TopGainers(all);
      |g| == (if |all| < FeaturedCount then |all| else FeaturedCount) && multiset(g) <= multiset(all) &&
      (forall i, j :: 0 <= i < j < |g| ==> g[i].change >= g[j].change) &&
      forall x, y :: x in g && y in multiset(all) - multiset(g) ==> x.change >= y.change
  {
    var g := TopGainers(all);
    SmallestN(all, DescendingChange, FeaturedCount);
    forall i, j | 0 <= i < j < |g| ensures g[i].change >= g[j].change {
      assert DescendingChange(g[i]) <= DescendingChange(g[j]);
    }
    forall x, y | x in g && y in multiset(all) - multiset(g) ensures x.change >= y.change {
      assert DescendingChange(x) <= DescendingChange(y);
    }
  }

  /** `topLosers` is five coins (or all, if fewer) of the list, lowest
      change first, and no coin left out has a lower change. */
  lemma TopLosersSpec(all: seq<Coin>)
    ensures var l := TopLosers(all);
      |l| == (if |all| < FeaturedCount then |all| else FeaturedCount) && multiset(l) <= multiset(all) &&
      (forall i, j :: 0 <= i < j < |l| ==> l[i].change <= l[j].change) &&
      forall x, y :: x in l && y in multiset(all) - multiset(l) ==> x.change <= y.change
  {
    var l := TopLosers(all);
    SmallestN(all, AscendingChange, FeaturedCount);
    forall i, j | 0 <= i < j < |l| ensures l[i].change <= l[j].change {
      assert AscendingChange(l[i]) <= AscendingChange(l[j]);
    }
    forall x, y | x in l && y in multiset(all) - multiset(l) ensures x.change <= y.change {
      assert AscendingChange(x) <= AscendingChange(y);
    }
  }

  /** With no positivity filter, a list in which every coin fell still has
      "top gainers": the falling coin itself. */
  lemma GainersMayFall(c: Coin)
    requires c.change < 0.0
    ensures TopGainers([c]) == [c] && TopGainers([c])[0].change < 0.0
  {
    assert SortBy([c], DescendingChange) == [c] by {
      assert [c][1..] == [];
    }
  }

  // ---------------------------------------------------------------------
  // The page fetch

  /** The infinite query's `queryFn`: offline, the first page comes from the
      offline copy or fails; everything else is the API's answer `api`.
      `slot`, `now` and `ioOk` are the offline copy's state, the clock and
      whether the storage read succeeds. */
  function QueryFnSpec(slot: Option<Stored>, isOffline: bool, pageParam: int, now: int, ioOk: bool,
                       api: Result<seq<Coin>>): Result<seq<Coin>>
  {
    if isOffline && pageParam == 1 then
      match LoadSpec(slot, now, ioOk)
      case Some(d) => Ok(d.allCoins)
      case None => Err(OfflineMessage)
    else api
  }

  method QueryFn(store: OfflineStore, isOffline: bool, pageParam: int, now: int, ioOk: bool,
                 api: Result<seq<Coin>>) returns (r: Result<seq<Coin>>)
    ensures r == QueryFnSpec(store.slot, isOffline, pageParam, now, ioOk, api)
  {
    if isOffline && pageParam == 1 {
      var cached := store.Load(now, ioOk);
      if cached.Some? {
        return Ok(cached.value.allCoins);
      }
      return Err(OfflineMessage);
    }
    return api;
  }

  /** Offline, page 1 is a fresh offline copy's coins or the offline error,
      and the network is never used for it; online, or for a later page,
      the API's answer passes through. */
  lemma QueryFnCases(slot: Option<Stored>, isOffline: bool, pageParam: int, now: int, ioOk: bool,
                     api: Result<seq<Coin>>)
    ensures var r := QueryFnSpec(slot, isOffline, pageParam, now, ioOk, api);
      (!isOffline || pageParam != 1 ==> r == api) &&
      (isOffline && pageParam == 1 ==>
        (r.Ok? <==> LoadSpec(slot, now, ioOk).Some?) &&
        (r.Ok? ==> r.value == LoadSpec(slot, now, ioOk).value.allCoins) &&
        (r.Err? ==> r.message == OfflineMessage))
  {
  }

  /** Offline, a record persisted less than five minutes ago serves page 1. */
  lemma OfflineServesFreshCopy(data: seq<Coin>, npp: Option<int>, t: int, now: int, api: Result<seq<Coin>>)
    requires now - t < CacheExpiration
    ensures QueryFnSpec(Some(Record(CachedData(data, t, npp))), true, 1, now, true, api) == Ok(data)
  {
  }

  // ---------------------------------------------------------------------
  // The hook's refs and query cache

  /** What a `fetchCoinsApi` poll ends in: thrown, or resolved to a value
      that may be missing. */
  datatype Poll = PollThrew | PollAnswer(data: Option<seq<Coin>>)

  datatype HookState = HookState(
    lastRefreshTime: int,
    isRefreshing: bool,
    forceUpdateKey: int,
    lastContentHeight: real,
    lastContentOffsetY: real,
    loadingMore: bool,
    paginationEnabled: bool,
    isMounted: bool,
    queries: map<int, InfiniteData>)

  /** The query cache holds entries only for keys already used. */
  ghost predicate KeysUsed(s: HookState)
  {
    forall k :: k in s.queries ==> k <= s.forceUpdateKey
  }

  function Current(s: HookState): Option<InfiniteData>
  {
    if s.forceUpdateKey in s.queries then Some(s.queries[s.forceUpdateKey]) else None
  }

  /** `shouldRefresh()`: refuse within 5 s of the last accepted refresh or
      while one is in flight; otherwise record `now` and accept. */
  function ShouldRefreshSpec(s: HookState, now: int): (HookState, bool)
  {
    if now - s.lastRefreshTime < RefreshThrottle || s.isRefreshing then (s, false)
    else (s.(lastRefreshTime := now), true)
  }

  /** The synchronous part of `handleRefresh`: a throttled call does
      nothing; otherwise the query key moves on and the scroll tracking is
      reset, with the refresh in flight until `RefreshSettled`. */
  function HandleRefreshSpec(s: HookState, now: int): (HookState, bool)
  {
    var (t, ok) := ShouldRefreshSpec(s, now);
    if !ok then (t, false)
    else (t.(forceUpdateKey := t.forceUpdateKey + 1, lastContentHeight := 0.0, lastContentOffsetY := 0.0,
             loadingMore := false, paginationEnabled := true, isRefreshing := true), true)
  }

  /** `updatePrices`: skipped while anything is fetching, scrolling or
      refreshing; otherwise the answer, if the screen is still mounted and
      the answer present, is merged into the first page of the current
      key's data, and the refreshing flag ends cleared. */
  function UpdatePricesSpec(s: HookState, isFetching: bool, isRefetching: bool, isScrolling: bool, poll: Poll): HookState
  {
    if isFetching || isRefetching || isScrolling || s.isRefreshing then s
    else if poll.PollThrew? || !s.isMounted || poll.data.None? then s.(isRefreshing := false)
    else
      var merged := MergeFirstPage(Current(s), poll.data);
      s.(isRefreshing := false,
         queries := if merged.Some? then s.queries[s.forceUpdateKey := merged.value] else s.queries)
  }

  class CoinsData {
    var lastRefreshTime: int
    var isRefreshing: bool
    var forceUpdateKey: int
    var lastContentHeight: real
    var lastContentOffsetY: real
    var loadingMore: bool
    var paginationEnabled: bool
    var isMounted: bool
    var queries: map<int, InfiniteData>

    function State(): HookState
      reads this
    {
      HookState(lastRefreshTime, isRefreshing, forceUpdateKey, lastContentHeight, lastContentOffsetY,
                loadingMore, paginationEnabled, isMounted, queries)
    }

    constructor ()
      ensures State() == HookState(0, false, 0, 0.0, 0.0, false, true, true, map[])
    {
      lastRefreshTime, isRefreshing, forceUpdateKey := 0, false, 0;
      lastContentHeight, lastContentOffsetY := 0.0, 0.0;
      loadingMore, paginationEnabled, isMounted := false, true, true;
      queries := map[];
    }

    method ShouldRefresh(now: int) returns (ok: bool)
      modifies this
      ensures (State(), ok) == ShouldRefreshSpec(old(State()), now)
    {
      if now - lastRefreshTime < RefreshThrottle {
        return false;
      }
      if isRefreshing {
        return false;
      }
      lastRefreshTime := now;
      return true;
    }

    method HandleRefresh(now: int) returns (accepted: bool)
      modifies this
      ensures (State(), accepted) == HandleRefreshSpec(old(State()), now)
    {
      accepted := ShouldRefresh(now);
      if !accepted {
        return;
      }
      forceUpdateKey := forceUpdateKey + 1;
      lastContentHeight := 0.0;
      lastContentOffsetY := 0.0;
      loadingMore := false;
      paginationEnabled := true;
      isRefreshing := true;
    }

    /** The `finally` of the refresh's refetch. */
    method RefreshSettled()
      modifies this
      ensures State() == old(State()).(isRefreshing := false)
    {
      isRefreshing := false;
    }

    method UpdatePrices(isFetching: bool, isRefetching: bool, isScrolling: bool, poll: Poll)
      modifies this
      ensures State() == UpdatePricesSpec(old(State()), isFetching, isRefetching, isScrolling, poll)
    {
      if isFetching || isRefetching || isScrolling || isRefreshing {
        return;
      }
      isRefreshing := true;
      if poll.PollAnswer? && isMounted && poll.data.Some? {
        var current := if forceUpdateKey in queries then Some(queries[forceUpdateKey]) else None;
        var merged := MergeFirstPage(current, poll.data);
        if merged.Some? {
          queries := queries[forceUpdateKey := merged.value];
        }
      }
      isRefreshing := false;
    }

    method Unmount()
      modifies this
      ensures State() == old(State()).(isMounted := false)
    {
      isMounted := false;
    }
  }

  // ---------------------------------------------------------------------
  // Properties

  /** The throttle accepts exactly when 5 s have passed and no refresh is in
      flight; a refusal changes nothing, an acceptance only the time. */
  lemma ThrottleRule(s: HookState, now: int)
    ensures var (t, ok) := ShouldRefreshSpec(s, now);
      (ok <==> now - s.lastRefreshTime >= RefreshThrottle && !s.isRefreshing) &&
      (!ok ==> t == s) && (ok ==> t == s.(lastRefreshTime := now))
  {
  }

  /** Two accepted refreshes are at least 5 s apart, and while the first is in
      flight no second is accepted at all. */
  lemma RefreshesAreSpaced(s: HookState, now: int, later: int)
    requires HandleRefreshSpec(s, now).1
    ensures !HandleRefreshSpec(HandleRefreshSpec(s, now).0, later).1
    ensures later - now < RefreshThrottle ==>
      !ShouldRefreshSpec(HandleRefreshSpec(s, now).0.(isRefreshing := false), later).1
  {
  }

  /** An accepted refresh starts a fresh query key, so the list shows no
      cached pages until the refetch lands; earlier keys' entries stay. It
      resets the scroll tracking and re-enables pagination. */
  lemma RefreshStartsFreshKey(s: HookState, now: int)
    requires KeysUsed(s)
    requires HandleRefreshSpec(s, now).1
    ensures var t := HandleRefreshSpec(s, now).0;
      KeysUsed(t) && Current(t).None? && AllCoins(Current(t)) == [] && t.queries == s.queries &&
      t.forceUpdateKey == s.forceUpdateKey + 1 && t.lastContentHeight == 0.0 && t.lastContentOffsetY == 0.0 &&
      !t.loadingMore && t.paginationEnabled && t.isRefreshing
  {
  }

  /** A skipped poll changes nothing. A poll that lands changes at most the
      current key's first page (by `MergeFirstPage`) and clears the
      refreshing flag; the other keys, the refs and the flags stay. */
  lemma UpdatePricesTouchesOnlyCurrent(s: HookState, isFetching: bool, isRefetching: bool, isScrolling: bool, poll: Poll)
    requires KeysUsed(s)
    ensures var t := UpdatePricesSpec(s, isFetching, isRefetching, isScrolling, poll);
      KeysUsed(t) &&
      (isFetching || isRefetching || isScrolling || s.isRefreshing ==> t == s) &&
      (!(isFetching || isRefetching || isScrolling || s.isRefreshing) ==>
        !t.isRefreshing && t.forceUpdateKey == s.forceUpdateKey && t.lastRefreshTime == s.lastRefreshTime &&
        (forall k :: k != s.forceUpdateKey ==> (k in t.queries <==> k in s.queries) &&
                                               (k in s.queries ==> t.queries[k] == s.queries[k])) &&
        Current(t) == (if poll.PollAnswer? && s.isMounted && poll.data.Some?
                       then MergeFirstPage(Current(s), poll.data) else Current(s)))
  {
  }
}
