/** The `CoinsList` screen: an infinite coin list with its own scroll-driven
    pagination trigger, a polled price merge, pull-to-refresh and an
    untrimmed search. */
module CoinsListScreen {
  import opened Wrappers
  import opened Sequences
  import opened Text
  import opened Coins

  /** The near-bottom margin, as a fraction of the viewport height. */
  const EndReachedFraction: real := 0.2

  /** `coins`: every coin for an empty query, otherwise those whose
      lower-cased name or symbol contains the lower-cased query as typed. */
  function SearchCoins(all: seq<Coin>, query: string): seq<Coin>
  {
    if query == [] then all else Filter(all, SearchMatch(ToLower(query)))
  }

  lemma SearchSpec(all: seq<Coin>, query: string)
    ensures var r := SearchCoins(all, query);
      Subsequence(r, all) &&
      (query == [] ==> r == all) &&
      (query != [] ==> forall c :: c in r <==>
         (c in all && (Contains(ToLower(c.name), ToLower(query)) || Contains(ToLower(c.symbol), ToLower(query)))))
  {
    SubsequenceReflexive(all);
    FilterSubsequence(all, SearchMatch(ToLower(query)));
  }

  lemma NoSpaceNoMatch(s: string)
    requires forall i :: 0 <= i < |s| ==> s[i] != ' '
    ensures !Contains(s, " ")
  {
    forall i ensures !OccursAt(s, " ", i) {
      if 0 <= i && i + 1 <= |s| {
        assert s[i..i + 1][0] == s[i];
      }
    }
  }

  /** The query is not trimmed: a single space matches no coin whose name
      and symbol have no space, where the home-screen hook would show all. */
  lemma SpaceQueryMatchesNothing(c: Coin)
    requires forall i :: 0 <= i < |c.name| ==> c.name[i] != ' '
    requires forall i :: 0 <= i < |c.symbol| ==> c.symbol[i] != ' '
    ensures SearchCoins([c], " ") == []
  {
    assert ToLower(" ") == " ";
    forall i | 0 <= i < |ToLower(c.name)| ensures ToLower(c.name)[i] != ' ' {
      assert ToLower(c.name)[i] == LowerChar(c.name[i]);
    }
    forall i | 0 <= i < |ToLower(c.symbol)| ensures ToLower(c.symbol)[i] != ' ' {
      assert ToLower(c.symbol)[i] == LowerChar(c.symbol[i]);
    }
    NoSpaceNoMatch(ToLower(c.name));
    NoSpaceNoMatch(ToLower(c.symbol));
    FilterHead([c], SearchMatch(" "));
  }

  /** The screen's refs and its query-cache entry. */
  datatype ScreenState = ScreenState(
    lastContentHeight: real,
    lastContentOffsetY: real,
    loadingMore: bool,
    paginationEnabled: bool,
    query: Option<InfiniteData>)

  /** One scroll event's geometry. */
  datatype ScrollEvent = ScrollEvent(offsetY: real, contentHeight: real, layoutHeight: real)

  predicate NearBottom(e: ScrollEvent)
  {
    e.contentHeight - (e.offsetY + e.layoutHeight) < e.layoutHeight * EndReachedFraction
  }

  /** `handleScroll`: ignored while pagination is off, a page is being
      fetched or a load is pending; otherwise the offset is always recorded,
      and a next page is requested when scrolling down near the bottom of
      grown content with a next page available. */
  function HandleScrollSpec(s: ScreenState, e: ScrollEvent, isFetchingNextPage: bool, hasNextPage: bool): (ScreenState, bool)
  {
    if !s.paginationEnabled || isFetchingNextPage || s.loadingMore then (s, false)
    else
      var down := e.offsetY > s.lastContentOffsetY;
      var t := s.(lastContentOffsetY := e.offsetY);
      if down && NearBottom(e) && e.contentHeight > s.lastContentHeight && hasNextPage then
        (t.(lastContentHeight := e.contentHeight, loadingMore := true), true)
      else (t, false)
  }

  /** `updatePrices`: skipped while fetching, refetching or scrolling; a
      failed poll changes nothing; otherwise the first page is merged. */
  function UpdatePricesSpec(s: ScreenState, isFetching: bool, isRefetching: bool, isScrolling: bool,
                            poll: Result<Option<seq<Coin>>>): ScreenState
  {
    if isFetching || isRefetching || isScrolling || poll.Err? then s
    else s.(query := MergeFirstPage(s.query, poll.value))
  }

  /** `handleRefresh`, before its refetch: keep the first page only and
      reset the scroll tracking. */
  function HandleRefreshSpec(s: ScreenState): ScreenState
  {
    ScreenState(0.0, 0.0, false, true, Some(TruncateToFirstPage(s.query)))
  }

  class CoinsList {
    var lastContentHeight: real
    var lastContentOffsetY: real
    var loadingMore: bool
    var paginationEnabled: bool
    var query: Option<InfiniteData>

    function State(): ScreenState
      reads this
    {
      ScreenState(lastContentHeight, lastContentOffsetY, loadingMore, paginationEnabled, query)
    }

    constructor ()
      ensures State() == ScreenState(0.0, 0.0, false, true, None)
    {
      lastContentHeight, lastContentOffsetY := 0.0, 0.0;
      loadingMore, paginationEnabled := false, true;
      query := None;
    }

    method HandleScroll(e: ScrollEvent, isFetchingNextPage: bool, hasNextPage: bool) returns (fetchNext: bool)
      modifies this
      ensures (State(), fetchNext) == HandleScrollSpec(old(State()), e, isFetchingNextPage, hasNextPage)
    {
      if !paginationEnabled || isFetchingNextPage || loadingMore {
        return false;
      }
      var distanceFromBottom := e.contentHeight - (e.offsetY + e.layoutHeight);
      var down := e.offsetY > lastContentOffsetY;
      lastContentOffsetY := e.offsetY;
      fetchNext := false;
      if down && distanceFromBottom < e.layoutHeight * EndReachedFraction &&
         e.contentHeight > lastContentHeight && hasNextPage && !loadingMore {
        lastContentHeight := e.contentHeight;
        loadingMore := true;
        fetchNext := true;
      }
    }

    /** `handleScrollEnd`'s timer: the pending-load flag is released. */
    method ScrollEnded()
      modifies this
      ensures State() == old(State()).(loadingMore := false)
    {
      loadingMore := false;
    }

    method UpdatePrices(isFetching: bool, isRefetching: bool, isScrolling: bool, poll: Result<Option<seq<Coin>>>)
      modifies this
      ensures State() == UpdatePricesSpec(old(State()), isFetching, isRefetching, isScrolling, poll)
    {
      if isFetching || isRefetching || isScrolling {
        return;
      }
      if poll.Ok? {
        query := MergeFirstPage(query, poll.value);
      }
    }

    method HandleRefresh()
      modifies this
      ensures State() == HandleRefreshSpec(old(State()))
    {
      query := Some(TruncateToFirstPage(query));
      lastContentHeight := 0.0;
      lastContentOffsetY := 0.0;
      loadingMore := false;
      paginationEnabled := true;
    }
  }

  /** A next page is requested exactly when every condition holds, and then
      the content height is recorded and a load is marked pending. */
  lemma ScrollTriggerRule(s: ScreenState, e: ScrollEvent, isFetchingNextPage: bool, hasNextPage: bool)
    ensures var (t, fetch) := HandleScrollSpec(s, e, isFetchingNextPage, hasNextPage);
      (fetch <==> s.paginationEnabled && !isFetchingNextPage && !s.loadingMore &&
                  e.offsetY > s.lastContentOffsetY && NearBottom(e) &&
                  e.contentHeight > s.lastContentHeight && hasNextPage) &&
      (fetch ==> t == s.(lastContentOffsetY := e.offsetY, lastContentHeight := e.contentHeight, loadingMore := true)) &&
      (!fetch ==> t.lastContentHeight == s.lastContentHeight && t.loadingMore == s.loadingMore && t.query == s.query)
  {
  }

  /** Once a scroll has requested a page, no later scroll requests another
      until the pending flag is released. */
  lemma OneRequestPerScrollBurst(s: ScreenState, e1: ScrollEvent, e2: ScrollEvent, f1: bool, f2: bool, h1: bool, h2: bool)
    requires HandleScrollSpec(s, e1, f1, h1).1
    ensures !HandleScrollSpec(HandleScrollSpec(s, e1, f1, h1).0, e2, f2, h2).1
  {
  }

  /** The same content height never triggers twice, even after the pending
      flag is released. */
  lemma NoRetriggerWithoutGrowth(s: ScreenState, e: ScrollEvent, e2: ScrollEvent, f: bool, h: bool, f2: bool, h2: bool)
    requires HandleScrollSpec(s, e, f, h).1
    requires e2.contentHeight <= e.contentHeight
    ensures !HandleScrollSpec(HandleScrollSpec(s, e, f, h).0.(loadingMore := false), e2, f2, h2).1
  {
  }

  /** Polling changes nothing but the first page's prices and changes. */
  lemma PollTouchesOnlyPrices(s: ScreenState, isFetching: bool, isRefetching: bool, isScrolling: bool,
                              poll: Result<Option<seq<Coin>>>)
    ensures var t := UpdatePricesSpec(s, isFetching, isRefetching, isScrolling, poll);
      t.(query := s.query) == s &&
      (s.query.None? || poll.Err? || poll.value.None? ==> t == s) &&
      (t.query.Some? <==> s.query.Some?)
  {
  }

  /** Pull-to-refresh leaves one page at most, the first, with page
      param 1, and re-arms the pagination. */
  lemma RefreshKeepsFirstPage(s: ScreenState)
    ensures var t := HandleRefreshSpec(s);
      t.query.Some? && t.query.value.pageParams == [1] && |t.query.value.pages| <= 1 &&
      (s.query.Some? && s.query.value.pages != [] ==> t.query.value.pages == [s.query.value.pages[0]]) &&
      t.paginationEnabled && !t.loadingMore && t.lastContentHeight == 0.0 && t.lastContentOffsetY == 0.0
  {
  }
}
