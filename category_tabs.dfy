/** The home screen's category tabs over the `coins` slice: the tab index
    picks a precomputed list, and a fetch is started when the slice is idle,
    has never fetched, or holds data older than a minute. */
module CategoryTabs {
  import opened Wrappers
  import opened CoinsSlice
  import CryptoTabs

  datatype Category = FeaturedList | TopGainersList | TopLosersList

  const RefetchAge: int := 60000

  /** `TABS[activeTabIndex].category`; an index past the three tabs makes
      the lookup throw. */
  function CategoryOf(index: int): (r: Option<Category>)
    ensures r.Some? <==> 0 <= index < 3
    ensures index == 0 ==> r == Some(FeaturedList)
    ensures index == 1 ==> r == Some(TopGainersList)
    ensures index == 2 ==> r == Some(TopLosersList)
  {
    if index == 0 then Some(FeaturedList)
    else if index == 1 then Some(TopGainersList)
    else if index == 2 then Some(TopLosersList)
    else None
  }

  function Description(c: Category): string
  {
    match c
    case FeaturedList => "Top 20 cryptocurrencies by market cap"
    case TopGainersList => "Top 20 by 24-hour percentage gain"
    case TopLosersList => "Top 20 by 24-hour percentage loss"
  }

  /** Both tab bars describe their three tabs in the same words. */
  lemma DescriptionsAgree(index: int)
    requires 0 <= index < 3
    ensures Description(CategoryOf(index).value) == CryptoTabs.TabDescription(index)
  {
  }

  /** `getCoinsForActiveTab`: the slice's list for the tab's category. */
  function CoinsForActiveTab(s: CoinsState, index: int): Option<seq<SliceCoin>>
  {
    match CategoryOf(index)
    case None => None
    case Some(FeaturedList) => Some(s.featured)
    case Some(TopGainersList) => Some(s.topGainers)
    case Some(TopLosersList) => Some(s.topLosers)
  }

  /** `shouldFetch`; a missing or zero `lastFetched` is falsy. */
  function ShouldFetch(status: Status, lastFetched: Option<int>, now: int): bool
  {
    status == Idle || lastFetched.None? || lastFetched.value == 0 || now - lastFetched.value > RefetchAge
  }

  /** Each tab shows the slice's list of its category, and no tab shows a
      list the reducer did not derive. */
  lemma ActiveTabLists(s: CoinsState, index: int)
    ensures var r := CoinsForActiveTab(s, index);
      (r.Some? <==> 0 <= index < 3) &&
      (index == 0 ==> r == Some(s.featured)) &&
      (index == 1 ==> r == Some(s.topGainers)) &&
      (index == 2 ==> r == Some(s.topLosers))
  {
  }

  /** After a fetch fulfilled at `t` (not zero), the effect fetches again
      only once the data is more than a minute old. */
  lemma FreshDataIsNotRefetched(s: CoinsState, p: seq<SliceCoin>, t: int, now: int)
    requires t != 0
    ensures var r := Reduce(s, Fulfilled(CoinArray(p), t));
      ShouldFetch(r.status, r.lastFetched, now) <==> now - t > RefetchAge
  {
  }

  /** A fresh slice fetches, and while nothing has been fetched the
      `loading` state the request enters still asks for a fetch, so the
      effect, which re-runs when the status changes, starts a second one. */
  lemma FirstLoadFetchesTwice(now: int, later: int)
    ensures ShouldFetch(InitialState.status, InitialState.lastFetched, now)
    ensures var r := Reduce(InitialState, Pending);
      r.status == Loading && ShouldFetch(r.status, r.lastFetched, later)
  {
  }

  /** A rejected fetch never sets `lastFetched`, so a slice that has never
      fetched successfully asks for a fetch again after every failure. */
  lemma FailuresRefetch(s: CoinsState, o: FetchOutcome, now: int, later: int)
    requires s.lastFetched.None? && !o.Body?
    ensures ShouldFetch(ThunkSpec(s, o, now).status, ThunkSpec(s, o, now).lastFetched, later)
  {
    ThunkOutcomes(s, o, now);
  }
}
