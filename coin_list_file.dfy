/** The `CoinList` component: the same infinite coin list with a price poll
    that merges by position rather than by id. */
module CoinListFile {
  import opened Wrappers
  import opened Coins

  /** `getNextPageParam` without the `lastPage &&` guard: an undefined last
      page makes `lastPage.length` throw. */
  function FileNextPageParam(lastPage: Option<seq<Coin>>, pageCount: nat): (r: Result<Option<nat>>)
    ensures lastPage.None? <==> r.Err?
    ensures r.Ok? ==> r.value == NextPageParam(lastPage, pageCount)
  {
    if lastPage.None? then Result<Option<nat>>.Err("TypeError: Cannot read property 'length' of undefined")
    else Ok(if |lastPage.value| == ListPageSize then Some(pageCount + 1) else None)
  }

  /** Coin `i` of the first page takes the price of entry `i` of the poll,
      when there is one. */
  function MergeByIndex(page: seq<Coin>, newData: seq<Coin>): seq<Coin>
  {
    seq(|page|, i requires 0 <= i < |page| =>
      page[i].(currentPrice := if i < |newData| then newData[i].currentPrice else page[i].currentPrice))
  }

  /** The `setQueryData` updater of `updatePrices`. */
  function MergeFirstPageByIndex(cached: Option<InfiniteData>, newData: Option<seq<Coin>>): Option<InfiniteData>
  {
    if cached.None? || newData.None? || cached.value.pages == [] then cached
    else Some(cached.value.(pages := [MergeByIndex(cached.value.pages[0], newData.value)] + cached.value.pages[1..]))
  }

  /** Only first-page prices change: page count, page lengths, page params,
      later pages and every other coin field stay; coin `i` takes entry `i`'s
      price when the poll has one and keeps its own otherwise. */
  lemma IndexMergeSpec(cached: InfiniteData, newData: seq<Coin>)
    requires cached.pages != []
    ensures var r := MergeFirstPageByIndex(Some(cached), Some(newData)).value;
      |r.pages| == |cached.pages| && r.pageParams == cached.pageParams &&
      (forall j :: 0 < j < |r.pages| ==> r.pages[j] == cached.pages[j]) &&
      |r.pages[0]| == |cached.pages[0]| &&
      forall i :: 0 <= i < |cached.pages[0]| ==>
        r.pages[0][i] == cached.pages[0][i].(currentPrice := r.pages[0][i].currentPrice) &&
        r.pages[0][i].currentPrice == (if i < |newData| then newData[i].currentPrice else cached.pages[0][i].currentPrice)
  {
  }

  /** The position decides, not the id: a poll that lists the same coins in
      another order hands each coin its neighbour's price. */
  lemma IndexMergeIgnoresIds(a: Coin, b: Coin)
    requires a.id != b.id && a.currentPrice != b.currentPrice
    ensures var r := MergeFirstPageByIndex(Some(InfiniteData([[a, b]], [1])), Some([b, a])).value;
      r.pages[0][0].id == a.id && r.pages[0][0].currentPrice == b.currentPrice
    ensures var r := MergeFirstPageByIndex(Some(InfiniteData([[a, b]], [1])), Some([b, a])).value;
      r != MergeFirstPage(Some(InfiniteData([[a, b]], [1])), Some([b, a])).value
  {
    var r := MergeFirstPageByIndex(Some(InfiniteData([[a, b]], [1])), Some([b, a])).value;
    var byId := MergeFirstPage(Some(InfiniteData([[a, b]], [1])), Some([b, a])).value;
    assert FindById([b, a], a.id) == Some(a) by {
      assert [b, a][1..] == [a];
    }
    assert byId.pages[0][0] == MergeCoin(a, [b, a]);
    assert r.pages[0][0].currentPrice != byId.pages[0][0].currentPrice;
  }

  class CoinList {
    var query: Option<InfiniteData>

    constructor ()
      ensures query.None?
    {
      query := None;
    }

    /** `updatePrices`: skipped while fetching or refetching; a failed poll
        changes nothing. */
    method UpdatePrices(isFetching: bool, isRefetching: bool, poll: Result<Option<seq<Coin>>>)
      modifies this
      ensures query == if isFetching || isRefetching || poll.Err? then old(query)
                       else MergeFirstPageByIndex(old(query), poll.value)
    {
      if isFetching || isRefetching {
        return;
      }
      if poll.Ok? {
        query := MergeFirstPageByIndex(query, poll.value);
      }
    }

    /** `handleRefresh`, before its refetch. */
    method HandleRefresh()
      modifies this
      ensures query == Some(TruncateToFirstPage(old(query)))
    {
      query := Some(TruncateToFirstPage(query));
    }
  }

  /** A skipped or failed poll, or one that finds no cache or no data,
      leaves the cache as it was. */
  lemma IndexMergeNoop(cached: Option<InfiniteData>, newData: Option<seq<Coin>>)
    requires cached.None? || newData.None? || cached.value.pages == []
    ensures MergeFirstPageByIndex(cached, newData) == cached
  {
  }
}
