/** The coin records of the coin-list screens and the rules those screens
    share: the react-query page cache, the "full page means another page"
    rule, the polled price merge into the first page, the truncation on
    pull-to-refresh, the retry delay and the error messages. */
module Coins {
  import opened Wrappers
  import opened Sequences
  import opened Text

  /** A coin as the list API returns it (camel-case fields). */
  datatype Coin = Coin(id: string, name: string, symbol: string, image: string, currentPrice: real, change: real)

  /** react-query's infinite-query cache entry. */
  datatype InfiniteData = InfiniteData(pages: seq<seq<Coin>>, pageParams: seq<int>)

  const ListPageSize: nat := 15

  /** `pages.flat()`. */
  function Flatten(pages: seq<seq<Coin>>): (r: seq<Coin>)
    ensures |pages| > 0 ==> |r| >= |pages[0]| && r[..|pages[0]|] == pages[0]
  {
    if pages == [] then [] else pages[0] + Flatten(pages[1..])
  }

  /** `getNextPageParam`: another page exactly when the last one exists and
      is full. */
  function NextPageParam<T>(lastPage: Option<seq<T>>, pageCount: nat): (r: Option<nat>)
    ensures r.Some? <==> lastPage.Some? && |lastPage.value| == ListPageSize
    ensures r.Some? ==> r.value == pageCount + 1
  {
    if lastPage.Some? && |lastPage.value| == ListPageSize then Some(pageCount + 1) else None
  }

  /** The search test both list screens apply: the lower-cased name or
      symbol contains `query` (already lower-cased by the caller). */
  function SearchMatch(query: string): Coin -> bool
  {
    (c: Coin) => Contains(ToLower(c.name), query) || Contains(ToLower(c.symbol), query)
  }

  // ---------------------------------------------------------------------
  // The polled price merge

  /** `newData.find(c => c.id === id)`: the first coin with that id. */
  function FindById(s: seq<Coin>, id: string): (r: Option<Coin>)
    ensures r.None? <==> forall k :: 0 <= k < |s| ==> s[k].id != id
    ensures r.Some? ==> exists k :: 0 <= k < |s| && s[k] == r.value && r.value.id == id &&
                                      forall j :: 0 <= j < k ==> s[j].id != id
  {
    if s == [] then None
    else if s[0].id == id then Some(s[0])
    else
      var r := FindById(s[1..], id);
      if r.Some? then
        var k :| 0 <= k < |s[1..]| && s[1..][k] == r.value && r.value.id == id &&
                 forall j :: 0 <= j < k ==> s[1..][j].id != id;
        assert s[k + 1] == r.value;
        assert forall j :: 0 <= j < k + 1 ==> s[j].id != id by {
          forall j | 0 <= j < k + 1 ensures s[j].id != id {
            if j > 0 { assert s[j] == s[1..][j - 1]; }
          }
        }
        r
      else
        assert forall k :: 0 <= k < |s| ==> s[k].id != id by {
          forall k | 0 <= k < |s| ensures s[k].id != id {
            if k > 0 { assert s[k] == s[1..][k - 1]; }
          }
        }
        r
  }

  /** One coin after the merge: a match by id supplies the price and the
      24h change; every other field stays. */
  function MergeCoin(c: Coin, newData: seq<Coin>): Coin
  {
    match FindById(newData, c.id)
    case Some(u) => c.(currentPrice := u.currentPrice, change := u.change)
    case None => c
  }

  function MergePage(page: seq<Coin>, newData: seq<Coin>): seq<Coin>
  {
    seq(|page|, i requires 0 <= i < |page| => MergeCoin(page[i], newData))
  }

  /** The `setQueryData` updater of `updatePrices`: an absent cache, an
      absent answer or a cache without pages is left as it is; otherwise
      only the first page is merged. */
  function MergeFirstPage(cached: Option<InfiniteData>, newData: Option<seq<Coin>>): Option<InfiniteData>
  {
    if cached.None? || newData.None? || cached.value.pages == [] then cached
    else Some(cached.value.(pages := [MergePage(cached.value.pages[0], newData.value)] + cached.value.pages[1..]))
  }

  /** The merge adds and removes nothing: same pages, same page lengths,
      same page params; every coin keeps its place, id, name, symbol and
      image; only the first page can change. */
  lemma MergeKeepsShape(cached: InfiniteData, newData: seq<Coin>)
    requires cached.pages != []
    ensures var r := MergeFirstPage(Some(cached), Some(newData)).value;
      |r.pages| == |cached.pages| && r.pageParams == cached.pageParams &&
      (forall i :: 0 < i < |r.pages| ==> r.pages[i] == cached.pages[i]) &&
      |r.pages[0]| == |cached.pages[0]| &&
      forall k :: 0 <= k < |cached.pages[0]| ==>
        var (a, b) := (r.pages[0][k], cached.pages[0][k]);
        a.id == b.id && a.name == b.name && a.symbol == b.symbol && a.image == b.image
  {
  }

  /** A first-page coin that the new data lists takes the first match's
      price and change; one it does not list is unchanged. */
  lemma MergeTakesMatch(cached: InfiniteData, newData: seq<Coin>, k: nat)
    requires cached.pages != [] && k < |cached.pages[0]|
    ensures var (c, m) := (cached.pages[0][k], MergeFirstPage(Some(cached), Some(newData)).value.pages[0][k]);
      (forall j :: 0 <= j < |newData| ==> newData[j].id != c.id) ==> m == c
    ensures var (c, m) := (cached.pages[0][k], MergeFirstPage(Some(cached), Some(newData)).value.pages[0][k]);
      forall j :: 0 <= j < |newData| && newData[j].id == c.id &&
                  (forall i :: 0 <= i < j ==> newData[i].id != c.id) ==>
        m == c.(currentPrice := newData[j].currentPrice, change := newData[j].change)
  {
    var c := cached.pages[0][k];
    var r := FindById(newData, c.id);
    forall j | 0 <= j < |newData| && newData[j].id == c.id && (forall i :: 0 <= i < j ==> newData[i].id != c.id)
      ensures r == Some(newData[j])
    {
      var q :| 0 <= q < |newData| && newData[q] == r.value && r.value.id == c.id &&
               forall i :: 0 <= i < q ==> newData[i].id != c.id;
      assert !(q < j) && !(j < q);
    }
  }

  /** Merging the same answer twice is merging it once. */
  lemma MergeIdempotent(cached: Option<InfiniteData>, newData: Option<seq<Coin>>)
    ensures MergeFirstPage(MergeFirstPage(cached, newData), newData) == MergeFirstPage(cached, newData)
  {
    if cached.Some? && newData.Some? && cached.value.pages != [] {
      var once := MergeFirstPage(cached, newData).value;
      var p := once.pages[0];
      forall k | 0 <= k < |p| ensures MergeCoin(p[k], newData.value) == p[k] {
        assert p[k].id == cached.value.pages[0][k].id;
      }
      assert MergePage(p, newData.value) == p;
      assert once.pages[1..] == cached.value.pages[1..];
    }
  }

  // ---------------------------------------------------------------------
  // Pull-to-refresh

  /** The `setQueryData` updater of `handleRefresh`: keep at most the first
      page, and restart the page params at 1. */
  function TruncateToFirstPage(cached: Option<InfiniteData>): (r: InfiniteData)
    ensures r.pageParams == [1] && |r.pages| <= 1
    ensures cached.Some? && cached.value.pages != [] ==> r.pages == [cached.value.pages[0]]
    ensures cached.None? || cached.value.pages == [] ==> r.pages == []
  {
    InfiniteData(if cached.Some? then Take(cached.value.pages, 1) else [], [1])
  }

  /** Refreshing twice is refreshing once. */
  lemma TruncateIdempotent(cached: Option<InfiniteData>)
    ensures TruncateToFirstPage(Some(TruncateToFirstPage(cached))) == TruncateToFirstPage(cached)
  {
  }

  // ---------------------------------------------------------------------
  // Retries

  function Pow2(n: nat): (r: nat)
    ensures r >= 1
  {
    if n == 0 then 1 else 2 * Pow2(n - 1)
  }

  lemma {:induction false} Pow2Monotone(a: nat, b: nat)
    requires a <= b
    ensures Pow2(a) <= Pow2(b)
    decreases b
  {
    if a < b {
      Pow2Monotone(a, b - 1);
    }
  }

  const MaxRetryDelay: nat := 30000

  /** `retryDelay(attempt) = Math.min(1000 * 2 ** attempt, 30000)`. */
  function RetryDelay(attempt: nat): (r: nat)
    ensures 1000 <= r <= MaxRetryDelay
  {
    var d := 1000 * Pow2(attempt);
    if d < MaxRetryDelay then d else MaxRetryDelay
  }

  /** Waits never shrink from one attempt to the next, and from the fifth
      attempt on they sit at the cap. */
  lemma RetryDelayMonotone(a: nat, b: nat)
    requires a <= b
    ensures RetryDelay(a) <= RetryDelay(b)
    ensures a >= 5 ==> RetryDelay(a) == MaxRetryDelay
  {
    Pow2Monotone(a, b);
    if a >= 5 {
      Pow2Monotone(5, a);
      assert Pow2(5) == 32;
    }
  }

  // ---------------------------------------------------------------------
  // Error messages

  /** An axios error: its `code`, its response status if any, its message. */
  datatype RequestError = RequestError(code: string, status: Option<int>, message: string)

  const TimeoutMessage := "Request timed out. Please check your network connection."
  const RateLimitMessage := "Rate limit exceeded. Please try again later."
  const ServerMessage := "Server error. Please try again later."
  const UnreachableMessage := "Cannot reach the server. Please check the API URL or your network."
  const GenericMessage := "Failed to fetch coins. Please try again."

  predicate IsServerStatus(status: Option<int>)
  {
    status.Some? && status.value >= 500
  }

  /** The message the list screens' `fetchCoinsApi` rethrows. */
  function ListErrorMessage(e: RequestError): string
  {
    if e.code == "ECONNABORTED" then TimeoutMessage
    else if e.status == Some(429) then RateLimitMessage
    else if IsServerStatus(e.status) then ServerMessage
    else if e.code == "ENOTFOUND" || e.code == "ECONNREFUSED" then UnreachableMessage
    else GenericMessage
  }

  /** Each message is chosen exactly when its test holds and no earlier one
      did: a timeout beats every status, a rate limit beats the server test,
      and a status beats the connection codes. */
  lemma ListErrorPrecedence(e: RequestError)
    ensures ListErrorMessage(e) == TimeoutMessage <==> e.code == "ECONNABORTED"
    ensures ListErrorMessage(e) == RateLimitMessage <==> e.code != "ECONNABORTED" && e.status == Some(429)
    ensures ListErrorMessage(e) == ServerMessage <==>
      e.code != "ECONNABORTED" && e.status != Some(429) && IsServerStatus(e.status)
    ensures ListErrorMessage(e) == UnreachableMessage <==>
      e.code != "ECONNABORTED" && !IsServerStatus(e.status) && e.status != Some(429) &&
      (e.code == "ENOTFOUND" || e.code == "ECONNREFUSED")
    ensures ListErrorMessage(e) == GenericMessage <==>
      !(e.code in {"ECONNABORTED", "ENOTFOUND", "ECONNREFUSED"}) && e.status != Some(429) && !IsServerStatus(e.status)
  {
  }
}
