/** The `coins` Redux slice: one all-coins fetch and three ranked lists
    derived from it (featured, top gainers, top losers). */
module CoinsSlice {
  import opened Wrappers
  import opened Sequences

  /** The part of a payload coin the slice reads; the 24h change may be absent. */
  datatype SliceCoin = SliceCoin(id: string, marketCap: real, change: Option<real>)

  datatype Status = Idle | Loading | Succeeded | Failed

  datatype CoinsState = CoinsState(
    allCoins: seq<SliceCoin>,
    featured: seq<SliceCoin>,
    topGainers: seq<SliceCoin>,
    topLosers: seq<SliceCoin>,
    status: Status,
    error: Option<string>,
    lastFetched: Option<int>)

  const InitialState := CoinsState([], [], [], [], Idle, None, None)

  const ListLimit: nat := 20
  const DefaultRejection := "Failed to fetch data"

  /** `coin.priceChangePercentage24h || 0`. */
  function ChangeOr0(c: SliceCoin): real
  {
    if c.change.Some? then c.change.value else 0.0
  }

  function MarketCapKey(c: SliceCoin): real { c.marketCap }
  /** The comparator `(b, a) => change(b) - change(a)` sorts ascending by the negated change. */
  function DescendingChange(c: SliceCoin): real { -ChangeOr0(c) }
  function AscendingChange(c: SliceCoin): real { ChangeOr0(c) }
  predicate Gains(c: SliceCoin) { ChangeOr0(c) > 0.0 }
  predicate Loses(c: SliceCoin) { ChangeOr0(c) < 0.0 }

  function Featured(payload: seq<SliceCoin>): seq<SliceCoin>
  {
    Take(SortBy(payload, MarketCapKey), ListLimit)
  }

  function TopGainers(payload: seq<SliceCoin>): seq<SliceCoin>
  {
    Take(SortBy(Filter(payload, Gains), DescendingChange), ListLimit)
  }

  function TopLosers(payload: seq<SliceCoin>): seq<SliceCoin>
  {
    Take(SortBy(Filter(payload, Loses), AscendingChange), ListLimit)
  }

  /** The fulfilled payload: the coin array the reducer expects, or a JSON
      value that is not an array (an object such as a `{ data: [...] }`
      envelope). */
  datatype Payload = CoinArray(coins: seq<SliceCoin>) | NotAnArray

  datatype Action =
    | Pending
    | Fulfilled(payload: Payload, now: int)
    | Rejected(reason: Option<string>)
    | ResetError

  /** The slice's reducers; `now` is the `Date.now()` of the fulfilled case.
      On a payload that is not an array, `[...action.payload]` throws inside
      the fulfilled reducer, Immer discards the draft and the state stays as
      it was. */
  function Reduce(s: CoinsState, a: Action): CoinsState
  {
    match a
    case Pending => s.(status := Loading)
    case Fulfilled(NotAnArray, _) => s
    case Fulfilled(CoinArray(p), now) =>
      s.(status := Succeeded, allCoins := p, lastFetched := Some(now),
         featured := Featured(p), topGainers := TopGainers(p), topLosers := TopLosers(p))
    case Rejected(msg) =>
      s.(status := Failed, error := Some(if msg.None? || msg.value == "" then DefaultRejection else msg.value))
    case ResetError => s.(error := None, status := Idle)
  }

  /** What the `fetchCryptoData` thunk's request can end in. */
  datatype FetchOutcome =
    | NotOk
    | ThrewError(message: string)
    | ThrewOther
    | Body(coins: seq<SliceCoin>)
    | NonArrayBody

  const ServerRejection := "Server error!"
  const UnknownRejection := "Unknown error occurred"

  /** The action the thunk settles with, after `pending`. */
  function Settle(o: FetchOutcome, now: int): (a: Action)
    ensures a.Fulfilled? <==> o.Body? || o.NonArrayBody?
    ensures a.Fulfilled? ==> a.now == now && (a.payload == NotAnArray <==> o.NonArrayBody?)
  {
    match o
    case NotOk => Rejected(Some(ServerRejection))
    case ThrewError(m) => Rejected(Some(m))
    case ThrewOther => Rejected(Some(UnknownRejection))
    case Body(p) => Fulfilled(CoinArray(p), now)
    case NonArrayBody => Fulfilled(NotAnArray, now)
  }

  function ThunkSpec(s: CoinsState, o: FetchOutcome, now: int): CoinsState
  {
    Reduce(Reduce(s, Pending), Settle(o, now))
  }

  class CoinsStore {
    var allCoins: seq<SliceCoin>
    var featured: seq<SliceCoin>
    var topGainers: seq<SliceCoin>
    var topLosers: seq<SliceCoin>
    var status: Status
    var error: Option<string>
    var lastFetched: Option<int>

    function State(): CoinsState
      reads this
    {
      CoinsState(allCoins, featured, topGainers, topLosers, status, error, lastFetched)
    }

    constructor ()
      ensures State() == InitialState
    {
      allCoins, featured, topGainers, topLosers := [], [], [], [];
      status, error, lastFetched := Idle, None, None;
    }

    /** `dispatch(action)`: the store replaces its state by the reducer's result. */
    method Dispatch(a: Action)
      modifies this
      ensures State() == Reduce(old(State()), a)
    {
      var next := Reduce(State(), a);
      allCoins, featured, topGainers, topLosers := next.allCoins, next.featured, next.topGainers, next.topLosers;
      status, error, lastFetched := next.status, next.error, next.lastFetched;
    }

    /** `dispatch(fetchCryptoData())` with the request's outcome as a parameter. */
    method FetchCryptoData(o: FetchOutcome, now: int)
      modifies this
      ensures State() == ThunkSpec(old(State()), o, now)
    {
      Dispatch(Pending);
      Dispatch(Settle(o, now));
    }
  }

  // ---------------------------------------------------------------------
  // Properties

  /** `pending` changes only the status; `rejected` sets the status and the
      error (its payload, or the default for a missing or empty one) and
      leaves the lists alone; `resetError` clears the error and idles. */
  lemma PendingRejectedReset(s: CoinsState, msg: Option<string>)
    ensures Reduce(s, Pending) == s.(status := Loading)
    ensures var r := Reduce(s, Rejected(msg));
      r.status == Failed && r.allCoins == s.allCoins && r.featured == s.featured &&
      r.topGainers == s.topGainers && r.topLosers == s.topLosers && r.lastFetched == s.lastFetched &&
      r.error.Some? && (r.error.value == DefaultRejection <==> msg.None? || msg.value == "" || msg.value == DefaultRejection)
    ensures Reduce(s, ResetError).error.None? && Reduce(s, ResetError).status == Idle
  {
  }

  /** `featured` is the `min(20, n)` coins of smallest market cap, in
      ascending order: nothing left out has a smaller cap than a coin kept. */
  lemma FeaturedIsSmallestCaps(p: seq<SliceCoin>)
    ensures var f := Featured(p);
      |f| == (if |p| < ListLimit then |p| else ListLimit) &&
      multiset(f) <= multiset(p) &&
      (forall i, j :: 0 <= i < j < |f| ==> f[i].marketCap <= f[j].marketCap) &&
      forall x, y :: x in f && y in multiset(p) - multiset(f) ==> x.marketCap <= y.marketCap
  {
    var f := Featured(p);
    SmallestN(p, MarketCapKey, ListLimit);
    forall i, j | 0 <= i < j < |f| ensures f[i].marketCap <= f[j].marketCap {
      assert MarketCapKey(f[i]) <= MarketCapKey(f[j]);
    }
    forall x, y | x in f && y in multiset(p) - multiset(f) ensures x.marketCap <= y.marketCap {
      assert MarketCapKey(x) <= MarketCapKey(y);
    }
  }

  /** `topGainers` holds at most 20 coins of the payload, all of them rising
      (a missing change counts as 0). */
  lemma TopGainersSelect(p: seq<SliceCoin>)
    ensures var r := TopGainers(p);
      |r| <= ListLimit && multiset(r) <= multiset(p) && forall c :: c in r ==> ChangeOr0(c) > 0.0
  {
    TopN(p, Gains, DescendingChange, ListLimit);
  }

  /** `topGainers` is ordered by change, highest first. */
  lemma TopGainersOrdered(p: seq<SliceCoin>)
    ensures var r := TopGainers(p);
      forall i, j :: 0 <= i < j < |r| ==> ChangeOr0(r[i]) >= ChangeOr0(r[j])
  {
    var r := TopGainers(p);
    TopN(p, Gains, DescendingChange, ListLimit);
    assert forall i, j :: 0 <= i < j < |r| ==> DescendingChange(r[i]) <= DescendingChange(r[j]);
  }

  /** No rising coin left out of `topGainers` has a larger change than one kept. */
  lemma TopGainersBest(p: seq<SliceCoin>)
    ensures var r := TopGainers(p);
      forall x, y :: x in r && y in multiset(Filter(p, Gains)) - multiset(r) ==> ChangeOr0(x) >= ChangeOr0(y)
  {
    TopN(p, Gains, DescendingChange, ListLimit);
  }

  /** `topLosers` holds at most 20 coins of the payload, all of them falling
      (a missing change counts as 0). */
  lemma TopLosersSelect(p: seq<SliceCoin>)
    ensures var r := TopLosers(p);
      |r| <= ListLimit && multiset(r) <= multiset(p) && forall c :: c in r ==> ChangeOr0(c) < 0.0
  {
    TopN(p, Loses, AscendingChange, ListLimit);
  }

  /** `topLosers` is ordered by change, lowest first. */
  lemma TopLosersOrdered(p: seq<SliceCoin>)
    ensures var r := TopLosers(p);
      forall i, j :: 0 <= i < j < |r| ==> ChangeOr0(r[i]) <= ChangeOr0(r[j])
  {
    var r := TopLosers(p);
    TopN(p, Loses, AscendingChange, ListLimit);
    assert forall i, j :: 0 <= i < j < |r| ==> AscendingChange(r[i]) <= AscendingChange(r[j]);
  }

  /** No falling coin left out of `topLosers` has a smaller change than one kept. */
  lemma TopLosersBest(p: seq<SliceCoin>)
    ensures var r := TopLosers(p);
      forall x, y :: x in r && y in multiset(Filter(p, Loses)) - multiset(r) ==> ChangeOr0(x) <= ChangeOr0(y)
  {
    TopN(p, Loses, AscendingChange, ListLimit);
  }

  /** No coin is both a gainer and a loser. */
  lemma GainersLosersDisjoint(p: seq<SliceCoin>)
    ensures forall c :: c in TopGainers(p) ==> c !in TopLosers(p)
  {
    TopGainersSelect(p);
    TopLosersSelect(p);
  }

  /** `fulfilled` replaces the coins, stamps the time and derives the three lists. */
  lemma FulfilledDerives(s: CoinsState, p: seq<SliceCoin>, now: int)
    ensures var r := Reduce(s, Fulfilled(CoinArray(p), now));
      r.status == Succeeded && r.allCoins == p && r.lastFetched == Some(now) && r.error == s.error &&
      r.featured == Featured(p) && r.topGainers == TopGainers(p) && r.topLosers == TopLosers(p)
  {
  }

  /** The thunk ends `succeeded` exactly on a coin array; a body that is not
      an array leaves the slice `loading` with everything else as it was;
      otherwise it ends `failed` with the server message on a non-ok status,
      the thrown message (or the default when it is empty) on an `Error`,
      and the unknown-error message on anything else thrown. Either way the
      coins are kept or replaced, never merged. */
  lemma ThunkOutcomes(s: CoinsState, o: FetchOutcome, now: int)
    ensures var r := ThunkSpec(s, o, now);
      (r.status == Succeeded <==> o.Body?) &&
      (o.Body? ==> r.allCoins == o.coins && r.lastFetched == Some(now)) &&
      (o.NonArrayBody? ==> r == s.(status := Loading)) &&
      (!o.Body? && !o.NonArrayBody? ==> r.status == Failed && r.allCoins == s.allCoins && r.lastFetched == s.lastFetched) &&
      (o.NotOk? ==> r.error == Some(ServerRejection)) &&
      (o.ThrewOther? ==> r.error == Some(UnknownRejection)) &&
      (o.ThrewError? ==> r.error == Some(if o.message == "" then DefaultRejection else o.message))
  {
  }
}
