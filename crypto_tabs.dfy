/** The home-screen crypto tabs: a fixed list of thirty coins and, per tab,
    the memoised selection shown (featured, top gainers, top losers). */
module CryptoTabs {
  import opened Sequences

  datatype TabCrypto = TabCrypto(symbol: string, name: string, price: string, change: real, marketCap: real)

  /** `ALL_CRYPTOS`, in its declared order. */
  const AllCryptos: seq<TabCrypto> := [
    TabCrypto("BTC", "Bitcoin", "$159,234.23", 5.42, 1.0),
    TabCrypto("ETH", "Ethereum", "$3,245.67", 2.18, 2.0),
    TabCrypto("USDT", "Tether", "$1.00", 0.01, 3.0),
    TabCrypto("BNB", "Binance", "$415.23", -5.42, 4.0),
    TabCrypto("SOL", "Solana", "$98.76", -1.24, 5.0),
    TabCrypto("XRP", "Ripple", "$0.71", -0.92, 6.0),
    TabCrypto("USDC", "USD Coin", "$1.00", 0.02, 7.0),
    TabCrypto("ADA", "Cardano", "$0.58", 3.75, 8.0),
    TabCrypto("AVAX", "Avalanche", "$34.21", 8.54, 9.0),
    TabCrypto("DOGE", "Dogecoin", "$0.12", -2.34, 10.0),
    TabCrypto("DOT", "Polkadot", "$6.87", 7.65, 11.0),
    TabCrypto("TRX", "TRON", "$0.11", 6.27, 12.0),
    TabCrypto("MATIC", "Polygon", "$0.58", 9.32, 13.0),
    TabCrypto("TON", "Toncoin", "$5.12", -4.65, 14.0),
    TabCrypto("SHIB", "Shiba Inu", "$0.000018", 1.23, 15.0),
    TabCrypto("UNI", "Uniswap", "$7.26", -6.78, 16.0),
    TabCrypto("LINK", "Chainlink", "$15.43", 12.45, 17.0),
    TabCrypto("LTC", "Litecoin", "$65.37", -7.82, 18.0),
    TabCrypto("XLM", "Stellar", "$0.095", 10.67, 19.0),
    TabCrypto("BCH", "Bitcoin Cash", "$242.15", -9.43, 20.0),
    TabCrypto("FIL", "Filecoin", "$4.23", 15.78, 21.0),
    TabCrypto("ICP", "Internet Comp", "$8.12", 18.92, 22.0),
    TabCrypto("APT", "Aptos", "$7.56", -12.34, 23.0),
    TabCrypto("ATOM", "Cosmos", "$7.12", 4.56, 24.0),
    TabCrypto("NEAR", "NEAR Protocol", "$3.45", -15.67, 25.0),
    TabCrypto("SAND", "The Sandbox", "$0.42", 16.89, 26.0),
    TabCrypto("INJ", "Injective", "$14.87", 23.45, 27.0),
    TabCrypto("GRT", "The Graph", "$0.15", -17.85, 28.0),
    TabCrypto("AAVE", "Aave", "$75.34", 5.67, 29.0),
    TabCrypto("EGLD", "MultiversX", "$35.87", -18.91, 30.0)
  ]

  const TabLimit: nat := 20

  function MarketCapKey(c: TabCrypto): real { c.marketCap }
  /** The comparator `(a, b) => b.change - a.change`. */
  function DescendingChange(c: TabCrypto): real { -c.change }
  function AscendingChange(c: TabCrypto): real { c.change }
  predicate Rising(c: TabCrypto) { c.change > 0.0 }
  predicate Falling(c: TabCrypto) { c.change < 0.0 }

  /** The `cryptos` memo for the active tab over a list `all` (the screen
      passes `AllCryptos`): each branch sorts (or just copies) the list, then
      filters, then keeps the first 20. */
  function Cryptos(all: seq<TabCrypto>, activeTab: int): seq<TabCrypto>
  {
    if activeTab == 0 then Take(SortBy(all, MarketCapKey), TabLimit)
    else if activeTab == 1 then Take(Filter(SortBy(all, DescendingChange), Rising), TabLimit)
    else if activeTab == 2 then Take(Filter(SortBy(all, AscendingChange), Falling), TabLimit)
    else Take(all, TabLimit)
  }

  function TabDescription(activeTab: int): (r: string)
    ensures r == "" <==> !(activeTab in {0, 1, 2})
  {
    if activeTab == 0 then "Top 20 cryptocurrencies by market cap"
    else if activeTab == 1 then "Top 20 by 24-hour percentage gain"
    else if activeTab == 2 then "Top 20 by 24-hour percentage loss"
    else ""
  }

  lemma AllCryptosByMarketCap()
    ensures SortedBy(AllCryptos, MarketCapKey)
  {
    MarketCapIsRank();
    forall i, j | 0 <= i < j < |AllCryptos| ensures MarketCapKey(AllCryptos[i]) <= MarketCapKey(AllCryptos[j]) {
      assert AllCryptos[i].marketCap == (i + 1) as real && AllCryptos[j].marketCap == (j + 1) as real;
    }
  }

  /** `ALL_CRYPTOS` lists market caps 1, 2, ..., 30 in order. */
  lemma MarketCapIsRank()
    ensures forall i :: 0 <= i < |AllCryptos| ==> AllCryptos[i].marketCap == (i + 1) as real
  {
    MarketCapIsRankLow();
    MarketCapIsRankHigh();
  }

  lemma MarketCapIsRankLow()
    ensures forall i :: 0 <= i < 15 ==> AllCryptos[i].marketCap == (i + 1) as real
  {
    forall i | 0 <= i < 8 ensures AllCryptos[i].marketCap == (i + 1) as real {
      if i == 0 { } else if i == 1 { } else if i == 2 { } else if i == 3 { } else if i == 4 { } else if i == 5 { } else if i == 6 { } else { assert i == 7; }
    }
    forall i | 8 <= i < 15 ensures AllCryptos[i].marketCap == (i + 1) as real {
      if i == 8 { } else if i == 9 { } else if i == 10 { } else if i == 11 { } else if i == 12 { } else if i == 13 { } else { assert i == 14; }
    }
  }

  lemma MarketCapIsRankHigh()
    ensures forall i :: 15 <= i < 30 ==> AllCryptos[i].marketCap == (i + 1) as real
  {
    forall i | 15 <= i < 30 ensures AllCryptos[i].marketCap == (i + 1) as real {
      if i == 15 { } else if i == 16 { } else if i == 17 { } else if i == 18 { } else if i == 19 { } else if i == 20 { } else if i == 21 { } else if i == 22 { } else if i == 23 { } else if i == 24 { } else if i == 25 { } else if i == 26 { } else if i == 27 { } else if i == 28 { } else { assert i == 29; }
    }
  }

  /** On a list already in market-cap order the featured tab is the plain
      first twenty, which is what an unknown tab shows. */
  lemma FeaturedTabOnSortedList(all: seq<TabCrypto>, other: int)
    requires SortedBy(all, MarketCapKey)
    requires !(other in {0, 1, 2})
    ensures Cryptos(all, 0) == Cryptos(all, other) == Take(all, TabLimit)
  {
    SortSortedIdentity(all, MarketCapKey);
  }

  /** `ALL_CRYPTOS` is declared in market-cap order, so for it the featured
      tab and an unknown tab show the same twenty coins. */
  lemma FeaturedTabIsDeclaredOrder(other: int)
    requires !(other in {0, 1, 2})
    ensures Cryptos(AllCryptos, 0) == Cryptos(AllCryptos, other)
  {
    AllCryptosByMarketCap();
    FeaturedTabOnSortedList(AllCryptos, other);
  }

  /** Sorting before filtering, as the memo does, selects what filtering
      before sorting would; so the gainers tab holds at most 20 coins of the
      list, all rising. */
  lemma GainersTabSelect(all: seq<TabCrypto>)
    ensures var r := Cryptos(all, 1);
      |r| <= TabLimit && multiset(r) <= multiset(all) && forall c :: c in r ==> c.change > 0.0
  {
    SortFirstTopN(all, Rising, DescendingChange, TabLimit);
  }

  /** The gainers tab lists highest change first. */
  lemma GainersTabOrdered(all: seq<TabCrypto>)
    ensures var r := Cryptos(all, 1);
      forall i, j :: 0 <= i < j < |r| ==> r[i].change >= r[j].change
  {
    var r := Cryptos(all, 1);
    SortFirstTopN(all, Rising, DescendingChange, TabLimit);
    assert forall i, j :: 0 <= i < j < |r| ==> DescendingChange(r[i]) <= DescendingChange(r[j]);
  }

  /** No rising coin left out of the gainers tab beats one shown. */
  lemma GainersTabBest(all: seq<TabCrypto>)
    ensures var r := Cryptos(all, 1);
      forall x, y :: x in r && y in multiset(Filter(all, Rising)) - multiset(r) ==> x.change >= y.change
  {
    SortFirstTopN(all, Rising, DescendingChange, TabLimit);
  }

  /** The losers tab holds at most 20 coins of the list, all falling. */
  lemma LosersTabSelect(all: seq<TabCrypto>)
    ensures var r := Cryptos(all, 2);
      |r| <= TabLimit && multiset(r) <= multiset(all) && forall c :: c in r ==> c.change < 0.0
  {
    SortFirstTopN(all, Falling, AscendingChange, TabLimit);
  }

  /** The losers tab lists lowest change first. */
  lemma LosersTabOrdered(all: seq<TabCrypto>)
    ensures var r := Cryptos(all, 2);
      forall i, j :: 0 <= i < j < |r| ==> r[i].change <= r[j].change
  {
    var r := Cryptos(all, 2);
    SortFirstTopN(all, Falling, AscendingChange, TabLimit);
    assert forall i, j :: 0 <= i < j < |r| ==> AscendingChange(r[i]) <= AscendingChange(r[j]);
  }

  /** No falling coin left out of the losers tab is lower than one shown. */
  lemma LosersTabBest(all: seq<TabCrypto>)
    ensures var r := Cryptos(all, 2);
      forall x, y :: x in r && y in multiset(Filter(all, Falling)) - multiset(r) ==> x.change <= y.change
  {
    SortFirstTopN(all, Falling, AscendingChange, TabLimit);
  }
}
