/** The price series of the coin-detail chart and the helpers that both the
    details slice and the chart screen define identically: stride sampling
    (`sampleDataPoints`), the chart projection (`formatChartData`) and the
    percentage change (`calculatePriceChange`). */
module ChartData {
  import opened Wrappers

  /** One open/high/low/close quadruple in one currency. */
  datatype Ohlc = Ohlc(open: real, high: real, low: real, close: real)

  /** One point of the OHLC endpoint's answer: a millisecond date, the usd
      prices and, when present, the aed prices. */
  datatype PricePoint = PricePoint(date: int, usd: Ohlc, aed: Option<Ohlc>)

  datatype Candle = Candle(timestamp: int, open: real, high: real, low: real, close: real)
  datatype LinePoint = LinePoint(timestamp: int, value: real)

  /** The `{ candleData, lineData }` object the chart renders. */
  datatype ChartSeries = ChartSeries(candleData: seq<Candle>, lineData: seq<LinePoint>)

  /** Where a series came from: the two storage tiers, the API, or the
      built-in sample series. */
  datatype DataSource = Cache | Database | Api | Fallback

  /** The `days` query parameter of the OHLC endpoint: a count, or `'max'`. */
  datatype Days = Count(n: nat) | Max

  /** A JavaScript number that is finite, or the `Infinity`/`NaN` that a
      division by a zero opening price produces. */
  datatype Percent = Pct(value: real) | NotFinite

  /** More points than this are sampled before projection. */
  const SamplingThreshold: nat := 300
  /** The default `maxPoints` of `sampleDataPoints`. */
  const DefaultMaxPoints: nat := 200

  // ---------------------------------------------------------------------
  // Stride sampling

  /** `Math.ceil(n / m)`; with `m` zero JavaScript's interval is `Infinity`,
      which behaves like `n` here (no interior index qualifies). */
  function Stride(n: nat, m: nat): (s: nat)
    requires n > m
    ensures s >= 1
    ensures m > 0 ==> (s - 1) * m < n <= s * m
  {
    if m == 0 then n
    else
      var s := (n + m - 1) / m;
      assert s * m + (n + m - 1) % m == n + m - 1;
      s
  }

  /** The interior indices `i, i + s, i + 2s, ...` visited while `i < n - s`. */
  function InteriorFrom(i: nat, s: nat, n: nat): (r: seq<nat>)
    requires s >= 1
    decreases n - i
  {
    if i + s < n then [i] + InteriorFrom(i + s, s, n) else []
  }

  /** The indices `sampleDataPoints` keeps, in order. */
  function SampledIndices(n: nat, m: nat): (r: seq<nat>)
  {
    if n <= m then seq(n, k => k)
    else Framed(Stride(n, m), n)
  }

  /** The elements of `data` at the positions `idx`. */
  function Pick<T>(data: seq<T>, idx: seq<nat>): (r: seq<T>)
    requires forall k :: 0 <= k < |idx| ==> idx[k] < |data|
    ensures |r| == |idx|
    ensures forall k :: 0 <= k < |idx| ==> r[k] == data[idx[k]]
  {
    seq(|idx|, k requires 0 <= k < |idx| => data[idx[k]])
  }

  ghost predicate StrictlyIncreasing(idx: seq<nat>)
  {
    forall a, b :: 0 <= a < b < |idx| ==> idx[a] < idx[b]
  }

  predicate AllBelow(idx: seq<nat>, n: nat)
  {
    forall k :: 0 <= k < |idx| ==> idx[k] < n
  }

  /** Every interior index is at least the start, lies more than one stride
      before the end, and the indices strictly increase. */
  lemma {:induction false} InteriorBounds(i: nat, s: nat, n: nat)
    requires s >= 1
    ensures forall k :: 0 <= k < |InteriorFrom(i, s, n)| ==>
      i <= InteriorFrom(i, s, n)[k] && InteriorFrom(i, s, n)[k] + s < n
    ensures StrictlyIncreasing(InteriorFrom(i, s, n))
    decreases n - i
  {
    if i + s < n {
      InteriorBounds(i + s, s, n);
      var r := InteriorFrom(i, s, n);
      var rest := InteriorFrom(i + s, s, n);
      assert r == [i] + rest;
      forall a, b | 0 <= a < b < |r| ensures r[a] < r[b] {
        if a > 0 { assert r[a] == rest[a - 1] && r[b] == rest[b - 1]; }
        else { assert r[b] == rest[b - 1]; }
      }
    }
  }

  /** The `k`-th interior index is `i + k * s`. */
  lemma {:induction false} InteriorMultiples(i: nat, s: nat, n: nat)
    requires s >= 1
    ensures forall k :: 0 <= k < |InteriorFrom(i, s, n)| ==> InteriorFrom(i, s, n)[k] == i + k * s
    decreases n - i
  {
    if i + s < n {
      InteriorMultiples(i + s, s, n);
      var r := InteriorFrom(i, s, n);
      var rest := InteriorFrom(i + s, s, n);
      assert r == [i] + rest;
      forall k | 1 <= k < |r| ensures r[k] == i + k * s {
        assert r[k] == rest[k - 1] == i + s + (k - 1) * s;
      }
    }
  }

  /** Indices are in range and strictly increasing, so the sample is an
      order-preserving subsequence of the input. The one exception is a
      single point with `maxPoints` zero, which JavaScript's infinite stride
      turns into that point twice. */
  lemma SampledIndicesShape(n: nat, m: nat)
    ensures AllBelow(SampledIndices(n, m), n)
    ensures n != 1 || m >= 1 ==> StrictlyIncreasing(SampledIndices(n, m))
    ensures n == 1 && m == 0 ==> SampledIndices(n, m) == [0, 0]
  {
    if n > m {
      var s := Stride(n, m);
      assert SampledIndices(n, m) == Framed(s, n);
      FramedShape(s, n);
    }
  }

  /** The first index, the interior indices of stride `s`, and the last. */
  function Framed(s: nat, n: nat): seq<nat>
    requires s >= 1 && n >= 1
  {
    [0] + InteriorFrom(s, s, n) + [n - 1]
  }

  lemma FramedShape(s: nat, n: nat)
    requires s >= 1 && n >= 1
    ensures AllBelow(Framed(s, n), n)
    ensures n >= 2 ==> StrictlyIncreasing(Framed(s, n))
    ensures n == 1 ==> Framed(s, n) == [0, 0]
  {
    var mid := InteriorFrom(s, s, n);
    InteriorBounds(s, s, n);
    var r := Framed(s, n);
    assert r == [0] + mid + [n - 1];
    forall k | 1 <= k < |r| - 1 ensures 0 < r[k] < n - 1 {
      assert r[k] == mid[k - 1];
    }
    if n >= 2 {
      forall a, b | 0 <= a < b < |r| ensures r[a] < r[b] {
        if 0 < a && b < |r| - 1 {
          assert r[a] == mid[a - 1] && r[b] == mid[b - 1];
        }
      }
    }
  }

  /** The sample `sampleDataPoints(data, m)` returns. */
  function Sampled<T>(data: seq<T>, m: nat): (r: seq<T>)
  {
    SampledIndicesShape(|data|, m);
    Pick(data, SampledIndices(|data|, m))
  }

  lemma PickInteriorStep<T>(data: seq<T>, i: nat, s: nat)
    requires s >= 1 && i + s < |data|
    ensures AllBelow(InteriorFrom(i, s, |data|), |data|)
    ensures AllBelow(InteriorFrom(i + s, s, |data|), |data|)
    ensures Pick(data, InteriorFrom(i, s, |data|)) == [data[i]] + Pick(data, InteriorFrom(i + s, s, |data|))
  {
    InteriorBounds(i, s, |data|);
    InteriorBounds(i + s, s, |data|);
  }

  /** `sampleDataPoints`: the push loop over the stride. */
  method SampleDataPoints<T>(data: seq<T>, maxPoints: nat) returns (r: seq<T>)
    ensures r == Sampled(data, maxPoints)
  {
    var n := |data|;
    if n <= maxPoints {
      assert Sampled(data, maxPoints) == data;
      return data;
    }
    var s := Stride(n, maxPoints);
    InteriorBounds(s, s, n);
    r := [data[0]];
    var i := s;
    while i + s < n
      invariant s <= i
      invariant AllBelow(InteriorFrom(i, s, n), n)
      invariant r + Pick(data, InteriorFrom(i, s, n)) == [data[0]] + Pick(data, InteriorFrom(s, s, n))
      decreases n - i
    {
      PickInteriorStep(data, i, s);
      r := r + [data[i]];
      i := i + s;
    }
    assert InteriorFrom(i, s, n) == [];
    r := r + [data[n - 1]];
    SampledIndicesShape(n, maxPoints);
    var idx := SampledIndices(n, maxPoints);
    assert idx == [0] + InteriorFrom(s, s, n) + [n - 1];
    assert Pick(data, idx) == [data[0]] + Pick(data, InteriorFrom(s, s, n)) + [data[n - 1]];
  }

  /** At most `maxPoints` inputs come back unchanged. */
  lemma SampledIdentity<T>(data: seq<T>, m: nat)
    requires |data| <= m
    ensures Sampled(data, m) == data
  {
  }

  /** A larger input keeps its first and last point, and every interior
      position is a multiple of the stride that lies below `len - stride`. */
  lemma SampledShape<T>(data: seq<T>, m: nat)
    requires |data| > m
    ensures var r := Sampled(data, m);
      |r| >= 2 && r[0] == data[0] && r[|r| - 1] == data[|data| - 1]
    ensures var s := Stride(|data|, m); var idx := SampledIndices(|data|, m);
      forall k :: 0 < k < |idx| - 1 ==> idx[k] == k * s && idx[k] < |data| - s
  {
    var s := Stride(|data|, m);
    var mid := InteriorFrom(s, s, |data|);
    InteriorBounds(s, s, |data|);
    InteriorMultiples(s, s, |data|);
    var idx := SampledIndices(|data|, m);
    assert idx == [0] + mid + [|data| - 1];
    forall k | 0 < k < |idx| - 1 ensures idx[k] == k * s && idx[k] < |data| - s {
      assert idx[k] == mid[k - 1] == s + (k - 1) * s;
    }
  }

  lemma {:induction false} InteriorLength(i: nat, s: nat, n: nat)
    requires s >= 1 && i < n
    ensures |InteriorFrom(i, s, n)| * s < n - i
    decreases n - i
  {
    if i + s < n {
      InteriorLength(i + s, s, n);
      assert |InteriorFrom(i, s, n)| == |InteriorFrom(i + s, s, n)| + 1;
    }
  }

  lemma MulMonotone(a: int, b: int, c: nat)
    requires a <= b
    ensures a * c <= b * c
  {
  }

  /** With at least two points allowed the stride is shorter than the series. */
  lemma StrideBelowLength(n: nat, m: nat)
    requires 2 <= m < n
    ensures Stride(n, m) < n
  {
    var s := Stride(n, m);
    MulMonotone(2, m, s - 1);
    assert 2 * (s - 1) <= (s - 1) * m < n;
  }

  /** Fewer than `m` strides fit below `n <= m * s`. */
  lemma CountBelow(c: nat, s: nat, m: nat, n: nat)
    requires s >= 1 && (c + 1) * s < n <= m * s
    ensures c + 2 <= m
  {
    if c + 1 >= m {
      MulMonotone(m, c + 1, s);
    }
  }

  /** With `maxPoints >= 2` the sample never has more than `maxPoints` points. */
  lemma SampledBound<T>(data: seq<T>, m: nat)
    requires m >= 2
    ensures |Sampled(data, m)| <= m
  {
    var n := |data|;
    if n > m {
      var s := Stride(n, m);
      StrideBelowLength(n, m);
      InteriorLength(s, s, n);
      var c := |InteriorFrom(s, s, n)|;
      assert c * s + s == (c + 1) * s;
      CountBelow(c, s, m, n);
      assert |SampledIndices(n, m)| == c + 2;
    }
  }

  // ---------------------------------------------------------------------
  // Projection and price change

  function CandleOf(p: PricePoint): Candle
  {
    Candle(p.date, p.usd.open, p.usd.high, p.usd.low, p.usd.close)
  }

  function LineOf(p: PricePoint): LinePoint
  {
    LinePoint(p.date, p.usd.close)
  }

  /** The points `formatChartData` projects: the series itself, or its sample
      when it has more than 300 points. */
  function ProcessedPoints(data: seq<PricePoint>): (r: seq<PricePoint>)
  {
    if |data| > SamplingThreshold then Sampled(data, DefaultMaxPoints) else data
  }

  /** `formatChartData`: the candle and line projections of the (sampled)
      points. */
  function FormatChartData(data: seq<PricePoint>): (r: ChartSeries)
    ensures |r.candleData| == |r.lineData|
    ensures forall k :: 0 <= k < |r.candleData| ==>
      r.candleData[k].timestamp == r.lineData[k].timestamp &&
      r.lineData[k].value == r.candleData[k].close
    ensures data == [] ==> r == ChartSeries([], [])
  {
    if data == [] then ChartSeries([], [])
    else
      var pts := ProcessedPoints(data);
      ChartSeries(seq(|pts|, k requires 0 <= k < |pts| => CandleOf(pts[k])),
                  seq(|pts|, k requires 0 <= k < |pts| => LineOf(pts[k])))
  }

  /** Up to 300 points are projected one for one, each candle carrying the
      point's date and usd prices. */
  lemma FormatSmallSeries(data: seq<PricePoint>)
    requires |data| <= SamplingThreshold
    ensures var r := FormatChartData(data);
      |r.candleData| == |data| &&
      forall k :: 0 <= k < |data| ==>
        r.candleData[k] == Candle(data[k].date, data[k].usd.open, data[k].usd.high, data[k].usd.low, data[k].usd.close) &&
        r.lineData[k] == LinePoint(data[k].date, data[k].usd.close)
  {
  }

  /** More than 300 points shrink to at most 200 while keeping the first and
      last date. */
  lemma FormatLargeSeries(data: seq<PricePoint>)
    requires |data| > SamplingThreshold
    ensures var r := FormatChartData(data);
      2 <= |r.candleData| <= DefaultMaxPoints &&
      r.candleData[0].timestamp == data[0].date &&
      r.lineData[|r.lineData| - 1].timestamp == data[|data| - 1].date
  {
    SampledBound(data, DefaultMaxPoints);
    SampledShape(data, DefaultMaxPoints);
  }

  /** `calculatePriceChange`: percentage change from the first open to the
      last close. */
  function CalculatePriceChange(data: seq<PricePoint>): (r: Percent)
    ensures |data| < 2 ==> r == Pct(0.0)
    ensures |data| >= 2 && data[0].usd.open == 0.0 ==> r == NotFinite
    ensures |data| >= 2 && data[0].usd.open != 0.0 ==>
      r.Pct? && r.value * data[0].usd.open == (data[|data| - 1].usd.close - data[0].usd.open) * 100.0
  {
    if |data| < 2 then Pct(0.0)
    else
      var oldPrice := data[0].usd.open;
      var newPrice := data[|data| - 1].usd.close;
      if oldPrice == 0.0 then NotFinite
      else Pct((newPrice - oldPrice) / oldPrice * 100.0)
  }

  /** With a positive opening price the change is positive, zero or negative
      exactly as the last close is above, at or below the first open. */
  lemma PriceChangeSign(data: seq<PricePoint>)
    requires |data| >= 2 && data[0].usd.open > 0.0
    ensures var r := CalculatePriceChange(data); var o := data[0].usd.open; var c := data[|data| - 1].usd.close;
      r.Pct? && (r.value > 0.0 <==> c > o) && (r.value == 0.0 <==> c == o) && (r.value < 0.0 <==> c < o)
  {
    var r := CalculatePriceChange(data);
    var o := data[0].usd.open;
    var c := data[|data| - 1].usd.close;
    assert r.value * o == (c - o) * 100.0;
    if r.value > 0.0 { assert r.value * o > 0.0; }
    if r.value < 0.0 { assert r.value * o < 0.0; }
  }
}
