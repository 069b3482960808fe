/** The two-tier store behind the coin-detail chart. Short timeframes live in
    a key-value store (MMKV), all others in the SQL tables `price_data` and
    `metadata`. Both tiers are maps or tables held in memory; `now` is a
    parameter and the API call is the outcome it produced. */
module CryptoStorage {
  import opened Wrappers
  import opened Sequences
  import opened ChartData

  const CacheDuration: int := 5 * 60 * 1000
  const ExtendedCacheDuration: int := 30 * 60 * 1000
  const OneDay: int := 24 * 60 * 60 * 1000
  const OneWeek: int := 7 * OneDay

  /** What `getCryptoData` resolves to. */
  datatype CryptoResult = CryptoResult(data: seq<PricePoint>, source: DataSource, needsRefresh: bool)

  /** A key-value entry: the series a `JSON.stringify` wrote, or a number. */
  datatype KvValue = KvString(points: seq<PricePoint>) | KvNumber(n: int)

  /** A `price_data` row; `UNIQUE(crypto_id, timeframe, timestamp)` holds. */
  datatype PriceRow = PriceRow(cryptoId: string, productId: int, timeframe: string, timestamp: int, usd: Ohlc)

  /** A `metadata` row: `value` holds the write time as text, read back with `parseInt`. */
  datatype MetaRow = MetaRow(value: int, timestamp: int)

  /** How the SQL statements of one `getCryptoData` call go: whether the two
      `SELECT`s succeed, and the error, if any, that an insert of the
      write-through reports. A statement error rejects through its callback
      and, since the callback does not return `false`, aborts the transaction,
      which rolls back. The key-value tier has no failure path. */
  datatype SqlIo = SqlIo(readOk: bool, writeError: Option<string>)

  datatype StoreState = StoreState(kv: map<string, KvValue>, priceData: seq<PriceRow>, metadata: map<string, MetaRow>)

  function Empty(): StoreState
  {
    StoreState(map[], [], map[])
  }

  // ---------------------------------------------------------------------
  // Keys and freshness

  predicate UsesFastTier(timeframe: string)
  {
    timeframe == "1D" || timeframe == "1W"
  }

  function FastKey(cryptoId: string, timeframe: string): string
  {
    "crypto_" + cryptoId + "_" + timeframe
  }

  function FastTimestampKey(cryptoId: string, timeframe: string): string
  {
    FastKey(cryptoId, timeframe) + "_timestamp"
  }

  function MetaKey(cryptoId: string, timeframe: string): string
  {
    cryptoId + "_" + timeframe + "_timestamp"
  }

  function FastMaxAge(timeframe: string): int
  {
    if timeframe == "1D" then CacheDuration else ExtendedCacheDuration
  }

  /** `dataAge > maxAge / 2`, with JavaScript's exact division. */
  predicate NeedsRefresh(age: int, maxAge: int)
  {
    age as real > maxAge as real / 2.0
  }

  // ---------------------------------------------------------------------
  // The SQL table

  predicate SameKey(a: PriceRow, b: PriceRow)
  {
    a.cryptoId == b.cryptoId && a.timeframe == b.timeframe && a.timestamp == b.timestamp
  }

  ghost predicate UniqueKeys(rows: seq<PriceRow>)
  {
    forall i, j :: 0 <= i < j < |rows| ==> !SameKey(rows[i], rows[j])
  }

  function InPair(cryptoId: string, timeframe: string): PriceRow -> bool
  {
    (x: PriceRow) => x.cryptoId == cryptoId && x.timeframe == timeframe
  }

  function NotInPair(cryptoId: string, timeframe: string): PriceRow -> bool
  {
    (x: PriceRow) => !(x.cryptoId == cryptoId && x.timeframe == timeframe)
  }

  function NotKeyOf(row: PriceRow): PriceRow -> bool
  {
    (x: PriceRow) => !SameKey(x, row)
  }

  /** `WHERE crypto_id = ? AND timeframe = ?`. */
  function PairRows(rows: seq<PriceRow>, cryptoId: string, timeframe: string): seq<PriceRow>
  {
    Filter(rows, InPair(cryptoId, timeframe))
  }

  function RowTimestamp(x: PriceRow): real
  {
    x.timestamp as real
  }

  function PointOfRow(x: PriceRow): PricePoint
  {
    PricePoint(x.timestamp, x.usd, None)
  }

  function ProjectRows(rows: seq<PriceRow>): (r: seq<PricePoint>)
    ensures |r| == |rows|
  {
    seq(|rows|, k requires 0 <= k < |rows| => PointOfRow(rows[k]))
  }

  /** The read loop that turns the selected rows into chart points. */
  method ReadRows(rows: seq<PriceRow>) returns (chartData: seq<PricePoint>)
    ensures chartData == ProjectRows(rows)
  {
    chartData := [];
    var i := 0;
    while i < |rows|
      invariant 0 <= i <= |rows|
      invariant chartData == ProjectRows(rows[..i])
    {
      chartData := chartData + [PointOfRow(rows[i])];
      i := i + 1;
    }
    assert rows[..i] == rows;
  }

  /** The insert loop of the write-through: each point upserted in order. */
  method InsertPoints(rows: seq<PriceRow>, cryptoId: string, productId: int, timeframe: string, pts: seq<PricePoint>)
    returns (r: seq<PriceRow>)
    ensures r == InsertAll(rows, cryptoId, productId, timeframe, pts)
  {
    r := rows;
    var i := 0;
    while i < |pts|
      invariant 0 <= i <= |pts|
      invariant r == InsertAll(rows, cryptoId, productId, timeframe, pts[..i])
    {
      InsertAllStep(rows, cryptoId, productId, timeframe, pts, i);
      r := Upsert(r, RowOf(cryptoId, productId, timeframe, pts[i]));
      i := i + 1;
    }
    assert pts[..i] == pts;
  }

  /** `INSERT OR REPLACE` on the unique key: a row with the same key goes, the new row is added. */
  function Upsert(rows: seq<PriceRow>, row: PriceRow): seq<PriceRow>
  {
    Filter(rows, NotKeyOf(row)) + [row]
  }

  /** `DELETE FROM price_data WHERE crypto_id = ? AND timeframe = ?`. */
  function DeletePair(rows: seq<PriceRow>, cryptoId: string, timeframe: string): seq<PriceRow>
  {
    Filter(rows, NotInPair(cryptoId, timeframe))
  }

  function RowOf(cryptoId: string, productId: int, timeframe: string, p: PricePoint): PriceRow
  {
    PriceRow(cryptoId, productId, timeframe, p.date, p.usd)
  }

  function RowsOf(cryptoId: string, productId: int, timeframe: string, pts: seq<PricePoint>): (r: seq<PriceRow>)
    ensures |r| == |pts|
  {
    seq(|pts|, k requires 0 <= k < |pts| => RowOf(cryptoId, productId, timeframe, pts[k]))
  }

  /** The insert loop: each point upserted in order. */
  function InsertAll(rows: seq<PriceRow>, cryptoId: string, productId: int, timeframe: string, pts: seq<PricePoint>): seq<PriceRow>
    decreases |pts|
  {
    if pts == [] then rows
    else Upsert(InsertAll(rows, cryptoId, productId, timeframe, pts[..|pts| - 1]), RowOf(cryptoId, productId, timeframe, pts[|pts| - 1]))
  }

  function DateIsNot(date: int): PricePoint -> bool
  {
    (p: PricePoint) => p.date != date
  }

  /** The points whose date does not occur again later: what an upsert of the
      whole series leaves behind. */
  function DedupLast(pts: seq<PricePoint>): seq<PricePoint>
    decreases |pts|
  {
    if pts == [] then []
    else Filter(DedupLast(pts[..|pts| - 1]), DateIsNot(pts[|pts| - 1].date)) + [pts[|pts| - 1]]
  }

  /** `pts[i]` is the last point carrying its date. */
  ghost predicate LastOfDate(pts: seq<PricePoint>, i: int)
  {
    0 <= i < |pts| && forall j :: i < j < |pts| ==> pts[j].date != pts[i].date
  }

  // ---------------------------------------------------------------------
  // Lookups and writes

  function FastLookup(kv: map<string, KvValue>, cryptoId: string, timeframe: string, now: int): Option<CryptoResult>
  {
    var key := FastKey(cryptoId, timeframe);
    var tsKey := FastTimestampKey(cryptoId, timeframe);
    if key in kv && kv[key].KvString? && tsKey in kv && kv[tsKey].KvNumber? && kv[tsKey].n != 0 then
      var age := now - kv[tsKey].n;
      var maxAge := FastMaxAge(timeframe);
      if age < maxAge then Some(CryptoResult(kv[key].points, Cache, NeedsRefresh(age, maxAge))) else None
    else None
  }

  /** The rows of a pair in `ORDER BY timestamp ASC`. */
  function SortedPairRows(rows: seq<PriceRow>, cryptoId: string, timeframe: string): seq<PriceRow>
  {
    SortBy(PairRows(rows, cryptoId, timeframe), RowTimestamp)
  }

  function SqlLookup(s: StoreState, cryptoId: string, timeframe: string, now: int): Option<CryptoResult>
  {
    var key := MetaKey(cryptoId, timeframe);
    if key !in s.metadata then None
    else
      var age := now - s.metadata[key].value;
      if age > ExtendedCacheDuration then None
      else
        var sorted := SortedPairRows(s.priceData, cryptoId, timeframe);
        if sorted == [] then None
        else Some(CryptoResult(ProjectRows(sorted), Database, NeedsRefresh(age, ExtendedCacheDuration)))
  }

  /** What `getCryptoData` serves from storage, if anything. */
  function Lookup(s: StoreState, cryptoId: string, timeframe: string, now: int): Option<CryptoResult>
  {
    if UsesFastTier(timeframe) then FastLookup(s.kv, cryptoId, timeframe, now)
    else SqlLookup(s, cryptoId, timeframe, now)
  }

  /** What the tier answers on this call: a SQL read that rejects is caught
      and treated as a miss. */
  function TierAnswer(s: StoreState, cryptoId: string, timeframe: string, now: int, io: SqlIo): Option<CryptoResult>
  {
    if !UsesFastTier(timeframe) && !io.readOk then None else Lookup(s, cryptoId, timeframe, now)
  }

  /** What `getCryptoData` resolves or rejects with, given the store, the SQL
      statements' outcome and the outcome the API fetch would have. */
  function Outcome(s: StoreState, cryptoId: string, timeframe: string, now: int, io: SqlIo,
                   fetched: Result<seq<PricePoint>>): Result<CryptoResult>
  {
    var hit := TierAnswer(s, cryptoId, timeframe, now, io);
    if hit.Some? then Ok(hit.value)
    else if fetched.Err? then Err(fetched.message)
    else if !UsesFastTier(timeframe) && io.writeError.Some? then Err(io.writeError.value)
    else Ok(CryptoResult(fetched.value, Api, false))
  }

  function FastWrite(s: StoreState, cryptoId: string, timeframe: string, pts: seq<PricePoint>, now: int): StoreState
  {
    s.(kv := s.kv[FastKey(cryptoId, timeframe) := KvString(pts)][FastTimestampKey(cryptoId, timeframe) := KvNumber(now)])
  }

  function SqlWrite(s: StoreState, cryptoId: string, productId: int, timeframe: string, pts: seq<PricePoint>, now: int): StoreState
  {
    s.(metadata := s.metadata[MetaKey(cryptoId, timeframe) := MetaRow(now, now)],
       priceData := InsertAll(DeletePair(s.priceData, cryptoId, timeframe), cryptoId, productId, timeframe, pts))
  }

  /** The write-through after an API fetch. */
  function WriteThrough(s: StoreState, cryptoId: string, productId: int, timeframe: string, pts: seq<PricePoint>, now: int): StoreState
  {
    if UsesFastTier(timeframe) then FastWrite(s, cryptoId, timeframe, pts, now)
    else SqlWrite(s, cryptoId, productId, timeframe, pts, now)
  }

  function Keep1D(now: int): PriceRow -> bool
  {
    (x: PriceRow) => !(x.timeframe == "1D" && x.timestamp < now - OneDay)
  }

  function Keep1W(now: int): PriceRow -> bool
  {
    (x: PriceRow) => !(x.timeframe == "1W" && x.timestamp < now - OneWeek)
  }

  /** `optimizeStorage`: the three deletes, in order. */
  function Optimize(s: StoreState, now: int): (r: StoreState)
    ensures r.kv == s.kv
    ensures forall x :: x in r.priceData <==>
      x in s.priceData && !(x.timeframe == "1D" && x.timestamp < now - OneDay) &&
      !(x.timeframe == "1W" && x.timestamp < now - OneWeek)
    ensures forall k :: k in r.metadata <==> k in s.metadata && s.metadata[k].timestamp >= now - OneDay
    ensures forall k :: k in r.metadata ==> r.metadata[k] == s.metadata[k]
  {
    s.(priceData := Filter(Filter(s.priceData, Keep1D(now)), Keep1W(now)),
       metadata := map k | k in s.metadata && !(s.metadata[k].timestamp < now - OneDay) :: s.metadata[k])
  }

  /** The store's invariant: the unique key holds, and each metadata row's
      text value is its own timestamp. The source reads the clock twice for
      the two columns; the model reads it once, so they are equal. */
  ghost predicate StateValid(s: StoreState)
  {
    UniqueKeys(s.priceData) &&
    forall k :: k in s.metadata ==> s.metadata[k].value == s.metadata[k].timestamp
  }

  /** `optimizeStorage` as called: the pruning, or nothing on a `VACUUM` draw. */
  function OptimizeCall(s: StoreState, now: int, vacuum: bool): StoreState
  {
    if vacuum then s else Optimize(s, now)
  }

  /** What `clearStorage` leaves: an empty key-value tier, the SQL tier as it was. */
  function Cleared(s: StoreState): StoreState
  {
    s.(kv := map[])
  }

  /** One more turn of the insert loop upserts the next point. */
  lemma InsertAllStep(rows: seq<PriceRow>, cryptoId: string, productId: int, timeframe: string, pts: seq<PricePoint>, i: nat)
    requires i < |pts|
    ensures InsertAll(rows, cryptoId, productId, timeframe, pts[..i + 1]) ==
            Upsert(InsertAll(rows, cryptoId, productId, timeframe, pts[..i]), RowOf(cryptoId, productId, timeframe, pts[i]))
  {
    assert pts[..i + 1][..i] == pts[..i];
  }

  /** The SQL write-through keeps the store's invariant. */
  lemma SqlWriteValid(s: StoreState, cryptoId: string, productId: int, timeframe: string, pts: seq<PricePoint>, now: int)
    requires StateValid(s)
    ensures StateValid(SqlWrite(s, cryptoId, productId, timeframe, pts, now))
  {
    var base := DeletePair(s.priceData, cryptoId, timeframe);
    FilterUnique(s.priceData, NotInPair(cryptoId, timeframe));
    assert UniqueKeys(base);
    InsertAllUnique(base, cryptoId, productId, timeframe, pts);
  }

  /** Pruning keeps the store's invariant. */
  lemma OptimizeValid(s: StoreState, now: int)
    requires StateValid(s)
    ensures StateValid(Optimize(s, now))
  {
    FilterUnique(s.priceData, Keep1D(now));
    FilterUnique(Filter(s.priceData, Keep1D(now)), Keep1W(now));
  }

  // ---------------------------------------------------------------------
  // The store

  class TieredStore {
    var kv: map<string, KvValue>
    var priceData: seq<PriceRow>
    var metadata: map<string, MetaRow>

    function State(): StoreState
      reads this
    {
      StoreState(kv, priceData, metadata)
    }

    ghost predicate Valid()
      reads this
    {
      StateValid(State())
    }

    constructor ()
      ensures Valid() && State() == Empty()
    {
      kv := map[];
      priceData := [];
      metadata := map[];
    }

    /** The storage half of `getCryptoData`: the tier's answer, if fresh; a
        failed SQL read (`readOk` false) is a miss. */
    method ReadTier(cryptoId: string, timeframe: string, now: int, readOk: bool) returns (hit: Option<CryptoResult>)
      ensures hit == TierAnswer(State(), cryptoId, timeframe, now, SqlIo(readOk, None))
    {
      hit := None;
      if UsesFastTier(timeframe) {
        var key := FastKey(cryptoId, timeframe);
        var tsKey := FastTimestampKey(cryptoId, timeframe);
        if key in kv && kv[key].KvString? && tsKey in kv && kv[tsKey].KvNumber? && kv[tsKey].n != 0 {
          var age := now - kv[tsKey].n;
          var maxAge := FastMaxAge(timeframe);
          if age < maxAge {
            hit := Some(CryptoResult(kv[key].points, Cache, NeedsRefresh(age, maxAge)));
          }
        }
      } else if readOk {
        var key := MetaKey(cryptoId, timeframe);
        if key in metadata {
          var age := now - metadata[key].value;
          if !(age > ExtendedCacheDuration) {
            var sorted := SortedPairRows(priceData, cryptoId, timeframe);
            if |sorted| > 0 {
              var chartData := ReadRows(sorted);
              hit := Some(CryptoResult(chartData, Database, NeedsRefresh(age, ExtendedCacheDuration)));
            }
          }
        }
      }
    }

    /** The SQL write-through, one transaction: stamp the metadata row,
        delete the pair's rows, then upsert every point in order. An insert
        error (`writeError`) rolls the transaction back and rejects. */
    method StoreInSql(cryptoId: string, productId: int, timeframe: string, apiData: seq<PricePoint>, now: int,
                      writeError: Option<string>) returns (ok: bool)
      requires Valid()
      modifies this
      ensures Valid()
      ensures ok <==> writeError.None?
      ensures State() == if ok then SqlWrite(old(State()), cryptoId, productId, timeframe, apiData, now) else old(State())
    {
      ghost var s0 := State();
      var rows0, meta0 := priceData, metadata;
      metadata := metadata[MetaKey(cryptoId, timeframe) := MetaRow(now, now)];
      priceData := InsertPoints(DeletePair(priceData, cryptoId, timeframe), cryptoId, productId, timeframe, apiData);
      if writeError.Some? {
        // the insert's error callback rejects and the transaction rolls back
        priceData, metadata := rows0, meta0;
        return false;
      }
      SqlWriteValid(s0, cryptoId, productId, timeframe, apiData, now);
      return true;
    }

    /** `getCryptoData`: serve from the tier when fresh, otherwise use the
        fetch outcome, write it through and tag it `api`; a failed fetch or a
        rejected SQL write is rethrown and changes nothing. */
    method GetCryptoData(cryptoId: string, productId: int, timeframe: string, now: int, io: SqlIo,
                         fetched: Result<seq<PricePoint>>) returns (r: Result<CryptoResult>)
      requires Valid()
      modifies this
      ensures Valid()
      ensures r == Outcome(old(State()), cryptoId, timeframe, now, io, fetched)
      ensures State() == if r.Ok? && r.value.source == Api
                         then WriteThrough(old(State()), cryptoId, productId, timeframe, fetched.value, now)
                         else old(State())
    {
      var hit := ReadTier(cryptoId, timeframe, now, io.readOk);
      assert hit.Some? ==> hit.value.source != Api;
      if hit.Some? {
        return Ok(hit.value);
      }
      if fetched.Err? {
        return Err(fetched.message);
      }
      var apiData := fetched.value;
      if UsesFastTier(timeframe) {
        kv := kv[FastKey(cryptoId, timeframe) := KvString(apiData)][FastTimestampKey(cryptoId, timeframe) := KvNumber(now)];
      } else {
        var ok := StoreInSql(cryptoId, productId, timeframe, apiData, now, io.writeError);
        if !ok {
          return Err(io.writeError.value);
        }
      }
      return Ok(CryptoResult(apiData, Api, false));
    }

    /** `optimizeStorage` at time `now`: the three deletes in one
        transaction. On the draw that adds `VACUUM` (`vacuum`), SQLite
        refuses to vacuum inside a transaction, the statement has no error
        callback, and the whole transaction rolls back. */
    method OptimizeStorage(now: int, vacuum: bool)
      requires Valid()
      modifies this
      ensures Valid()
      ensures State() == OptimizeCall(old(State()), now, vacuum)
    {
      ghost var s0 := State();
      var rows0, meta0 := priceData, metadata;
      priceData := Filter(priceData, Keep1D(now));
      priceData := Filter(priceData, Keep1W(now));
      metadata := map k | k in metadata && !(metadata[k].timestamp < now - OneDay) :: metadata[k];
      if vacuum {
        // `VACUUM` fails inside the transaction, which rolls back
        priceData, metadata := rows0, meta0;
        return;
      }
      assert State() == Optimize(s0, now);
      OptimizeValid(s0, now);
    }

    /** `clearStorage`: the key-value tier is cleared; the SQL transaction
        ends in `VACUUM`, which SQLite refuses inside a transaction, so its
        two deletes roll back. */
    method ClearStorage()
      requires Valid()
      modifies this
      ensures Valid()
      ensures State() == Cleared(old(State()))
    {
      kv := map[];
      var rows0, meta0 := priceData, metadata;
      priceData := [];
      metadata := map[];
      // `VACUUM` fails inside the transaction, which rolls back
      priceData, metadata := rows0, meta0;
    }
  }

  // ---------------------------------------------------------------------
  // The unique key

  lemma {:induction false} FilterUnique(rows: seq<PriceRow>, p: PriceRow -> bool)
    requires UniqueKeys(rows)
    ensures UniqueKeys(Filter(rows, p))
  {
    if rows != [] {
      var tail := rows[1..];
      assert UniqueKeys(tail) by {
        forall i, j | 0 <= i < j < |tail| ensures !SameKey(tail[i], tail[j]) {
          assert tail[i] == rows[i + 1] && tail[j] == rows[j + 1];
        }
      }
      FilterUnique(tail, p);
      var ft := Filter(tail, p);
      if p(rows[0]) {
        var r := [rows[0]] + ft;
        forall i, j | 0 <= i < j < |r| ensures !SameKey(r[i], r[j]) {
          if i == 0 {
            assert r[j] == ft[j - 1] && r[j] in tail;
            var k :| 0 <= k < |tail| && tail[k] == r[j];
            assert rows[k + 1] == r[j];
          } else {
            assert r[i] == ft[i - 1] && r[j] == ft[j - 1];
          }
        }
      }
    }
  }

  lemma UpsertUnique(rows: seq<PriceRow>, row: PriceRow)
    requires UniqueKeys(rows)
    ensures UniqueKeys(Upsert(rows, row))
  {
    FilterUnique(rows, NotKeyOf(row));
    var f := Filter(rows, NotKeyOf(row));
    var r := f + [row];
    forall i, j | 0 <= i < j < |r| ensures !SameKey(r[i], r[j]) {
      assert r[i] == f[i];
      if j == |r| - 1 {
        assert f[i] in f;
      } else {
        assert r[j] == f[j];
      }
    }
  }

  lemma {:induction false} InsertAllUnique(rows: seq<PriceRow>, cryptoId: string, productId: int, timeframe: string, pts: seq<PricePoint>)
    requires UniqueKeys(rows)
    ensures UniqueKeys(InsertAll(rows, cryptoId, productId, timeframe, pts))
    decreases |pts|
  {
    if pts != [] {
      InsertAllUnique(rows, cryptoId, productId, timeframe, pts[..|pts| - 1]);
      UpsertUnique(InsertAll(rows, cryptoId, productId, timeframe, pts[..|pts| - 1]), RowOf(cryptoId, productId, timeframe, pts[|pts| - 1]));
    }
  }

  /** Every operation keeps the store's invariant. */
  lemma WriteThroughValid(s: StoreState, cryptoId: string, productId: int, timeframe: string, pts: seq<PricePoint>, now: int)
    requires StateValid(s)
    ensures StateValid(WriteThrough(s, cryptoId, productId, timeframe, pts, now))
  {
    if !UsesFastTier(timeframe) {
      SqlWriteValid(s, cryptoId, productId, timeframe, pts, now);
    }
  }

  lemma {:induction false} UniqueCountOne(rows: seq<PriceRow>)
    requires UniqueKeys(rows)
    ensures forall x :: multiset(rows)[x] <= 1
  {
    if rows != [] {
      var tail := rows[1..];
      assert rows == [rows[0]] + tail;
      assert UniqueKeys(tail) by {
        forall i, j | 0 <= i < j < |tail| ensures !SameKey(tail[i], tail[j]) {
          assert tail[i] == rows[i + 1] && tail[j] == rows[j + 1];
        }
      }
      UniqueCountOne(tail);
      forall k | 0 <= k < |tail| ensures tail[k] != rows[0] {
        assert !SameKey(rows[0], rows[k + 1]);
      }
      assert rows[0] !in tail;
    }
  }

  /** An element that occurs at most once cannot sit at two positions. */
  lemma DistinctPositions<T>(t: seq<T>, a: int, b: int)
    requires 0 <= a < b < |t| && multiset(t)[t[a]] <= 1
    ensures t[a] != t[b]
  {
    assert t == t[..b] + t[b..];
    assert t[a] in t[..b];
    assert multiset(t)[t[a]] == multiset(t[..b])[t[a]] + multiset(t[b..])[t[a]];
    assert multiset(t[b..])[t[a]] == 0;
    assert t[b] in t[b..];
  }

  /** A permutation of rows with unique keys has unique keys. */
  lemma PermutationUnique(s: seq<PriceRow>, t: seq<PriceRow>)
    requires UniqueKeys(s) && multiset(t) == multiset(s)
    ensures UniqueKeys(t)
  {
    UniqueCountOne(s);
    forall a, b | 0 <= a < b < |t| ensures !SameKey(t[a], t[b]) {
      DistinctPositions(t, a, b);
      assert t[a] in multiset(s) && t[b] in multiset(s);
      var i :| 0 <= i < |s| && s[i] == t[a];
      var j :| 0 <= j < |s| && s[j] == t[b];
      if i < j { assert !SameKey(s[i], s[j]); } else { assert !SameKey(s[j], s[i]); }
    }
  }

  lemma SortedPairMembers(rows: seq<PriceRow>, cryptoId: string, timeframe: string)
    ensures var sorted := SortedPairRows(rows, cryptoId, timeframe);
      forall k :: 0 <= k < |sorted| ==> sorted[k].cryptoId == cryptoId && sorted[k].timeframe == timeframe
  {
    var pair := PairRows(rows, cryptoId, timeframe);
    var sorted := SortedPairRows(rows, cryptoId, timeframe);
    forall k | 0 <= k < |sorted| ensures sorted[k].cryptoId == cryptoId && sorted[k].timeframe == timeframe {
      assert sorted[k] in multiset(pair);
      assert sorted[k] in pair;
    }
  }

  /** A SQL read lists the pair's points in strictly increasing date order,
      with the usd prices only. */
  lemma SqlReadOrdered(rows: seq<PriceRow>, cryptoId: string, timeframe: string)
    requires UniqueKeys(rows)
    ensures var r := ProjectRows(SortedPairRows(rows, cryptoId, timeframe));
      (forall a, b :: 0 <= a < b < |r| ==> r[a].date < r[b].date) &&
      (forall k :: 0 <= k < |r| ==> r[k].aed == None)
  {
    var pair := PairRows(rows, cryptoId, timeframe);
    var sorted := SortedPairRows(rows, cryptoId, timeframe);
    FilterUnique(rows, InPair(cryptoId, timeframe));
    PermutationUnique(pair, sorted);
    SortedPairMembers(rows, cryptoId, timeframe);
    OnePairStrictlyIncreasing(sorted, cryptoId, timeframe);
    var r := ProjectRows(sorted);
    forall a, b | 0 <= a < b < |r| ensures r[a].date < r[b].date {
      assert r[a].date == sorted[a].timestamp && r[b].date == sorted[b].timestamp;
    }
  }

  /** Rows of one pair, with distinct keys and in timestamp order, have
      strictly increasing timestamps. */
  lemma OnePairStrictlyIncreasing(rows: seq<PriceRow>, cryptoId: string, timeframe: string)
    requires UniqueKeys(rows) && SortedBy(rows, RowTimestamp)
    requires forall k :: 0 <= k < |rows| ==> rows[k].cryptoId == cryptoId && rows[k].timeframe == timeframe
    ensures forall a, b :: 0 <= a < b < |rows| ==> rows[a].timestamp < rows[b].timestamp
  {
    forall a, b | 0 <= a < b < |rows| ensures rows[a].timestamp < rows[b].timestamp {
      assert !SameKey(rows[a], rows[b]);
      assert RowTimestamp(rows[a]) <= RowTimestamp(rows[b]);
    }
  }

  // ---------------------------------------------------------------------
  // Write-through

  lemma RowsOfConcat(cryptoId: string, productId: int, timeframe: string, a: seq<PricePoint>, b: seq<PricePoint>)
    ensures RowsOf(cryptoId, productId, timeframe, a + b) ==
            RowsOf(cryptoId, productId, timeframe, a) + RowsOf(cryptoId, productId, timeframe, b)
  {
  }

  lemma {:induction false} RowsOfFilterDate(cryptoId: string, productId: int, timeframe: string, pts: seq<PricePoint>, p: PricePoint)
    ensures RowsOf(cryptoId, productId, timeframe, Filter(pts, DateIsNot(p.date))) ==
            Filter(RowsOf(cryptoId, productId, timeframe, pts), NotKeyOf(RowOf(cryptoId, productId, timeframe, p)))
  {
    if pts != [] {
      var P := DateIsNot(p.date);
      var Q := NotKeyOf(RowOf(cryptoId, productId, timeframe, p));
      var rows := RowsOf(cryptoId, productId, timeframe, pts);
      var tailRows := RowsOf(cryptoId, productId, timeframe, pts[1..]);
      var h := if P(pts[0]) then [pts[0]] else [];
      var hq := if Q(rows[0]) then [rows[0]] else [];
      assert Filter(pts, P) == h + Filter(pts[1..], P);
      assert rows[1..] == tailRows;
      assert Filter(rows, Q) == hq + Filter(tailRows, Q);
      assert RowsOf(cryptoId, productId, timeframe, h) == hq;
      RowsOfConcat(cryptoId, productId, timeframe, h, Filter(pts[1..], P));
      RowsOfFilterDate(cryptoId, productId, timeframe, pts[1..], p);
    }
  }

  /** The pair's rows after the upsert of one of its own rows. */
  lemma PairAfterUpsert(rows: seq<PriceRow>, row: PriceRow)
    ensures PairRows(Upsert(rows, row), row.cryptoId, row.timeframe) ==
            Filter(PairRows(rows, row.cryptoId, row.timeframe), NotKeyOf(row)) + [row]
  {
    var pr := InPair(row.cryptoId, row.timeframe);
    var kept := Filter(rows, NotKeyOf(row));
    assert Upsert(rows, row) == kept + [row];
    FilterConcat(kept, [row], pr);
    FilterSingleton(row, pr);
    assert pr(row);
    FilterCommute(rows, NotKeyOf(row), pr);
  }

  /** An upsert in one pair leaves another pair's rows alone. */
  lemma OtherPairAfterUpsert(rows: seq<PriceRow>, row: PriceRow, cryptoId: string, timeframe: string)
    requires !(row.cryptoId == cryptoId && row.timeframe == timeframe)
    ensures PairRows(Upsert(rows, row), cryptoId, timeframe) == PairRows(rows, cryptoId, timeframe)
  {
    var pr := InPair(cryptoId, timeframe);
    FilterConcat(Filter(rows, NotKeyOf(row)), [row], pr);
    FilterCommute(rows, NotKeyOf(row), pr);
    FilterAll(Filter(rows, pr), NotKeyOf(row));
  }

  lemma {:induction false} PairAfterInsertAll(rows: seq<PriceRow>, cryptoId: string, productId: int, timeframe: string, pts: seq<PricePoint>)
    requires PairRows(rows, cryptoId, timeframe) == []
    ensures PairRows(InsertAll(rows, cryptoId, productId, timeframe, pts), cryptoId, timeframe) ==
            RowsOf(cryptoId, productId, timeframe, DedupLast(pts))
    decreases |pts|
  {
    if pts != [] {
      var init := pts[..|pts| - 1];
      var p := pts[|pts| - 1];
      var row := RowOf(cryptoId, productId, timeframe, p);
      var before := InsertAll(rows, cryptoId, productId, timeframe, init);
      assert InsertAll(rows, cryptoId, productId, timeframe, pts) == Upsert(before, row);
      PairAfterInsertAll(rows, cryptoId, productId, timeframe, init);
      PairAfterUpsert(before, row);
      assert PairRows(Upsert(before, row), cryptoId, timeframe) ==
             Filter(RowsOf(cryptoId, productId, timeframe, DedupLast(init)), NotKeyOf(row)) + [row];
      RowsOfFilterDate(cryptoId, productId, timeframe, DedupLast(init), p);
      var kept := Filter(DedupLast(init), DateIsNot(p.date));
      assert DedupLast(pts) == kept + [p];
      RowsOfConcat(cryptoId, productId, timeframe, kept, [p]);
    }
  }

  lemma {:induction false} OtherPairAfterInsertAll(rows: seq<PriceRow>, cryptoId: string, productId: int, timeframe: string,
                                                   pts: seq<PricePoint>, otherId: string, otherTf: string)
    requires !(otherId == cryptoId && otherTf == timeframe)
    ensures PairRows(InsertAll(rows, cryptoId, productId, timeframe, pts), otherId, otherTf) == PairRows(rows, otherId, otherTf)
    decreases |pts|
  {
    if pts != [] {
      OtherPairAfterInsertAll(rows, cryptoId, productId, timeframe, pts[..|pts| - 1], otherId, otherTf);
      OtherPairAfterUpsert(InsertAll(rows, cryptoId, productId, timeframe, pts[..|pts| - 1]),
                           RowOf(cryptoId, productId, timeframe, pts[|pts| - 1]), otherId, otherTf);
    }
  }

  lemma DeletePairEmpties(rows: seq<PriceRow>, cryptoId: string, timeframe: string)
    ensures PairRows(DeletePair(rows, cryptoId, timeframe), cryptoId, timeframe) == []
  {
    FilterCommute(rows, NotInPair(cryptoId, timeframe), InPair(cryptoId, timeframe));
    FilterNone(Filter(rows, InPair(cryptoId, timeframe)), NotInPair(cryptoId, timeframe));
  }

  lemma DeletePairKeepsOthers(rows: seq<PriceRow>, cryptoId: string, timeframe: string, otherId: string, otherTf: string)
    requires !(otherId == cryptoId && otherTf == timeframe)
    ensures PairRows(DeletePair(rows, cryptoId, timeframe), otherId, otherTf) == PairRows(rows, otherId, otherTf)
  {
    FilterCommute(rows, NotInPair(cryptoId, timeframe), InPair(otherId, otherTf));
    FilterAll(Filter(rows, InPair(otherId, otherTf)), NotInPair(cryptoId, timeframe));
  }

  /** The SQL write-through replaces the pair's rows by the rows of the
      de-duplicated series: of several points with one date, the last one
      written wins. */
  lemma SqlWriteReplacesPair(s: StoreState, cryptoId: string, productId: int, timeframe: string, pts: seq<PricePoint>, now: int)
    ensures var t := SqlWrite(s, cryptoId, productId, timeframe, pts, now);
      PairRows(t.priceData, cryptoId, timeframe) == RowsOf(cryptoId, productId, timeframe, DedupLast(pts)) &&
      t.metadata[MetaKey(cryptoId, timeframe)] == MetaRow(now, now)
  {
    DeletePairEmpties(s.priceData, cryptoId, timeframe);
    PairAfterInsertAll(DeletePair(s.priceData, cryptoId, timeframe), cryptoId, productId, timeframe, pts);
  }

  /** The SQL write-through leaves every other pair's rows, every other
      metadata row and the key-value tier unchanged. */
  lemma SqlWriteIsolation(s: StoreState, cryptoId: string, productId: int, timeframe: string, pts: seq<PricePoint>, now: int,
                          otherId: string, otherTf: string)
    requires !(otherId == cryptoId && otherTf == timeframe)
    ensures var t := SqlWrite(s, cryptoId, productId, timeframe, pts, now);
      PairRows(t.priceData, otherId, otherTf) == PairRows(s.priceData, otherId, otherTf) &&
      (forall k :: k in s.metadata && k != MetaKey(cryptoId, timeframe) ==> k in t.metadata && t.metadata[k] == s.metadata[k]) &&
      t.kv == s.kv
  {
    var base := DeletePair(s.priceData, cryptoId, timeframe);
    OtherPairAfterInsertAll(base, cryptoId, productId, timeframe, pts, otherId, otherTf);
    DeletePairKeepsOthers(s.priceData, cryptoId, timeframe, otherId, otherTf);
  }

  /** `DedupLast` keeps exactly the points that are last of their date. */
  lemma {:induction false} DedupLastMembers(pts: seq<PricePoint>)
    ensures forall x :: x in DedupLast(pts) <==> exists i :: LastOfDate(pts, i) && pts[i] == x
    decreases |pts|
  {
    if pts != [] {
      var init := pts[..|pts| - 1];
      var p := pts[|pts| - 1];
      DedupLastMembers(init);
      var rest := Filter(DedupLast(init), DateIsNot(p.date));
      assert DedupLast(pts) == rest + [p];
      forall x | x in DedupLast(pts) ensures exists i :: LastOfDate(pts, i) && pts[i] == x {
        if x == p {
          assert LastOfDate(pts, |pts| - 1);
        } else {
          assert x in rest;
          var i :| LastOfDate(init, i) && init[i] == x;
          assert LastOfDate(pts, i);
        }
      }
      forall x | exists i :: LastOfDate(pts, i) && pts[i] == x ensures x in DedupLast(pts) {
        var i :| LastOfDate(pts, i) && pts[i] == x;
        if i < |pts| - 1 {
          assert LastOfDate(init, i) && init[i] == x;
          assert x in rest;
        }
      }
    }
  }

  lemma DedupLastNonEmpty(pts: seq<PricePoint>)
    requires pts != []
    ensures DedupLast(pts) != []
  {
  }

  // ---------------------------------------------------------------------
  // Freshness and round trips

  /** The fast tier serves an entry strictly younger than its maximum age
      (5 minutes for 1D, 30 minutes for 1W); at exactly the maximum age it
      misses. A zero timestamp is falsy and never served. */
  lemma FastFreshnessBoundary(kv: map<string, KvValue>, cryptoId: string, timeframe: string, pts: seq<PricePoint>, t: int)
    requires UsesFastTier(timeframe)
    requires FastKey(cryptoId, timeframe) in kv && kv[FastKey(cryptoId, timeframe)] == KvString(pts)
    requires FastTimestampKey(cryptoId, timeframe) in kv && kv[FastTimestampKey(cryptoId, timeframe)] == KvNumber(t)
    ensures FastMaxAge(timeframe) == if timeframe == "1D" then 300000 else 1800000
    ensures t != 0 ==> FastLookup(kv, cryptoId, timeframe, t + FastMaxAge(timeframe) - 1).Some?
    ensures t != 0 ==> FastLookup(kv, cryptoId, timeframe, t + FastMaxAge(timeframe)) == None
    ensures t == 0 ==> forall now :: FastLookup(kv, cryptoId, timeframe, now) == None
  {
  }

  /** The SQL tier still serves data exactly 30 minutes old and misses one
      millisecond later; a missing metadata row or an empty pair misses. */
  lemma SqlFreshnessBoundary(s: StoreState, cryptoId: string, timeframe: string)
    requires MetaKey(cryptoId, timeframe) in s.metadata
    requires PairRows(s.priceData, cryptoId, timeframe) != []
    ensures var t := s.metadata[MetaKey(cryptoId, timeframe)].value;
      SqlLookup(s, cryptoId, timeframe, t + 1800000).Some? &&
      SqlLookup(s, cryptoId, timeframe, t + 1800000 + 1) == None
  {
    var sorted := SortedPairRows(s.priceData, cryptoId, timeframe);
    assert |sorted| == |PairRows(s.priceData, cryptoId, timeframe)|;
  }

  lemma SqlMisses(s: StoreState, cryptoId: string, timeframe: string, now: int)
    requires MetaKey(cryptoId, timeframe) !in s.metadata || PairRows(s.priceData, cryptoId, timeframe) == []
    ensures SqlLookup(s, cryptoId, timeframe, now) == None
  {
    var sorted := SortedPairRows(s.priceData, cryptoId, timeframe);
    assert |sorted| == |PairRows(s.priceData, cryptoId, timeframe)|;
  }

  /** A hit is flagged for background refresh exactly once it is older than
      half its maximum age: at half it is not, one millisecond later it is. */
  lemma RefreshBoundary(s: StoreState, cryptoId: string, timeframe: string, t: int)
    requires UsesFastTier(timeframe) ==>
      FastKey(cryptoId, timeframe) in s.kv && s.kv[FastKey(cryptoId, timeframe)].KvString? &&
      FastTimestampKey(cryptoId, timeframe) in s.kv && s.kv[FastTimestampKey(cryptoId, timeframe)] == KvNumber(t) && t != 0
    requires !UsesFastTier(timeframe) ==>
      MetaKey(cryptoId, timeframe) in s.metadata && s.metadata[MetaKey(cryptoId, timeframe)].value == t &&
      PairRows(s.priceData, cryptoId, timeframe) != []
    ensures var half := (if UsesFastTier(timeframe) then FastMaxAge(timeframe) else ExtendedCacheDuration) / 2;
      var early := Lookup(s, cryptoId, timeframe, t + half);
      var late := Lookup(s, cryptoId, timeframe, t + half + 1);
      early.Some? && !early.value.needsRefresh && late.Some? && late.value.needsRefresh
  {
    var sorted := SortedPairRows(s.priceData, cryptoId, timeframe);
    assert |sorted| == |PairRows(s.priceData, cryptoId, timeframe)|;
  }

  /** Fast-tier round trip: a series written at `t` comes back unchanged,
      tagged `cache`, while younger than the maximum age. */
  lemma FastRoundTrip(s: StoreState, cryptoId: string, productId: int, timeframe: string, pts: seq<PricePoint>, t: int, now: int)
    requires UsesFastTier(timeframe) && t != 0 && now - t < FastMaxAge(timeframe)
    ensures Lookup(WriteThrough(s, cryptoId, productId, timeframe, pts, t), cryptoId, timeframe, now) ==
            Some(CryptoResult(pts, Cache, NeedsRefresh(now - t, FastMaxAge(timeframe))))
  {
    var key := FastKey(cryptoId, timeframe);
    var tsKey := FastTimestampKey(cryptoId, timeframe);
    assert |key| < |tsKey|;
  }

  /** What a SQL read returns after the series `pts` was written. */
  function ReadBack(cryptoId: string, productId: int, timeframe: string, pts: seq<PricePoint>): seq<PricePoint>
  {
    ProjectRows(SortBy(RowsOf(cryptoId, productId, timeframe, DedupLast(pts)), RowTimestamp))
  }

  /** SQL round trip: a non-empty series written at `t` is served, tagged
      `database`, for up to 30 minutes, as its sorted and de-duplicated usd
      projection. An empty series leaves no rows, so it misses. */
  lemma SqlRoundTrip(s: StoreState, cryptoId: string, productId: int, timeframe: string, pts: seq<PricePoint>, t: int, now: int)
    requires !UsesFastTier(timeframe) && now - t <= ExtendedCacheDuration
    ensures var after := WriteThrough(s, cryptoId, productId, timeframe, pts, t);
      Lookup(after, cryptoId, timeframe, now) ==
        if pts == [] then None
        else Some(CryptoResult(ReadBack(cryptoId, productId, timeframe, pts), Database, NeedsRefresh(now - t, ExtendedCacheDuration)))
  {
    SqlWriteLookup(s, cryptoId, productId, timeframe, pts, t, now);
    if pts != [] {
      DedupLastNonEmpty(pts);
    }
  }

  /** After a SQL write-through at `t`, a read within 30 minutes sees the
      sorted rows of the de-duplicated series, or misses if there are none. */
  lemma SqlWriteLookup(s: StoreState, cryptoId: string, productId: int, timeframe: string, pts: seq<PricePoint>, t: int, now: int)
    requires !UsesFastTier(timeframe) && now - t <= ExtendedCacheDuration
    ensures var sorted := SortBy(RowsOf(cryptoId, productId, timeframe, DedupLast(pts)), RowTimestamp);
      |sorted| == |DedupLast(pts)| &&
      Lookup(WriteThrough(s, cryptoId, productId, timeframe, pts, t), cryptoId, timeframe, now) ==
        if sorted == [] then None
        else Some(CryptoResult(ProjectRows(sorted), Database, NeedsRefresh(now - t, ExtendedCacheDuration)))
  {
    var after := SqlWrite(s, cryptoId, productId, timeframe, pts, t);
    assert WriteThrough(s, cryptoId, productId, timeframe, pts, t) == after;
    SqlWriteReplacesPair(s, cryptoId, productId, timeframe, pts, t);
    SqlLookupOfRows(after, cryptoId, timeframe, t, now, RowsOf(cryptoId, productId, timeframe, DedupLast(pts)));
  }

  /** A SQL read of a pair whose metadata says `t` and whose rows are `rows`. */
  lemma SqlLookupOfRows(a: StoreState, cryptoId: string, timeframe: string, t: int, now: int, rows: seq<PriceRow>)
    requires !UsesFastTier(timeframe) && now - t <= ExtendedCacheDuration
    requires MetaKey(cryptoId, timeframe) in a.metadata && a.metadata[MetaKey(cryptoId, timeframe)].value == t
    requires PairRows(a.priceData, cryptoId, timeframe) == rows
    ensures var sorted := SortBy(rows, RowTimestamp);
      Lookup(a, cryptoId, timeframe, now) ==
        if sorted == [] then None
        else Some(CryptoResult(ProjectRows(sorted), Database, NeedsRefresh(now - t, ExtendedCacheDuration)))
  {
  }

  /** The read-back series has strictly increasing dates and no aed prices. */
  lemma ReadBackOrdered(cryptoId: string, productId: int, timeframe: string, pts: seq<PricePoint>)
    ensures var r := ReadBack(cryptoId, productId, timeframe, pts);
      (forall a, b :: 0 <= a < b < |r| ==> r[a].date < r[b].date) &&
      (forall k :: 0 <= k < |r| ==> r[k].aed == None)
  {
    var rows := InsertAll([], cryptoId, productId, timeframe, pts);
    InsertAllUnique([], cryptoId, productId, timeframe, pts);
    PairAfterInsertAll([], cryptoId, productId, timeframe, pts);
    assert SortedPairRows(rows, cryptoId, timeframe) == SortBy(RowsOf(cryptoId, productId, timeframe, DedupLast(pts)), RowTimestamp);
    SqlReadOrdered(rows, cryptoId, timeframe);
  }

  /** The read-back points are exactly the usd projections of the input
      points that are last of their date. */
  lemma ReadBackMembers(cryptoId: string, productId: int, timeframe: string, pts: seq<PricePoint>)
    ensures var r := ReadBack(cryptoId, productId, timeframe, pts);
      forall x :: x in r <==> exists i :: LastOfDate(pts, i) && x == PricePoint(pts[i].date, pts[i].usd, None)
  {
    var d := DedupLast(pts);
    var r := ReadBack(cryptoId, productId, timeframe, pts);
    var proj := ProjectRows(SortBy(RowsOf(cryptoId, productId, timeframe, d), RowTimestamp));
    assert r == proj;
    SortedRowsProjection(cryptoId, productId, timeframe, d);
    DedupLastMembers(pts);
    forall x | x in r ensures exists i :: LastOfDate(pts, i) && x == PricePoint(pts[i].date, pts[i].usd, None) {
      assert UsdPointOf(x, d);
      var m :| 0 <= m < |d| && x == PricePoint(d[m].date, d[m].usd, None);
      assert d[m] in d;
      var i :| LastOfDate(pts, i) && pts[i] == d[m];
    }
    forall x | exists i :: LastOfDate(pts, i) && x == PricePoint(pts[i].date, pts[i].usd, None) ensures x in r {
      var i :| LastOfDate(pts, i) && x == PricePoint(pts[i].date, pts[i].usd, None);
      assert pts[i] in d;
      var m :| 0 <= m < |d| && d[m] == pts[i];
      assert UsdPointOf(x, d);
    }
  }

  /** `x` is the usd projection of some point of `d`. */
  ghost predicate UsdPointOf(x: PricePoint, d: seq<PricePoint>)
  {
    exists m :: 0 <= m < |d| && x == PricePoint(d[m].date, d[m].usd, None)
  }

  /** Sorting the rows of a series and projecting them back yields the usd
      projections of the series' points, in some order. */
  lemma SortedRowsProjection(cryptoId: string, productId: int, timeframe: string, d: seq<PricePoint>)
    ensures forall x :: x in ProjectRows(SortBy(RowsOf(cryptoId, productId, timeframe, d), RowTimestamp)) <==> UsdPointOf(x, d)
  {
    var rs := RowsOf(cryptoId, productId, timeframe, d);
    var sorted := SortBy(rs, RowTimestamp);
    forall x | x in ProjectRows(sorted) ensures UsdPointOf(x, d) {
      ProjectedFromSeries(rs, sorted, cryptoId, productId, timeframe, d, x);
    }
    forall x | UsdPointOf(x, d) ensures x in ProjectRows(sorted) {
      SeriesProjected(rs, sorted, cryptoId, productId, timeframe, d, x);
    }
  }

  lemma ProjectedFromSeries(rs: seq<PriceRow>, sorted: seq<PriceRow>, cryptoId: string, productId: int, timeframe: string,
                            d: seq<PricePoint>, x: PricePoint)
    requires rs == RowsOf(cryptoId, productId, timeframe, d) && multiset(sorted) == multiset(rs)
    requires x in ProjectRows(sorted)
    ensures UsdPointOf(x, d)
  {
    var r := ProjectRows(sorted);
    var k :| 0 <= k < |r| && r[k] == x;
    assert sorted[k] in multiset(rs);
    var m :| 0 <= m < |rs| && rs[m] == sorted[k];
    assert x == PricePoint(d[m].date, d[m].usd, None);
  }

  lemma SeriesProjected(rs: seq<PriceRow>, sorted: seq<PriceRow>, cryptoId: string, productId: int, timeframe: string,
                        d: seq<PricePoint>, x: PricePoint)
    requires rs == RowsOf(cryptoId, productId, timeframe, d) && multiset(sorted) == multiset(rs)
    requires UsdPointOf(x, d)
    ensures x in ProjectRows(sorted)
  {
    var m :| 0 <= m < |d| && x == PricePoint(d[m].date, d[m].usd, None);
    assert rs[m] in multiset(sorted);
    var k :| 0 <= k < |sorted| && sorted[k] == rs[m];
    assert ProjectRows(sorted)[k] == x;
  }

  /** Pruning touches no pair outside 1D and 1W. */
  lemma OptimizeKeepsSqlPairs(rows: seq<PriceRow>, now: int, cryptoId: string, timeframe: string)
    requires !UsesFastTier(timeframe)
    ensures PairRows(Filter(Filter(rows, Keep1D(now)), Keep1W(now)), cryptoId, timeframe) == PairRows(rows, cryptoId, timeframe)
  {
    var pr := InPair(cryptoId, timeframe);
    var r1 := Filter(rows, Keep1D(now));
    FilterCommute(r1, Keep1W(now), pr);
    FilterCommute(rows, Keep1D(now), pr);
    FilterAll(Filter(rows, pr), Keep1D(now));
    FilterAll(Filter(rows, pr), Keep1W(now));
  }

  lemma SqlLookupCongruence(s1: StoreState, s2: StoreState, cryptoId: string, timeframe: string, now: int)
    requires SortedPairRows(s1.priceData, cryptoId, timeframe) == SortedPairRows(s2.priceData, cryptoId, timeframe)
    requires MetaKey(cryptoId, timeframe) in s1.metadata <==> MetaKey(cryptoId, timeframe) in s2.metadata
    requires MetaKey(cryptoId, timeframe) in s1.metadata ==>
      s1.metadata[MetaKey(cryptoId, timeframe)].value == s2.metadata[MetaKey(cryptoId, timeframe)].value
    ensures SqlLookup(s1, cryptoId, timeframe, now) == SqlLookup(s2, cryptoId, timeframe, now)
  {
  }

  /** `optimizeStorage` never changes what a lookup at the same or a later
      time serves: it removes only 1D/1W rows, which the SQL tier never
      serves, and metadata more than a day old, which is already stale. */
  lemma OptimizePreservesLookups(s: StoreState, now: int, later: int, cryptoId: string, timeframe: string)
    requires StateValid(s) && now <= later
    ensures Lookup(Optimize(s, now), cryptoId, timeframe, later) == Lookup(s, cryptoId, timeframe, later)
  {
    var t := Optimize(s, now);
    if !UsesFastTier(timeframe) {
      OptimizeKeepsSqlPairs(s.priceData, now, cryptoId, timeframe);
      var key := MetaKey(cryptoId, timeframe);
      if key in s.metadata && key !in t.metadata {
        assert s.metadata[key].value < now - OneDay;
        assert SqlLookup(s, cryptoId, timeframe, later) == None;
        assert SqlLookup(t, cryptoId, timeframe, later) == None;
      } else {
        SqlLookupCongruence(t, s, cryptoId, timeframe, later);
      }
    } else {
      assert t.kv == s.kv;
    }
  }

  /** `optimizeStorage` as called, on either draw, keeps every lookup at
      `now` or later: with `VACUUM` nothing changes, without it the pruning
      serves the same answers. */
  lemma OptimizeCallPreservesLookups(s: StoreState, now: int, vacuum: bool, later: int, cryptoId: string, timeframe: string)
    requires StateValid(s) && now <= later
    ensures Lookup(OptimizeCall(s, now, vacuum), cryptoId, timeframe, later) == Lookup(s, cryptoId, timeframe, later)
  {
    if !vacuum {
      OptimizePreservesLookups(s, now, later, cryptoId, timeframe);
    }
  }

  /** After `clearStorage` no short-timeframe lookup hits, while the SQL
      tier answers every lookup as it did before. */
  lemma ClearedLookups(s: StoreState, cryptoId: string, timeframe: string, now: int)
    ensures UsesFastTier(timeframe) ==> Lookup(Cleared(s), cryptoId, timeframe, now) == None
    ensures !UsesFastTier(timeframe) ==> Lookup(Cleared(s), cryptoId, timeframe, now) == Lookup(s, cryptoId, timeframe, now)
  {
  }

  /** A SQL read that rejects is a miss: the call goes on exactly as it
      would over empty tables. */
  lemma FailedSqlReadIsMiss(s: StoreState, cryptoId: string, timeframe: string, now: int, io: SqlIo,
                            fetched: Result<seq<PricePoint>>)
    requires !UsesFastTier(timeframe) && !io.readOk
    ensures Outcome(s, cryptoId, timeframe, now, io, fetched) == Outcome(Empty(), cryptoId, timeframe, now, io.(readOk := true), fetched)
    ensures fetched.Ok? && io.writeError.None? ==> Outcome(s, cryptoId, timeframe, now, io, fetched) == Ok(CryptoResult(fetched.value, Api, false))
  {
  }

  /** A miss whose write-through is rejected rejects the call with the
      insert's error, even though the fetch succeeded; a short timeframe's
      write cannot fail. */
  lemma RejectedWriteRejects(s: StoreState, cryptoId: string, timeframe: string, now: int, io: SqlIo, pts: seq<PricePoint>)
    requires TierAnswer(s, cryptoId, timeframe, now, io) == None
    ensures !UsesFastTier(timeframe) && io.writeError.Some? ==> Outcome(s, cryptoId, timeframe, now, io, Ok(pts)) == Err(io.writeError.value)
    ensures UsesFastTier(timeframe) || io.writeError.None? ==> Outcome(s, cryptoId, timeframe, now, io, Ok(pts)) == Ok(CryptoResult(pts, Api, false))
  {
  }
}
