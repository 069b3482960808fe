/** The home screen's offline copy of the coin list: one AsyncStorage key
    holding the last fetched coins and when they were fetched, served for
    five minutes. */
module OfflineStorage {
  import opened Wrappers
  import opened Coins

  const PersistenceKey := "CACHED_CRYPTO_DATA"
  const CacheExpiration: int := 300000

  datatype CachedData = CachedData(allCoins: seq<Coin>, timestamp: int, nextPageParam: Option<int>)

  /** What the key holds: a record written by `persistDataToStorage`, or a
      string `JSON.parse` rejects. */
  datatype Stored = Record(data: CachedData) | Unparseable

  /** `loadCachedData`: the record while it is younger than five minutes;
      `null` for a missing key, an expired record, a failed read or a parse
      error. `ioOk` is whether the storage read succeeds. */
  function LoadSpec(slot: Option<Stored>, now: int, ioOk: bool): Option<CachedData>
  {
    if !ioOk then None
    else match slot
      case Some(Record(d)) => if now - d.timestamp < CacheExpiration then Some(d) else None
      case _ => None
  }

  /** `getLastFetchTimestamp`: the stored timestamp, expired or not. */
  function TimestampSpec(slot: Option<Stored>, ioOk: bool): Option<int>
  {
    if !ioOk then None
    else match slot
      case Some(Record(d)) => Some(d.timestamp)
      case _ => None
  }

  class OfflineStore {
    /** The value under `PersistenceKey`, if any. */
    var slot: Option<Stored>

    constructor (initial: Option<Stored>)
      ensures slot == initial
    {
      slot := initial;
    }

    /** `persistDataToStorage(data, nextPageParam)` at time `now`; a failed
        write is caught and leaves the key as it was. */
    method Persist(data: seq<Coin>, nextPageParam: Option<int>, now: int, ioOk: bool)
      modifies this
      ensures slot == if ioOk then Some(Record(CachedData(data, now, nextPageParam))) else old(slot)
    {
      if ioOk {
        slot := Some(Record(CachedData(data, now, nextPageParam)));
      }
    }

    method Load(now: int, ioOk: bool) returns (r: Option<CachedData>)
      ensures r == LoadSpec(slot, now, ioOk)
    {
      r := None;
      if ioOk && slot.Some? && slot.value.Record? {
        var d := slot.value.data;
        if now - d.timestamp < CacheExpiration {
          r := Some(d);
        }
      }
    }

    /** `clearCachedData`; a failed removal is caught. */
    method Clear(ioOk: bool)
      modifies this
      ensures slot == if ioOk then None else old(slot)
    {
      if ioOk {
        slot := None;
      }
    }

    method GetLastFetchTimestamp(ioOk: bool) returns (r: Option<int>)
      ensures r == TimestampSpec(slot, ioOk)
    {
      r := None;
      if ioOk && slot.Some? && slot.value.Record? {
        r := Some(slot.value.data.timestamp);
      }
    }
  }

  /** A record written at `t` loads back unchanged exactly while `now - t`
      is under five minutes; at five minutes it is gone. */
  lemma PersistThenLoad(data: seq<Coin>, npp: Option<int>, t: int, now: int)
    ensures var slot := Some(Record(CachedData(data, t, npp)));
      (LoadSpec(slot, now, true) == Some(CachedData(data, t, npp)) <==> now - t < CacheExpiration) &&
      (LoadSpec(slot, now, true).None? <==> now - t >= CacheExpiration) &&
      TimestampSpec(slot, true) == Some(t)
  {
  }

  /** An expired record no longer loads, but its timestamp is still reported. */
  lemma TimestampOutlivesRecord(slot: Option<Stored>, now: int)
    requires slot.Some? && slot.value.Record? && now - slot.value.data.timestamp >= CacheExpiration
    ensures LoadSpec(slot, now, true).None?
    ensures TimestampSpec(slot, true) == Some(slot.value.data.timestamp)
  {
  }

  /** Whatever was stored, a missing key, an unparseable value or a failed
      read loads nothing and reports no timestamp; so after a successful
      clear both readers return `null`. */
  lemma NothingToRead(slot: Option<Stored>, now: int, ioOk: bool)
    requires slot.None? || slot.value.Unparseable? || !ioOk
    ensures LoadSpec(slot, now, ioOk).None? && TimestampSpec(slot, ioOk).None?
  {
  }

  /** A record loads only if a timestamp is reported for it, and it is that
      record's own. */
  lemma LoadImpliesTimestamp(slot: Option<Stored>, now: int, ioOk: bool)
    ensures LoadSpec(slot, now, ioOk).Some? ==>
      TimestampSpec(slot, ioOk) == Some(LoadSpec(slot, now, ioOk).value.timestamp) &&
      now - LoadSpec(slot, now, ioOk).value.timestamp < CacheExpiration
  {
  }
}
