/** The chart screen's in-memory `DataCache`: a JavaScript `Map` bounded to
    `maxSize` entries, evicting in insertion order, whose entries expire five
    minutes after they were written. */
module PriceChartCache {
  import opened Wrappers

  const CacheDuration: int := 5 * 60 * 1000

  /** A stored value and the time it was written. */
  datatype Entry<V> = Entry(value: V, timestamp: int)

  /** The map's contents: its keys in insertion order, and the entries. */
  datatype CacheState<K, V> = CacheState(order: seq<K>, store: map<K, Entry<V>>)

  ghost predicate Distinct<K(!new)>(s: seq<K>)
  {
    forall i, j :: 0 <= i < j < |s| ==> s[i] != s[j]
  }

  /** How many entries `set` can leave behind: `maxSize`, but never fewer
      than the one entry that a `set` on an empty map always adds. */
  function Capacity(maxSize: int): nat
  {
    if maxSize < 1 then 1 else maxSize
  }

  ghost predicate CacheValid<K(!new), V>(c: CacheState<K, V>, maxSize: int)
  {
    Distinct(c.order) && (forall k :: k in c.store <==> k in c.order) && |c.order| <= Capacity(maxSize)
  }

  /** `Map.delete(key)`. */
  function Delete<K(==, !new), V>(c: CacheState<K, V>, key: K): (r: CacheState<K, V>)
    ensures forall k :: k in r.order <==> k in c.order && k != key
    ensures |r.order| <= |c.order|
    ensures Distinct(c.order) ==> Distinct(r.order)
    ensures key in c.order && Distinct(c.order) ==> |r.order| == |c.order| - 1
    decreases |c.order|
  {
    CacheState(RemoveKey(c.order, key), c.store - {key})
  }

  function RemoveKey<K(==, !new)>(s: seq<K>, key: K): (r: seq<K>)
    ensures forall k :: k in r <==> k in s && k != key
    ensures |r| <= |s|
    ensures Distinct(s) ==> Distinct(r)
    ensures key in s && Distinct(s) ==> |r| == |s| - 1
    ensures key !in s ==> r == s
  {
    if s == [] then []
    else
      var rest := RemoveKey(s[1..], key);
      assert s == [s[0]] + s[1..];
      if s[0] == key then
        assert Distinct(s) ==> key !in s[1..] by {
          if Distinct(s) {
            forall i | 0 <= i < |s[1..]| ensures s[1..][i] != key {
              assert s[1..][i] == s[i + 1];
            }
          }
        }
        rest
      else
        var r := [s[0]] + rest;
        assert Distinct(s) ==> Distinct(r) by {
          if Distinct(s) {
            assert Distinct(s[1..]) by {
              forall i, j | 0 <= i < j < |s[1..]| ensures s[1..][i] != s[1..][j] {
                assert s[1..][i] == s[i + 1] && s[1..][j] == s[j + 1];
              }
            }
            forall i, j | 0 <= i < j < |r| ensures r[i] != r[j] {
              if i == 0 {
                assert r[j] in rest;
                assert r[j] in s[1..];
                var m :| 0 <= m < |s[1..]| && s[1..][m] == r[j];
                assert s[m + 1] == r[j];
              } else {
                assert r[i] == rest[i - 1] && r[j] == rest[j - 1];
              }
            }
          }
        }
        r
  }

  /** `Map.set(key, entry)`: an existing key keeps its position. */
  function Put<K(==, !new), V>(c: CacheState<K, V>, key: K, e: Entry<V>): CacheState<K, V>
  {
    if key in c.store then CacheState(c.order, c.store[key := e])
    else CacheState(c.order + [key], c.store[key := e])
  }

  /** `get(key)` at time `now`: the answer and the map afterwards. */
  function GetSpec<K(==, !new), V>(c: CacheState<K, V>, key: K, now: int): (Option<V>, CacheState<K, V>)
  {
    if key !in c.store then (None, c)
    else if now - c.store[key].timestamp > CacheDuration then (None, Delete(c, key))
    else (Some(c.store[key].value), c)
  }

  /** `set(key, value)` at time `now`: evict the first-inserted key when
      full, then write. */
  function SetSpec<K(==, !new), V>(c: CacheState<K, V>, maxSize: int, key: K, value: V, now: int): CacheState<K, V>
  {
    var evicted := if |c.order| >= maxSize && c.order != [] then Delete(c, c.order[0]) else c;
    Put(evicted, key, Entry(value, now))
  }

  class DataCache<K(==, !new), V> {
    const maxSize: int
    var order: seq<K>
    var store: map<K, Entry<V>>

    function State(): CacheState<K, V>
      reads this
    {
      CacheState(order, store)
    }

    ghost predicate Valid()
      reads this
    {
      CacheValid(State(), maxSize)
    }

    constructor (maxSize: int)
      ensures Valid() && this.maxSize == maxSize && State() == CacheState([], map[])
    {
      this.maxSize := maxSize;
      order := [];
      store := map[];
    }

    method Get(key: K, now: int) returns (r: Option<V>)
      requires Valid()
      modifies this
      ensures Valid()
      ensures (r, State()) == GetSpec(old(State()), key, now)
    {
      if key !in store {
        return None;
      }
      var item := store[key];
      if now - item.timestamp > CacheDuration {
        order := RemoveKey(order, key);
        store := store - {key};
        return None;
      }
      return Some(item.value);
    }

    method Set(key: K, value: V, now: int)
      requires Valid()
      modifies this
      ensures Valid()
      ensures State() == SetSpec(old(State()), maxSize, key, value, now)
    {
      SetKeepsValid(State(), maxSize, key, value, now);
      if |order| >= maxSize && order != [] {
        var oldestKey := order[0];
        order := RemoveKey(order, oldestKey);
        store := store - {oldestKey};
      }
      if key in store {
        store := store[key := Entry(value, now)];
      } else {
        order := order + [key];
        store := store[key := Entry(value, now)];
      }
    }
  }

  /** `set` keeps the map within its capacity: at most `maxSize` entries
      (one, if `maxSize` is below one). */
  lemma SetKeepsValid<K(!new), V>(c: CacheState<K, V>, maxSize: int, key: K, value: V, now: int)
    requires CacheValid(c, maxSize)
    ensures CacheValid(SetSpec(c, maxSize, key, value, now), maxSize)
  {
    var evicted := if |c.order| >= maxSize && c.order != [] then Delete(c, c.order[0]) else c;
    assert c.order != [] ==> c.order[0] in c.order;
    if key !in evicted.store {
      var r := evicted.order + [key];
      forall i, j | 0 <= i < j < |r| ensures r[i] != r[j] {
        if j == |r| - 1 {
          assert r[i] == evicted.order[i] && r[i] in evicted.order;
        }
      }
    }
  }

  /** An expired lookup deletes the entry, and only that entry. */
  lemma GetExpiredDeletes<K(!new), V>(c: CacheState<K, V>, maxSize: int, key: K, now: int)
    requires CacheValid(c, maxSize) && key in c.store && now - c.store[key].timestamp > CacheDuration
    ensures var (r, c2) := GetSpec(c, key, now);
      r == None && CacheValid(c2, maxSize) && key !in c2.store &&
      forall k :: k in c.store && k != key ==> k in c2.store && c2.store[k] == c.store[k]
  {
  }

  /** A lookup that hits changes nothing, so reading never refreshes an
      entry's place in the eviction order: the cache is FIFO, not LRU. */
  lemma GetHitKeepsOrder<K(!new), V>(c: CacheState<K, V>, key: K, now: int)
    requires key in c.store && now - c.store[key].timestamp <= CacheDuration
    ensures GetSpec(c, key, now) == (Some(c.store[key].value), c)
  {
  }

  /** A value set at `t` is served by a `get` at any time up to and including
      `t` plus five minutes. */
  lemma SetThenGet<K(!new), V>(c: CacheState<K, V>, maxSize: int, key: K, value: V, t: int, now: int)
    requires now - t <= CacheDuration
    ensures GetSpec(SetSpec(c, maxSize, key, value, t), key, now).0 == Some(value)
    ensures now - t == CacheDuration ==> GetSpec(SetSpec(c, maxSize, key, value, t), key, now + 1).0 == None
  {
  }

  /** A full map evicts its first-inserted key, even when the key being set
      is already present, and keeps every other entry. */
  lemma SetEvictsOldest<K(!new), V>(c: CacheState<K, V>, maxSize: int, key: K, value: V, now: int)
    requires CacheValid(c, maxSize) && |c.order| >= maxSize && c.order != [] && c.order[0] != key
    ensures var c2 := SetSpec(c, maxSize, key, value, now);
      c.order[0] !in c2.store &&
      (forall k :: k in c.store && k != c.order[0] && k != key ==> k in c2.store && c2.store[k] == c.store[k]) &&
      c2.store[key] == Entry(value, now)
  {
    assert c.order[0] in c.order;
  }

  /** Below capacity, setting a key that is present rewrites its entry in
      place: its position in the eviction order does not move. */
  lemma SetExistingKeepsPosition<K(!new), V>(c: CacheState<K, V>, maxSize: int, key: K, value: V, now: int)
    requires key in c.store && |c.order| < maxSize
    ensures SetSpec(c, maxSize, key, value, now).order == c.order
  {
  }

  /** When full, setting the oldest key itself deletes it and writes it
      again at the end of the order. */
  lemma SetOldestMovesToEnd<K(!new), V>(c: CacheState<K, V>, maxSize: int, value: V, now: int)
    requires CacheValid(c, maxSize) && c.order != [] && |c.order| >= maxSize
    ensures var key := c.order[0]; var c2 := SetSpec(c, maxSize, key, value, now);
      c2.order[|c2.order| - 1] == key && |c2.order| == |c.order|
  {
    var key := c.order[0];
    assert key in c.order;
  }
}
