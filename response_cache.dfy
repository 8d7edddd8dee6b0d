/**
 * The process-wide response cache (`apiCache`, `cacheGet`, `cacheSet` in
 * server/index.js): a map from key to value and absolute expiry instant,
 * with lazy eviction of stale entries on read. Time is an integer number of
 * milliseconds passed in by the caller.
 */
module ResponseCache {
  import opened JsValues

  datatype Entry = Entry(value: Js, expiresAt: int)

  /** An entry is served only while its expiry lies strictly in the future. */
  predicate Live(m: map<string, Entry>, key: string, now: int) {
    key in m && m[key].expiresAt > now
  }

  /** What a read returns; undefined stands for a miss. */
  function Lookup(enabled: bool, m: map<string, Entry>, key: string, now: int): (r: Js)
    ensures !enabled || key !in m || m[key].expiresAt <= now ==> r == Undefined
    ensures enabled && key in m && m[key].expiresAt > now ==> r == m[key].value
  {
    if enabled && Live(m, key, now) then m[key].value else Undefined
  }

  /** The entries after a read: a stale entry for the key is deleted. */
  function AfterLookup(enabled: bool, m: map<string, Entry>, key: string, now: int): (e: map<string, Entry>)
    ensures e.Keys <= m.Keys && m.Keys - e.Keys <= {key}
    ensures forall k | k in e :: e[k] == m[k]
    ensures enabled && key in e ==> Live(e, key, now)
    ensures !enabled || Live(m, key, now) ==> e == m
  {
    if enabled && key in m && !Live(m, key, now) then m - {key} else m
  }

  /** The entries after a write: the key is overwritten with a new expiry. */
  function Store(enabled: bool, m: map<string, Entry>, key: string, value: Js, ttl: int, now: int): (e: map<string, Entry>)
    ensures enabled ==> e.Keys == m.Keys + {key} && e[key] == Entry(value, now + ttl)
    ensures forall k | k in m && k != key :: k in e && e[k] == m[k]
    ensures !enabled ==> e == m
  {
    if enabled then m[key := Entry(value, now + ttl)] else m
  }

  class Cache {
    /** `ENABLE_CACHE`: false under test and when configured off. */
    const enabled: bool
    var entries: map<string, Entry>

    constructor (enabled: bool)
      ensures this.enabled == enabled && entries == map[]
    {
      this.enabled := enabled;
      entries := map[];
    }

    method Get(key: string, now: int) returns (value: Js)
      modifies this
      ensures value == Lookup(enabled, old(entries), key, now)
      ensures entries == AfterLookup(enabled, old(entries), key, now)
    {
      if !enabled {
        return Undefined;
      }
      if key !in entries {
        return Undefined;
      }
      var entry := entries[key];
      if entry.expiresAt > now {
        return entry.value;
      }
      entries := entries - {key};
      return Undefined;
    }

    method Set(key: string, value: Js, ttl: int, now: int)
      modifies this
      ensures entries == Store(enabled, old(entries), key, value, ttl, now)
    {
      if !enabled {
        return;
      }
      entries := entries[key := Entry(value, now + ttl)];
    }
  }

  /** A value written at t0 with time-to-live ttl is read back exactly while t < t0 + ttl. */
  lemma ReadAfterWrite(m: map<string, Entry>, key: string, value: Js, ttl: int, t0: int, t: int)
    ensures var w := Store(true, m, key, value, ttl, t0);
      Lookup(true, w, key, t) == (if t < t0 + ttl then value else Undefined)
  {
  }

  /** A read at or after t0 + ttl removes the key, and nothing else. */
  lemma ExpiredReadEvicts(m: map<string, Entry>, key: string, value: Js, ttl: int, t0: int, t: int)
    requires t >= t0 + ttl
    ensures var w := Store(true, m, key, value, ttl, t0);
      AfterLookup(true, w, key, t) == w - {key} && key !in AfterLookup(true, w, key, t)
  {
  }

  /** A read before expiry leaves the entries as they were. */
  lemma LiveReadKeepsEntries(m: map<string, Entry>, key: string, now: int)
    requires Live(m, key, now)
    ensures AfterLookup(true, m, key, now) == m
  {
  }

  /** A write replaces whatever an earlier write put under the same key. */
  lemma WriteOverwrites(m: map<string, Entry>, key: string, v1: Js, v2: Js, ttl1: int, ttl2: int, t1: int, t2: int)
    ensures Store(true, Store(true, m, key, v1, ttl1, t1), key, v2, ttl2, t2) == Store(true, m, key, v2, ttl2, t2)
  {
  }

  /** Reads and writes of one key never disturb the entries of another. */
  lemma OtherKeysUntouched(enabled: bool, m: map<string, Entry>, key: string, other: string, value: Js, ttl: int, now: int)
    requires other != key
    ensures other in AfterLookup(enabled, m, key, now) <==> other in m
    ensures other in m ==> AfterLookup(enabled, m, key, now)[other] == m[other]
    ensures other in Store(enabled, m, key, value, ttl, now) <==> other in m
    ensures other in m ==> Store(enabled, m, key, value, ttl, now)[other] == m[other]
  {
  }

  /** With the cache disabled every read misses and no operation changes the entries. */
  lemma DisabledCacheIsInert(m: map<string, Entry>, key: string, value: Js, ttl: int, now: int)
    ensures Lookup(false, m, key, now) == Undefined
    ensures AfterLookup(false, m, key, now) == m
    ensures Store(false, m, key, value, ttl, now) == m
  {
  }

  /**
   * Two reads of a key within the time-to-live of one write both hit: the
   * second read sees the same value, because the first one evicts nothing.
   */
  lemma RepeatedReadsHit(m: map<string, Entry>, key: string, value: Js, ttl: int, t0: int, t1: int, t2: int)
    requires t0 <= t1 <= t2 < t0 + ttl
    ensures var w := Store(true, m, key, value, ttl, t0);
      var w1 := AfterLookup(true, w, key, t1);
      Lookup(true, w, key, t1) == value && w1 == w && Lookup(true, w1, key, t2) == value
  {
  }
}
