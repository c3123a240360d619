/**
 * The product cache: a time-limited cache kept in the browser's local storage.
 * Every entry lives under the key `"v1:" + key` and records when it was written;
 * an entry read more than thirty minutes after it was written is dropped.
 */
module ProductCache {
  import opened Wrappers
  import opened JsText

  /** How long an entry stays valid, in milliseconds: thirty minutes. */
  const CacheDuration: int := 1000 * 60 * 30
  const CacheVersion: string := "v1"
  /** Every cache key starts with the version and a colon. */
  const Prefix: string := CacheVersion + ":"

  /** What a storage key holds: a cache entry, or text that does not parse as one. */
  datatype Slot<T> = Entry(data: T, timestamp: int) | Unreadable(text: string)

  /** The storage key of the logical key `key`. */
  function StorageKey(key: string): (k: string)
    ensures StartsWith(k, Prefix) && k[|Prefix|..] == key
  {
    Prefix + key
  }

  /** Distinct logical keys never share a storage key. */
  lemma StorageKeyInjective(a: string, b: string)
    requires a != b
    ensures StorageKey(a) != StorageKey(b)
  {
    assert StorageKey(a)[|Prefix|..] == a;
  }

  /** An entry written at `timestamp` is stale at `now`: strictly more than the duration has passed. */
  predicate IsExpired(timestamp: int, now: int) {
    now - timestamp > CacheDuration
  }

  /**
   * An entry is still fresh exactly thirty minutes after it was written and stale
   * one millisecond later; once stale it stays stale.
   */
  lemma ExpiryIsStrict(timestamp: int, now: int, later: int)
    requires now <= later
    ensures !IsExpired(timestamp, timestamp + 1800000)
    ensures IsExpired(timestamp, timestamp + 1800001)
    ensures IsExpired(timestamp, now) ==> IsExpired(timestamp, later)
  {
  }

  /** The local storage as this cache sees it, and whether the code runs on the server. */
  class Cache<T> {
    /** During server-side rendering there is no local storage and every operation does nothing. */
    const onServer: bool
    var storage: map<string, Slot<T>>

    constructor (onServer: bool, storage: map<string, Slot<T>>)
      ensures this.onServer == onServer && this.storage == storage
    {
      this.onServer := onServer;
      this.storage := storage;
    }

    /**
     * `getCachedData(key)` at time `now`: the data of a fresh entry; nothing for a
     * missing, unreadable or stale entry, and a stale entry is removed.
     */
    method GetCachedData(key: string, now: int) returns (r: Option<T>)
      modifies this`storage
      ensures onServer ==> r == None && storage == old(storage)
      ensures !onServer && StorageKey(key) !in old(storage) ==> r == None && storage == old(storage)
      ensures !onServer && StorageKey(key) in old(storage) ==>
        match old(storage)[StorageKey(key)]
        case Unreadable(_) => r == None && storage == old(storage)
        case Entry(data, timestamp) =>
          if IsExpired(timestamp, now) then r == None && storage == old(storage) - {StorageKey(key)}
          else r == Some(data) && storage == old(storage)
    {
      if onServer {
        return None;
      }
      var k := StorageKey(key);
      if k !in storage {
        return None;
      }
      match storage[k]
      case Unreadable(_) =>
        r := None;
      case Entry(data, timestamp) =>
        if IsExpired(timestamp, now) {
          storage := storage - {k};
          r := None;
        } else {
          r := Some(data);
        }
    }

    /**
     * `setCachedData(key, data)` at time `now`: stores `data` stamped with `now`
     * under the key's storage key, replacing what was there. A write the storage
     * refuses (`quotaExceeded`) leaves it as it was.
     */
    method SetCachedData(key: string, data: T, now: int, quotaExceeded: bool)
      modifies this`storage
      ensures storage == if onServer || quotaExceeded then old(storage)
                         else old(storage)[StorageKey(key) := Entry(data, now)]
    {
      if onServer || quotaExceeded {
        return;
      }
      storage := storage[StorageKey(key) := Entry(data, now)];
    }

    /** `clearProductCache()`: removes every key that carries the prefix and nothing else. */
    method ClearProductCache()
      modifies this`storage
      ensures onServer ==> storage == old(storage)
      ensures !onServer ==> forall k :: k in storage <==> k in old(storage) && !StartsWith(k, Prefix)
      ensures forall k :: k in storage ==> storage[k] == old(storage)[k]
    {
      if onServer {
        return;
      }
      var keys := storage.Keys;
      while keys != {}
        invariant keys <= old(storage).Keys
        invariant forall k :: k in storage <==>
          k in old(storage) && (k in keys || !StartsWith(k, Prefix))
        invariant forall k :: k in storage ==> storage[k] == old(storage)[k]
        decreases keys
      {
        var k :| k in keys;
        if StartsWith(k, Prefix) {
          storage := storage - {k};
        }
        keys := keys - {k};
      }
    }
  }

  /** A read no later than thirty minutes after a write returns the written data. */
  method SetThenGet<T>(stored: map<string, Slot<T>>, key: string, data: T, writtenAt: int, readAt: int)
    returns (r: Option<T>)
    requires readAt - writtenAt <= CacheDuration
    ensures r == Some(data)
  {
    var cache := new Cache(false, stored);
    cache.SetCachedData(key, data, writtenAt, false);
    r := cache.GetCachedData(key, readAt);
  }

  /** A read later than thirty minutes after a write returns nothing and removes the entry. */
  method SetThenReadLate<T>(stored: map<string, Slot<T>>, key: string, data: T, writtenAt: int, readAt: int)
    returns (r: Option<T>, left: map<string, Slot<T>>)
    requires readAt - writtenAt > CacheDuration
    ensures r == None
    ensures StorageKey(key) !in left
    ensures forall k :: k != StorageKey(key) ==> (k in left <==> k in stored)
    ensures left == stored - {StorageKey(key)}
  {
    var cache := new Cache(false, stored);
    cache.SetCachedData(key, data, writtenAt, false);
    r := cache.GetCachedData(key, readAt);
    left := cache.storage;
  }

  /** Writing one key leaves what another key reads unchanged. */
  method SetLeavesOtherKeys<T>(stored: map<string, Slot<T>>, key: string, other: string,
                               data: T, writtenAt: int, readAt: int)
    returns (before: Option<T>, after: Option<T>)
    requires key != other
    ensures before == after
  {
    var cache := new Cache(false, stored);
    var probe := new Cache(false, stored);
    before := probe.GetCachedData(other, readAt);
    StorageKeyInjective(key, other);
    cache.SetCachedData(key, data, writtenAt, false);
    after := cache.GetCachedData(other, readAt);
  }

  /** After a bulk clear, every logical key reads as absent. */
  method ClearThenGet<T>(stored: map<string, Slot<T>>, key: string, now: int) returns (r: Option<T>)
    ensures r == None
  {
    var cache := new Cache(false, stored);
    cache.ClearProductCache();
    r := cache.GetCachedData(key, now);
  }
}
