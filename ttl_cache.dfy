/**
 * The in-memory TTL cache of the reporting backend: a string-keyed map of entries, each holding
 * a value and the instant it expires. Time is an abstract integer clock passed to every call
 * that reads it; locking and the ticker that drives the sweep are outside the model.
 */
module TtlCache {
  import opened Wrappers

  datatype Entry<V> = Entry(data: V, expiresAt: int)

  /** `now.After(entry.ExpiresAt)`: an entry is expired strictly after its expiry instant. */
  predicate Expired<V>(e: Entry<V>, now: int) {
    now > e.expiresAt
  }

  /** What `Get(key)` at time `now` reports for a given entries map. */
  function Lookup<V>(entries: map<string, Entry<V>>, key: string, now: int): (r: Option<V>)
    ensures r.Some? <==> key in entries && !Expired(entries[key], now)
    ensures r.Some? ==> r.value == entries[key].data
  {
    if key !in entries then None
    else if now > entries[key].expiresAt then None
    else Some(entries[key].data)
  }

  /** The entries a sweep at time `now` keeps. */
  function Swept<V>(entries: map<string, Entry<V>>, now: int): (kept: map<string, Entry<V>>)
    ensures forall k :: k in kept <==> k in entries && !Expired(entries[k], now)
    ensures forall k :: k in kept ==> kept[k] == entries[k]
  {
    map k | k in entries && !Expired(entries[k], now) :: entries[k]
  }

  class Cache<V> {
    var entries: map<string, Entry<V>>
    const ttl: int

    /** `New(ttl)`: an empty cache. */
    constructor (ttl: int)
      ensures entries == map[] && this.ttl == ttl
    {
      entries := map[];
      this.ttl := ttl;
    }

    /** `Set`: store value under key, expiring `ttl` after now; any old entry is replaced. */
    method Set(key: string, value: V, now: int)
      modifies this
      ensures entries == old(entries)[key := Entry(value, now + ttl)]
    {
      entries := entries[key := Entry(value, now + ttl)];
    }

    /** `Get`: the stored value unless it is absent or expired; the entries are not touched. */
    method Get(key: string, now: int) returns (r: Option<V>)
      ensures r == Lookup(entries, key, now)
    {
      if key !in entries {
        return None;
      }
      var entry := entries[key];
      if now > entry.expiresAt {
        return None;
      }
      return Some(entry.data);
    }

    /** `Delete`: remove key; nothing happens when it is absent. */
    method Delete(key: string)
      modifies this
      ensures entries == old(entries) - {key}
    {
      entries := entries - {key};
    }

    /** `Clear`: drop every entry. */
    method Clear()
      modifies this
      ensures entries == map[]
    {
      entries := map[];
    }

    /** One round of the periodic cleanup: delete every entry expired at time now. */
    method Sweep(now: int)
      modifies this
      ensures entries == Swept(old(entries), now)
    {
      var pending := entries.Keys;
      while pending != {}
        invariant pending <= old(entries).Keys
        invariant forall k :: k in entries <==> k in old(entries) && (k in pending || !Expired(old(entries)[k], now))
        invariant forall k :: k in entries ==> entries[k] == old(entries)[k]
        decreases pending
      {
        var key :| key in pending;
        if now > entries[key].expiresAt {
          entries := entries - {key};
        }
        pending := pending - {key};
      }
    }
  }

  /** After `Set(k, v)` at time t, `Get(k)` hits exactly up to and including t + ttl. */
  lemma LookupAfterSet<V>(entries: map<string, Entry<V>>, key: string, value: V, t: int, ttl: int, now: int)
    ensures now <= t + ttl ==> Lookup(entries[key := Entry(value, t + ttl)], key, now) == Some(value)
    ensures now > t + ttl ==> Lookup(entries[key := Entry(value, t + ttl)], key, now) == None
  {
  }

  /** `Set` on one key does not change what `Get` reports for any other key. */
  lemma LookupAfterSetOther<V>(entries: map<string, Entry<V>>, key: string, other: string, value: V, t: int, ttl: int, now: int)
    requires other != key
    ensures Lookup(entries[key := Entry(value, t + ttl)], other, now) == Lookup(entries, other, now)
  {
  }

  /** After `Delete(k)`, `Get(k)` misses and every other key reads as before. */
  lemma LookupAfterDelete<V>(entries: map<string, Entry<V>>, key: string, other: string, now: int)
    ensures Lookup(entries - {key}, key, now) == None
    ensures other != key ==> Lookup(entries - {key}, other, now) == Lookup(entries, other, now)
  {
  }

  /** After `Clear` (or on a new cache) every `Get` misses. */
  lemma LookupEmpty<V>(entries: map<string, Entry<V>>, key: string, now: int)
    requires entries == map[]
    ensures Lookup(entries, key, now) == None
  {
  }

  /** A sweep at time t is unobservable: at every time from t on, `Get` reports the same as before. */
  lemma SweepUnobservable<V>(entries: map<string, Entry<V>>, t: int, now: int, key: string)
    requires t <= now
    ensures Lookup(Swept(entries, t), key, now) == Lookup(entries, key, now)
  {
  }

  /** A sweep only forgets entries: the result is a sub-map of the entries it started from. */
  lemma SweptShrinks<V>(entries: map<string, Entry<V>>, now: int)
    ensures Swept(entries, now).Keys <= entries.Keys
    ensures Swept(Swept(entries, now), now) == Swept(entries, now)
  {
  }
}
