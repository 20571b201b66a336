// The offline cache shared by the screens: a map from keys to entries
// that expire after a number of milliseconds, plus the online flag the
// browser's online/offline events keep up to date. The clock is a
// parameter of each operation; the fetcher is replaced by its outcome.

module OfflineCache {
  import opened Wrappers

  /** Five minutes, the default lifetime of an entry. */
  const DefaultExpiresIn: int := 5 * 60 * 1000

  const NoConnectionMessage := "No internet connection and no cached data available"

  datatype Entry<T> = Entry(data: T, timestamp: int, expiresIn: int)

  /** An entry is still valid while its age does not exceed its lifetime. */
  predicate Valid<T>(e: Entry<T>, now: int)
  {
    now - e.timestamp <= e.expiresIn
  }

  /** What `getCache` returns. */
  function Lookup<T>(entries: map<string, Entry<T>>, key: string, now: int): (r: Option<T>)
    ensures r.Some? <==> key in entries && Valid(entries[key], now)
    ensures r.Some? ==> r.value == entries[key].data
  {
    if key !in entries then None
    else if !Valid(entries[key], now) then None
    else Some(entries[key].data)
  }

  /** The map after `getCache`: an expired entry is deleted. */
  function AfterLookup<T>(entries: map<string, Entry<T>>, key: string, now: int): (r: map<string, Entry<T>>)
    ensures key in r <==> key in entries && Valid(entries[key], now)
    ensures forall k :: k != key ==> (k in r <==> k in entries)
    ensures forall k :: k in r ==> r[k] == entries[k]
  {
    if key in entries && !Valid(entries[key], now) then entries - {key} else entries
  }

  /** `clearCache(key?)`: a truthy key deletes that entry, no key or the
      empty string (which is falsy) empties the cache. */
  function Cleared<T>(entries: map<string, Entry<T>>, key: Option<string>): (r: map<string, Entry<T>>)
    ensures key.Some? && key.value != "" ==>
      key.value !in r && forall k :: k != key.value ==> (k in r <==> k in entries) && (k in r ==> r[k] == entries[k])
    ensures (key.None? || key.value == "") ==> r == map[]
  {
    if key.Some? && key.value != "" then entries - {key.value} else map[]
  }

  /** A value just stored is returned until its lifetime has passed, and
      storing under one key leaves every other key's lookup unchanged. */
  lemma SetThenLookup<T>(entries: map<string, Entry<T>>, key: string, data: T, expiresIn: int, now: int, later: int)
    ensures Lookup(entries[key := Entry(data, now, expiresIn)], key, later) == (if later - now <= expiresIn then Some(data) else None)
    ensures forall k :: k != key ==> Lookup(entries[key := Entry(data, now, expiresIn)], k, later) == Lookup(entries, k, later)
  {
  }

  /** Looking up twice at the same time gives the same answer, and the
      deletion of an expired entry does not change any answer. */
  lemma LookupStable<T>(entries: map<string, Entry<T>>, key: string, now: int)
    ensures Lookup(AfterLookup(entries, key, now), key, now) == Lookup(entries, key, now)
    ensures forall k :: Lookup(AfterLookup(entries, key, now), k, now) == Lookup(entries, k, now)
  {
  }

  /** What `fetchWithCache` resolves to, and whether it called the fetcher. */
  datatype FetchResult<T> = FetchResult(value: Result<T, string>, fetcherCalled: bool)

  class Cache<T> {
    var entries: map<string, Entry<T>>
    var online: bool

    constructor (onlineAtStart: bool)
      ensures entries == map[] && online == onlineAtStart
    {
      entries := map[];
      online := onlineAtStart;
    }

    /** The browser's `online` and `offline` events. */
    method SetOnline(value: bool)
      modifies this
      ensures online == value && entries == old(entries)
    {
      online := value;
    }

    method SetCache(key: string, data: T, expiresIn: int, now: int)
      modifies this
      ensures entries == old(entries)[key := Entry(data, now, expiresIn)]
      ensures online == old(online)
    {
      entries := entries[key := Entry(data, now, expiresIn)];
    }

    method GetCache(key: string, now: int) returns (r: Option<T>)
      modifies this
      ensures r == Lookup(old(entries), key, now)
      ensures entries == AfterLookup(old(entries), key, now)
      ensures online == old(online)
    {
      if key !in entries {
        return None;
      }
      var entry := entries[key];
      var age := now - entry.timestamp;
      if age > entry.expiresIn {
        entries := entries - {key};
        return None;
      }
      return Some(entry.data);
    }

    method ClearCache(key: Option<string>)
      modifies this
      ensures entries == Cleared(old(entries), key)
      ensures online == old(online)
    {
      if key.Some? && key.value != "" {
        entries := entries - {key.value};
      } else {
        entries := map[];
      }
    }

    method HasCache(key: string, now: int) returns (b: bool)
      modifies this
      ensures b <==> Lookup(old(entries), key, now).Some?
      ensures entries == AfterLookup(old(entries), key, now)
      ensures online == old(online)
    {
      var r := GetCache(key, now);
      b := r != None;
    }

    /** `fetchWithCache`. `truthy` is JavaScript truthiness of a cached
        value; `fetched` is what the awaited fetcher settles to; `now` is
        the time of the first lookup, `later` the time after the fetcher
        settles (of the store, or of the lookup after a failure). The refresh started in the
        background when a cached value is served is not awaited, so its
        later store is not part of this call. */
    method FetchWithCache(key: string, fetched: Result<T, string>, truthy: T -> bool,
                          expiresIn: int, forceRefresh: bool, now: int, later: int)
      returns (r: FetchResult<T>)
      modifies this
      ensures online == old(online)
      ensures var c := Lookup(old(entries), key, now);
        var usable := c.Some? && truthy(c.value);
        if !old(online) then
          && entries == AfterLookup(old(entries), key, now)
          && r == FetchResult(if usable then Ok(c.value) else Err(NoConnectionMessage), false)
        else if !forceRefresh && usable then
          && entries == AfterLookup(old(entries), key, now)
          && r == FetchResult(Ok(c.value), true)
        else
          var checked := if forceRefresh then old(entries) else AfterLookup(old(entries), key, now);
          if fetched.Ok? then
            && entries == checked[key := Entry(fetched.value, later, expiresIn)]
            && r == FetchResult(Ok(fetched.value), true)
          else
            var stale := Lookup(checked, key, later);
            && entries == AfterLookup(checked, key, later)
            && r == FetchResult(if stale.Some? && truthy(stale.value) then Ok(stale.value) else Err(fetched.error), true)
    {
      if !online {
        var cached := GetCache(key, now);
        if cached.Some? && truthy(cached.value) {
          return FetchResult(Ok(cached.value), false);
        }
        return FetchResult(Err(NoConnectionMessage), false);
      }
      if !forceRefresh {
        var cached := GetCache(key, now);
        if cached.Some? && truthy(cached.value) {
          return FetchResult(Ok(cached.value), true);
        }
      }
      if fetched.Ok? {
        SetCache(key, fetched.value, expiresIn, later);
        return FetchResult(Ok(fetched.value), true);
      }
      var cached := GetCache(key, later);
      if cached.Some? && truthy(cached.value) {
        return FetchResult(Ok(cached.value), true);
      }
      return FetchResult(Err(fetched.error), true);
    }
  }
}
