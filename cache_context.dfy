/** The in-memory cache `CacheProvider` keeps in a `Map` held by a ref: each
    entry carries its own expiry, checked lazily by `getCache`. */
module CacheContext {
  import opened Common

  /** Five minutes, in milliseconds: the time to live when none is given. */
  const DEFAULT_TTL: int := 5 * 60 * 1000

  datatype Entry = Entry(data: Json, expiry: int)

  /** `ttlMs = 5 * 60 * 1000`: the default applies when the argument is left out. */
  function TtlOrDefault(ttl: Option<int>): int
  {
    if ttl.Some? then ttl.value else DEFAULT_TTL
  }

  /** What `getCache(key)` returns at time `now` (`None` stands for `null`). */
  function CacheLookup(m: map<string, Entry>, key: string, now: int): Option<Json>
  {
    if key !in m then None
    else if now > m[key].expiry then None
    else Some(m[key].data)
  }

  /** The map after `getCache(key)` at time `now`: an expired entry is deleted. */
  function AfterGetCache(m: map<string, Entry>, key: string, now: int): map<string, Entry>
  {
    if key in m && now > m[key].expiry then m - {key} else m
  }

  /** The map after `setCache(key, data, ttl)` at time `now`. */
  function AfterSetCache(m: map<string, Entry>, key: string, data: Json, ttl: Option<int>, now: int): map<string, Entry>
  {
    m[key := Entry(data, now + TtlOrDefault(ttl))]
  }

  /** `if (key)`: `clearCache()` and `clearCache('')` clear everything. */
  function AfterClearCache(m: map<string, Entry>, key: Option<string>): map<string, Entry>
  {
    if key.Some? && key.value != "" then m - {key.value} else map[]
  }

  class CacheProvider {
    var entries: map<string, Entry>

    /** `useRef(new Map())`. */
    constructor ()
      ensures entries == map[]
    {
      entries := map[];
    }

    method SetCache(key: string, data: Json, ttl: Option<int>, now: int)
      modifies this
      ensures entries == AfterSetCache(old(entries), key, data, ttl, now)
    {
      entries := entries[key := Entry(data, now + TtlOrDefault(ttl))];
    }

    method GetCache(key: string, now: int) returns (r: Option<Json>)
      modifies this
      ensures r == CacheLookup(old(entries), key, now)
      ensures entries == AfterGetCache(old(entries), key, now)
    {
      if key !in entries {
        return None;
      }
      var cached := entries[key];
      if now > cached.expiry {
        entries := entries - {key};
        return None;
      }
      r := Some(cached.data);
    }

    method ClearCache(key: Option<string>)
      modifies this
      ensures entries == AfterClearCache(old(entries), key)
    {
      if key.Some? && key.value != "" {
        entries := entries - {key.value};
      } else {
        entries := map[];
      }
    }
  }

  // ---- Properties of the cache ----

  /** `setCache` stores the data with expiry `now + ttl` (five minutes when
      no ttl is given), replacing any entry for the key and keeping every
      other key as it was. */
  lemma SetCacheReplaces(m: map<string, Entry>, key: string, data: Json, ttl: Option<int>, now: int, other: string)
    requires other != key
    ensures AfterSetCache(m, key, data, ttl, now)[key] == Entry(data, now + (if ttl.None? then 300000 else ttl.value))
    ensures other in AfterSetCache(m, key, data, ttl, now) <==> other in m
    ensures other in m ==> AfterSetCache(m, key, data, ttl, now)[other] == m[other]
  {
  }

  /** An absent key reads as `null` and changes nothing. */
  lemma GetAbsent(m: map<string, Entry>, key: string, now: int)
    requires key !in m
    ensures CacheLookup(m, key, now) == None && AfterGetCache(m, key, now) == m
  {
  }

  /** Past its expiry an entry reads as `null` and is deleted; up to and
      including its expiry it reads as its data and nothing changes. */
  lemma GetExpiry(m: map<string, Entry>, key: string, now: int)
    requires key in m
    ensures now > m[key].expiry ==> CacheLookup(m, key, now) == None && AfterGetCache(m, key, now) == m - {key}
    ensures now <= m[key].expiry ==> CacheLookup(m, key, now) == Some(m[key].data) && AfterGetCache(m, key, now) == m
  {
  }

  /** Set then get: within the time to live the data comes back; with a
      time to live of 0 a read at the same instant is still a hit. */
  lemma SetThenGetCache(m: map<string, Entry>, key: string, data: Json, ttl: Option<int>, now: int, later: int)
    requires later <= now + TtlOrDefault(ttl)
    ensures CacheLookup(AfterSetCache(m, key, data, ttl, now), key, later) == Some(data)
    ensures CacheLookup(AfterSetCache(m, key, data, Some(0), now), key, now) == Some(data)
  {
  }

  /** A truthy key deletes only that entry (nothing when it is absent); no
      key, or the empty key, empties the map. */
  lemma ClearCacheEffect(m: map<string, Entry>, key: Option<string>, other: string)
    ensures key.None? || key == Some("") ==> AfterClearCache(m, key) == map[]
    ensures key.Some? && key.value != "" && key.value !in m ==> AfterClearCache(m, key) == m
    ensures key.Some? && key.value != "" ==> key.value !in AfterClearCache(m, key)
    ensures key.Some? && key.value != "" && other != key.value && other in m ==>
      other in AfterClearCache(m, key) && AfterClearCache(m, key)[other] == m[other]
  {
  }
}
