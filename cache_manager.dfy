/** The sessionStorage-backed cache of the admin service (`cacheManager`):
    records stamped with the time they were written, a ten-minute time to
    live checked lazily on read, and invalidation by substring match over
    every stored key that carries the cache prefix. */
module CacheManager {
  import opened Common
  import opened Text

  /** Namespace of every key the cache writes into sessionStorage. */
  const CACHE_PREFIX: string := "jivit_cache_"

  /** Ten minutes, in milliseconds. */
  const CACHE_TTL: int := 10 * 60 * 1000

  /** What sessionStorage holds under a key: a record written by `set`, or
      any other text (written by someone else, or corrupt), which
      `JSON.parse` cannot turn into a record. */
  datatype Item = Record(value: Json, timestamp: int) | Unreadable

  /** The whole of sessionStorage, including keys the cache does not own. */
  type Storage = map<string, Item>

  function StorageKey(key: string): string
  {
    CACHE_PREFIX + key
  }

  /** What `get(key)` returns at time `now` (`None` stands for `null`). */
  function Lookup(s: Storage, key: string, now: int): Option<Json>
  {
    var k := StorageKey(key);
    if k !in s then None
    else match s[k]
      case Unreadable => None
      case Record(v, t) => if now - t > CACHE_TTL then None else Some(v)
  }

  /** The storage after `get(key)` at time `now`: a stale record is removed. */
  function AfterGet(s: Storage, key: string, now: int): Storage
  {
    var k := StorageKey(key);
    if k in s && s[k].Record? && now - s[k].timestamp > CACHE_TTL then s - {k} else s
  }

  /** The storage after `set(key, value)` at time `now`; `written` is false
      when sessionStorage refused the write (quota exceeded), an error the
      cache swallows. */
  function AfterSet(s: Storage, key: string, value: Json, now: int, written: bool): Storage
  {
    if written then s[StorageKey(key) := Record(value, now)] else s
  }

  /** The keys `invalidate(pattern)` removes. */
  predicate Matches(storedKey: string, pattern: string)
  {
    StartsWith(storedKey, CACHE_PREFIX) && Contains(storedKey, pattern)
  }

  /** The storage after `invalidate(pattern)`. */
  function AfterInvalidate(s: Storage, pattern: string): Storage
  {
    map k | k in s && !Matches(k, pattern) :: s[k]
  }

  /** The cache as the browser tab holds it. */
  class SessionCache {
    var storage: Storage

    constructor (initial: Storage)
      ensures storage == initial
    {
      storage := initial;
    }

    /** `cacheManager.get`. */
    method Get(key: string, now: int) returns (r: Option<Json>)
      modifies this
      ensures r == Lookup(old(storage), key, now)
      ensures storage == AfterGet(old(storage), key, now)
    {
      var k := StorageKey(key);
      if k !in storage {
        return None;
      }
      match storage[k]
      case Unreadable =>
        r := None;
      case Record(v, t) =>
        if now - t > CACHE_TTL {
          storage := storage - {k};
          r := None;
        } else {
          r := Some(v);
        }
    }

    /** `cacheManager.set`. */
    method Set(key: string, value: Json, now: int, written: bool)
      modifies this
      ensures storage == AfterSet(old(storage), key, value, now, written)
    {
      if written {
        storage := storage[StorageKey(key) := Record(value, now)];
      }
    }

    /** `cacheManager.invalidate`: walks a snapshot of the stored keys and
        removes every one that matches. */
    method Invalidate(pattern: string)
      modifies this
      ensures storage == AfterInvalidate(old(storage), pattern)
    {
      var pending := storage.Keys;
      while pending != {}
        invariant pending <= old(storage).Keys
        invariant forall k :: k in storage <==> k in old(storage) && (k in pending || !Matches(k, pattern))
        invariant forall k :: k in storage ==> storage[k] == old(storage)[k]
        decreases pending
      {
        var k :| k in pending;
        if StartsWith(k, CACHE_PREFIX) && Contains(k, pattern) {
          storage := storage - {k};
        }
        pending := pending - {k};
      }
      assert storage.Keys == AfterInvalidate(old(storage), pattern).Keys;
    }
  }

  // ---- Properties of the cache ----

  /** Nothing stored under the prefixed key: `get` returns null and changes
      nothing. */
  lemma MissWhenAbsent(s: Storage, key: string, now: int)
    requires StorageKey(key) !in s
    ensures Lookup(s, key, now) == None
    ensures AfterGet(s, key, now) == s
  {
  }

  /** Freshness bound: a record older than the time to live is never
      returned, and reading it removes it and nothing else. */
  lemma StaleIsEvicted(s: Storage, key: string, now: int)
    requires StorageKey(key) in s && s[StorageKey(key)].Record?
    requires now - s[StorageKey(key)].timestamp > CACHE_TTL
    ensures Lookup(s, key, now) == None
    ensures AfterGet(s, key, now) == s - {StorageKey(key)}
  {
  }

  /** Whatever `get` returns is the value of a record that is still within
      its time to live, and a read that returns a value removes nothing. */
  lemma HitIsFresh(s: Storage, key: string, now: int)
    requires Lookup(s, key, now).Some?
    ensures StorageKey(key) in s && s[StorageKey(key)].Record?
    ensures now - s[StorageKey(key)].timestamp <= CACHE_TTL
    ensures Lookup(s, key, now).value == s[StorageKey(key)].value
    ensures AfterGet(s, key, now) == s
  {
  }

  /** After a successful `set(key, v)` at time `t`, `get(key)` returns `v` at
      every time up to and including `t + CACHE_TTL`, and after that never. */
  lemma SetThenGet(s: Storage, key: string, v: Json, t: int, now: int)
    ensures now <= t + CACHE_TTL ==> Lookup(AfterSet(s, key, v, t, true), key, now) == Some(v)
    ensures now > t + CACHE_TTL ==> Lookup(AfterSet(s, key, v, t, true), key, now) == None
  {
  }

  /** The boundary is inclusive: the comparison in `get` is a strict `>`. */
  lemma TtlBoundary(s: Storage, key: string, v: Json, t: int)
    ensures Lookup(AfterSet(s, key, v, t, true), key, t + 600000) == Some(v)
    ensures Lookup(AfterSet(s, key, v, t, true), key, t + 600001) == None
  {
  }

  /** A later `set` on the same key replaces both value and timestamp. */
  lemma SetReplaces(s: Storage, key: string, v1: Json, t1: int, v2: Json, t2: int)
    ensures AfterSet(AfterSet(s, key, v1, t1, true), key, v2, t2, true) == AfterSet(s, key, v2, t2, true)
  {
  }

  /** `set` touches no other stored key, and a refused write changes nothing. */
  lemma SetIsolated(s: Storage, key: string, v: Json, t: int, written: bool, other: string)
    requires other != StorageKey(key)
    ensures other in AfterSet(s, key, v, t, written) <==> other in s
    ensures other in s ==> AfterSet(s, key, v, t, written)[other] == s[other]
    ensures AfterSet(s, key, v, t, false) == s
  {
  }

  /** `invalidate(p)` removes exactly the prefixed keys containing `p` and
      keeps every other entry as it was. */
  lemma InvalidateExact(s: Storage, p: string, k: string)
    ensures k in AfterInvalidate(s, p) <==> k in s && !(StartsWith(k, CACHE_PREFIX) && Contains(k, p))
    ensures k in AfterInvalidate(s, p) ==> AfterInvalidate(s, p)[k] == s[k]
  {
  }

  /** A cache key containing the pattern is gone after the invalidation, so
      the next `get` on it is a miss. */
  lemma InvalidatedKeyMisses(s: Storage, p: string, key: string, now: int)
    requires Contains(key, p)
    ensures StorageKey(key) !in AfterInvalidate(s, p)
    ensures Lookup(AfterInvalidate(s, p), key, now) == None
  {
    var i :| 0 <= i <= |key| - |p| && OccursAt(key, p, i);
    assert OccursAt(StorageKey(key), p, |CACHE_PREFIX| + i) by {
      assert StorageKey(key)[|CACHE_PREFIX| + i..|CACHE_PREFIX| + i + |p|] == key[i..i + |p|];
    }
    assert StartsWith(StorageKey(key), CACHE_PREFIX) by {
      assert StorageKey(key)[..|CACHE_PREFIX|] == CACHE_PREFIX;
    }
  }

  /** Matching is by substring, so invalidating `program_1` also drops the
      cached `program_12`. */
  lemma SubstringOverreach(s: Storage, now: int)
    ensures Lookup(AfterInvalidate(s, "program_1"), "program_12", now) == None
  {
    assert OccursAt("program_12", "program_1", 0);
    InvalidatedKeyMisses(s, "program_1", "program_12", now);
  }
}
