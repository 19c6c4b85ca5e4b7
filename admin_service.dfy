/** The admin service's use of the session cache: read-through getters
    (check the cache, on a miss fetch, store, return), mutations that write
    to the backend first and invalidate only after the write succeeded, and
    the fold of settings rows into one object.  The backend is an oracle:
    each getter or mutation is handed the result the awaited query produced. */
module AdminService {
  import opened Common
  import opened Text
  import opened CacheManager

  /** The resource families the service caches. */
  datatype Family = Services | Jobs | Programs | Blogs

  /** `${flag}` for a boolean. */
  function BoolText(b: bool): string
  {
    if b then "true" else "false"
  }

  /** The cache key of a list query (`services_${includeDrafts}`, ...). */
  function ListKey(f: Family, flag: bool): string
  {
    match f
    case Services => "services_" + BoolText(flag)
    case Jobs => "jobs_" + BoolText(flag)
    case Programs => "programs_" + BoolText(flag)
    case Blogs => "blogs_" + BoolText(flag)
  }

  /** The cache key of a single record, by id (by slug for blogs). */
  function DetailKey(f: Family, id: string): string
  {
    match f
    case Services => "service_" + id
    case Jobs => "job_" + id
    case Programs => "program_" + id
    case Blogs => "blog_" + id
  }

  const SETTINGS_KEY: string := "site_settings"

  /** A write against the backend. */
  datatype Mutation =
    | Create(family: Family)
    | Update(family: Family, id: string)
    | SoftDelete(family: Family, id: string)
    | UpdateSetting(key: string)

  /** The patterns a successful mutation passes to `invalidate`, in order. */
  function InvalidationPatterns(m: Mutation): seq<string>
  {
    match m
    case UpdateSetting(_) => [SETTINGS_KEY]
    case Create(f) =>
      (match f
       case Services => ["service"]
       case Jobs => ["job"]
       case Programs => ["programs_true", "programs_false"]
       case Blogs => ["blog"])
    case Update(f, id) =>
      (match f
       case Services => ["service"]
       case Jobs => ["job"]
       case Programs => ["programs_true", "programs_false", "program_" + id]
       case Blogs => ["blog"])
    case SoftDelete(f, id) =>
      (match f
       case Services => ["service"]
       case Jobs => ["job"]
       case Programs => ["programs_true", "programs_false", "program_" + id]
       case Blogs => ["blog"])
  }

  /** The storage after invalidating each pattern in turn. */
  function AfterInvalidateAll(s: Storage, patterns: seq<string>): Storage
  {
    if patterns == [] then s
    else AfterInvalidate(AfterInvalidateAll(s, patterns[..|patterns| - 1]), patterns[|patterns| - 1])
  }

  /** The storage after a mutation whose backend write produced `outcome`. */
  function AfterMutation(s: Storage, m: Mutation, outcome: Result<Json>): Storage
  {
    if outcome.Err? then s else AfterInvalidateAll(s, InvalidationPatterns(m))
  }

  /** `if (cached) return cached;`: a read is served from the cache when
      `get` returns a truthy value. */
  predicate IsHit(s: Storage, key: string, now: int)
  {
    Lookup(s, key, now).Some? && Truthy(Lookup(s, key, now).value)
  }

  /** A settings row of the `site_settings` table. */
  datatype SettingRow = SettingRow(key: string, value: Json)

  /** `data.reduce((acc, curr) => { acc[curr.key] = curr.value; ... }, {})`. */
  function FoldSettings(rows: seq<SettingRow>): map<string, Json>
  {
    if rows == [] then map[]
    else FoldSettings(rows[..|rows| - 1])[rows[|rows| - 1].key := rows[|rows| - 1].value]
  }

  // ---- The getters and mutations ----

  /** The read-through pattern every cached getter follows.  `fetched` is
      what the backend query would produce; it is consulted only on a miss
      (`queried`).  `storedAt` is the clock when the awaited query returns
      and `set` runs; `written` says whether sessionStorage took the write. */
  method ReadThrough(cache: SessionCache, key: string, now: int, fetched: Result<Json>, storedAt: int, written: bool)
    returns (r: Result<Json>, queried: bool)
    modifies cache
    ensures queried == !IsHit(old(cache.storage), key, now)
    ensures !queried ==> r == Ok(Lookup(old(cache.storage), key, now).value) && cache.storage == old(cache.storage)
    ensures queried ==> r == fetched
    ensures queried && fetched.Err? ==> cache.storage == AfterGet(old(cache.storage), key, now)
    ensures queried && fetched.Ok? ==>
      cache.storage == AfterSet(AfterGet(old(cache.storage), key, now), key, fetched.value, storedAt, written)
  {
    var cached := cache.Get(key, now);
    if cached.Some? && Truthy(cached.value) {
      HitIsFresh(old(cache.storage), key, now);
      return Ok(cached.value), false;
    }
    queried := true;
    if fetched.Err? {
      return fetched, queried;
    }
    cache.Set(key, fetched.value, storedAt, written);
    r := fetched;
  }

  /** `getServices`, `getJobOpenings`, `getStudentPrograms`, `getBlogs`. */
  method GetList(cache: SessionCache, f: Family, flag: bool, now: int, fetched: Result<Json>, storedAt: int, written: bool)
    returns (r: Result<Json>, queried: bool)
    modifies cache
    ensures queried == !IsHit(old(cache.storage), ListKey(f, flag), now)
    ensures !queried ==> r == Ok(Lookup(old(cache.storage), ListKey(f, flag), now).value) && cache.storage == old(cache.storage)
    ensures queried ==> r == fetched
    ensures queried && fetched.Err? ==> cache.storage == AfterGet(old(cache.storage), ListKey(f, flag), now)
    ensures queried && fetched.Ok? ==>
      cache.storage == AfterSet(AfterGet(old(cache.storage), ListKey(f, flag), now), ListKey(f, flag), fetched.value, storedAt, written)
  {
    r, queried := ReadThrough(cache, ListKey(f, flag), now, fetched, storedAt, written);
  }

  /** `getServiceById`, `getJobOpeningById`, `getStudentProgramById`,
      `getBlogBySlug`. */
  method GetDetail(cache: SessionCache, f: Family, id: string, now: int, fetched: Result<Json>, storedAt: int, written: bool)
    returns (r: Result<Json>, queried: bool)
    modifies cache
    ensures queried == !IsHit(old(cache.storage), DetailKey(f, id), now)
    ensures !queried ==> r == Ok(Lookup(old(cache.storage), DetailKey(f, id), now).value) && cache.storage == old(cache.storage)
    ensures queried ==> r == fetched
    ensures queried && fetched.Err? ==> cache.storage == AfterGet(old(cache.storage), DetailKey(f, id), now)
    ensures queried && fetched.Ok? ==>
      cache.storage == AfterSet(AfterGet(old(cache.storage), DetailKey(f, id), now), DetailKey(f, id), fetched.value, storedAt, written)
  {
    r, queried := ReadThrough(cache, DetailKey(f, id), now, fetched, storedAt, written);
  }

  /** `getSettings`: on a miss the fetched rows are folded into one object,
      which is what gets cached and returned. */
  method GetSettings(cache: SessionCache, now: int, rows: Result<seq<SettingRow>>, storedAt: int, written: bool)
    returns (r: Result<Json>, queried: bool)
    modifies cache
    ensures queried == !IsHit(old(cache.storage), SETTINGS_KEY, now)
    ensures !queried ==> r == Ok(Lookup(old(cache.storage), SETTINGS_KEY, now).value) && cache.storage == old(cache.storage)
    ensures queried && rows.Err? ==> r == Err(rows.error) && cache.storage == AfterGet(old(cache.storage), SETTINGS_KEY, now)
    ensures queried && rows.Ok? ==> r == Ok(JObj(FoldSettings(rows.value)))
    ensures queried && rows.Ok? ==>
      cache.storage == AfterSet(AfterGet(old(cache.storage), SETTINGS_KEY, now), SETTINGS_KEY, JObj(FoldSettings(rows.value)), storedAt, written)
  {
    var fetched: Result<Json> := if rows.Ok? then Ok(JObj(FoldSettings(rows.value))) else Err(rows.error);
    r, queried := ReadThrough(cache, SETTINGS_KEY, now, fetched, storedAt, written);
  }

  /** `create*`, `update*`, `softDelete*` and `updateSetting`: the backend
      write produced `outcome`; an error is rethrown before the cache is
      touched, a success invalidates the family's patterns in order. */
  method Mutate(cache: SessionCache, m: Mutation, outcome: Result<Json>) returns (r: Result<Json>)
    modifies cache
    ensures r == outcome
    ensures cache.storage == AfterMutation(old(cache.storage), m, outcome)
  {
    if outcome.Err? {
      return outcome;
    }
    var patterns := InvalidationPatterns(m);
    var i := 0;
    while i < |patterns|
      invariant 0 <= i <= |patterns|
      invariant cache.storage == AfterInvalidateAll(old(cache.storage), patterns[..i])
    {
      cache.Invalidate(patterns[i]);
      assert patterns[..i + 1][..i] == patterns[..i];
      i := i + 1;
    }
    assert patterns[..i] == patterns;
    r := outcome;
  }

  // ---- Properties of the protocol ----

  /** A key survives a sequence of invalidations exactly when no pattern
      matches it, and a surviving entry is unchanged. */
  lemma {:induction false} InvalidateAllExact(s: Storage, patterns: seq<string>, k: string)
    ensures k in AfterInvalidateAll(s, patterns) <==>
      k in s && forall j :: 0 <= j < |patterns| ==> !Matches(k, patterns[j])
    ensures k in AfterInvalidateAll(s, patterns) ==> AfterInvalidateAll(s, patterns)[k] == s[k]
  {
    if patterns != [] {
      InvalidateAllExact(s, patterns[..|patterns| - 1], k);
    }
  }

  /** A cache hit never changes the storage: what is returned is the
      stored, fresh, truthy value. */
  lemma HitLeavesStorage(s: Storage, key: string, now: int)
    requires IsHit(s, key, now)
    ensures AfterGet(s, key, now) == s
    ensures StorageKey(key) in s && s[StorageKey(key)] == Record(Lookup(s, key, now).value, s[StorageKey(key)].timestamp)
  {
    HitIsFresh(s, key, now);
  }

  /** After a miss that fetched successfully and a write sessionStorage
      accepted, the next read within the time to live is a hit returning the
      fetched value (when that value is truthy). */
  lemma MissThenHit(s: Storage, key: string, now: int, v: Json, storedAt: int, later: int)
    requires Truthy(v) && later - storedAt <= CACHE_TTL
    ensures IsHit(AfterSet(AfterGet(s, key, now), key, v, storedAt, true), key, later)
    ensures Lookup(AfterSet(AfterGet(s, key, now), key, v, storedAt, true), key, later) == Some(v)
  {
  }

  /** A falsy cached value (`null`, `0`, `''`, `false`) is not a hit: the
      getter queries the backend again. */
  lemma FalsyCachedValueRefetches(s: Storage, key: string, v: Json, t: int, now: int)
    requires !Truthy(v) && now - t <= CACHE_TTL
    ensures !IsHit(AfterSet(s, key, v, t, true), key, now)
  {
  }

  /** A failed write leaves the cache exactly as it was. */
  lemma FailedMutationKeepsCache(s: Storage, m: Mutation, e: string)
    ensures AfterMutation(s, m, Err(e)) == s
  {
  }

  /** A mutation with a single invalidation pattern is one `invalidate`. */
  lemma SinglePatternMutation(s: Storage, m: Mutation, v: Json, p: string)
    requires InvalidationPatterns(m) == [p]
    ensures AfterMutation(s, m, Ok(v)) == AfterInvalidate(s, p)
  {
    var ps := InvalidationPatterns(m);
    assert ps[..|ps| - 1] == [];
    assert AfterInvalidateAll(s, ps) == AfterInvalidate(AfterInvalidateAll(s, []), p);
  }

  /** After a successful service mutation both service lists and every
      cached service record are gone, so the next read of any of them
      queries the backend. */
  lemma ServiceWriteInvalidates(s: Storage, m: Mutation, v: Json, flag: bool, id: string, now: int)
    requires !m.UpdateSetting? && m.family == Services
    ensures !IsHit(AfterMutation(s, m, Ok(v)), ListKey(Services, flag), now)
    ensures !IsHit(AfterMutation(s, m, Ok(v)), DetailKey(Services, id), now)
  {
    SinglePatternMutation(s, m, v, "service");
    ContainsInfix("", "service", (if flag then "s_true" else "s_false"));
    assert ListKey(Services, flag) == "" + "service" + (if flag then "s_true" else "s_false");
    InvalidatedKeyMisses(s, "service", ListKey(Services, flag), now);
    ContainsInfix("", "service", "_" + id);
    assert DetailKey(Services, id) == "" + "service" + ("_" + id);
    InvalidatedKeyMisses(s, "service", DetailKey(Services, id), now);
  }

  /** After a successful job mutation both job lists and every cached job
      record are gone. */
  lemma JobWriteInvalidates(s: Storage, m: Mutation, v: Json, flag: bool, id: string, now: int)
    requires !m.UpdateSetting? && m.family == Jobs
    ensures !IsHit(AfterMutation(s, m, Ok(v)), ListKey(Jobs, flag), now)
    ensures !IsHit(AfterMutation(s, m, Ok(v)), DetailKey(Jobs, id), now)
  {
    SinglePatternMutation(s, m, v, "job");
    ContainsInfix("", "job", (if flag then "s_true" else "s_false"));
    assert ListKey(Jobs, flag) == "" + "job" + (if flag then "s_true" else "s_false");
    InvalidatedKeyMisses(s, "job", ListKey(Jobs, flag), now);
    ContainsInfix("", "job", "_" + id);
    assert DetailKey(Jobs, id) == "" + "job" + ("_" + id);
    InvalidatedKeyMisses(s, "job", DetailKey(Jobs, id), now);
  }

  /** After a successful blog mutation both blog lists and every cached
      post (keyed by slug) are gone. */
  lemma BlogWriteInvalidates(s: Storage, m: Mutation, v: Json, flag: bool, slug: string, now: int)
    requires !m.UpdateSetting? && m.family == Blogs
    ensures !IsHit(AfterMutation(s, m, Ok(v)), ListKey(Blogs, flag), now)
    ensures !IsHit(AfterMutation(s, m, Ok(v)), DetailKey(Blogs, slug), now)
  {
    SinglePatternMutation(s, m, v, "blog");
    ContainsInfix("", "blog", (if flag then "s_true" else "s_false"));
    assert ListKey(Blogs, flag) == "" + "blog" + (if flag then "s_true" else "s_false");
    InvalidatedKeyMisses(s, "blog", ListKey(Blogs, flag), now);
    ContainsInfix("", "blog", "_" + slug);
    assert DetailKey(Blogs, slug) == "" + "blog" + ("_" + slug);
    InvalidatedKeyMisses(s, "blog", DetailKey(Blogs, slug), now);
  }

  /** After a successful settings write the cached settings object is gone. */
  lemma SettingWriteInvalidates(s: Storage, key: string, v: Json, now: int)
    ensures !IsHit(AfterMutation(s, UpdateSetting(key), Ok(v)), SETTINGS_KEY, now)
  {
    SinglePatternMutation(s, UpdateSetting(key), v, SETTINGS_KEY);
    ContainsInfix("", SETTINGS_KEY, "");
    assert SETTINGS_KEY == "" + SETTINGS_KEY + "";
    InvalidatedKeyMisses(s, SETTINGS_KEY, SETTINGS_KEY, now);
  }

  /** After a successful program update or soft delete, both program lists
      and that program's record are gone: write-then-read consistency. */
  lemma ProgramWriteInvalidates(s: Storage, m: Mutation, v: Json, flag: bool, now: int)
    requires m.Update? || m.SoftDelete?
    requires m.family == Programs
    ensures !IsHit(AfterMutation(s, m, Ok(v)), ListKey(Programs, flag), now)
    ensures !IsHit(AfterMutation(s, m, Ok(v)), DetailKey(Programs, m.id), now)
  {
    var ps := InvalidationPatterns(m);
    assert ps == ["programs_true", "programs_false", "program_" + m.id];
    var k := if flag then "programs_true" else "programs_false";
    assert ListKey(Programs, flag) == k;
    var j := if flag then 0 else 1;
    assert ps[j] == k;
    assert Matches(StorageKey(k), ps[j]) by {
      assert StorageKey(k) == CACHE_PREFIX + k + "";
      ContainsInfix(CACHE_PREFIX, k, "");
      assert StorageKey(k)[..|CACHE_PREFIX|] == CACHE_PREFIX;
    }
    InvalidateAllExact(s, ps, StorageKey(k));
    var d := DetailKey(Programs, m.id);
    assert Matches(StorageKey(d), ps[2]) by {
      assert StorageKey(d) == CACHE_PREFIX + d + "";
      ContainsInfix(CACHE_PREFIX, d, "");
      assert StorageKey(d)[..|CACHE_PREFIX|] == CACHE_PREFIX;
    }
    InvalidateAllExact(s, ps, StorageKey(d));
  }

  /** Every successful program mutation, creation included, drops both
      program lists. */
  lemma ProgramListsInvalidated(s: Storage, m: Mutation, v: Json, flag: bool, now: int)
    requires !m.UpdateSetting? && m.family == Programs
    ensures !IsHit(AfterMutation(s, m, Ok(v)), ListKey(Programs, flag), now)
  {
    var ps := InvalidationPatterns(m);
    assert ps[..2] == ["programs_true", "programs_false"];
    var k := if flag then "programs_true" else "programs_false";
    assert ListKey(Programs, flag) == k;
    var j := if flag then 0 else 1;
    assert ps[j] == k;
    assert Matches(StorageKey(k), ps[j]) by {
      assert StorageKey(k) == CACHE_PREFIX + k + "";
      ContainsInfix(CACHE_PREFIX, k, "");
      assert StorageKey(k)[..|CACHE_PREFIX|] == CACHE_PREFIX;
    }
    InvalidateAllExact(s, ps, StorageKey(k));
  }

  /** Creating a program invalidates only the two list keys: a cached
      program record survives, provided its id has no letter `p` (numeric
      ids and UUIDs have none). */
  lemma ProgramCreateKeepsRecords(s: Storage, v: Json, id: string)
    requires 'p' !in id
    requires StorageKey(DetailKey(Programs, id)) in s
    ensures StorageKey(DetailKey(Programs, id)) in AfterMutation(s, Create(Programs), Ok(v))
  {
    var ps := InvalidationPatterns(Create(Programs));
    var k := StorageKey(DetailKey(Programs, id));
    forall j | 0 <= j < |ps|
      ensures !Matches(k, ps[j])
    {
      ProgramsPatternAbsent(id, ps[j]);
    }
    InvalidateAllExact(s, ps, k);
  }

  /** `jivit_cache_program_<id>` contains neither `programs_true` nor
      `programs_false`: the only `p` outside the id is followed by
      `rogram_`, not `rograms`. */
  lemma ProgramsPatternAbsent(id: string, p: string)
    requires 'p' !in id
    requires p == "programs_true" || p == "programs_false"
    ensures !Contains(StorageKey(DetailKey(Programs, id)), p)
  {
    var k := StorageKey(DetailKey(Programs, id));
    assert k == "jivit_cache_program_" + id;
    forall i | 0 <= i <= |k| - |p|
      ensures !OccursAt(k, p, i)
    {
      if i == 12 {
        assert k[i..i + |p|][7] == k[19] == '_';
      } else {
        if i >= 20 {
          assert k[i] == id[i - 20];
        }
        assert k[i..i + |p|][0] == k[i] != 'p';
      }
    }
  }

  /** Settings fold: a key is in the object exactly when some row carries
      it. */
  lemma {:induction false} FoldSettingsKeys(rows: seq<SettingRow>, k: string)
    ensures k in FoldSettings(rows) <==> exists i :: 0 <= i < |rows| && rows[i].key == k
  {
    if rows != [] {
      var init := rows[..|rows| - 1];
      FoldSettingsKeys(init, k);
      if rows[|rows| - 1].key != k && exists i :: 0 <= i < |rows| && rows[i].key == k {
        var i :| 0 <= i < |rows| && rows[i].key == k;
        assert init[i] == rows[i];
      }
    }
  }

  /** Settings fold: the value of a key is that of the LAST row carrying
      it. */
  lemma {:induction false} FoldSettingsLastWins(rows: seq<SettingRow>, k: string)
    ensures k in FoldSettings(rows) ==>
      exists i :: 0 <= i < |rows| && rows[i].key == k && FoldSettings(rows)[k] == rows[i].value &&
        forall j :: i < j < |rows| ==> rows[j].key != k
  {
    if rows != [] {
      var init := rows[..|rows| - 1];
      var last := |rows| - 1;
      if rows[last].key != k && k in FoldSettings(rows) {
        FoldSettingsLastWins(init, k);
        var i :| 0 <= i < |init| && init[i].key == k && FoldSettings(init)[k] == init[i].value &&
          forall j :: i < j < |init| ==> init[j].key != k;
        assert rows[i] == init[i];
      }
    }
  }
}
