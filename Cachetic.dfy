/**
 * The `Cachetic` client: key namespacing, TTL resolution, the typed read,
 * the raising read, the write, and the lazily opened backend handles.
 *
 * A backend (diskcache on a local directory, or the Redis server a URL
 * names) is a `Store`: a map from storage key to the stored payload and the
 * expiry, in seconds, the client passed with it. Expiry is enforced by the
 * backend itself and is outside this model.
 */
module Cachetic {
  import opened Wrappers
  import opened PyObjects
  import opened Codecs

  /** What a backend keeps under one key: the payload and the `ex` it was written with. */
  datatype Entry = Entry(payload: PyObject, ex: Option<int>)

  type Entries = map<string, Entry>

  /** The client's settings that the read and write paths consult. */
  datatype Settings = Settings(
    objectType: ObjectType,
    cacheTtl: int,       // -1: no expiration, >0: seconds; see EffectiveEx for 0
    cachePrefix: string,
    libs: Libraries
  )

  // ---------------------------------------------------------------- keys

  /** `get_cache_key`: the storage key for the caller's key. */
  function CacheKey(prefix: string, key: string, withPrefix: bool): (k: string)
    ensures withPrefix && prefix != [] ==> k == prefix + [':'] + key
    ensures !withPrefix || prefix == [] ==> k == key
  {
    if withPrefix && prefix != [] then prefix + ":" + key else key
  }

  /** Under one prefix, distinct caller keys get distinct storage keys. */
  lemma CacheKeyInjective(prefix: string, key1: string, key2: string)
    requires CacheKey(prefix, key1, true) == CacheKey(prefix, key2, true)
    ensures key1 == key2
  {
    if prefix != [] {
      var k := CacheKey(prefix, key1, true);
      assert key1 == k[|prefix| + 1..];
      assert key2 == k[|prefix| + 1..];
    }
  }

  /**
   * Prefix isolation: clients whose prefixes differ (one of them possibly
   * empty) never share the storage key of a caller's key.
   */
  lemma PrefixIsolation(prefix1: string, prefix2: string, key: string)
    requires prefix1 != prefix2
    ensures CacheKey(prefix1, key, true) != CacheKey(prefix2, key, true)
  {
    var k1, k2 := CacheKey(prefix1, key, true), CacheKey(prefix2, key, true);
    if prefix1 != [] && prefix2 != [] && |prefix1| == |prefix2| {
      assert k1[..|prefix1|] == prefix1;
      assert k2[..|prefix2|] == prefix2;
    }
  }

  // ----------------------------------------------------------------- TTL

  /**
   * The expiry `set` writes with: the per-call `ex` if given, else the
   * configured `cache_ttl` when positive, else no expiry.
   */
  function EffectiveEx(ex: Option<int>, cacheTtl: int): (r: Option<int>)
    ensures ex.Some? ==> r == ex
    ensures ex.None? ==> (r.Some? <==> cacheTtl > 0)
    ensures r.Some? && ex.None? ==> r.value == cacheTtl
  {
    if ex.Some? then ex else if cacheTtl > 0 then Some(cacheTtl) else None
  }

  /**
   * `set` returns without writing when the effective expiry is 0, which
   * happens exactly when the caller passes `ex=0`: the configured
   * `cache_ttl` never causes a skip.
   */
  predicate SkipsWrite(ex: Option<int>, cacheTtl: int)
    ensures SkipsWrite(ex, cacheTtl) <==> ex == Some(0)
  {
    EffectiveEx(ex, cacheTtl) == Some(0)
  }

  /**
   * `cache_ttl == 0` (documented as "disable cache") with no per-call `ex`
   * does not skip the write: the entry is written with no expiry.
   */
  lemma ZeroTtlWritesWithoutExpiry()
    ensures !SkipsWrite(None, 0) && EffectiveEx(None, 0) == None
  {
  }

  // ------------------------------------------------------ read and write

  /** A backend's `get`: the stored payload, or None when the key is absent. */
  function Fetch(entries: Entries, k: string): (data: PyObject)
    ensures k !in entries ==> data == PyNone
    ensures k in entries ==> data == entries[k].payload
  {
    if k in entries then entries[k].payload else PyNone
  }

  /**
   * `get`: the value stored under the caller's key, None when the backend
   * returns None (before any decoding), or the exception decoding raises.
   */
  function Lookup(s: Settings, entries: Entries, key: string): (r: Result<PyObject, Error>)
    ensures Fetch(entries, CacheKey(s.cachePrefix, key, true)) == PyNone ==> r == Ok(PyNone)
    ensures Fetch(entries, CacheKey(s.cachePrefix, key, true)) != PyNone ==>
              r == Decode(s.objectType, s.libs, Fetch(entries, CacheKey(s.cachePrefix, key, true)))
  {
    var data := Fetch(entries, CacheKey(s.cachePrefix, key, true));
    if data == PyNone then Ok(PyNone) else Decode(s.objectType, s.libs, data)
  }

  /** `get_or_raise`: CacheNotFoundError in place of a None result, anything else passed through. */
  function RaiseIfMissing(key: string, got: Result<PyObject, Error>): (r: Result<PyObject, Error>)
    ensures got == Ok(PyNone) ==> r == Err(CacheNotFound(key))
    ensures got != Ok(PyNone) ==> r == got
    ensures r != Ok(PyNone)
  {
    if got == Ok(PyNone) then Err(CacheNotFound(key)) else got
  }

  /**
   * `set`: the backend contents after the call, or the exception raised.
   * The TTL decision comes first, then encoding, then the write.
   */
  function Write(s: Settings, entries: Entries, key: string, v: PyObject, ex: Option<int>): (r: Result<Entries, Error>)
    ensures SkipsWrite(ex, s.cacheTtl) ==> r == Ok(entries)
    ensures !SkipsWrite(ex, s.cacheTtl) ==>
              (r.Ok? <==> Encode(s.objectType, s.libs, v).Ok?) &&
              (r.Err? ==> r.error == Encode(s.objectType, s.libs, v).error)
    ensures !SkipsWrite(ex, s.cacheTtl) && r.Ok? ==>
              var k := CacheKey(s.cachePrefix, key, true);
              r.value == entries[k := Entry(Encode(s.objectType, s.libs, v).value, EffectiveEx(ex, s.cacheTtl))]
  {
    var eff := EffectiveEx(ex, s.cacheTtl);
    if eff == Some(0) then Ok(entries)
    else
      match Encode(s.objectType, s.libs, v)
      case Err(e) => Err(e)
      case Ok(payload) => Ok(entries[CacheKey(s.cachePrefix, key, true) := Entry(payload, eff)])
  }

  /** A miss never raises, whatever the declared type, even an unsupported one. */
  lemma MissNeverRaises(s: Settings, entries: Entries, key: string)
    requires CacheKey(s.cachePrefix, key, true) !in entries
    ensures Lookup(s, entries, key) == Ok(PyNone)
  {
  }

  /**
   * `get` returns None exactly when the backend has no payload (or a None
   * payload) under the key, or when the stored payload decodes to None.
   */
  lemma NoneResultCases(s: Settings, entries: Entries, key: string)
    ensures Lookup(s, entries, key) == Ok(PyNone) <==>
              var data := Fetch(entries, CacheKey(s.cachePrefix, key, true));
              data == PyNone || Decode(s.objectType, s.libs, data) == Ok(PyNone)
  {
  }

  /**
   * For the bytes, str, int and bool types a payload other than None never
   * reads as None, so `get` returns None exactly when the backend read
   * returns None: on a miss, or for a None the bytes or int type stored as
   * it is (`SetNoneReadsAsMiss`).
   */
  lemma NoneMeansMissForPrimitives(s: Settings, entries: Entries, key: string)
    requires IsPrimitive(s.objectType)
    ensures Lookup(s, entries, key) == Ok(PyNone) <==> Fetch(entries, CacheKey(s.cachePrefix, key, true)) == PyNone
  {
  }

  /**
   * A value stored by a library codec that reads back as None (json
   * `"null"`, a pickled None) is reported by `get_or_raise` as not found.
   */
  lemma StoredNoneRaisesNotFound(s: Settings, entries: Entries, key: string)
    requires Fetch(entries, CacheKey(s.cachePrefix, key, true)) != PyNone
    requires Decode(s.objectType, s.libs, Fetch(entries, CacheKey(s.cachePrefix, key, true))) == Ok(PyNone)
    ensures CacheKey(s.cachePrefix, key, true) in entries
    ensures RaiseIfMissing(key, Lookup(s, entries, key)) == Err(CacheNotFound(key))
  {
  }

  /**
   * Under the bytes and int types `set(key, None)` stores None as it is, and
   * that entry then reads as a miss: `get_or_raise` raises CacheNotFoundError
   * after a successful `set`.
   */
  lemma SetNoneReadsAsMiss(s: Settings, entries: Entries, key: string, ex: Option<int>)
    requires s.objectType == BytesType || s.objectType == IntType
    requires !SkipsWrite(ex, s.cacheTtl)
    ensures Write(s, entries, key, PyNone, ex).Ok?
    ensures CacheKey(s.cachePrefix, key, true) in Write(s, entries, key, PyNone, ex).value
    ensures RaiseIfMissing(key, Lookup(s, Write(s, entries, key, PyNone, ex).value, key)) == Err(CacheNotFound(key))
  {
  }

  /**
   * A negative per-call `ex` is handed to the backend unchanged: unlike a
   * negative `cache_ttl`, it does not mean "no expiration".
   */
  lemma NegativeExPassedThrough(s: Settings, entries: Entries, key: string, v: PyObject, n: int)
    requires n < 0
    requires Write(s, entries, key, v, Some(n)).Ok?
    ensures Write(s, entries, key, v, Some(n)).value[CacheKey(s.cachePrefix, key, true)].ex == Some(n)
  {
  }

  /**
   * Round trip: after a `set` written with no expiry or a positive one,
   * `get` of the same key returns the value, for every value the declared
   * type gives back. A non-positive expiry is left to the backend, which
   * treats the entry as expired or refuses it.
   */
  lemma SetThenGet(s: Settings, entries: Entries, key: string, v: PyObject, ex: Option<int>)
    requires RoundTripCase(s.objectType, s.libs, v)
    requires EffectiveEx(ex, s.cacheTtl).None? || EffectiveEx(ex, s.cacheTtl).value > 0
    ensures Write(s, entries, key, v, ex).Ok?
    ensures Lookup(s, Write(s, entries, key, v, ex).value, key) == Ok(v)
  {
    CodecRoundTrip(s.objectType, s.libs, v);
  }

  /** A write that succeeds (skipped or done) leaves every other caller key of the client as it read before. */
  lemma SetLeavesOtherKeys(s: Settings, entries: Entries, key: string, v: PyObject, ex: Option<int>, other: string)
    requires key != other
    requires Write(s, entries, key, v, ex).Ok?
    ensures Lookup(s, Write(s, entries, key, v, ex).value, other) == Lookup(s, entries, other)
  {
    if CacheKey(s.cachePrefix, key, true) == CacheKey(s.cachePrefix, other, true) {
      CacheKeyInjective(s.cachePrefix, key, other);
    }
  }

  /**
   * Two clients on the same backend with different prefixes: a write by the
   * first never changes what the second reads for the same caller key.
   */
  lemma PrefixedClientsDoNotInterfere(s1: Settings, s2: Settings, entries: Entries, key: string, v: PyObject, ex: Option<int>)
    requires s1.cachePrefix != s2.cachePrefix
    requires Write(s1, entries, key, v, ex).Ok?
    ensures Lookup(s2, Write(s1, entries, key, v, ex).value, key) == Lookup(s2, entries, key)
  {
    PrefixIsolation(s1.cachePrefix, s2.cachePrefix, key);
  }

  /**
   * Isolation holds per caller key only: the separator may occur in a prefix
   * or in a key, so a client with prefix "a" writing "b:c" changes what a
   * client with prefix "a:b" reads for "c".
   */
  lemma PrefixCollision(s1: Settings, s2: Settings, entries: Entries, v: PyObject)
    requires s1.cachePrefix == "a" && s2.cachePrefix == "a:b"
    requires s1.objectType == BytesType && s2.objectType == BytesType
    requires v != PyNone
    ensures Write(s1, entries, "b:c", v, None).Ok?
    ensures Lookup(s2, Write(s1, entries, "b:c", v, None).value, "c") == Ok(v)
  {
    assert CacheKey("a", "b:c", true) == CacheKey("a:b", "c", true);
  }

  /** On a miss `get_or_raise` raises CacheNotFoundError, whatever the declared type. */
  lemma MissRaisesNotFound(s: Settings, entries: Entries, key: string)
    requires CacheKey(s.cachePrefix, key, true) !in entries
    ensures RaiseIfMissing(key, Lookup(s, entries, key)) == Err(CacheNotFound(key))
  {
  }

  /**
   * An unsupported type: `set` raises before writing unless the write is
   * skipped (then it silently does nothing), and `get` raises only once a
   * payload was found.
   */
  lemma UnsupportedType(s: Settings, entries: Entries, key: string, v: PyObject, ex: Option<int>)
    requires s.objectType.Unsupported?
    ensures !SkipsWrite(ex, s.cacheTtl) ==> Write(s, entries, key, v, ex) == Err(UnsupportedObjectType)
    ensures SkipsWrite(ex, s.cacheTtl) ==> Write(s, entries, key, v, ex) == Ok(entries)
    ensures Lookup(s, entries, key) == Err(UnsupportedObjectType) <==> Fetch(entries, CacheKey(s.cachePrefix, key, true)) != PyNone
  {
  }

  // -------------------------------------------------------------- state

  /** A backend store: the contents of the diskcache directory or of the Redis server. */
  class Store {
    var entries: Entries

    constructor(initial: Entries)
      ensures entries == initial
    {
      entries := initial;
    }

    /** The backend's `get(key)`. */
    method Get(k: string) returns (data: PyObject)
      ensures data == Fetch(entries, k)
      ensures data != PyNone ==> k in entries
    {
      data := if k in entries then entries[k].payload else PyNone;
    }

    /** The backend's `set(key, value, ex)`: an upsert. */
    method Set(k: string, payload: PyObject, ex: Option<int>)
      modifies this
      ensures entries == old(entries)[k := Entry(payload, ex)]
    {
      entries := entries[k := Entry(payload, ex)];
    }
  }

  /** An open backend object (`diskcache.Cache(...)`, `redis.Redis.from_url(...)`) over a store. */
  class Handle {
    const store: Store

    constructor(store: Store)
      ensures this.store == store
    {
      this.store := store;
    }
  }

  /** The client object. `disk` is the store at `cache_dir`, `server` the store `cache_url` names. */
  class Client {
    const settings: Settings
    const cacheUrl: Option<string>
    const disk: Store
    const server: Store
    var localCache: Handle?
    var remoteCache: Handle?

    /** Handles, once open, are over the right store; no remote handle without a URL. */
    ghost predicate Valid()
      reads this
    {
      && (localCache != null ==> localCache.store == disk)
      && (remoteCache != null ==> remoteCache.store == server)
      && (cacheUrl.None? ==> remoteCache == null)
    }

    /** The store the client's `cache` property resolves to. */
    function Active(): (st: Store)
      ensures cacheUrl.None? ==> st == disk
      ensures cacheUrl.Some? ==> st == server
    {
      if cacheUrl.None? then disk else server
    }

    constructor(settings: Settings, cacheUrl: Option<string>, disk: Store, server: Store)
      ensures Valid()
      ensures this.settings == settings && this.cacheUrl == cacheUrl
      ensures this.disk == disk && this.server == server
      ensures localCache == null && remoteCache == null
    {
      this.settings := settings;
      this.cacheUrl := cacheUrl;
      this.disk := disk;
      this.server := server;
      localCache := null;
      remoteCache := null;
    }

    /** The `local_cache` property: opened on first use, then the same handle every time. */
    method LocalCache() returns (h: Handle)
      requires Valid()
      modifies this
      ensures Valid()
      ensures h.store == disk && localCache == h && remoteCache == old(remoteCache)
      ensures old(localCache) != null ==> h == old(localCache)
      ensures old(localCache) == null ==> fresh(h)
    {
      if localCache == null {
        localCache := new Handle(disk);
      }
      h := localCache;
    }

    /**
     * The `remote_cache` property: ValueError when no URL is configured,
     * otherwise opened on first use and then the same handle every time.
     */
    method RemoteCache() returns (r: Result<Handle, Error>)
      requires Valid()
      modifies this
      ensures Valid() && localCache == old(localCache)
      ensures r.Err? <==> cacheUrl.None?
      ensures r.Err? ==> r.error == MissingCacheUrl && remoteCache == old(remoteCache)
      ensures r.Ok? ==> r.value.store == server && remoteCache == r.value
      ensures r.Ok? && old(remoteCache) != null ==> r.value == old(remoteCache)
      ensures r.Ok? && old(remoteCache) == null ==> fresh(r.value)
    {
      if remoteCache == null {
        if cacheUrl.None? {
          return Err(MissingCacheUrl);
        }
        remoteCache := new Handle(server);
      }
      r := Ok(remoteCache);
    }

    /** The `cache` property: the local handle without a URL, the remote one with it. */
    method Cache() returns (h: Handle)
      requires Valid()
      modifies this
      ensures Valid()
      ensures h.store == Active()
      ensures cacheUrl.None? ==> localCache == h && remoteCache == old(remoteCache)
      ensures cacheUrl.Some? ==> remoteCache == h && localCache == old(localCache)
      ensures Opened(old(localCache), old(remoteCache))
    {
      if cacheUrl.None? {
        h := LocalCache();
      } else {
        var r := RemoteCache();
        h := r.value;
      }
    }

    /** Handles that were open stay the same objects. */
    ghost predicate Opened(oldLocal: Handle?, oldRemote: Handle?)
      reads this
    {
      && (oldLocal != null ==> localCache == oldLocal)
      && (oldRemote != null ==> remoteCache == oldRemote)
    }

    /** The handle of the active store is open; the other one is as it was. */
    ghost predicate ActiveOpened(oldLocal: Handle?, oldRemote: Handle?)
      reads this
    {
      && (cacheUrl.None? ==> localCache != null && remoteCache == oldRemote)
      && (cacheUrl.Some? ==> remoteCache != null && localCache == oldLocal)
    }

    /** `get`: opens the active handle, then reads through it. */
    method Get(key: string) returns (r: Result<PyObject, Error>)
      requires Valid()
      modifies this
      ensures Valid() && Opened(old(localCache), old(remoteCache))
      ensures ActiveOpened(old(localCache), old(remoteCache))
      ensures r == Lookup(settings, Active().entries, key)
    {
      var k := CacheKey(settings.cachePrefix, key, true);
      var h := Cache();
      var data := h.store.Get(k);
      if data == PyNone {
        return Ok(PyNone);
      }
      r := Decode(settings.objectType, settings.libs, data);
    }

    /** `get_or_raise`. */
    method GetOrRaise(key: string) returns (r: Result<PyObject, Error>)
      requires Valid()
      modifies this
      ensures Valid() && Opened(old(localCache), old(remoteCache))
      ensures ActiveOpened(old(localCache), old(remoteCache))
      ensures r == RaiseIfMissing(key, Lookup(settings, Active().entries, key))
    {
      var out := Get(key);
      if out == Ok(PyNone) {
        return Err(CacheNotFound(key));
      }
      r := out;
    }

    /**
     * `set`: resolves the expiry, encodes, and only then opens the active
     * handle and writes through it. A skipped or failed call opens nothing.
     */
    method Set(key: string, v: PyObject, ex: Option<int>) returns (r: Result<(), Error>)
      requires Valid()
      modifies this, Active()
      ensures Valid() && Opened(old(localCache), old(remoteCache))
      ensures var w := Write(settings, old(Active().entries), key, v, ex);
              && (r.Ok? <==> w.Ok?)
              && (w.Ok? ==> Active().entries == w.value)
              && (w.Err? ==> r.error == w.error && Active().entries == old(Active().entries))
      ensures SkipsWrite(ex, settings.cacheTtl) || r.Err? ==>
                localCache == old(localCache) && remoteCache == old(remoteCache)
      ensures !SkipsWrite(ex, settings.cacheTtl) && r.Ok? ==> ActiveOpened(old(localCache), old(remoteCache))
    {
      var k := CacheKey(settings.cachePrefix, key, true);
      var eff := EffectiveEx(ex, settings.cacheTtl);
      if eff == Some(0) {
        return Ok(());
      }
      var encoded := Encode(settings.objectType, settings.libs, v);
      if encoded.Err? {
        return Err(encoded.error);
      }
      ghost var written := Write(settings, Active().entries, key, v, ex);
      assert written == Ok(Active().entries[k := Entry(encoded.value, eff)]);
      var h := Cache();
      h.store.Set(k, encoded.value, eff);
      r := Ok(());
    }
  }
}
