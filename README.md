# cachetic in Dafny

A verified model of the core of `cachetic`, a typed caching façade for Python.
It covers two components.

The first is the `Cachetic` client (`cachetic/__init__.py`):
- how it namespaces keys with its prefix;
- how it resolves the expiry of a write, and when it skips the write;
- how `set` encodes and `get` decodes a value, by branching on the declared `object_type`;
- how `get_or_raise` turns a miss into `CacheNotFoundError`;
- how the local (diskcache) and remote (Redis) backend handles are opened lazily and reused.

The second is the `MongoCache` backend (`cachetic/extensions/mongodb.py`):
- how it validates its connection URL;
- how it stores an absolute expiry next to each value;
- how it evicts an expired document lazily, on the `get` that sees it.

Modules, one per file:

- `Wrappers`: `Option` and `Result`. A `Result` error stands for a raised exception.
- `PyObjects`: the Python values involved (`PyObject`), the exceptions (`Error`), Python truthiness, and which values JSON represents exactly.
- `Utf8`: the strict UTF-8 encoder and decoder of section 3 of RFC 3629. These are what `str.encode("utf-8")` and `bytes.decode("utf-8")` do. Both round trips are proved.
- `Decimal`: how `int()` reads decimal text, and the decimal rendering of an integer.
- `Codecs`: the `object_type` tags and the two branch chains (`Encode` for `set`, `Decode` for `get`). Pydantic, json and pickle are library codecs the model does not look inside (`Codec`).
- `Cachetic`: key namespacing, TTL resolution, and the specifications of `get`, `get_or_raise` and `set` over a backend's contents. It also holds the `Client` class, the `Store` class (a backend's contents) and the `Handle` class (an opened backend object).
- `MongoDb`: URL validation, the upsert, the lazy-eviction read, and the `MongoCache` class. The clock `int(time.time())` is the parameter `now`.

The model follows the code wherever the code and its documentation or tests disagree:

- **`cache_ttl = 0` does not disable the cache.** The field description says "0: disable cache". But `set` skips the write only when the effective expiry is 0. A `cache_ttl` of 0 never yields that: the expiry becomes None, and the value is written with no expiry. So the write is skipped exactly when the caller passes `ex=0` (`SkipsWrite`, `ZeroTtlWritesWithoutExpiry`).
- **A per-call `ex=-1` does not mean "no expiration".** A negative `cache_ttl` becomes no expiry. A per-call `ex` is handed to the backend unchanged, even when it is negative (`NegativeExPassedThrough`). diskcache then stores an entry that is already expired, and Redis refuses the expiry. So the round trip (`Cachetic.SetThenGet`) is stated only for a write with no expiry or a positive one.
- **The TTL decision comes before encoding.** For an unsupported type, `set(..., ex=0)` does nothing and raises nothing (`UnsupportedType`).
- **`get` cannot tell a miss from a stored None.** `get` returns None both on a miss and when the stored payload decodes to None (json `null`, a pickled None). So `get_or_raise` raises `CacheNotFoundError` for such a stored value (`StoredNoneRaisesNotFound`). For the bytes, str, int and bool types, `get` returns None exactly when the backend read returns None (`NoneMeansMissForPrimitives`). That is not only a miss: under the bytes and int types, `set(key, None)` stores None as it is, and `get_or_raise` then raises `CacheNotFoundError` for a key that is present (`SetNoneReadsAsMiss`).
- **Integers are stored as they are.** The int branch of `set` hands the integer itself to the backend rather than its decimal text; `get` reads it back through `int()`, which also accepts decimal text (`IntFromDecimalText`).
- **Prefixes isolate clients key by key only.** The separator `:` may also occur in a prefix or a key. A client with prefix `a` writing `b:c` and a client with prefix `a:b` reading `c` use the same storage key (`PrefixCollision`). `PrefixIsolation` covers the same caller key under two prefixes.
- **The type tests take the TypeAdapter branch.** tests/test_object_types.py and tests/test_readme_usages.py configure `object_type=pydantic.TypeAdapter(str)` and similar. That selects the TypeAdapter branch, not the bytes/str/int/bool branches. tests/test_usage.py also uses a schema model class and the default `object` type.
- **Some tests target another version of the client.** They pass `default_ttl=` and `prefix=` and call `delete`. The client modelled here has none of these.
- **The client never uses `MongoCache`.** It routes every `cache_url` to Redis. The Redis driver refuses a URL that is not a Redis URL, such as a `mongodb://` URL or the path-like `cache_url=".test-cache"` in tests/test_usage.py, whose comment says it means local diskcache only. For such a URL, `get` and `set` raise `ValueError` on first use.

## Model

| member | source | states |
|---|---|---|
| `Cachetic.CacheKey` | cachetic/__init__.py:104-107 | the storage key is `prefix + ":" + key` when `with_prefix` holds and the prefix is non-empty, else the key unchanged |
| `Cachetic.CacheKeyInjective` | cachetic/__init__.py:104-107 | under one prefix, distinct caller keys get distinct storage keys, so `get` and `set` address the same entry for the same key |
| `Cachetic.PrefixIsolation` | cachetic/__init__.py:104-107 | two different prefixes (one possibly empty) never give the same storage key for the same caller key |
| `Cachetic.EffectiveEx` | cachetic/__init__.py:180 | the expiry written is the per-call `ex` if given, else `cache_ttl` when positive, else none |
| `Cachetic.SkipsWrite` | cachetic/__init__.py:180-182 | the write is skipped exactly when the per-call `ex` is 0, whatever `cache_ttl` is |
| `Cachetic.ZeroTtlWritesWithoutExpiry` | cachetic/__init__.py:58-66 | `cache_ttl == 0` with no per-call `ex` writes, with no expiry, although the field is documented as disabling the cache |
| `Cachetic.Fetch` | cachetic/__init__.py:118 | a backend read gives the stored payload, or None for an absent key |
| `Cachetic.Lookup` | cachetic/__init__.py:109-157 | `get` returns None when the backend returns None, before any decoding; otherwise it returns what decoding gives |
| `Cachetic.RaiseIfMissing` | cachetic/__init__.py:159-168 | `get_or_raise` turns a None result into `CacheNotFoundError(key)`, passes everything else through, and never returns None |
| `Cachetic.Write` | cachetic/__init__.py:170-212 | `set` leaves the backend untouched when skipped; otherwise it raises what encoding raises, or upserts the payload with the effective expiry under the storage key |
| `Cachetic.MissNeverRaises` | cachetic/__init__.py:118-121 | a key with no entry reads as None for every type, even an unsupported one |
| `Cachetic.NoneResultCases` | cachetic/__init__.py:118-157 | `get` returns None exactly when the backend holds no payload (or None) or the payload decodes to None |
| `Cachetic.NoneMeansMissForPrimitives` | cachetic/__init__.py:118-147 | for the bytes, str, int and bool types, `get` returns None exactly when the backend read returns None |
| `Cachetic.SetNoneReadsAsMiss` | cachetic/__init__.py:191-197 | under the bytes and int types `set(key, None)` succeeds and stores the entry, and `get_or_raise` then raises `CacheNotFoundError` |
| `Cachetic.NegativeExPassedThrough` | cachetic/__init__.py:180-212 | a negative per-call `ex` reaches the backend unchanged, as the entry's expiry |
| `Cachetic.StoredNoneRaisesNotFound` | cachetic/__init__.py:165-168 | a present entry that decodes to None makes `get_or_raise` raise `CacheNotFoundError` |
| `Cachetic.MissRaisesNotFound` | cachetic/__init__.py:165-168 | on a miss `get_or_raise` raises `CacheNotFoundError`, whatever the declared type |
| `Cachetic.SetThenGet` | cachetic/__init__.py:170-212 | after a write with no expiry or a positive one, `get` of the same key returns the value, for every value the declared type round-trips |
| `Cachetic.SetLeavesOtherKeys` | cachetic/__init__.py:178 | a write leaves what every other caller key reads unchanged |
| `Cachetic.PrefixedClientsDoNotInterfere` | cachetic/__init__.py:104-107 | a write by one client never changes what a client with another prefix reads for the same key on the same backend |
| `Cachetic.PrefixCollision` | cachetic/__init__.py:104-107 | a client with prefix `a` writing `b:c` changes what a client with prefix `a:b` reads for `c` |
| `Cachetic.UnsupportedType` | cachetic/__init__.py:208-209 | for an unsupported type, `set` raises `ValueError` before writing unless skipped, and `get` raises only once a payload was found |
| `Cachetic.Store.Get` | cachetic/__init__.py:118 | the backend read returns the stored payload or None |
| `Cachetic.Store.Set` | cachetic/__init__.py:212 | the backend write upserts payload and expiry under the key and changes nothing else |
| `Cachetic.Client.constructor` | cachetic/__init__.py:41-74 | a new client has its settings and no backend handle open |
| `Cachetic.Client.LocalCache` | cachetic/__init__.py:90-95 | the local handle is created on first use over the local store, then the same handle is returned every time |
| `Cachetic.Client.RemoteCache` | cachetic/__init__.py:76-88 | `ValueError` when no `cache_url` is set, and among the cases modelled only then; otherwise the remote handle is created on first use, then reused |
| `Cachetic.Client.Active` | cachetic/__init__.py:97-102 | the store behind `cache`: the local store when `cache_url` is None, the remote one otherwise |
| `Cachetic.Client.Cache` | cachetic/__init__.py:97-102 | the local handle when `cache_url` is None, the remote one otherwise; handles already open are kept |
| `Cachetic.Client.Get` | cachetic/__init__.py:109-157 | leaves the active handle open and the other one as it was, and returns exactly what `Lookup` specifies for the active store |
| `Cachetic.Client.GetOrRaise` | cachetic/__init__.py:159-168 | leaves the active handle open and the other one as it was, and returns exactly what `RaiseIfMissing` specifies for the client's `get` |
| `Cachetic.Client.Set` | cachetic/__init__.py:170-212 | the active store becomes what `Write` specifies; a write leaves the active handle open and the other one as it was; a skipped or failed call opens no handle and writes nothing |
| `Codecs.Encode` | cachetic/__init__.py:184-209 | unsupported types raise `ValueError`; bytes, int and bool never fail; str succeeds exactly for str values; bool stores `b"1"` or `b"0"` |
| `Codecs.Decode` | cachetic/__init__.py:123-157 | unsupported types raise `ValueError`; bool always gives a bool; for the bytes, str, int and bool types a non-None payload never reads as None |
| `Codecs.IntOf` | cachetic/__init__.py:142-143 | `int()` succeeds exactly for ints, bools, str or UTF-8 bytes holding a signed decimal in the modelled grammar, and other objects that define an integer value; it always gives an int: an int as itself, a bool as 1 or 0, the object's own integer for other objects, and raises `TypeError` for the rest |
| `Codecs.CodecRoundTrip` | cachetic/__init__.py:133-147 | decoding what was encoded gives the value back: any value for bytes, strings for str, ints for int, bools for bool; for library tags, what the library round-trips |
| `Codecs.BoolReadsTruthiness` | cachetic/__init__.py:200-201 | under the bool type any value is written as its truthiness and read back as that bool |
| `Codecs.BoolDecoding` | cachetic/__init__.py:146-147 | the payload `b"0"` reads as False, every other payload as True |
| `Codecs.StrDecoding` | cachetic/__init__.py:135-141 | a bytes payload is UTF-8-decoded (raising exactly when ill-formed), a str payload is returned as is, anything else raises `TypeError` |
| `Codecs.IntFromDecimalText` | cachetic/__init__.py:142-143 | an integer also reads back when the store kept its decimal text, as str or as bytes |
| `PyObjects.Truthy` | cachetic/__init__.py:201 | the falsy values are exactly None, False, 0, the empty str, bytes, list and dict, and the other objects whose own truth value is false |
| `Utf8.Encode` | cachetic/__init__.py:195 | UTF-8 encoding takes one to four bytes per character |
| `Utf8.Decode` | cachetic/__init__.py:138 | strict UTF-8 decoding never yields more characters than bytes |
| `Utf8.DecodeEncode` | cachetic/__init__.py:193-195 | every string survives UTF-8 encoding then decoding |
| `Utf8.EncodeDecode` | cachetic/__init__.py:137-138 | whatever decodes re-encodes to the same bytes: the decoder accepts only the encoder's output |
| `Decimal.Show` | cachetic/__init__.py:142-143 | the decimal text of an integer, which a remote store keeps: a minus sign exactly for a negative integer, then digits without a leading zero |
| `Decimal.Parse` | cachetic/__init__.py:143 | in the modelled grammar of `int()`, text converts exactly when it is an optional sign followed by at least one ASCII digit, and gives a negative number only after a minus sign |
| `Decimal.ParseShow` | cachetic/__init__.py:143 | the decimal text of every integer parses back to it |
| `MongoDb.StrOrNone` | cachetic/extensions/mongodb.py:21-24 | None exactly for the empty string, else the string itself |
| `MongoDb.TrimStart` | cachetic/extensions/mongodb.py:32 | drops exactly the leading slashes, keeping a suffix that does not start with one |
| `MongoDb.TrimEnd` | cachetic/extensions/mongodb.py:32 | drops exactly the trailing slashes, keeping a prefix that does not end with one |
| `MongoDb.StartsWith` | cachetic/extensions/mongodb.py:29 | `startswith` holds exactly when the prefix's characters open the string one by one |
| `MongoDb.Strip` | cachetic/extensions/mongodb.py:32 | the database name left by `strip("/")` is no longer than the path and has no slash at either end |
| `MongoDb.StripEmpty` | cachetic/extensions/mongodb.py:32-39 | the path yields no database name exactly when it is empty or all slashes |
| `MongoDb.CollectionNames` | cachetic/extensions/mongodb.py:33-34 | the `collection` values of the query, non-empty exactly when the parameter is present with a value |
| `MongoDb.Validate` | cachetic/extensions/mongodb.py:20-51 | an accepted URL names the stripped path as database and the first `collection` value as collection, however many there are; every refusal is an invalid-URL `ValueError` |
| `MongoDb.ValidateAccepts` | cachetic/extensions/mongodb.py:21-44 | a URL is accepted exactly when it is non-empty, its scheme starts with "mongo", its path has a non-slash character and it has a `collection` value |
| `MongoDb.ValidateRefusals` | cachetic/extensions/mongodb.py:21-44 | each refusal (empty URL, scheme, database, collection) happens exactly when that check is the first to fail |
| `MongoDb.StoredExpiry` | cachetic/extensions/mongodb.py:66-68 | no expiry when `ex` is None or below 1, else `now + ex`, which lies after `now` |
| `MongoDb.Expired` | cachetic/extensions/mongodb.py:83 | a document with an expiry counts as expired from the second after that expiry on; one without an expiry never does |
| `MongoDb.Upsert` | cachetic/extensions/mongodb.py:70-72 | the document for `name` gets the new value and expiry; every other document is unchanged and none is added |
| `MongoDb.Read` | cachetic/extensions/mongodb.py:74-87 | absent: None with no change; no expiry: the value with no change; expiry strictly before `now`: that document deleted and None; otherwise the value with no change |
| `MongoDb.ReadDeletesOnlyName` | cachetic/extensions/mongodb.py:83-85 | `get` deletes at most the document asked for, and only when it reports None |
| `MongoDb.SetThenGet` | cachetic/extensions/mongodb.py:63-87 | after `set(name, v, ex)` at time t, `get(name)` at t' returns v exactly when there is no expiry or t' <= t + ex; otherwise it deletes the document |
| `MongoDb.ExpiryBoundary` | cachetic/extensions/mongodb.py:83 | a document is still returned at its expiry second and is gone one second later |
| `MongoDb.MissIsFinal` | cachetic/extensions/mongodb.py:77-85 | once `get` reports None the name stays absent for every later `get`, which changes nothing |
| `MongoDb.UpsertLeavesOtherNames` | cachetic/extensions/mongodb.py:70-72 | an upsert does not change what `get` returns for any other name |
| `MongoDb.MongoCache.Connect` | cachetic/extensions/mongodb.py:20-61 | raises exactly the error `Validate` gives among the URL checks; otherwise connects to the validated database and collection with its existing documents |
| `MongoDb.MongoCache.Set` | cachetic/extensions/mongodb.py:63-72 | the collection becomes the upsert of `Upsert` |
| `MongoDb.MongoCache.Get` | cachetic/extensions/mongodb.py:74-87 | result and new collection are exactly those of `Read` |

## Left out

- Float: the `float` tag and its branches are not modelled, because they use floating point. Any other type token is the `Unsupported` tag.
- Cachetic.Client.RemoteCache: the Redis driver's own URL check in `redis.Redis.from_url` (cachetic/__init__.py:86) is not modelled. The driver raises `ValueError` for a URL whose scheme is not `redis://`, `rediss://` or `unix://`, and then `remote_cache`, `cache`, `get` and `set` raise it too. That includes the path-like `cache_url` the tests pass. The model opens a handle for every URL that is set.
- Backend drivers: diskcache, Redis and pymongo do disk and network I/O. Each store is a map from key to payload and expiry. Native expiry in diskcache and Redis happens inside the driver and is not modelled; `Store` keeps the `ex` it was given. Some driver checks are not modelled either: Redis refusing a non-positive `ex` or a None value, and driver-side conversion of payloads to bytes.
- MongoDb.MongoCache.Connect: errors pymongo raises after validation are not modelled, such as `MongoClient` refusing a URI without a host (cachetic/extensions/mongodb.py:52) or `create_index` finding no server (:56).
- Codecs.CodecRoundTrip: for the schema-model, TypeAdapter, list, dict and object tags, the round trip is proved only under a hypothesis. The hypothesis is that the library codec (pydantic, `json` with `default=str`, `pickle`) round-trips the value, and for json only JSON-native values. The libraries are function-typed fields the model does not look inside.
- Cachetic.SetThenGet: the round trip is not claimed for a write with a negative per-call `ex`. The store does not enforce expiry, and the real backends treat that entry as expired or refuse it.
- Cachetic.Client.Get: `isinstance(object_type, pydantic.BaseModel)` (a model instance rather than a class) is folded into the schema-model tag. The slightly different `hasattr` tests of `get` and `set` are folded in the same way.
- Dict values have string keys only, and a dict is an ordered list of pairs. Python's order-insensitive dict equality is not modelled.
- PyObjects.Truthy, Codecs.IntOf: for any other object (a tuple, a set, a user class) the model takes the truth value and the integer value as given with the object. It does not model `__bool__`, `__len__`, `__int__` or `__index__` raising. Floats are left out, as above.
- Codecs.IntOf, Decimal.Parse: the grammar of `int()` is reduced to an optional sign and ASCII digits. Surrounding whitespace, underscores, non-ASCII digits and the 4300-digit conversion limit are not modelled.
- Strings: a `string` holds Unicode scalar values. Python strings holding lone surrogates, and the `UnicodeEncodeError` they raise, are not modelled.
- URL parsing: `urllib.parse.urlparse` and `parse_qs` are library code. The URL arrives pre-split, with the query as `parse_qs` returns it. `hide_url_password` only affects error text.
- MongoDb.StrOrNone: `str_or_none` is not part of this model. It is taken to map only the empty string to None.
- MongoDb.MongoCache.Set: `math.ceil(ex)` is not modelled, because `ex` is an integer here.
- The clock: `time.time()` is the parameter `now`, already truncated by `int()`.
- The unique index on `name` (`create_index`) is the map keyed by name.
- Documents written by other programs without an `ex` field (a `KeyError` in `get`) are not modelled.
- `CacheProtocol` and `DocumentParam` are not part of this model.
- Configuration: pydantic-settings environment loading, the `VERSION` file, `cache_dir` and logging are not modelled. The local store at `cache_dir` is the `disk` store given to the client.
- Concurrency: lazy handle initialisation has no locking in the source. The model is sequential.
- `delete`, `default_ttl` and `prefix` exist only in the version of the client the tests target. The client modelled here has none of them.
