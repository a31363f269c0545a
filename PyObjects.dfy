/**
 * The Python values the cache client passes around: the values callers cache,
 * the payloads the backends hold, and the exceptions raised along the way.
 */
module PyObjects {
  import opened Wrappers

  /** One byte of a Python `bytes` object. */
  type Byte = b: int | 0 <= b < 256

  /**
   * A Python object, as far as the cache client can tell them apart.
   * `Instance` is any other object (a pydantic model instance, a tuple, a
   * set, an object of a user class); the model does not look inside it. It
   * names it, and records what `bool()` gives for it (`__bool__`, `__len__`)
   * and what `int()` gives for it (`__int__`, `__index__`), None where
   * `int()` raises TypeError.
   */
  datatype PyObject =
    | PyNone
    | Bool(b: bool)
    | Int(n: int)
    | Str(s: string)
    | Bytes(bytes: seq<Byte>)
    | List(items: seq<PyObject>)
    | Dict(entries: seq<(string, PyObject)>)
    | Instance(id: nat, truthy: bool, asInt: Option<int>)

  /** The exceptions the modelled code raises or lets through. */
  datatype Error =
    | UnsupportedObjectType        // ValueError("Unsupported object type: ...")
    | MissingCacheUrl              // ValueError("The 'cache_url' is required ...")
    | CacheNotFound(key: string)   // CacheNotFoundError("Cache not found for key ...")
    | NotBytesOrStr                // TypeError("Expected bytes or str for string cache ...")
    | NoEncodeAttribute            // AttributeError: only `str` has `.encode`
    | UnicodeDecodeError           // bytes.decode("utf-8") on ill-formed UTF-8
    | InvalidIntLiteral            // ValueError from int() on text that is no integer
    | NotIntConvertible            // TypeError from int() on an object without an integer value
    | CodecFailure(reason: string) // whatever pydantic, json or pickle raise
    | InvalidMongoUrl(problem: UrlProblem)

  /** Why a MongoDB connection URL was refused. */
  datatype UrlProblem = EmptyUrl | SchemeNotMongo | NoDatabaseName | NoCollectionName

  /** Python truthiness, as `b"1" if value else b"0"` evaluates it. */
  predicate Truthy(v: PyObject)
    ensures !Truthy(v) <==>
              v in {PyNone, Bool(false), Int(0), Str([]), Bytes([]), List([]), Dict([])} || (v.Instance? && !v.truthy)
  {
    match v
    case PyNone => false
    case Bool(b) => b
    case Int(n) => n != 0
    case Str(s) => s != []
    case Bytes(bs) => bs != []
    case List(items) => items != []
    case Dict(entries) => entries != []
    case Instance(_, truthy, _) => truthy
  }

  /**
   * Values that JSON represents exactly: None, booleans, integers, strings,
   * and lists and string-keyed dicts (without repeated keys) of such values.
   * `json.dumps(..., default=str)` turns any other leaf (bytes, an instance)
   * into a string, so for those the JSON round trip does not hold.
   */
  ghost predicate JsonNative(v: PyObject)
  {
    match v
    case PyNone => true
    case Bool(_) => true
    case Int(_) => true
    case Str(_) => true
    case Bytes(_) => false
    case List(items) => forall i :: 0 <= i < |items| ==> JsonNative(items[i])
    case Dict(entries) =>
      && (forall i, j :: 0 <= i < j < |entries| ==> entries[i].0 != entries[j].0)
      && (forall i :: 0 <= i < |entries| ==> JsonNative(entries[i].1))
    case Instance(_, _, _) => false
  }
}
