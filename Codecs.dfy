/**
 * The codec dispatch of the cache client: how `set` turns a value into the
 * payload it stores and how `get` turns a stored payload back into a value,
 * both chosen by the client's declared `object_type`.
 */
module Codecs {
  import opened Wrappers
  import opened PyObjects
  import Utf8
  import Decimal

  /**
   * A serializer and its parser from a library the client calls into
   * (pydantic, json, pickle). The model does not look inside them.
   */
  datatype Codec = Codec(dumps: PyObject -> Result<PyObject, Error>, loads: PyObject -> Result<PyObject, Error>)

  /** The module-level codecs every client shares. */
  datatype Libraries = Libraries(
    json: Codec,   // json.dumps(value, default=str) / json.loads(data)
    pickle: Codec  // pickle.dumps(value) / pickle.loads(data)
  )

  /**
   * The declared `object_type`, one tag per branch of the dispatch chains,
   * in the order the chains test them. `SchemaModel` is a pydantic model
   * class (its `model_dump_json` / `model_validate_json`), `TypeAdapter` a
   * pydantic TypeAdapter (its `dump_json` / `validate_json`). `Unsupported`
   * is any type the chains do not name.
   */
  datatype ObjectType =
    | SchemaModel(model: Codec)
    | TypeAdapter(adapter: Codec)
    | BytesType
    | StrType
    | IntType
    | BoolType
    | ListType
    | DictType
    | ObjectTag
    | Unsupported

  /** The tags whose codec the client writes out itself rather than calling a library. */
  predicate IsPrimitive(t: ObjectType)
  {
    t.BytesType? || t.StrType? || t.IntType? || t.BoolType?
  }

  /** The payload stored for `True`-ish values of the bool tag, `b"1"`. */
  const TrueByte: seq<Byte> := [0x31]
  /** The payload stored for `False`-ish values of the bool tag, `b"0"`. */
  const FalseByte: seq<Byte> := [0x30]

  /** The branch chain of `set`: the payload stored for `v`, or the exception raised. */
  function Encode(t: ObjectType, libs: Libraries, v: PyObject): (r: Result<PyObject, Error>)
    ensures t.Unsupported? ==> r == Err(UnsupportedObjectType)
    ensures t.StrType? ==> (r.Ok? <==> v.Str?)
    ensures (t.BytesType? || t.IntType? || t.BoolType?) ==> r.Ok?
    ensures t.BoolType? ==> r.value == Bytes(TrueByte) || r.value == Bytes(FalseByte)
  {
    match t
    case SchemaModel(c) => c.dumps(v)
    case TypeAdapter(c) => c.dumps(v)
    case BytesType => Ok(v)
    case StrType => if v.Str? then Ok(Bytes(Utf8.Encode(v.s))) else Err(NoEncodeAttribute)
    case IntType => Ok(v)
    case BoolType => Ok(Bytes(if Truthy(v) then TrueByte else FalseByte))
    case ListType => libs.json.dumps(v)
    case DictType => libs.json.dumps(v)
    case ObjectTag => libs.pickle.dumps(v)
    case Unsupported => Err(UnsupportedObjectType)
  }

  /** `int(data)`: the integer a payload denotes, or the exception `int()` raises. */
  function IntOf(data: PyObject): (r: Result<PyObject, Error>)
    ensures r.Ok? ==> r.value.Int?
    ensures r.Ok? <==> match data
                       case Int(_) => true
                       case Bool(_) => true
                       case Str(s) => Decimal.Parse(s).Some?
                       case Bytes(bs) => Utf8.Decode(bs).Some? && Decimal.Parse(Utf8.Decode(bs).value).Some?
                       case Instance(_, _, asInt) => asInt.Some?
                       case _ => false
    ensures data.Int? ==> r == Ok(data)
    ensures data.Bool? ==> r == Ok(Int(if data.b then 1 else 0))
    ensures data.Instance? && r.Ok? ==> r.value == Int(data.asInt.value)
    ensures r.Err? && !data.Str? && !data.Bytes? ==> r.error == NotIntConvertible
  {
    match data
    case Int(n) => Ok(data)
    case Bool(b) => Ok(Int(if b then 1 else 0))
    case Str(s) => TextToInt(s)
    case Bytes(bs) =>
      (match Utf8.Decode(bs)
       case None => Err(InvalidIntLiteral)
       case Some(s) => TextToInt(s))
    case Instance(_, _, Some(n)) => Ok(Int(n))
    case _ => Err(NotIntConvertible)
  }

  function TextToInt(s: string): (r: Result<PyObject, Error>)
    ensures r.Ok? <==> Decimal.Parse(s).Some?
    ensures r.Ok? ==> r.value == Int(Decimal.Parse(s).value)
    ensures r.Err? ==> r.error == InvalidIntLiteral
  {
    match Decimal.Parse(s)
    case None => Err(InvalidIntLiteral)
    case Some(n) => Ok(Int(n))
  }

  /** The branch chain of `get` once a payload was found: the value, or the exception raised. */
  function Decode(t: ObjectType, libs: Libraries, data: PyObject): (r: Result<PyObject, Error>)
    ensures t.Unsupported? ==> r == Err(UnsupportedObjectType)
    ensures IsPrimitive(t) && data != PyNone && r.Ok? ==> r.value != PyNone
    ensures t.BoolType? ==> r.Ok? && r.value.Bool?
  {
    match t
    case SchemaModel(c) => c.loads(data)
    case TypeAdapter(c) => c.loads(data)
    case BytesType => Ok(data)
    case StrType =>
      (match data
       case Bytes(bs) =>
         (match Utf8.Decode(bs)
          case None => Err(UnicodeDecodeError)
          case Some(s) => Ok(Str(s)))
       case Str(_) => Ok(data)
       case _ => Err(NotBytesOrStr))
    case IntType => IntOf(data)
    case BoolType => Ok(Bool(data != Bytes(FalseByte)))
    case ListType => libs.json.loads(data)
    case DictType => libs.json.loads(data)
    case ObjectTag => libs.pickle.loads(data)
    case Unsupported => Err(UnsupportedObjectType)
  }

  /**
   * A library codec that serializes `v` to a payload (never None: json and
   * pydantic produce text, pickle bytes) and parses that payload back to `v`.
   */
  ghost predicate RoundTrips(c: Codec, v: PyObject)
  {
    c.dumps(v).Ok? && c.dumps(v).value != PyNone && c.loads(c.dumps(v).value) == Ok(v)
  }

  /** The json codec round-trips every JSON-native value. */
  ghost predicate JsonRoundTrips(c: Codec)
  {
    forall v :: JsonNative(v) ==> RoundTrips(c, v)
  }

  /**
   * The values a tag promises to give back: every value for bytes, strings
   * for str, integers for int, booleans for bool, JSON-native values for
   * list and dict when json round-trips them, and for the library tags
   * whatever that library round-trips.
   */
  ghost predicate RoundTripCase(t: ObjectType, libs: Libraries, v: PyObject)
  {
    match t
    case SchemaModel(c) => RoundTrips(c, v)
    case TypeAdapter(c) => RoundTrips(c, v)
    case BytesType => true
    case StrType => v.Str?
    case IntType => v.Int?
    case BoolType => v.Bool?
    case ListType => JsonNative(v) && JsonRoundTrips(libs.json)
    case DictType => JsonNative(v) && JsonRoundTrips(libs.json)
    case ObjectTag => RoundTrips(libs.pickle, v)
    case Unsupported => false
  }

  /** Round trip of the dispatch: decoding what was encoded gives the value back. */
  lemma CodecRoundTrip(t: ObjectType, libs: Libraries, v: PyObject)
    requires RoundTripCase(t, libs, v)
    ensures Encode(t, libs, v).Ok? && Decode(t, libs, Encode(t, libs, v).value) == Ok(v)
    ensures Encode(t, libs, v).value == PyNone ==> v == PyNone
  {
    if t.StrType? {
      Utf8.DecodeEncode(v.s);
    }
  }

  /** Under the bool tag any value reads back as its truthiness. */
  lemma BoolReadsTruthiness(libs: Libraries, v: PyObject)
    ensures Decode(BoolType, libs, Encode(BoolType, libs, v).value) == Ok(Bool(Truthy(v)))
  {
  }

  /** Bool decoding: the payload `b"0"` reads as False, every other payload as True. */
  lemma BoolDecoding(libs: Libraries, data: PyObject)
    ensures Decode(BoolType, libs, data) == Ok(Bool(false)) <==> data == Bytes(FalseByte)
    ensures Decode(BoolType, libs, data) == Ok(Bool(true)) <==> data != Bytes(FalseByte)
  {
  }

  /**
   * Str decoding: a bytes payload is UTF-8-decoded (failing exactly when it
   * is ill-formed), a str payload comes back unchanged, and any other
   * payload raises TypeError.
   */
  lemma StrDecoding(libs: Libraries, data: PyObject)
    ensures data.Bytes? && Utf8.Decode(data.bytes).Some? ==>
              Decode(StrType, libs, data) == Ok(Str(Utf8.Decode(data.bytes).value))
    ensures data.Bytes? && Utf8.Decode(data.bytes).None? ==> Decode(StrType, libs, data) == Err(UnicodeDecodeError)
    ensures data.Str? ==> Decode(StrType, libs, data) == Ok(data)
    ensures !data.Bytes? && !data.Str? ==> Decode(StrType, libs, data) == Err(NotBytesOrStr)
    ensures Decode(StrType, libs, data).Ok? ==> Decode(StrType, libs, data).value.Str?
  {
  }

  /**
   * An integer reads back through `int()` also when the store kept its
   * decimal text, as str or as UTF-8 bytes (what a remote store hands back).
   */
  lemma IntFromDecimalText(libs: Libraries, n: int)
    ensures Decode(IntType, libs, Str(Decimal.Show(n))) == Ok(Int(n))
    ensures Decode(IntType, libs, Bytes(Utf8.Encode(Decimal.Show(n)))) == Ok(Int(n))
  {
    Decimal.ParseShow(n);
    Utf8.DecodeEncode(Decimal.Show(n));
  }
}
