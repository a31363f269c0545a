/**
 * `MongoCache`: a document-store backend without native expiry. The
 * connection URL must name a database (its path) and a collection (its
 * `collection` query parameter); each document holds a name, a value and an
 * absolute expiry in whole seconds, and an expired document is deleted by
 * the first `get` that sees it.
 *
 * The clock reading `int(time.time())` is the parameter `now`; the
 * collection is a map keyed by name (the unique index on `name`).
 */
module MongoDb {
  import opened Wrappers
  import opened PyObjects

  // ------------------------------------------------------------ the URL

  /**
   * A connection URL as `urllib.parse` splits it: the text itself, its
   * scheme, its path, and its query as `parse_qs` returns it (each
   * parameter name with its values in order).
   */
  datatype MongoUrl = MongoUrl(raw: string, scheme: string, path: string, query: map<string, seq<string>>)

  /** Where the client connects: database and collection names. */
  datatype Target = Target(dbName: string, colName: string)

  /** `str_or_none`: None for the empty string, the string otherwise. */
  function StrOrNone(s: string): (r: Option<string>)
    ensures r.None? <==> s == []
    ensures r.Some? ==> r.value == s
  {
    if s == [] then None else Some(s)
  }

  /** `s.startswith(prefix)`: the first characters of `s` are those of `prefix`, one by one. */
  predicate StartsWith(s: string, prefix: string)
    ensures StartsWith(s, prefix) <==> |prefix| <= |s| && forall i :: 0 <= i < |prefix| ==> s[i] == prefix[i]
  {
    |prefix| <= |s| && s[..|prefix|] == prefix
  }

  /** `s.lstrip("/")`. */
  function TrimStart(s: string): (r: string)
    ensures |r| <= |s| && r == s[|s| - |r|..]
    ensures forall i :: 0 <= i < |s| - |r| ==> s[i] == '/'
    ensures r == [] || r[0] != '/'
  {
    if s != [] && s[0] == '/' then TrimStart(s[1..]) else s
  }

  /** `s.rstrip("/")`. */
  function TrimEnd(s: string): (r: string)
    ensures |r| <= |s| && r == s[..|r|]
    ensures forall i :: |r| <= i < |s| ==> s[i] == '/'
    ensures r == [] || r[|r| - 1] != '/'
  {
    if s != [] && s[|s| - 1] == '/' then TrimEnd(s[..|s| - 1]) else s
  }

  /** `s.strip("/")`: a run of the characters of `s` with no slash at either end. */
  function Strip(s: string): (r: string)
    ensures |r| <= |s|
    ensures r == [] || (r[0] != '/' && r[|r| - 1] != '/')
  {
    var t := TrimStart(s);
    assert TrimEnd(t) == [] || TrimEnd(t)[0] == t[0];
    TrimEnd(t)
  }

  /** `strip("/")` leaves nothing exactly when `s` is all slashes (or empty): the no-database case. */
  lemma StripEmpty(s: string)
    ensures Strip(s) == [] <==> forall i :: 0 <= i < |s| ==> s[i] == '/'
  {
    var t := TrimStart(s);
    if Strip(s) != [] {
      assert Strip(s)[0] == t[0] != '/';
      assert s[|s| - |t|] == t[0];
    }
  }

  /** The `collection` values of the query, `[]` when the parameter is absent. */
  function CollectionNames(query: map<string, seq<string>>): (names: seq<string>)
    ensures names != [] <==> "collection" in query && query["collection"] != []
    ensures names != [] ==> names == query["collection"]
  {
    if "collection" in query then query["collection"] else []
  }

  /**
   * The checks `MongoCache.__init__` makes before connecting, in its order:
   * a non-empty URL, a scheme starting with "mongo", a database name in the
   * path, at least one `collection` value (the first one is used).
   */
  function Validate(u: MongoUrl): (r: Result<Target, Error>)
    ensures r.Ok? ==> "collection" in u.query && u.query["collection"] != []
    ensures r.Ok? ==> r.value == Target(Strip(u.path), u.query["collection"][0])
    ensures r.Ok? ==> r.value.dbName != [] && r.value.dbName[0] != '/' && r.value.dbName[|r.value.dbName| - 1] != '/'
    ensures r.Err? ==> r.error.InvalidMongoUrl?
  {
    if StrOrNone(u.raw).None? then
      Err(InvalidMongoUrl(EmptyUrl))
    else if !StartsWith(u.scheme, "mongo") then
      Err(InvalidMongoUrl(SchemeNotMongo))
    else
      var dbName := StrOrNone(Strip(u.path));
      var colNames := CollectionNames(u.query);
      if dbName.None? then
        Err(InvalidMongoUrl(NoDatabaseName))
      else if |colNames| == 0 then
        Err(InvalidMongoUrl(NoCollectionName))
      else
        Ok(Target(dbName.value, colNames[0]))
  }

  /** A URL is accepted exactly when it is non-empty, has a "mongo" scheme, a database name and a collection. */
  lemma ValidateAccepts(u: MongoUrl)
    ensures Validate(u).Ok? <==>
              && u.raw != []
              && StartsWith(u.scheme, "mongo")
              && (exists i :: 0 <= i < |u.path| && u.path[i] != '/')
              && "collection" in u.query && u.query["collection"] != []
  {
    StripEmpty(u.path);
  }

  /** Each refusal names the first check that fails, in the constructor's order. */
  lemma ValidateRefusals(u: MongoUrl)
    ensures Validate(u) == Err(InvalidMongoUrl(EmptyUrl)) <==> u.raw == []
    ensures Validate(u) == Err(InvalidMongoUrl(SchemeNotMongo)) <==> u.raw != [] && !StartsWith(u.scheme, "mongo")
    ensures Validate(u) == Err(InvalidMongoUrl(NoDatabaseName)) <==>
              u.raw != [] && StartsWith(u.scheme, "mongo") && forall i :: 0 <= i < |u.path| ==> u.path[i] == '/'
    ensures Validate(u) == Err(InvalidMongoUrl(NoCollectionName)) <==>
              && u.raw != [] && StartsWith(u.scheme, "mongo")
              && (exists i :: 0 <= i < |u.path| && u.path[i] != '/')
              && ("collection" !in u.query || u.query["collection"] == [])
  {
    StripEmpty(u.path);
  }

  // ------------------------------------------------------ the documents

  /** A stored document: the value and its absolute expiry (None: never expires). */
  datatype Doc = Doc(value: seq<Byte>, ex: Option<int>)

  type Collection = map<string, Doc>

  /**
   * The expiry `set` stores: none when `ex` is None or below 1, else the
   * clock reading plus `ex`, always a time after `now`.
   */
  function StoredExpiry(ex: Option<int>, now: int): (e: Option<int>)
    ensures e.None? <==> ex.None? || ex.value < 1
    ensures e.Some? ==> e.value == now + ex.value && e.value > now
  {
    if ex.None? || ex.value < 1 then None else Some(now + ex.value)
  }

  /**
   * A document whose expiry lies strictly before `now`: in whole seconds,
   * from the second after its expiry on; a document without one never expires.
   */
  predicate Expired(d: Doc, now: int)
    ensures Expired(d, now) <==> d.ex.Some? && now >= d.ex.value + 1
  {
    d.ex.Some? && d.ex.value < now
  }

  /** `set`: the collection after the upsert by name. */
  function Upsert(col: Collection, name: string, value: seq<Byte>, ex: Option<int>, now: int): (c: Collection)
    ensures c.Keys == col.Keys + {name}
    ensures c[name] == Doc(value, StoredExpiry(ex, now))
    ensures forall n :: n in col && n != name ==> c[n] == col[n]
  {
    col[name := Doc(value, StoredExpiry(ex, now))]
  }

  /** `get`: the value returned and the collection afterwards. */
  function Read(col: Collection, name: string, now: int): (r: (Option<seq<Byte>>, Collection))
    ensures name !in col ==> r == (None, col)
    ensures name in col && col[name].ex.None? ==> r == (Some(col[name].value), col)
    ensures name in col && Expired(col[name], now) ==> r == (None, col - {name})
    ensures name in col && !Expired(col[name], now) ==> r == (Some(col[name].value), col)
  {
    if name !in col then (None, col)
    else
      var doc := col[name];
      if doc.ex.None? then (Some(doc.value), col)
      else if doc.ex.value < now then (None, col - {name})
      else (Some(doc.value), col)
  }

  /** `get` deletes at most the document it was asked for, and only when it reports a miss. */
  lemma ReadDeletesOnlyName(col: Collection, name: string, now: int)
    ensures Read(col, name, now).1 == col || (Read(col, name, now).0.None? && Read(col, name, now).1 == col - {name})
    ensures Read(col, name, now).0.Some? ==> Read(col, name, now).1 == col
  {
  }

  /**
   * After `set(name, v, ex)` at time t, `get(name)` at time t' returns v
   * exactly when the write had no expiry (`ex` None or below 1) or
   * t' <= t + ex; otherwise it deletes the document and returns None.
   */
  lemma SetThenGet(col: Collection, name: string, v: seq<Byte>, ex: Option<int>, t: int, t': int)
    ensures var c := Upsert(col, name, v, ex, t);
            && (Read(c, name, t').0 == Some(v) <==> ex.None? || ex.value < 1 || t' <= t + ex.value)
            && (Read(c, name, t').0 == Some(v) ==> Read(c, name, t').1 == c)
            && (Read(c, name, t').0 != Some(v) ==> Read(c, name, t') == (None, c - {name}))
  {
  }

  /** The expiry boundary: a document is still returned at its expiry second and gone one second later. */
  lemma ExpiryBoundary(col: Collection, name: string, v: seq<Byte>, ex: int, t: int)
    requires ex >= 1
    ensures Read(Upsert(col, name, v, Some(ex), t), name, t + ex).0 == Some(v)
    ensures Read(Upsert(col, name, v, Some(ex), t), name, t + ex + 1) == (None, Upsert(col, name, v, Some(ex), t) - {name})
  {
  }

  /** Once `get` reports a miss, the name stays absent for every later `get` and nothing else changes. */
  lemma MissIsFinal(col: Collection, name: string, now: int, later: int)
    requires Read(col, name, now).0.None?
    ensures name !in Read(col, name, now).1
    ensures Read(Read(col, name, now).1, name, later) == (None, Read(col, name, now).1)
  {
  }

  /** An upsert does not change what `get` returns for any other name, nor whether `get` evicts it. */
  lemma UpsertLeavesOtherNames(col: Collection, name: string, v: seq<Byte>, ex: Option<int>, now: int, other: string)
    requires other != name
    ensures Read(Upsert(col, name, v, ex, now), other, now) ==
              (Read(col, other, now).0, if other in col && Expired(col[other], now) then Upsert(col, name, v, ex, now) - {other} else Upsert(col, name, v, ex, now))
  {
  }

  // -------------------------------------------------------------- state

  class MongoCache {
    const cacheUrl: string
    const dbName: string
    const colName: string
    var col: Collection

    constructor(cacheUrl: string, target: Target, docs: Collection)
      ensures this.cacheUrl == cacheUrl && dbName == target.dbName && colName == target.colName
      ensures col == docs
    {
      this.cacheUrl := cacheUrl;
      dbName := target.dbName;
      colName := target.colName;
      col := docs;
    }

    /**
     * `MongoCache(cache_url)`: validates the URL and connects to the named
     * collection, whose documents are `docs`; ValueError for a bad URL.
     */
    static method Connect(u: MongoUrl, docs: Collection) returns (r: Result<MongoCache, Error>)
      ensures r.Err? <==> Validate(u).Err?
      ensures r.Err? ==> r.error == Validate(u).error
      ensures r.Ok? ==> fresh(r.value) && r.value.col == docs && r.value.cacheUrl == u.raw
      ensures r.Ok? ==> r.value.dbName == Validate(u).value.dbName && r.value.colName == Validate(u).value.colName
    {
      match Validate(u)
      case Err(e) =>
        r := Err(e);
      case Ok(target) =>
        var cache := new MongoCache(u.raw, target, docs);
        r := Ok(cache);
    }

    /** `set(name, value, ex)` at clock reading `now`. */
    method Set(name: string, value: seq<Byte>, ex: Option<int>, now: int)
      modifies this
      ensures col == Upsert(old(col), name, value, ex, now)
    {
      var expiry: Option<int> := if ex.None? || ex.value < 1 then None else Some(ex.value);
      if expiry.Some? {
        expiry := Some(now + expiry.value);
      }
      col := col[name := Doc(value, expiry)];
    }

    /** `get(name)` at clock reading `now`. */
    method Get(name: string, now: int) returns (r: Option<seq<Byte>>)
      modifies this
      ensures (r, col) == Read(old(col), name, now)
    {
      if name !in col {
        return None;
      }
      var doc := col[name];
      if doc.ex.None? {
        return Some(doc.value);
      }
      if doc.ex.value < now {
        col := col - {name};
        return None;
      }
      r := Some(doc.value);
    }
  }
}
