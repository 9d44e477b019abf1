/** The values the cache stores and exchanges: entries, TTLs, the persisted snapshot, the
    documents read back from the local file or the remote table, and the foreign library
    functions (hashing, slugging, JSON, gzip, base64) the core calls but does not define. */
module JsonData {
  import opened Wrappers
  import opened Sorting
  import opened Strings

  /** Seconds in a day: a bare number TTL counts days. */
  const SecondsPerDay := 86400

  /** One memoised result, `{"value": ..., "date": ...}`; dates are seconds on one clock. */
  datatype Entry<V> = Entry(value: V, date: int)

  /** A TTL as the source accepts it: a number of days, or a `timedelta` (in seconds). */
  datatype Ttl = Days(days: int) | Span(seconds: int)
  {
    /** `timedelta(days=n)` for a number, the `timedelta` itself otherwise. */
    function Seconds(): (s: int)
      ensures Days? ==> s == days * SecondsPerDay
      ensures Span? ==> s == seconds
    {
      match this
      case Days(n) => n * SecondsPerDay
      case Span(s) => s
    }
  }

  /** The document `_json_cache_data` builds: the entry map and the variable map, each in
      ascending key order, and the save date. */
  datatype Snapshot<V> = Snapshot(
    funcCache: seq<(string, Entry<V>)>,
    variables: seq<(string, V)>,
    lastSave: int)
  {
    /** What a reader of this document sees once it is parsed back into dictionaries. */
    function ToDocument(): Document<V> {
      Dict(Some(ToMap(funcCache)), Some(ToMap(variables)), Stamp(lastSave))
    }
  }

  /** The `_json_cache_last_save_date` field of a loaded document: absent or `None`, a
      date `strptime` accepts, or text it rejects (and so raises on). */
  datatype SaveDate = NoDate | Stamp(time: int) | Unparseable

  /** A parsed cache document. `NotADict` is any JSON value that is not an object; in a
      `Dict`, `None` stands for a missing key (or, for the variable map, a value that is
      not an object). */
  datatype Document<V> =
    | NotADict
    | Dict(funcCache: Option<map<string, Entry<V>>>,
           variables: Option<map<string, V>>,
           lastSave: SaveDate)

  /** The content of a local cache file: JSON that `json.load` rejects, or a document. */
  datatype FileContent<V> = Unreadable | Json(doc: Document<V>)

  /** An item of the remote table: the document itself, or the envelope
      `{"_compressed": True, "data": <base64 of gzip of the JSON>}`. */
  datatype RemoteItem<V> = Plain(doc: Document<V>) | Compressed(data: string)

  /** A remote put: the item and its TTL in days. */
  datatype Put<V> = Put(item: RemoteItem<V>, ttlDays: int)

  type Bytes = seq<bv8>

  /** The foreign functions the core calls. They are given, not defined, here. */
  datatype Library<!V> = Library(
    sha1: string -> Sha1Hex,           // sha1(s.encode()).hexdigest()
    sha256: string -> Sha256Hex,       // sha256(s.encode()).hexdigest()
    slugify: string -> string,         // slugify(s)
    repr: V -> string,                 // repr() of an argument value
    reprName: string -> string,        // repr() of a keyword-argument name
    jsonable: V -> bool,               // is_jsonable(v)
    dumps: Snapshot<V> -> Bytes,       // json.dumps(doc, cls=DateTimeEncoder).encode()
    loads: Bytes -> Document<V>,       // json.loads(b.decode())
    gzip: Bytes -> Bytes,              // gzip.compress
    gunzip: Bytes -> Bytes,            // gzip.decompress
    b64encode: Bytes -> string,        // base64.b64encode(b).decode()
    b64decode: string -> Bytes)        // base64.b64decode(s)

  /** The round trips the remote tier depends on: JSON, gzip and base64 each lose nothing. */
  ghost predicate CodecsRoundTrip<V(!new)>(lib: Library<V>) {
    && (forall s: Snapshot<V> :: lib.loads(lib.dumps(s)) == s.ToDocument())
    && (forall b: Bytes :: lib.gunzip(lib.gzip(b)) == b)
    && (forall b: Bytes :: lib.b64decode(lib.b64encode(b)) == b)
  }
}
