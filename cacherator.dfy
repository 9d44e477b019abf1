/** The per-owner persistent store of `cacherator/cacherator.py` (class `JSONCache`): the
    owner's entry map and attributes, the local JSON file (L1) and the remote table (L2). */
module Cacherator {
  import opened Wrappers
  import opened Strings
  import opened Sorting
  import opened JsonData

  const MaxFilenameLength := 180
  const TruncateLength := 140
  const CompressThreshold := 100_000
  /** The remote table's item-size ceiling (400 KB). */
  const DynamoMaxSize := 400_000
  /** The remote TTL, in days, used when the owner's TTL is not a number. */
  const DefaultRemoteTtlDays := 999
  /** Entry keys with this prefix are never written to a snapshot. */
  const ReservedEntryPrefix := "_json_cache_"
  /** Attribute names with this prefix are never written to a snapshot. */
  const ReservedVariablePrefix := "_json_cache"

  // ---------------------------------------------------------------- file name

  /** The file name before slugging: short ids verbatim, long ones truncated and hashed. */
  function CacheFileName(id: string, sha256: string -> Sha256Hex): (name: string)
    ensures |id| < MaxFilenameLength ==> name == id
    ensures |name| < MaxFilenameLength <==> |id| < MaxFilenameLength
    ensures |id| >= MaxFilenameLength ==>
      && |name| == TruncateLength + 1 + 64
      && StartsWith(name, id[..TruncateLength])
      && name[TruncateLength] == '-'
      && name[TruncateLength + 1..] == sha256(id)
  {
    if |id| < MaxFilenameLength then id
    else id[..TruncateLength] + "-" + sha256(id)
  }

  /** `<directory>[/]<name>.json`: a `/` is put between the two only where it is missing. */
  function FilePath(directory: string, name: string): (path: string)
    ensures StartsWith(path, directory) && EndsWith(path, name + ".json")
    ensures directory == "" ==> path == name + ".json"
    ensures |directory| + |name| + 5 <= |path| <= |directory| + |name| + 6
    ensures directory != "" ==> path[|path| - |name| - 6] == '/'
    ensures EndsWith(directory, "/") ==> path == directory + name + ".json"
  {
    var separator := if directory != "" && !EndsWith(directory, "/") then "/" else "";
    var head := directory + separator;
    var path := head + (name + ".json");
    assert path[..|directory|] == directory;
    assert path[|head|..] == name + ".json";
    path
  }

  // ---------------------------------------------------------------- snapshot

  /** The owner state the cache persists: its attributes and its entry map. */
  datatype CacheState<V> = CacheState(attrs: map<string, V>, funcCache: map<string, Entry<V>>)

  /** The attribute filter of `_cached_variables`. */
  predicate KeepsVariable<V>(name: string, value: V, excluded: seq<string>,
                             properties: set<string>, jsonable: V -> bool)
  {
    && name !in properties
    && !StartsWith(name, ReservedVariablePrefix)
    && name !in excluded
    && jsonable(value)
  }

  /** `_cached_variables` before sorting: the attributes that pass the filter. */
  function CachedVariables<V>(attrs: map<string, V>, excluded: seq<string>,
                              properties: set<string>, jsonable: V -> bool): (r: map<string, V>)
    ensures forall k :: k in r <==> k in attrs && KeepsVariable(k, attrs[k], excluded, properties, jsonable)
    ensures forall k :: k in r ==> r[k] == attrs[k]
  {
    map k | k in attrs && KeepsVariable(k, attrs[k], excluded, properties, jsonable) :: attrs[k]
  }

  /** The entry filter of `_json_cache_data`. */
  predicate KeepsEntry<V>(key: string, entry: Entry<V>, jsonable: V -> bool) {
    !StartsWith(key, ReservedEntryPrefix) && jsonable(entry.value)
  }

  /** The entries `_json_cache_data` writes, before sorting. */
  function KeptEntries<V>(funcCache: map<string, Entry<V>>, jsonable: V -> bool): (r: map<string, Entry<V>>)
    ensures forall k :: k in r <==> k in funcCache && KeepsEntry(k, funcCache[k], jsonable)
    ensures forall k :: k in r ==> r[k] == funcCache[k]
  {
    map k | k in funcCache && KeepsEntry(k, funcCache[k], jsonable) :: funcCache[k]
  }

  /** The document `_json_cache_data` returns at time `now`. */
  ghost function SnapshotOf<V>(st: CacheState<V>, excluded: seq<string>, properties: set<string>,
                               jsonable: V -> bool, now: int): Snapshot<V>
  {
    Snapshot(SortedItems(KeptEntries(st.funcCache, jsonable)),
             SortedItems(CachedVariables(st.attrs, excluded, properties, jsonable)),
             now)
  }

  // ---------------------------------------------------------------- loading

  /** `_load_variables_from_data`: restore the saved attributes when the snapshot is still
      within the TTL; a `Failure` is the exception it raises. */
  function LoadVariables<V>(doc: Document<V>, attrs: map<string, V>, ttl: Ttl, now: int)
    : (r: Result<map<string, V>, string>)
    requires doc.Dict?
    ensures r.Success? && r.value != attrs ==>
      doc.lastSave.Stamp? && doc.lastSave.time + ttl.Seconds() > now && doc.variables.Some?
    ensures doc.lastSave.NoDate? ==> r == Success(attrs)
    ensures doc.lastSave.Unparseable? ==> r.Failure?
    ensures doc.lastSave.Stamp? && doc.lastSave.time + ttl.Seconds() > now ==>
      r == if doc.variables.Some? then Success(attrs + doc.variables.value) else Failure("KeyError")
    ensures doc.lastSave.Stamp? && doc.lastSave.time + ttl.Seconds() <= now ==> r == Success(attrs)
  {
    match doc.lastSave
    case NoDate => Success(attrs)
    case Unparseable => Failure("ValueError")
    case Stamp(saved) =>
      if saved + ttl.Seconds() > now then
        if doc.variables.Some? then Success(attrs + doc.variables.value) else Failure("KeyError")
      else Success(attrs)
  }

  /** `_process_loaded_data`: reject a document without an entry map; otherwise restore the
      variables (if fresh) and then copy in every entry. An exception in the first step is
      logged and skips the second. */
  function ProcessLoaded<V>(doc: Document<V>, st: CacheState<V>, ttl: Ttl, now: int): (r: CacheState<V>)
    ensures !doc.Dict? || doc.funcCache.None? ==> r == st
    ensures r.funcCache == st.funcCache || (doc.Dict? && doc.funcCache.Some? && r.funcCache == st.funcCache + doc.funcCache.value)
    ensures r.attrs != st.attrs ==> doc.Dict? && doc.lastSave.Stamp? && doc.lastSave.time + ttl.Seconds() > now
    ensures doc.Dict? && doc.funcCache.Some? ==>
      r == match LoadVariables(doc, st.attrs, ttl, now)
           case Success(attrs) => CacheState(attrs, st.funcCache + doc.funcCache.value)
           case Failure(_) => st
    ensures doc.Dict? && doc.funcCache.Some? &&
            (doc.lastSave.NoDate? || (doc.lastSave.Stamp? && doc.lastSave.time + ttl.Seconds() <= now)) ==>
      r == CacheState(st.attrs, st.funcCache + doc.funcCache.value)
  {
    if !doc.Dict? || doc.funcCache.None? then st
    else
      match LoadVariables(doc, st.attrs, ttl, now)
      case Failure(_) => st
      case Success(attrs) => CacheState(attrs, st.funcCache + doc.funcCache.value)
  }

  /** Saving a state and loading the file back: every kept entry comes back, and the kept
      variables come back exactly when the snapshot is still within the loader's TTL. */
  lemma SaveThenLoad<V>(saved: CacheState<V>, excluded: seq<string>, properties: set<string>,
                        jsonable: V -> bool, savedAt: int, st: CacheState<V>, ttl: Ttl, now: int)
    ensures var doc := SnapshotOf(saved, excluded, properties, jsonable, savedAt).ToDocument();
      ProcessLoaded(doc, st, ttl, now) ==
        CacheState(if savedAt + ttl.Seconds() > now
                   then st.attrs + CachedVariables(saved.attrs, excluded, properties, jsonable)
                   else st.attrs,
                   st.funcCache + KeptEntries(saved.funcCache, jsonable))
  {
    ToMapOfSortedItems(KeptEntries(saved.funcCache, jsonable));
    ToMapOfSortedItems(CachedVariables(saved.attrs, excluded, properties, jsonable));
  }

  // ---------------------------------------------------------------- remote tier

  /** The remote TTL: the owner's TTL if it is a number of days, else 999. */
  function RemoteTtlDays(ttl: Ttl): (days: int)
    ensures ttl.Days? ==> days == ttl.days
    ensures ttl.Span? ==> days == DefaultRemoteTtlDays
  {
    if ttl.Days? then ttl.days else DefaultRemoteTtlDays
  }

  /** What `_write_to_dynamodb` puts for a snapshot: the document itself up to 100,000
      bytes of JSON, the compressed envelope above that, and nothing at all when even the
      compressed payload is over 400,000 bytes. */
  function RemoteWrite<V>(s: Snapshot<V>, ttl: Ttl, lib: Library<V>): (w: Option<Put<V>>)
    ensures |lib.dumps(s)| <= CompressThreshold ==>
      w == Some(Put(Plain(s.ToDocument()), RemoteTtlDays(ttl)))
    ensures |lib.dumps(s)| > CompressThreshold && |lib.gzip(lib.dumps(s))| <= DynamoMaxSize ==>
      w == Some(Put(Compressed(lib.b64encode(lib.gzip(lib.dumps(s)))), RemoteTtlDays(ttl)))
    ensures |lib.dumps(s)| > CompressThreshold && |lib.gzip(lib.dumps(s))| > DynamoMaxSize ==>
      w == None
  {
    var payload := lib.dumps(s);
    if |payload| > CompressThreshold then
      var compressed := lib.gzip(payload);
      if |compressed| > DynamoMaxSize then None
      else Some(Put(Compressed(lib.b64encode(compressed)), RemoteTtlDays(ttl)))
    else Some(Put(Plain(s.ToDocument()), RemoteTtlDays(ttl)))
  }

  /** `_load_from_dynamodb`: unwrap a compressed envelope, pass a plain item through. */
  function FromRemote<V>(item: Option<RemoteItem<V>>, lib: Library<V>): (d: Option<Document<V>>)
    ensures item.None? <==> d.None?
    ensures item.Some? && item.value.Plain? ==> d == Some(item.value.doc)
  {
    match item
    case None => None
    case Some(Plain(doc)) => Some(doc)
    case Some(Compressed(data)) => Some(lib.loads(lib.gunzip(lib.b64decode(data))))
  }

  /** Whatever the remote tier accepted reads back as the snapshot's document. */
  lemma RemoteRoundTrip<V(!new)>(s: Snapshot<V>, ttl: Ttl, lib: Library<V>)
    requires CodecsRoundTrip(lib)
    ensures RemoteWrite(s, ttl, lib).Some? ==>
      FromRemote(Some(RemoteWrite(s, ttl, lib).value.item), lib) == Some(s.ToDocument())
  {
    var payload := lib.dumps(s);
    if |payload| > CompressThreshold && |lib.gzip(payload)| <= DynamoMaxSize {
      calc {
        lib.loads(lib.gunzip(lib.b64decode(lib.b64encode(lib.gzip(payload)))));
        lib.loads(lib.gunzip(lib.gzip(payload)));
        lib.loads(payload);
        s.ToDocument();
      }
    }
  }

  /** The remote table after an optional put. */
  function AfterPut<V>(items: map<string, Put<V>>, id: string, w: Option<Put<V>>): map<string, Put<V>> {
    if w.Some? then items[id := w.value] else items
  }

  // ---------------------------------------------------------------- management

  /** `json_cache_clear` on the entry map: all of it, or the keys starting with `name`. */
  function Cleared<V>(m: map<string, Entry<V>>, name: Option<string>): (r: map<string, Entry<V>>)
    ensures name.None? ==> r == map[]
    ensures name.Some? ==> forall k :: k in r <==> k in m && !StartsWith(k, name.value)
    ensures forall k :: k in r ==> k in m && r[k] == m[k]
  {
    match name
    case None => map[]
    case Some(n) => map k | k in m && !StartsWith(k, n) :: m[k]
  }

  /** The function a key is counted under in `json_cache_stats`. */
  function Group(key: string): (g: string)
    ensures StartsWith(key, g) && '(' !in g
    ensures '(' in key ==> key[|g|] == '('
    ensures '(' !in key ==> g == key
  {
    if '(' in key then BeforeFirst(key, '(') else key
  }

  /** How many of `keys` are counted under `g`. */
  ghost function CountOf(keys: set<string>, g: string): nat {
    |set k | k in keys && Group(k) == g|
  }

  /** The sum of a count map's values. */
  ghost function SumValues(m: map<string, nat>): nat {
    if m == map[] then 0
    else
      var k :| k in m;
      m[k] + SumValues(m - {k})
  }

  lemma {:induction false} SumValuesRemove(m: map<string, nat>, x: string)
    requires x in m
    ensures SumValues(m) == m[x] + SumValues(m - {x})
    decreases |m|
  {
    var k :| k in m && SumValues(m) == m[k] + SumValues(m - {k});
    if k != x {
      assert |m - {k}| < |m| by { assert (m - {k}).Keys < m.Keys; }
      SumValuesRemove(m - {k}, x);
      assert |m - {x}| < |m| by { assert (m - {x}).Keys < m.Keys; }
      SumValuesRemove(m - {x}, k);
      assert m - {k} - {x} == m - {x} - {k};
    }
  }

  /** Counting one more key under `g` adds one to the total. */
  lemma SumValuesIncrement(m: map<string, nat>, g: string)
    ensures SumValues(m[g := if g in m then m[g] + 1 else 1]) == SumValues(m) + 1
  {
    var m' := m[g := if g in m then m[g] + 1 else 1];
    SumValuesRemove(m', g);
    assert m' - {g} == m - {g};
    if g in m {
      SumValuesRemove(m, g);
    } else {
      assert m - {g} == m;
    }
  }

  /** The result of `json_cache_stats`. */
  datatype Stats = Stats(totalEntries: nat, functions: map<string, nat>)

  /** A page of remote keys, `{"keys": [...], "last_key": ...}`. */
  datatype KeyPage = KeyPage(keys: seq<string>, lastKey: Option<string>)

  /** The two values the optional `cache_status` attribute records. */
  datatype CacheStatus = Hit | Miss

  // ---------------------------------------------------------------- stores

  /** The local file system, as a map from path to file content. */
  class LocalFiles<V> {
    var files: map<string, FileContent<V>>

    constructor (files: map<string, FileContent<V>>)
      ensures this.files == files
    {
      this.files := files;
    }
  }

  /** The remote table client (`DynamoDBStore`): items by cache id. */
  class RemoteTable<V> {
    /** `is_enabled()`; false as well when the client library is not installed. */
    const enabled: bool
    var items: map<string, Put<V>>
    /** `list_keys(limit, last_key)`, a paginated query this model does not look into. */
    const listKeys: (int, Option<string>) -> KeyPage

    constructor (enabled: bool, items: map<string, Put<V>>, listKeys: (int, Option<string>) -> KeyPage)
      ensures this.enabled == enabled && this.items == items && this.listKeys == listKeys
    {
      this.enabled := enabled;
      this.items := items;
      this.listKeys := listKeys;
    }

    method Get(id: string) returns (item: Option<RemoteItem<V>>)
      ensures item == if id in items then Some(items[id].item) else None
    {
      item := if id in items then Some(items[id].item) else None;
    }

    method Put(id: string, p: Put<V>)
      modifies this
      ensures items == old(items)[id := p]
    {
      items := items[id := p];
    }

    method Delete(id: string)
      modifies this
      ensures items == old(items) - {id}
    {
      items := items - {id};
    }
  }

  // ---------------------------------------------------------------- the owner

  class JSONCache<V> {
    /** `_json_cache_func_cache` */
    var funcCache: map<string, Entry<V>>
    /** The owner's other instance attributes, by name. */
    var attrs: map<string, V>
    /** The optional `cache_status` attribute (`None`: the owner does not have one). */
    var cacheStatus: Option<map<string, CacheStatus>>
    var lastCacheStatus: Option<CacheStatus>

    const directory: string
    const dataId: string
    const ttl: Ttl
    const clearCache: bool
    const logging: bool
    const dynamodbEnabled: bool
    const saveOnDel: bool
    /** `_excluded_cache_vars` */
    const excluded: seq<string>
    /** The names the owner's class defines as properties. */
    const properties: set<string>
    const lib: Library<V>
    const local: LocalFiles<V>
    const remote: RemoteTable<V>

    function State(): CacheState<V>
      reads this`attrs, this`funcCache
    {
      CacheState(attrs, funcCache)
    }

    /** `_json_cache_filename_with_path` */
    function FilenameWithPath(): (path: string)
      ensures StartsWith(path, directory)
      ensures EndsWith(path, lib.slugify(CacheFileName(dataId, lib.sha256)) + ".json")
    {
      FilePath(directory, lib.slugify(CacheFileName(dataId, lib.sha256)))
    }

    ghost function Snapshot(now: int): Snapshot<V>
      reads this`attrs, this`funcCache
    {
      SnapshotOf(State(), excluded, properties, lib.jsonable, now)
    }

    /** The stores after saving at `now`, starting from `files0` and `items0`; the remote
        table is written only when `toRemote`. */
    ghost predicate SavedFrom(files0: map<string, FileContent<V>>, items0: map<string, Put<V>>,
                              now: int, toRemote: bool)
      reads this`attrs, this`funcCache, local, remote
    {
      && local.files == files0[FilenameWithPath() := Json(Snapshot(now).ToDocument())]
      && remote.items == if toRemote then AfterPut(items0, dataId, RemoteWrite(Snapshot(now), ttl, lib))
                         else items0
    }

    /** The owner and the remote table after `_json_cache_load` at `now`, starting from
        state `st0` and the stores `files0` and `items0`. */
    ghost predicate LoadedFrom(st0: CacheState<V>, files0: map<string, FileContent<V>>,
                               items0: map<string, Put<V>>, now: int)
      reads this`attrs, this`funcCache, remote
    {
      var path := FilenameWithPath();
      if path !in files0 then
        && remote.items == items0
        && State() == (if !dynamodbEnabled || dataId !in items0 then st0
                       else ProcessLoaded(FromRemote(Some(items0[dataId].item), lib).value, st0, ttl, now))
      else if files0[path].Unreadable? then
        State() == st0 && remote.items == items0
      else
        && State() == ProcessLoaded(files0[path].doc, st0, ttl, now)
        && remote.items == if dynamodbEnabled then AfterPut(items0, dataId, RemoteWrite(Snapshot(now), ttl, lib))
                           else items0
    }

    /** A load that found the file at its path restored from that file's document. */
    lemma LoadedFromFile(st0: CacheState<V>, files0: map<string, FileContent<V>>,
                         items0: map<string, Put<V>>, now: int, doc: Document<V>)
      requires LoadedFrom(st0, files0, items0, now)
      requires FilenameWithPath() in files0 && files0[FilenameWithPath()] == Json(doc)
      ensures State() == ProcessLoaded(doc, st0, ttl, now)
    {
    }

    /** `__init__`: set the configuration, then load unless `clearCache`. The attributes a
        subclass sets before calling it are `attrs`. */
    constructor (dataId: Option<string>, className: string, directory: string, clearCache: bool,
                 ttl: Ttl, logging: bool, globalLogging: bool, saveOnDel: bool,
                 attrs: map<string, V>, excluded: seq<string>, properties: set<string>,
                 tracksStatus: bool, lib: Library<V>, local: LocalFiles<V>, remote: RemoteTable<V>,
                 now: int)
      modifies remote
      ensures this.dataId == if dataId.Some? && dataId.value != "" then dataId.value else className
      ensures this.logging == (globalLogging && logging)
      ensures this.dynamodbEnabled == remote.enabled
      ensures this.directory == directory && this.ttl == ttl && this.clearCache == clearCache
      ensures this.saveOnDel == saveOnDel && this.excluded == excluded && this.properties == properties
      ensures this.lib == lib && this.local == local && this.remote == remote
      ensures cacheStatus == (if tracksStatus then Some(map[]) else None) && lastCacheStatus == None
      ensures clearCache ==> State() == CacheState(attrs, map[]) && remote.items == old(remote.items)
      ensures !clearCache ==> LoadedFrom(CacheState(attrs, map[]), local.files, old(remote.items), now)
    {
      this.funcCache := map[];
      this.attrs := attrs;
      this.cacheStatus := if tracksStatus then Some(map[]) else None;
      this.lastCacheStatus := None;
      this.directory := directory;
      this.dataId := if dataId.Some? && dataId.value != "" then dataId.value else className;
      this.ttl := ttl;
      this.clearCache := clearCache;
      this.logging := globalLogging && logging;
      this.dynamodbEnabled := remote.enabled;
      this.saveOnDel := saveOnDel;
      this.excluded := excluded;
      this.properties := properties;
      this.lib := lib;
      this.local := local;
      this.remote := remote;
      new;
      if !clearCache {
        JsonCacheLoad(now);
      }
    }

    /** `_json_cache_data`: the kept entries and variables, sorted, stamped with `now`. */
    method JsonCacheData(now: int) returns (s: Snapshot<V>)
      ensures s == Snapshot(now)
    {
      var kept: map<string, Entry<V>> := map[];
      var rest := funcCache.Keys;
      while rest != {}
        invariant rest <= funcCache.Keys
        invariant forall k :: k in kept <==> k in funcCache && k !in rest && KeepsEntry(k, funcCache[k], lib.jsonable)
        invariant forall k :: k in kept ==> kept[k] == funcCache[k]
        decreases rest
      {
        var key :| key in rest;
        if !StartsWith(key, ReservedEntryPrefix) && lib.jsonable(funcCache[key].value) {
          kept := kept[key := funcCache[key]];
        }
        rest := rest - {key};
      }
      assert kept == KeptEntries(funcCache, lib.jsonable);
      var entries := SortItems(kept);
      var variables := SortItems(CachedVariables(attrs, excluded, properties, lib.jsonable));
      s := JsonData.Snapshot(entries, variables, now);
    }

    /** `_json_cache_save_l1`: write the snapshot to the local file. */
    method SaveL1(now: int)
      modifies local
      ensures local.files == old(local.files)[FilenameWithPath() := Json(Snapshot(now).ToDocument())]
    {
      var data := JsonCacheData(now);
      local.files := local.files[FilenameWithPath() := Json(data.ToDocument())];
    }

    /** `_write_to_dynamodb`: put the snapshot, compressed or not, unless it is too large. */
    method WriteToDynamodb(now: int)
      modifies remote
      ensures remote.items == AfterPut(old(remote.items), dataId, RemoteWrite(Snapshot(now), ttl, lib))
    {
      var data := JsonCacheData(now);
      var w := RemoteWrite(data, ttl, lib);
      if w.Some? {
        remote.Put(dataId, w.value);
      }
    }

    /** `json_cache_save`: L1 always, then L2 when it is enabled. */
    method JsonCacheSave(now: int)
      modifies local, remote
      ensures SavedFrom(old(local.files), old(remote.items), now, dynamodbEnabled)
    {
      SaveL1(now);
      if dynamodbEnabled {
        WriteToDynamodb(now);
      }
    }

    /** `_finalize_cache`: L1 always, L2 only with `save_on_del`. */
    method FinalizeCache(now: int)
      modifies local, remote
      ensures SavedFrom(old(local.files), old(remote.items), now, saveOnDel && dynamodbEnabled)
    {
      SaveL1(now);
      if saveOnDel && dynamodbEnabled {
        WriteToDynamodb(now);
      }
    }

    /** `_load_from_dynamodb` */
    method LoadFromDynamodb() returns (d: Option<Document<V>>)
      ensures d == FromRemote(if dataId in remote.items then Some(remote.items[dataId].item) else None, lib)
    {
      var item := remote.Get(dataId);
      d := FromRemote(item, lib);
    }

    /** `_load_variables_from_data`: the `setattr` loop; `ok` is false where it raises. */
    method LoadVariablesFromData(doc: Document<V>, now: int) returns (ok: bool)
      requires doc.Dict?
      modifies this`attrs
      ensures var r := LoadVariables(doc, old(attrs), ttl, now);
        ok == r.Success? && attrs == if ok then r.value else old(attrs)
    {
      match doc.lastSave
      case NoDate => ok := true;
      case Unparseable => ok := false;
      case Stamp(saved) =>
        if saved + ttl.Seconds() > now {
          if doc.variables.None? {
            ok := false;
          } else {
            var vars := doc.variables.value;
            var rest := vars.Keys;
            while rest != {}
              invariant rest <= vars.Keys
              invariant forall k :: k in attrs <==> k in old(attrs) || (k in vars && k !in rest)
              invariant forall k :: k in attrs ==> attrs[k] == if k in vars && k !in rest then vars[k] else old(attrs)[k]
              decreases rest
            {
              var key :| key in rest;
              attrs := attrs[key := vars[key]];
              rest := rest - {key};
            }
            assert attrs == old(attrs) + vars;
            ok := true;
          }
        } else {
          ok := true;
        }
    }

    /** `_load_function_cache_from_data`: copy every loaded entry into the entry map. */
    method LoadFunctionCacheFromData(loaded: map<string, Entry<V>>)
      modifies this`funcCache
      ensures funcCache == old(funcCache) + loaded
    {
      var rest := loaded.Keys;
      while rest != {}
        invariant rest <= loaded.Keys
        invariant forall k :: k in funcCache <==> k in old(funcCache) || (k in loaded && k !in rest)
        invariant forall k :: k in funcCache ==> funcCache[k] == if k in loaded && k !in rest then loaded[k] else old(funcCache)[k]
        decreases rest
      {
        var key :| key in rest;
        funcCache := funcCache[key := loaded[key]];
        rest := rest - {key};
      }
      assert funcCache == old(funcCache) + loaded;
    }

    /** `_process_loaded_data` */
    method ProcessLoadedData(doc: Document<V>, now: int)
      modifies this`attrs, this`funcCache
      ensures State() == ProcessLoaded(doc, old(State()), ttl, now)
    {
      if !doc.Dict? || doc.funcCache.None? {
        return;
      }
      var ok := LoadVariablesFromData(doc, now);
      if ok {
        LoadFunctionCacheFromData(doc.funcCache.value);
      }
    }

    /** `_json_cache_load`: L1 if the file exists (then backfill L2), L2 only if it does not. */
    method JsonCacheLoad(now: int)
      modifies this`attrs, this`funcCache, remote
      ensures LoadedFrom(old(State()), local.files, old(remote.items), now)
    {
      var path := FilenameWithPath();
      if path !in local.files {
        if dynamodbEnabled {
          var data := LoadFromDynamodb();
          if data.Some? {
            ProcessLoadedData(data.value, now);
          }
        }
        return;
      }
      match local.files[path]
      case Unreadable =>
        return;
      case Json(doc) =>
        ProcessLoadedData(doc, now);
        if dynamodbEnabled {
          WriteToDynamodb(now);
        }
    }

    /** `json_cache_clear`: drop all entries, or those whose key starts with `name`; the
        remote document is deleted in both cases when L2 is enabled. */
    method JsonCacheClear(name: Option<string>)
      modifies this`funcCache, remote
      ensures funcCache == Cleared(old(funcCache), name)
      ensures remote.items == if dynamodbEnabled then old(remote.items) - {dataId} else old(remote.items)
    {
      if name.None? {
        funcCache := map[];
      } else {
        var toRemove := set k | k in funcCache && StartsWith(k, name.value);
        while toRemove != {}
          invariant toRemove <= funcCache.Keys
          invariant forall k :: k in funcCache <==> k in old(funcCache) && (k in toRemove || !StartsWith(k, name.value))
          invariant forall k :: k in funcCache ==> funcCache[k] == old(funcCache)[k]
          invariant remote.items == old(remote.items)
          decreases toRemove
        {
          var key :| key in toRemove;
          funcCache := funcCache - {key};
          toRemove := toRemove - {key};
        }
        assert funcCache == Cleared(old(funcCache), name);
      }
      if dynamodbEnabled {
        remote.Delete(dataId);
      }
    }

    /** `json_cache_stats`: the number of entries, and per function how many keys it has. */
    method JsonCacheStats() returns (s: Stats)
      ensures s.totalEntries == |funcCache|
      ensures s.functions == Counts(funcCache.Keys)
      ensures forall k :: k in funcCache ==> Group(k) in s.functions
      ensures forall g :: g in s.functions ==> s.functions[g] == CountOf(funcCache.Keys, g) > 0
      ensures SumValues(s.functions) == s.totalEntries
    {
      var keys := funcCache.Keys;
      var functions: map<string, nat> := map[];
      var rest := keys;
      ghost var done: set<string> := {};
      while rest != {}
        invariant done + rest == keys && done !! rest
        invariant functions == Counts(done)
        decreases rest
      {
        var key :| key in rest;
        CountsAdd(done, key);
        functions := Bump(functions, Group(key));
        rest := rest - {key};
        done := done + {key};
      }
      CountsSum(keys);
      CountsMeaning(keys);
      s := Stats(|funcCache|, functions);
    }

    /** `json_cache_list_db_keys`: a pass-through to the remote table, empty without it. */
    method ListDbKeys(limit: int, lastKey: Option<string>) returns (page: KeyPage)
      ensures !dynamodbEnabled ==> page == KeyPage([], None)
      ensures dynamodbEnabled ==> page == remote.listKeys(limit, lastKey)
    {
      if dynamodbEnabled {
        page := remote.listKeys(limit, lastKey);
      } else {
        page := KeyPage([], None);
      }
    }
  }

  /** What a new owner with attributes `attrs` and no entries holds after loading a saved
      snapshot. */
  lemma ReopenedState<V>(saved: CacheState<V>, excluded: seq<string>, properties: set<string>,
                         jsonable: V -> bool, savedAt: int, attrs: map<string, V>, ttl: Ttl, now: int)
    ensures var doc := SnapshotOf(saved, excluded, properties, jsonable, savedAt).ToDocument();
      var vars := CachedVariables(saved.attrs, excluded, properties, jsonable);
      ProcessLoaded(doc, CacheState(attrs, map[]), ttl, now) ==
        CacheState(if savedAt + ttl.Seconds() > now then attrs + vars else attrs,
                   KeptEntries(saved.funcCache, jsonable))
  {
    SaveThenLoad(saved, excluded, properties, jsonable, savedAt, CacheState(attrs, map[]), ttl, now);
    EmptyUnion(KeptEntries(saved.funcCache, jsonable));
  }

  lemma EmptyUnion<K, W>(m: map<K, W>)
    ensures map[] + m == m
  {
    assert (map[] + m).Keys == m.Keys;
  }

  /** Opening a new owner over the same stores, id, directory and library as `first`, when
      the file at their path holds `doc`. */
  method Reopen<V>(first: JSONCache<V>, className: string, ttl: Ttl, attrs: map<string, V>,
                   tracksStatus: bool, now: int, ghost doc: Document<V>)
    returns (second: JSONCache<V>)
    requires first.dataId != ""
    requires first.FilenameWithPath() in first.local.files
    requires first.local.files[first.FilenameWithPath()] == Json(doc)
    modifies first.remote
    ensures second.State() == ProcessLoaded(doc, CacheState(attrs, map[]), ttl, now)
  {
    ghost var items := first.remote.items;
    second := new JSONCache(Some(first.dataId), className, first.directory, false, ttl,
                            first.logging, true, false, attrs, first.excluded, first.properties,
                            tracksStatus, first.lib, first.local, first.remote, now);
    assert second.FilenameWithPath() == first.FilenameWithPath();
    second.LoadedFromFile(CacheState(attrs, map[]), first.local.files, items, now, doc);
  }

  /** Saving an owner and then opening a new owner with the same id, directory, stores and
      library: the new owner starts with exactly the kept entries of the first, and with the
      kept variables of the first over its own when the snapshot is still within its TTL. */
  method SaveAndReopen<V>(first: JSONCache<V>, className: string, ttl: Ttl, attrs: map<string, V>,
                          tracksStatus: bool, savedAt: int, now: int)
    returns (second: JSONCache<V>)
    requires first.dataId != ""
    modifies first.local, first.remote
    ensures second.funcCache == KeptEntries(first.funcCache, first.lib.jsonable)
    ensures second.attrs == if savedAt + ttl.Seconds() > now
                            then attrs + CachedVariables(first.attrs, first.excluded, first.properties, first.lib.jsonable)
                            else attrs
  {
    ghost var doc := first.Snapshot(savedAt).ToDocument();
    ReopenedState(first.State(), first.excluded, first.properties, first.lib.jsonable, savedAt, attrs, ttl, now);
    first.JsonCacheSave(savedAt);
    second := Reopen(first, className, ttl, attrs, tracksStatus, now, doc);
  }

  /** One more key counted under `g`. */
  function Bump(counts: map<string, nat>, g: string): (r: map<string, nat>)
    ensures g in r && r[g] == (if g in counts then counts[g] else 0) + 1
    ensures forall h :: h != g ==> (h in r <==> h in counts) && (h in counts ==> r[h] == counts[h])
  {
    counts[g := if g in counts then counts[g] + 1 else 1]
  }

  /** The groups the keys fall into. */
  ghost function GroupsOf(keys: set<string>): set<string> {
    set k | k in keys :: Group(k)
  }

  /** What `json_cache_stats` reports for `keys`: per group, its number of keys. */
  ghost function Counts(keys: set<string>): map<string, nat> {
    map g | g in GroupsOf(keys) :: CountOf(keys, g)
  }

  /** Every key is counted under its group, and only groups that have a key appear. */
  lemma CountsMeaning(keys: set<string>)
    ensures forall k :: k in keys ==> Group(k) in Counts(keys)
    ensures forall g :: g in Counts(keys) ==> Counts(keys)[g] == CountOf(keys, g) && CountOf(keys, g) > 0
  {
    forall g | g in Counts(keys) ensures CountOf(keys, g) > 0 {
      var k :| k in keys && Group(k) == g;
      var members := set k' | k' in keys && Group(k') == g;
      assert members == (members - {k}) + {k};
    }
  }

  /** Adding a key adds its group. */
  lemma GroupsOfAdd(done: set<string>, key: string)
    ensures GroupsOf(done + {key}) == GroupsOf(done) + {Group(key)}
  {
  }

  /** Counting one more key bumps its group and nothing else. */
  lemma CountsAdd(done: set<string>, key: string)
    requires key !in done
    ensures Counts(done + {key}) == Bump(Counts(done), Group(key))
  {
    var g := Group(key);
    var lhs := Counts(done + {key});
    var rhs := Bump(Counts(done), g);
    GroupsOfAdd(done, key);
    assert lhs.Keys == rhs.Keys;
    forall h | h in lhs ensures lhs[h] == rhs[h] {
      CountOfAdd(done, key, h);
      if h == g && g !in GroupsOf(done) {
        CountOfAbsent(done, g);
      }
    }
  }

  /** A group none of the keys falls into counts zero. */
  lemma CountOfAbsent(keys: set<string>, g: string)
    requires g !in GroupsOf(keys)
    ensures CountOf(keys, g) == 0
  {
    assert (set k | k in keys && Group(k) == g) == {};
  }

  /** The per-function counts add up to the number of keys. */
  lemma {:induction false} CountsSum(keys: set<string>)
    ensures SumValues(Counts(keys)) == |keys|
    decreases |keys|
  {
    if keys == {} {
      assert Counts(keys) == map[];
    } else {
      var key :| key in keys;
      var done := keys - {key};
      CountsSum(done);
      CountsAdd(done, key);
      SumValuesIncrement(Counts(done), Group(key));
      assert done + {key} == keys;
    }
  }

  /** Adding a key changes only its own group's count, by one. */
  lemma CountOfAdd(done: set<string>, key: string, g: string)
    requires key !in done
    ensures CountOf(done + {key}, g) == CountOf(done, g) + if g == Group(key) then 1 else 0
  {
    var before := set k | k in done && Group(k) == g;
    var after := set k | k in done + {key} && Group(k) == g;
    if g == Group(key) {
      assert after == before + {key};
    } else {
      assert after == before;
    }
  }
}
