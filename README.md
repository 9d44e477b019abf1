# cacherator, modelled in Dafny

cacherator is a Python library that memoises methods of an object and persists the results.
A class derives from `JSONCache`. Its methods are wrapped with the `Cached` decorator. Each
call is keyed by a fingerprint of the function name and the arguments. The result is stored
in the owner's entry map (`_json_cache_func_cache`) with the time it was computed. Later
calls within the TTL return the stored value without running the function again. The owner
persists its entries and its JSON-serialisable attributes. They go to a local JSON file (the
L1 tier) and, when configured, to a DynamoDB table (the L2 tier). Large remote payloads are
gzip-compressed.

The model has six files:

- `wrappers.dfy`: `Option` and `Result`.
- `strings.dfy`: prefixes, Python's string order and the text before the first `(`.
- `sorting.dfy`: `dict(sorted(d.items()))` on string-keyed dictionaries.
- `json_data.dfy`: entries, TTLs, the persisted snapshot, the documents read back and the
  foreign library functions.
- `cacherator.dfy`: the store, with `JSONCache` as a class over two store objects.
  `LocalFiles` maps paths to file contents. `RemoteTable` maps cache ids to items.
- `cached_function.dfy`: the call fingerprint and the `Cached` wrapper, as a class holding
  the run list.

Time is an integer number of seconds on one clock. A TTL is either a number of days
(`Days(n)`, i.e. `n * 86400` seconds) or a `timedelta` (`Span(seconds)`). The clock is a
parameter: each operation reads it once, as `now`. Hashes, `slugify`, `repr`, JSON, gzip and
base64 are fields of a `Library` record. The digests are subset types of 40 and 64 lowercase
hex characters. The remote round trip holds under the stated assumption `CodecsRoundTrip`
(JSON, gzip and base64 each decode what they encoded). An exception is a `Failure` result,
or the `ok` flag of a method. Where the source catches and logs an exception, the model
keeps whatever the source had changed before it was raised. The exceptions the model
represents are raised before any change (an unparseable save date, a missing variable map,
a wrapped function that raises). The ones it does not represent are listed under
"## Left out".

## Model

| member | source | states |
|---|---|---|
| CachedFunction.TupleRepr | cacherator/cached_function.py:37 | `str()` of the argument tuple is enclosed in `(` and `)`; no arguments give `()`, one gives `(a,)` |
| CachedFunction.DictRepr | cacherator/cached_function.py:37 | `str()` of the keyword arguments is enclosed in `{` and `}`; none give `{}`, one gives `{'k': v}` |
| CachedFunction.CachedCall.NameWithArgs | cacherator/cached_function.py:34-37 | the call text starts with the function name, followed at once by `(` |
| CachedFunction.SignatureOf | cacherator/cached_function.py:39-49 | texts under 180 characters are the key verbatim; longer ones keep the first 149 characters, then `_`, then `function_hash`, the SHA-1 of the whole text; a key is shorter than 180 exactly when its text is (and is then the text), and otherwise has exactly 190 characters |
| CachedFunction.CachedCall.Signature | cacherator/cached_function.py:44-49 | a call's key is its text when shorter than 180, and is otherwise exactly 190 characters long |
| CachedFunction.SignatureIgnoresOwner | cacherator/cached_function.py:29-37 | two calls with the same function, positional arguments after the owner and keyword arguments get the same key, whatever their owners |
| CachedFunction.SignatureKeepsPrefix | cacherator/cached_function.py:47-49 | a key agrees with its call text on any prefix of up to 149 characters |
| CachedFunction.GroupOfSignatureOf | cacherator/cached_function.py:47-49 | a key whose text begins `name(` is counted under `name` by the statistics, for a name without `(` shorter than 149 characters, short or hashed key alike |
| CachedFunction.StatsGroupOfSignature | cacherator/cached_function.py:37 | the statistics count every call of a function under that function's name (name without `(`, shorter than 149 characters) |
| CachedFunction.ClearByNameCoversLongerNames | cacherator/cacherator.py:210 | clearing by a name of at most 149 characters removes every call of every function whose name starts with it: clearing `func1` also clears `func10` |
| CachedFunction.ClearByLongNameMissesShortenedKeys | cacherator/cacherator.py:210 | clearing by a name longer than 149 characters whose 150th character is not `_` leaves every shortened key (text of 180 characters or more) in place |
| CachedFunction.MaxDelta | cacherator/cached_function.py:63-71 | the effective TTL is the decorator's own when given, else the owner's; a number of days counts 86400 seconds a day |
| CachedFunction.Recorded | cacherator/cached_function.py:164-166 | recording a status keeps an absent `cache_status` absent and otherwise sets the key's status, adding only that key and leaving every other key's status as it was |
| CachedFunction.Cached.constructor | cacherator/cached_function.py:58-61 | a new decorator keeps its TTL and `clear_cache` flag and has an empty run list |
| CachedFunction.Cached.RetrieveFromClassCache | cacherator/cached_function.py:103-109 | the stored entry for the call's key, or none exactly when the owner has no entry under that key |
| CachedFunction.Cached.StoreInClassCache | cacherator/cached_function.py:73-86 | the function runs first (`run()` at lines 51-53: the wrapped function on the positional arguments after the owner and the keyword arguments, an exception being a `Failure`); if it raises, nothing is written or saved; otherwise `{value, now}` is written at the call's key only and the owner is saved to L1 and (if enabled) L2 |
| CachedFunction.Cached.RecordStatus | cacherator/cached_function.py:171-173 | an owner with `cache_status` gets the key's status and `last_cache_status` set; an owner without one is untouched |
| CachedFunction.Cached.RunAndStore | cacherator/cached_function.py:169-174 | the miss path: on success the entry is written at its key only, the owner saved, the key appended to the run list and the status set to miss; on an exception nothing changes and it propagates |
| CachedFunction.Cached.Call | cacherator/cached_function.py:148-174 | the function runs exactly when it is not the case that (no `clear_cache`, or the key already ran here) and an entry exists and `date + ttl > now`; a hit returns the stored value and changes only the status; a miss behaves as `RunAndStore` |
| CachedFunction.CallTwice | cacherator/cached_function.py:157-170 | after a call that ran the function and returned, the same call runs it again exactly when `date + ttl` has been reached, and otherwise returns the same value, whatever `clear_cache` is; after a call that raised, a later call runs the function again (and, the wrapped function being a fixed function of its arguments here, raises the same); with `clear_cache`, the first call for a key always runs |
| Cacherator.CacheFileName | cacherator/cacherator.py:106-109 | ids under 180 characters are the file name verbatim; longer ids give exactly 205 characters: the first 140, `-`, and the SHA-256 of the id; a name is short exactly when its id is |
| Cacherator.JSONCache.FilenameWithPath | cacherator/cacherator.py:103-112 | the owner's path starts with its directory and ends with the slug of its file name and `.json` |
| Cacherator.FilePath | cacherator/cacherator.py:110-112 | the path starts with the directory and ends with `<name>.json`; one `/` is inserted only when the directory is non-empty and does not end with `/` |
| Cacherator.CachedVariables | cacherator/cacherator.py:114-123 | exactly the attributes that are not properties, do not start with `_json_cache`, are not excluded and are JSON-serialisable, with their values |
| Cacherator.KeptEntries | cacherator/cacherator.py:133-135 | exactly the entries whose key does not start with `_json_cache_` and whose value is JSON-serialisable |
| Sorting.SortKeys | cacherator/cacherator.py:124 | the keys in strictly ascending string order, each exactly once |
| Sorting.SortedItems | cacherator/cacherator.py:136 | items in strictly ascending key order, each carrying its map value, covering every key |
| Sorting.ToMapOfSortedItems | cacherator/cacherator.py:124 | rebuilding a dictionary from its sorted items gives the same dictionary |
| Cacherator.JSONCache.JsonCacheData | cacherator/cacherator.py:126-137 | the snapshot holds the kept entries and the kept variables, each sorted, stamped with `now` |
| Cacherator.LoadVariables | cacherator/cacherator.py:240-250 | no save date leaves the attributes alone; an unparseable date raises; a date within the TTL restores the saved variables over the attributes (raising without a variable map); a stale date leaves them alone |
| Cacherator.ProcessLoaded | cacherator/cacherator.py:190-199 | a document that is not a dict or has no entry map changes nothing; otherwise, when the variable step succeeds its attributes are kept and the stored entries are added to the function cache, and when it raises the state is unchanged; without a save date or with a stale one the entries are added and the attributes kept; attributes change only for a snapshot within the TTL |
| Cacherator.SaveThenLoad | cacherator/cacherator.py:240-259 | loading a saved snapshot adds back every kept entry, and the kept variables exactly when the snapshot is within the loader's TTL |
| Cacherator.ReopenedState | cacherator/cacherator.py:84-85 | a fresh owner that loads a saved snapshot holds exactly its kept entries, and its attributes overlaid with the kept variables when fresh |
| Cacherator.SaveAndReopen | cacherator/cacherator.py:54-86 | saving one owner and constructing another with the same id, directory and stores: the new owner starts with the first's kept entries and, within its TTL, the first's kept variables |
| Cacherator.RemoteTtlDays | cacherator/cacherator.py:263 | the remote TTL is the owner's number of days, else 999 |
| Cacherator.RemoteWrite | cacherator/cacherator.py:261-275 | up to 100,000 bytes of JSON the document itself is put; above that the compressed envelope is put if it is at most 400,000 bytes; otherwise nothing is put |
| Cacherator.FromRemote | cacherator/cacherator.py:184-188 | no item gives no data; a plain item is returned as is; an envelope is decoded |
| Cacherator.RemoteRoundTrip | cacherator/cacherator.py:184-188 | whatever the remote write put reads back as the snapshot's document, compressed or not |
| Cacherator.JSONCache.constructor | cacherator/cacherator.py:54-86 | the id falls back to the class name, logging is the global flag and the argument, L2 is enabled iff the table client is; the owner loads unless `clear_cache` |
| Cacherator.JSONCache.SaveL1 | cacherator/cacherator.py:145-154 | the local file at the owner's path holds the current snapshot; no other file changes |
| Cacherator.JSONCache.WriteToDynamodb | cacherator/cacherator.py:261-275 | the remote table gets the `RemoteWrite` put for the current snapshot under the owner's id, or stays unchanged |
| Cacherator.JSONCache.JsonCacheSave | cacherator/cacherator.py:156-163 | L1 always, then L2 exactly when it is enabled |
| Cacherator.JSONCache.FinalizeCache | cacherator/cacherator.py:139-143 | L1 always, L2 only when `save_on_del` and L2 is enabled |
| Cacherator.JSONCache.LoadFromDynamodb | cacherator/cacherator.py:184-188 | the decoded remote item under the owner's id, or none |
| Cacherator.JSONCache.LoadVariablesFromData | cacherator/cacherator.py:240-250 | the attributes become what `LoadVariables` gives, and stay as they were where it raises |
| Cacherator.JSONCache.LoadFunctionCacheFromData | cacherator/cacherator.py:252-259 | every loaded entry is copied in, over any entry with the same key; other entries stay |
| Cacherator.JSONCache.ProcessLoadedData | cacherator/cacherator.py:190-199 | the owner's attributes and entries become `ProcessLoaded` of the document and the old state |
| Cacherator.JSONCache.JsonCacheLoad | cacherator/cacherator.py:165-182 | an existing file is loaded and then backfilled to L2 when enabled; an unreadable file changes nothing; a missing file loads from L2 only when enabled, without writing it back |
| Cacherator.JSONCache.JsonCacheClear | cacherator/cacherator.py:205-214 | no name empties the entry map; a name removes exactly the keys starting with it and keeps the rest unchanged; with L2 enabled the remote document is deleted in both cases |
| Cacherator.Cleared | cacherator/cacherator.py:207-212 | clearing keeps only entries of the old map, unchanged, and exactly those not starting with the name |
| Cacherator.Group | cacherator/cacherator.py:220 | a key's group is the text before its first `(`, or the whole key without one |
| Cacherator.Bump | cacherator/cacherator.py:221-223 | counting a key adds one to its group, starting from zero, and leaves other groups alone |
| Cacherator.CountsMeaning | cacherator/cacherator.py:219-223 | every key's group is counted; each counted group's value is its number of keys, at least one |
| Cacherator.CountsSum | cacherator/cacherator.py:216-224 | the per-function counts add up to the number of keys |
| Cacherator.JSONCache.JsonCacheStats | cacherator/cacherator.py:216-224 | the total is the number of entries, every key's group appears, each group counts its keys, and the counts add up to the total |
| Cacherator.JSONCache.ListDbKeys | cacherator/cacherator.py:226-238 | the table's page when L2 is enabled, else no keys and no last key |

## Left out

- Logging (`Logger.note`, `_log_error`): an external sink. Only the flag `_global_logging and logging` is kept, in the constructor. `set_logging`, `_should_log`, `__str__` and `__repr__` are left out.
- File I/O: the local tier is a map from path to content. `os.makedirs`, write failures and encoding are not modelled. A file that `json.load` rejects is `Unreadable`. The JSON file round trip is taken as lossless, so the saved document is stored directly.
- The DynamoDB client: a map from id to item, with put, delete and get. Item expiry by TTL and `is_enabled` are not modelled (`enabled` is a given flag). `list_keys` is an opaque function.
- Cacherator.JSONCache.JsonCacheLoad: a compressed remote item that fails to decode raises out of `_json_cache_load` in the source. Here the decoders are total, so that exception is not modelled. The same holds for an exception raised by the L2 backfill after an L1 load.
- Cacherator.JSONCache.LoadFunctionCacheFromData: in the source this step can raise part-way, on an entry that is not a dictionary or a text `date` that `strptime` rejects. `_process_loaded_data` then logs the exception and keeps the variables already restored and the entries already copied, including the failing one with its date still text; later wrapper calls for that key raise when comparing its date. Entries are already-decoded values here, so this step never raises and the partial state is not modelled.
- Cacherator.JSONCache.JsonCacheSave: when the L2 write raises (a client or encoding error), the source logs it and keeps the L1 write. The model's remote writes never raise, so this partial save is not modelled.
- Dates as text: `_DATETIME_FORMAT`, `strptime` and `DateTimeEncoder` are left out. Dates are integers; a save date is absent, a time, or text that `strptime` rejects. The conversion of entry dates in `_load_function_cache_from_data` is therefore the identity.
- Float TTLs and `timedelta(days=float)`: TTLs are whole days or whole seconds.
- Cacherator.KeptEntries: `is_jsonable` is applied to the stored value. The source applies it to the whole `{value, date}` entry, and the date is always serialisable by the encoder.
- Cacherator.CachedVariables: the control attributes `_dynamodb_enabled`, `_save_on_del`, `_dynamodb`, `_excluded_cache_vars`, `cache_status` and `last_cache_status` are fields of the class here, not part of the attribute map. The source's `vars(self)` also snapshots and restores those that are JSON-serialisable; in particular, after a load within the TTL, the source's back-fill test (cacherator/cacherator.py:181) and finalize test (cacherator/cacherator.py:142) read the restored `_dynamodb_enabled` and `_save_on_del`, whereas the model's `dynamodbEnabled` and `saveOnDel` stay the constructor's.
- `json_cache_save_db` (a deprecated alias of `json_cache_save`) and `_json_cache_last_accessed` (written, never read).
- Python introspection: `vars`, `getattr(type(self), k)` and the `hasattr` probes. Attributes are a name-to-value map, class properties a set of names, `cache_status` an optional map. Owners that are not a `JSONCache` are not modelled.
- CachedFunction.Func: the wrapped function sees its positional arguments after the owner and its keyword arguments, not the owner's state. It is a fixed function of those arguments: in the source a retry after an exception may succeed or raise something else, so CallTwice's "raises the same" holds only under this abstraction. Values are immutable here, whereas the source returns the stored object itself, so a caller that mutates a returned value also changes the cached entry; that aliasing is not modelled.
- CachedFunction.Cached.Call: the sync and async wrappers are one method. The source reads the clock twice per miss (to check, then to date the entry) and once more in each save; the model uses one `now` per call. Async scheduling and concurrent calls are not modelled.
- `weakref.finalize` and garbage-collection timing: `FinalizeCache` is an ordinary method.
- SHA-1, SHA-256, `slugify`, `repr`, JSON, gzip and base64 are opaque library functions.
