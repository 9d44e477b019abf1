/** The memoising decorator of `cacherator/cached_function.py`: the call fingerprint
    (class `CachedFunction`) and the hit-or-miss wrapper (class `Cached`). */
module CachedFunction {
  import opened Wrappers
  import opened Strings
  import opened JsonData
  import opened Cacherator

  /** Fingerprints this long or longer are shortened. */
  const SignatureLimit := 180
  /** How much of a long fingerprint is kept before the digest. */
  const SignaturePrefixLength := 149

  /** A decorated function: its `__name__`, and what calling it with the positional
      arguments after the owner and the keyword arguments returns or raises. */
  datatype Func<!V> = Func(name: string, body: (seq<V>, seq<(string, V)>) -> Result<V, string>)

  /** `repr` of the items, separated by `", "`. */
  function JoinReprs<V>(items: seq<V>, repr: V -> string): string {
    if |items| == 0 then ""
    else if |items| == 1 then repr(items[0])
    else repr(items[0]) + ", " + JoinReprs(items[1..], repr)
  }

  /** `str()` of a tuple: `()`, `(a,)`, `(a, b)`. */
  function TupleRepr<V>(items: seq<V>, repr: V -> string): (r: string)
    ensures |r| >= 2 && r[0] == '(' && r[|r| - 1] == ')'
    ensures items == [] ==> r == "()"
    ensures |items| == 1 ==> r == "(" + repr(items[0]) + ",)"
  {
    if |items| == 1 then "(" + repr(items[0]) + ",)"
    else "(" + JoinReprs(items, repr) + ")"
  }

  /** `str()` of a keyword-argument dict, in the order the keywords were passed. */
  function DictRepr<V>(pairs: seq<(string, V)>, reprName: string -> string, repr: V -> string): (r: string)
    ensures |r| >= 2 && r[0] == '{' && r[|r| - 1] == '}'
    ensures pairs == [] ==> r == "{}"
    ensures |pairs| == 1 ==> r == "{" + reprName(pairs[0].0) + ": " + repr(pairs[0].1) + "}"
  {
    var shown := seq(|pairs|, i requires 0 <= i < |pairs| => reprName(pairs[i].0) + ": " + repr(pairs[i].1));
    "{" + JoinReprs(shown, s => s) + "}"
  }

  /** `function_signature` from `function_name_with_args`: short texts verbatim, long ones
      cut to 149 characters, then `_` and `function_hash`, the SHA-1 digest of the whole
      text. */
  function SignatureOf(text: string, sha1: string -> Sha1Hex): (sig: string)
    ensures |text| < SignatureLimit ==> sig == text
    ensures |text| >= SignatureLimit ==>
      && |sig| == SignaturePrefixLength + 1 + 40
      && sig[..SignaturePrefixLength] == text[..SignaturePrefixLength]
      && sig[SignaturePrefixLength] == '_'
      && sig[SignaturePrefixLength + 1..] == sha1(text)
    ensures |sig| < SignatureLimit ==> sig == text
    ensures |sig| < SignatureLimit || |sig| == SignaturePrefixLength + 1 + 40
  {
    if |text| < SignatureLimit then text
    else text[..SignaturePrefixLength] + "_" + sha1(text)
  }

  /** One call of a decorated method, as `CachedFunction` captures it: the function, the
      owner (`args[0]`), the other positional arguments and the keyword arguments. */
  datatype CachedCall<O, !V> = CachedCall(func: Func<V>, selfItem: O, args: seq<V>, kwargs: seq<(string, V)>)
  {
    /** `function_name_with_args`: the name, then `str(args[1:])`, then `str(kwargs)`. */
    function NameWithArgs(lib: Library<V>): (text: string)
      ensures StartsWith(text, func.name) && |text| > |func.name| && text[|func.name|] == '('
    {
      var text := func.name + TupleRepr(args, lib.repr) + DictRepr(kwargs, lib.reprName, lib.repr);
      assert text[..|func.name|] == func.name;
      text
    }

    /** `function_signature`: the cache key of this call. */
    function Signature(lib: Library<V>): (sig: string)
      ensures |sig| < SignatureLimit ==> sig == NameWithArgs(lib)
      ensures |sig| < SignatureLimit || |sig| == 190
    {
      SignatureOf(NameWithArgs(lib), lib.sha1)
    }

    /** `run()`: the wrapped function on the call's arguments; an exception is a `Failure`. */
    function Run(): Result<V, string>
    {
      func.body(args, kwargs)
    }
  }

  /** The owner takes no part in the key: calls that differ only in their owner share it. */
  lemma SignatureIgnoresOwner<O, V>(c1: CachedCall<O, V>, c2: CachedCall<O, V>, lib: Library<V>)
    requires c1.func.name == c2.func.name && c1.args == c2.args && c1.kwargs == c2.kwargs
    ensures c1.Signature(lib) == c2.Signature(lib)
  {
  }

  /** A key agrees with its text on the first 149 characters. */
  lemma SignatureKeepsPrefix(text: string, sha1: string -> Sha1Hex, n: nat)
    requires n <= SignaturePrefixLength && n <= |text|
    ensures n <= |SignatureOf(text, sha1)| && SignatureOf(text, sha1)[..n] == text[..n]
  {
    var sig := SignatureOf(text, sha1);
    if |text| >= SignatureLimit {
      assert sig[..n] == sig[..SignaturePrefixLength][..n];
      assert text[..n] == text[..SignaturePrefixLength][..n];
    }
  }

  /** A key whose text is `name(...` is counted under `name` when `name` has no `(` and fits
      in the kept prefix. */
  lemma {:induction false} GroupOfSignatureOf(text: string, sha1: string -> Sha1Hex, name: string)
    requires StartsWith(text, name + "(") && '(' !in name && |name| < SignaturePrefixLength
    ensures Group(SignatureOf(text, sha1)) == name
  {
    var sig := SignatureOf(text, sha1);
    SignatureKeepsPrefix(text, sha1, |name| + 1);
    var tail := sig[|name|..];
    assert sig == name + tail by {
      assert sig == sig[..|name|] + tail;
      assert sig[..|name|] == sig[..|name| + 1][..|name|];
    }
    assert tail[0] == sig[|name|] == '(';
    BeforeFirstOfConcat(name, tail, '(');
  }

  /** `json_cache_stats` counts a call under its function's name, short key or long, for
      any function name without `(` that fits in the kept prefix. */
  lemma StatsGroupOfSignature<O, V>(c: CachedCall<O, V>, lib: Library<V>)
    requires '(' !in c.func.name && |c.func.name| < SignaturePrefixLength
    ensures Group(c.Signature(lib)) == c.func.name
  {
    var text := c.NameWithArgs(lib);
    assert text[..|c.func.name| + 1] == c.func.name + "(";
    GroupOfSignatureOf(text, lib.sha1, c.func.name);
  }

  /** Clearing by a name of at most 149 characters clears every call of every function whose
      name starts with it (clearing `func1` also clears `func10`). */
  lemma ClearByNameCoversLongerNames<O, V>(c: CachedCall<O, V>, lib: Library<V>, name: string,
                                          m: map<string, Entry<V>>)
    requires StartsWith(c.func.name, name) && |name| <= SignaturePrefixLength
    ensures c.Signature(lib) !in Cleared(m, Some(name))
  {
    var text := c.NameWithArgs(lib);
    StartsWithTransitive(text, c.func.name, name);
    SignatureKeepsPrefix(text, lib.sha1, |name|);
  }

  /** A longer name is not found in a shortened key unless its 150th character is `_`: such
      calls survive clearing by that name. */
  lemma ClearByLongNameMissesShortenedKeys<V>(text: string, sha1: string -> Sha1Hex, name: string,
                                             e: Entry<V>)
    requires |text| >= SignatureLimit
    requires |name| > SignaturePrefixLength && name[SignaturePrefixLength] != '_'
    ensures SignatureOf(text, sha1) in Cleared(map[SignatureOf(text, sha1) := e], Some(name))
  {
    var sig := SignatureOf(text, sha1);
    assert sig[SignaturePrefixLength] == '_' != name[SignaturePrefixLength];
  }

  /** `max_delta`: the decorator's TTL, or else the owner's, in seconds. The test is
      `is None`, so a decorator TTL of zero days is kept (and never lets an entry be reused). */
  function MaxDelta(decoratorTtl: Option<Ttl>, ownerTtl: Ttl): (seconds: int)
    ensures decoratorTtl.Some? ==> seconds == decoratorTtl.value.Seconds()
    ensures decoratorTtl.None? ==> seconds == ownerTtl.Seconds()
  {
    match decoratorTtl
    case Some(t) => t.Seconds()
    case None => ownerTtl.Seconds()
  }

  /** The wrapper returns the stored value instead of running the function exactly when
      reuse is allowed (no `clear_cache`, or this wrapper already ran the key), an entry
      exists, and it is still within the TTL. */
  predicate IsHit<V>(clearCache: bool, hasRun: bool, stored: Option<Entry<V>>, maxDelta: int, now: int) {
    (!clearCache || hasRun) && stored.Some? && stored.value.date + maxDelta > now
  }

  /** The optional status map after recording `status` for `sig`. */
  function Recorded(statusMap: Option<map<string, CacheStatus>>, sig: string, status: CacheStatus)
    : (r: Option<map<string, CacheStatus>>)
    ensures r.Some? <==> statusMap.Some?
    ensures r.Some? ==> sig in r.value && r.value[sig] == status
    ensures r.Some? ==> r.value.Keys == statusMap.value.Keys + {sig}
    ensures r.Some? ==> forall k :: k in statusMap.value && k != sig ==> r.value[k] == statusMap.value[k]
  {
    match statusMap
    case None => None
    case Some(m) => Some(m[sig := status])
  }

  /** The decorator `Cached(ttl, clear_cache)` applied to one function. */
  class Cached<V> {
    const ttl: Option<Ttl>
    const clearCache: bool
    /** The keys this wrapper has computed in this process. */
    var runFunctionSignatures: seq<string>

    constructor (ttl: Option<Ttl>, clearCache: bool)
      ensures this.ttl == ttl && this.clearCache == clearCache && runFunctionSignatures == []
    {
      this.ttl := ttl;
      this.clearCache := clearCache;
      runFunctionSignatures := [];
    }

    /** `retrieve_from_class_cache` */
    function RetrieveFromClassCache(call: CachedCall<JSONCache<V>, V>): (stored: Option<Entry<V>>)
      reads call.selfItem
      ensures stored.Some? <==> call.Signature(call.selfItem.lib) in call.selfItem.funcCache
      ensures stored.Some? ==> stored.value == call.selfItem.funcCache[call.Signature(call.selfItem.lib)]
    {
      var sig := call.Signature(call.selfItem.lib);
      if sig in call.selfItem.funcCache then Some(call.selfItem.funcCache[sig]) else None
    }

    /** `store_in_class_cache`: run the function; only if it returns, write `{value, date}`
        under the call's key and ask the owner to save. */
    method StoreInClassCache(call: CachedCall<JSONCache<V>, V>, now: int) returns (r: Result<Entry<V>, string>)
      modifies call.selfItem`funcCache, call.selfItem.local, call.selfItem.remote
      ensures var owner := call.selfItem;
        if call.Run().Failure? then
          && r == Failure(call.Run().error)
          && owner.funcCache == old(owner.funcCache)
          && owner.local.files == old(owner.local.files)
          && owner.remote.items == old(owner.remote.items)
        else
          && r == Success(Entry(call.Run().value, now))
          && owner.funcCache == old(owner.funcCache)[call.Signature(owner.lib) := r.value]
          && owner.SavedFrom(old(owner.local.files), old(owner.remote.items), now, owner.dynamodbEnabled)
    {
      var outcome := call.Run();
      if outcome.Failure? {
        return Failure(outcome.error);
      }
      var entry := Entry(outcome.value, now);
      var owner := call.selfItem;
      owner.funcCache := owner.funcCache[call.Signature(owner.lib) := entry];
      owner.JsonCacheSave(now);
      r := Success(entry);
    }

    /** Record `status` for `sig` on an owner that tracks it. */
    static method RecordStatus(owner: JSONCache<V>, sig: string, status: CacheStatus)
      modifies owner`cacheStatus, owner`lastCacheStatus
      ensures owner.cacheStatus == Recorded(old(owner.cacheStatus), sig, status)
      ensures owner.lastCacheStatus == if owner.cacheStatus.Some? then Some(status) else old(owner.lastCacheStatus)
    {
      if owner.cacheStatus.Some? {
        owner.cacheStatus := Some(owner.cacheStatus.value[sig := status]);
        owner.lastCacheStatus := Some(status);
      }
    }

    /** The miss path of the wrapper: run and store, then record the key as run and the
        status as a miss. An exception propagates and changes nothing. */
    method RunAndStore(call: CachedCall<JSONCache<V>, V>, now: int) returns (r: Result<V, string>)
      modifies this, call.selfItem`funcCache, call.selfItem`cacheStatus, call.selfItem`lastCacheStatus
      modifies call.selfItem.local, call.selfItem.remote
      ensures var owner := call.selfItem;
        call.Run().Failure? ==>
          && r == call.Run()
          && owner.funcCache == old(owner.funcCache)
          && runFunctionSignatures == old(runFunctionSignatures)
          && owner.local.files == old(owner.local.files)
          && owner.remote.items == old(owner.remote.items)
          && owner.cacheStatus == old(owner.cacheStatus)
          && owner.lastCacheStatus == old(owner.lastCacheStatus)
      ensures var owner := call.selfItem;
        var sig := call.Signature(owner.lib);
        call.Run().Success? ==>
          && r == call.Run()
          && owner.funcCache == old(owner.funcCache)[sig := Entry(call.Run().value, now)]
          && runFunctionSignatures == old(runFunctionSignatures) + [sig]
          && owner.SavedFrom(old(owner.local.files), old(owner.remote.items), now, owner.dynamodbEnabled)
          && owner.cacheStatus == Recorded(old(owner.cacheStatus), sig, Miss)
          && owner.lastCacheStatus == if owner.cacheStatus.Some? then Some(Miss) else old(owner.lastCacheStatus)
    {
      var entry := StoreInClassCache(call, now);
      if entry.Failure? {
        return Failure(entry.error);
      }
      var sig := call.Signature(call.selfItem.lib);
      runFunctionSignatures := runFunctionSignatures + [sig];
      RecordStatus(call.selfItem, sig, Miss);
      r := Success(entry.value.value);
    }

    /** The wrapper (sync and async alike): a hit returns the stored value; a miss runs the
        function, stores and saves the entry, and records the key as run. An exception
        propagates and changes nothing. `ran` says whether the function was called. */
    method Call(call: CachedCall<JSONCache<V>, V>, now: int) returns (r: Result<V, string>, ghost ran: bool)
      modifies this, call.selfItem`funcCache, call.selfItem`cacheStatus, call.selfItem`lastCacheStatus
      modifies call.selfItem.local, call.selfItem.remote
      ensures var owner := call.selfItem;
        var sig := call.Signature(owner.lib);
        var stored := if sig in old(owner.funcCache) then Some(old(owner.funcCache)[sig]) else None;
        ran == !IsHit(clearCache, sig in old(runFunctionSignatures), stored, MaxDelta(ttl, owner.ttl), now)
      ensures var owner := call.selfItem;
        var sig := call.Signature(owner.lib);
        !ran ==>
          && r == Success(old(owner.funcCache)[sig].value)
          && owner.funcCache == old(owner.funcCache)
          && runFunctionSignatures == old(runFunctionSignatures)
          && owner.local.files == old(owner.local.files)
          && owner.remote.items == old(owner.remote.items)
          && owner.cacheStatus == Recorded(old(owner.cacheStatus), sig, Hit)
          && owner.lastCacheStatus == if owner.cacheStatus.Some? then Some(Hit) else old(owner.lastCacheStatus)
      ensures var owner := call.selfItem;
        ran && call.Run().Failure? ==>
          && r == call.Run()
          && owner.funcCache == old(owner.funcCache)
          && runFunctionSignatures == old(runFunctionSignatures)
          && owner.local.files == old(owner.local.files)
          && owner.remote.items == old(owner.remote.items)
          && owner.cacheStatus == old(owner.cacheStatus)
          && owner.lastCacheStatus == old(owner.lastCacheStatus)
      ensures var owner := call.selfItem;
        var sig := call.Signature(owner.lib);
        ran && call.Run().Success? ==>
          && r == call.Run()
          && owner.funcCache == old(owner.funcCache)[sig := Entry(call.Run().value, now)]
          && runFunctionSignatures == old(runFunctionSignatures) + [sig]
          && owner.SavedFrom(old(owner.local.files), old(owner.remote.items), now, owner.dynamodbEnabled)
          && owner.cacheStatus == Recorded(old(owner.cacheStatus), sig, Miss)
          && owner.lastCacheStatus == if owner.cacheStatus.Some? then Some(Miss) else old(owner.lastCacheStatus)
    {
      var owner := call.selfItem;
      var stored := RetrieveFromClassCache(call);
      var sig := call.Signature(owner.lib);
      var hasRunThisExecution := sig in runFunctionSignatures;
      var canRetrieveFromCache := !clearCache || hasRunThisExecution;
      if canRetrieveFromCache && stored.Some? && stored.value.date + MaxDelta(ttl, owner.ttl) > now {
        RecordStatus(owner, sig, Hit);
        return Success(stored.value.value), false;
      }
      r := RunAndStore(call, now);
      ran := true;
    }
  }

  /** Two calls with the same arguments. Once the first has run the function and stored its
      value, the second runs it again exactly when the TTL has run out since, and otherwise
      returns that value, with or without `clear_cache`. An exception is not stored: after
      one, a later call runs the function again. With `clear_cache`, the first call for a
      key in this wrapper always runs. */
  method CallTwice<V>(c: Cached<V>, call: CachedCall<JSONCache<V>, V>, first: int, second: int)
    returns (r1: Result<V, string>, r2: Result<V, string>, ghost ran1: bool, ghost ran2: bool)
    modifies c, call.selfItem`funcCache, call.selfItem`cacheStatus, call.selfItem`lastCacheStatus
    modifies call.selfItem.local, call.selfItem.remote
    ensures ran1 && r1.Success? ==> (ran2 <==> second >= first + MaxDelta(c.ttl, call.selfItem.ttl))
    ensures ran1 && r1.Success? && !ran2 ==> r2 == r1
    ensures ran1 && r1.Failure? && first <= second ==> ran2 && r2 == r1
    ensures c.clearCache && call.Signature(call.selfItem.lib) !in old(c.runFunctionSignatures) ==> ran1
  {
    r1, ran1 := c.Call(call, first);
    r2, ran2 := c.Call(call, second);
  }
}
