/** The memoizing cache-aside decorator of `rcon/cache_utils.py`: key
    derivation, the call protocol (lookup, compute on a miss, store unless the
    result is falsy and falsy results are not cached), invalidation by key
    prefix, and the once-only creation of the shared connection pool. */
module CacheUtils {
  import opened Values
  import opened RedisStore

  /** Turns a value into the text stored and used in keys; it may raise
      (a TypeError for a value it cannot encode). */
  type Serializer = Value -> Fallible<string>
  /** Turns stored text back into a value; it may raise on malformed text. */
  type Deserializer = string -> Fallible<Value>
  /** The memoized function: positional and keyword arguments to a result,
      or to the exception it raises. */
  type Wrapped = (seq<Value>, Kwargs) -> Fallible<Value>

  /** The dictionary `{'args': args, 'kwargs': kwargs}` that is serialized into a key. */
  function Payload(args: seq<Value>, kwargs: Kwargs): Value {
    Dict([("args", List(args)), ("kwargs", Dict(kwargs))])
  }

  /** A connection pool created from a URL; `server` is the store that URL
      reaches. */
  class ConnectionPool {
    const url: string
    const maxConnections: nat
    const socketConnectTimeout: nat
    const socketTimeout: nat
    const decodeResponses: bool
    const server: Backend

    constructor FromUrl(url: string, server: Backend, maxConnections: nat, socketConnectTimeout: nat,
                        socketTimeout: nat, decodeResponses: bool)
      ensures this.url == url && this.server == server
      ensures this.maxConnections == maxConnections && this.decodeResponses == decodeResponses
      ensures this.socketConnectTimeout == socketConnectTimeout && this.socketTimeout == socketTimeout
    {
      this.url := url;
      this.server := server;
      this.maxConnections := maxConnections;
      this.socketConnectTimeout := socketConnectTimeout;
      this.socketTimeout := socketTimeout;
      this.decodeResponses := decodeResponses;
    }
  }

  class RedisCached {
    /** The client; every client made over one pool talks to the same store. */
    const red: Backend
    /** The wrapped function's `__name__`. */
    const name: string
    const wrapped: Wrapped
    const serializer: Serializer
    const deserializer: Deserializer
    const ttlSeconds: int
    const isMethod: bool
    const cacheFalsy: bool
    /** The arguments of every invocation of the wrapped function, in order. */
    ghost var invocations: seq<(seq<Value>, Kwargs)>

    constructor (pool: ConnectionPool, ttlSeconds: int, name: string, wrapped: Wrapped,
                 serializer: Serializer, deserializer: Deserializer,
                 isMethod: bool := false, cacheFalsy: bool := true)
      ensures red == pool.server && this.ttlSeconds == ttlSeconds
      ensures this.name == name && this.wrapped == wrapped
      ensures this.serializer == serializer && this.deserializer == deserializer
      ensures this.isMethod == isMethod && this.cacheFalsy == cacheFalsy
      ensures invocations == []
    {
      red := pool.server;
      this.ttlSeconds := ttlSeconds;
      this.name := name;
      this.wrapped := wrapped;
      this.serializer := serializer;
      this.deserializer := deserializer;
      this.isMethod := isMethod;
      this.cacheFalsy := cacheFalsy;
      invocations := [];
    }

    /** The namespace shared by every key of this function. */
    function KeyPrefix(): string {
      name
    }

    /** The positional arguments that enter the key: in method mode the
        receiver is dropped (`args[1:]`, which is empty for an empty tuple). */
    function KeyArgs(args: seq<Value>): seq<Value> {
      if isMethod && args != [] then args[1..] else args
    }

    /** The cache key of a call: the prefix, `__`, and the serialized
        arguments; a serializer exception propagates. */
    function Key(args: seq<Value>, kwargs: Kwargs): (r: Fallible<string>)
      ensures r.Raise? ==> r == serializer(Payload(KeyArgs(args), kwargs))
      ensures r.Ok? <==> serializer(Payload(KeyArgs(args), kwargs)).Ok?
      ensures r.Ok? ==> StartsWith(r.value, KeyPrefix() + "__")
      ensures r.Ok? ==> r.value[|KeyPrefix()| + 2..] == serializer(Payload(KeyArgs(args), kwargs)).value
    {
      match serializer(Payload(KeyArgs(args), kwargs))
      case Ok(params) => Ok(KeyPrefix() + "__" + params)
      case Raise(e) => Raise(e)
    }

    /** What a lookup of `key` yields to the decorator: a GET that fails reads
        as absent. */
    ghost function Cached(key: string): Option<string>
      reads red
    {
      if GET in red.outage then None else Lookup(red.store, red.now, key)
    }

    /** `__call__`: derive the key, return the deserialized stored value on a
        hit; on a miss (or a failed GET) call the function, and store its
        serialized result for `ttlSeconds` unless it is falsy and falsy results
        are not cached. A failed SETEX is swallowed; exceptions of the
        function, the serializer and the deserializer propagate. */
    method Call(args: seq<Value>, kwargs: Kwargs) returns (r: Fallible<Value>)
      modifies this`invocations, red`store
      ensures Key(args, kwargs).Raise? ==>
                r == Raise(Key(args, kwargs).exc) && red.store == old(red.store) && invocations == old(invocations)
      ensures Key(args, kwargs).Ok? && old(Cached(Key(args, kwargs).value)).Some? ==>
                r == deserializer(old(Cached(Key(args, kwargs).value)).value)
                && red.store == old(red.store) && invocations == old(invocations)
      ensures Key(args, kwargs).Ok? && old(Cached(Key(args, kwargs).value)).None? ==>
                invocations == old(invocations) + [(args, kwargs)]
      ensures Key(args, kwargs).Ok? && old(Cached(Key(args, kwargs).value)).None? ==>
                match wrapped(args, kwargs)
                case Raise(e) => r == Raise(e) && red.store == old(red.store)
                case Ok(v) =>
                  if Falsy(v) && !cacheFalsy then r == Ok(v) && red.store == old(red.store)
                  else match serializer(v)
                    case Raise(e) => r == Raise(e) && red.store == old(red.store)
                    case Ok(s) =>
                      r == Ok(v) &&
                      red.store == if SETEX in red.outage || ttlSeconds <= 0 then old(red.store)
                                   else old(red.store)[Key(args, kwargs).value := Entry(s, red.now + ttlSeconds)]
    {
      var k := Key(args, kwargs);
      if k.Raise? {
        return Raise(k.exc);
      }
      var key := k.value;
      var val: Option<string> := None;
      var got := red.Get(key);
      if got.Done? {
        val := got.value;
      }
      if val.Some? {
        return deserializer(val.value);
      }
      invocations := invocations + [(args, kwargs)];
      var result := wrapped(args, kwargs);
      if result.Raise? {
        return result;
      }
      if Falsy(result.value) && !cacheFalsy {
        return result;
      }
      var encoded := serializer(result.value);
      if encoded.Raise? {
        return Raise(encoded.exc);
      }
      var stored := red.SetEx(key, ttlSeconds, encoded.value);
      return result;
    }

    /** `clear_all`: delete every live key that starts with the prefix (a
        `prefix*` pattern, so keys of functions whose names extend this one
        go too); skip the DEL when nothing matches; swallow a RedisError. */
    method ClearAll()
      modifies red`store
      ensures red.store == if SCAN in red.outage || DEL in red.outage then old(red.store)
                           else old(red.store) - Matching(old(red.store), red.now, KeyPrefix())
      ensures !(SCAN in red.outage || DEL in red.outage) ==>
                forall k :: Lookup(red.store, red.now, k)
                            == if StartsWith(k, KeyPrefix()) then None else Lookup(old(red.store), red.now, k)
    {
      var scanned := red.ScanIter(KeyPrefix());
      if scanned.RedisError? {
        return;
      }
      var keys := scanned.value;
      assert (set k | k in keys) == Matching(red.store, red.now, KeyPrefix());
      if keys != [] {
        var deleted := red.Delete(keys);
      }
      forall k | !(SCAN in red.outage || DEL in red.outage)
        ensures Lookup(red.store, red.now, k)
                == if StartsWith(k, KeyPrefix()) then None else Lookup(old(red.store), red.now, k)
      {
        DeleteMatchingLookup(old(red.store), red.now, KeyPrefix(), k);
      }
    }
  }

  /** The serializer never maps two values to the same text. */
  ghost predicate Injective(serializer: Serializer) {
    forall v, w :: serializer(v).Ok? && serializer(v) == serializer(w) ==> v == w
  }

  /** In method mode the receiver does not enter the key: calls that differ
      only in their first positional argument share one cache entry. */
  lemma MethodKeyIgnoresReceiver(c: RedisCached, a: Value, b: Value, rest: seq<Value>, kwargs: Kwargs)
    requires c.isMethod
    ensures c.Key([a] + rest, kwargs) == c.Key([b] + rest, kwargs)
  {
  }

  /** The key is the prefix and the serialized arguments and nothing else: with
      an injective serializer, equal keys come from equal key arguments. */
  lemma KeyDeterminesArguments(c: RedisCached, args1: seq<Value>, kwargs1: Kwargs, args2: seq<Value>, kwargs2: Kwargs)
    requires Injective(c.serializer)
    requires c.Key(args1, kwargs1).Ok? && c.Key(args1, kwargs1) == c.Key(args2, kwargs2)
    ensures c.KeyArgs(args1) == c.KeyArgs(args2) && kwargs1 == kwargs2
  {
  }

  /** Outside method mode the first argument does enter the key: with an
      injective serializer, changing it changes the key. */
  lemma FunctionKeySeesFirstArgument(c: RedisCached, a: Value, b: Value, rest: seq<Value>, kwargs: Kwargs)
    requires !c.isMethod && Injective(c.serializer) && a != b
    requires c.Key([a] + rest, kwargs).Ok?
    ensures c.Key([a] + rest, kwargs) != c.Key([b] + rest, kwargs)
  {
    if c.Key([a] + rest, kwargs) == c.Key([b] + rest, kwargs) {
      assert ([a] + rest)[0] == a && ([b] + rest)[0] == b;
      KeyDeterminesArguments(c, [a] + rest, kwargs, [b] + rest, kwargs);
    }
  }

  /** Every key of a function whose name extends `c`'s name (`c` itself
      included) matches `c`'s clearing pattern. */
  lemma ExtendedNameKeysMatch(c: RedisCached, d: RedisCached, args: seq<Value>, kwargs: Kwargs)
    requires StartsWith(d.name, c.name)
    requires d.Key(args, kwargs).Ok?
    ensures StartsWith(d.Key(args, kwargs).value, c.KeyPrefix())
  {
  }

  /** After `c`'s entries are cleared, every call of `c`, and of any function
      whose name extends `c`'s, misses. */
  lemma ClearedKeysMiss(c: RedisCached, d: RedisCached, store: map<string, Entry>, now: int, args: seq<Value>, kwargs: Kwargs)
    requires StartsWith(d.name, c.name)
    requires d.Key(args, kwargs).Ok?
    ensures Lookup(store - Matching(store, now, c.KeyPrefix()), now, d.Key(args, kwargs).value) == None
  {
  }

  /** Clearing `c` leaves the entries of a function whose name neither extends
      nor is extended by `c`'s name as they were. */
  lemma ClearSparesUnrelatedKeys(c: RedisCached, d: RedisCached, store: map<string, Entry>, now: int, args: seq<Value>, kwargs: Kwargs)
    requires !StartsWith(d.name, c.name) && !StartsWith(c.name, d.name)
    requires d.Key(args, kwargs).Ok?
    ensures Lookup(store - Matching(store, now, c.KeyPrefix()), now, d.Key(args, kwargs).value)
            == Lookup(store, now, d.Key(args, kwargs).value)
  {
  }

  /** With a working store, a truthy (or storable) result and a positive TTL,
      a second identical call is a hit: the function runs once, and the second
      result is the deserialized stored text of the first. */
  method RepeatedCallHitsCache(c: RedisCached, args: seq<Value>, kwargs: Kwargs) returns (first: Fallible<Value>, second: Fallible<Value>)
    requires c.red.outage == {} && c.ttlSeconds > 0
    requires c.Key(args, kwargs).Ok? && c.Cached(c.Key(args, kwargs).value).None?
    requires c.wrapped(args, kwargs).Ok? && c.serializer(c.wrapped(args, kwargs).value).Ok?
    requires !(Falsy(c.wrapped(args, kwargs).value) && !c.cacheFalsy)
    modifies c`invocations, c.red`store
    ensures c.invocations == old(c.invocations) + [(args, kwargs)]
    ensures first == c.wrapped(args, kwargs)
    ensures second == c.deserializer(c.serializer(first.value).value)
    ensures c.red.store == old(c.red.store)[c.Key(args, kwargs).value
                                            := Entry(c.serializer(first.value).value, c.red.now + c.ttlSeconds)]
  {
    first := c.Call(args, kwargs);
    SetExThenLookup(old(c.red.store), c.red.now, c.Key(args, kwargs).value,
                    c.serializer(first.value).value, c.ttlSeconds, c.red.now);
    second := c.Call(args, kwargs);
  }

  /** Once `ttlSeconds` or more have elapsed the stored entry is gone and the
      function runs again. */
  method ExpiredEntryIsRecomputed(c: RedisCached, args: seq<Value>, kwargs: Kwargs, elapsed: nat)
    returns (first: Fallible<Value>, second: Fallible<Value>)
    requires c.red.outage == {} && c.ttlSeconds > 0 && elapsed >= c.ttlSeconds
    requires c.Key(args, kwargs).Ok? && c.Cached(c.Key(args, kwargs).value).None?
    requires c.wrapped(args, kwargs).Ok? && c.serializer(c.wrapped(args, kwargs).value).Ok?
    modifies c`invocations, c.red`store, c.red`now
    ensures c.invocations == old(c.invocations) + [(args, kwargs), (args, kwargs)]
    ensures first == second == c.wrapped(args, kwargs)
  {
    first := c.Call(args, kwargs);
    c.red.Advance(elapsed);
    SetExThenLookup(old(c.red.store), old(c.red.now), c.Key(args, kwargs).value,
                    c.serializer(first.value).value, c.ttlSeconds, c.red.now);
    second := c.Call(args, kwargs);
  }

  /** A falsy result is never stored when falsy results are not cached, so
      every call runs the function. */
  method FalsyResultIsNeverCached(c: RedisCached, args: seq<Value>, kwargs: Kwargs) returns (first: Fallible<Value>, second: Fallible<Value>)
    requires !c.cacheFalsy
    requires c.Key(args, kwargs).Ok? && c.Cached(c.Key(args, kwargs).value).None?
    requires c.wrapped(args, kwargs).Ok? && Falsy(c.wrapped(args, kwargs).value)
    modifies c`invocations, c.red`store
    ensures c.invocations == old(c.invocations) + [(args, kwargs), (args, kwargs)]
    ensures first == second == c.wrapped(args, kwargs)
    ensures c.red.store == old(c.red.store)
  {
    first := c.Call(args, kwargs);
    second := c.Call(args, kwargs);
  }

  /** What `ttl_cache(...)` returns: the in-memory fallback decorator, or a
      decorator that wraps functions in `RedisCached` over the shared pool. */
  datatype Decorator =
    | MemoryFallback(ttl: int)
    | RedisDecorator(pool: ConnectionPool, ttl: int, isMethod: bool, cacheFalsy: bool)

  /** The module's global state: the connection pool shared by every
      decorator, created at most once. */
  class CacheModule {
    var redisPool: ConnectionPool?
    ghost var poolCreations: nat

    ghost predicate Valid()
      reads this
    {
      poolCreations == if redisPool == null then 0 else 1
    }

    constructor ()
      ensures Valid() && redisPool == null
    {
      redisPool := null;
      poolCreations := 0;
    }

    /** `ttl_cache`: with no (or an empty) `REDIS_URL`, fall back to the
        in-memory cache without touching the pool; otherwise create the pool on
        first use only and return a decorator over it. */
    method TtlCache(ttl: int, redisUrl: Option<string>, server: Backend,
                    nameonly isMethod: bool := true, nameonly cacheFalsy: bool := true) returns (d: Decorator)
      requires Valid()
      modifies this
      ensures Valid()
      ensures old(redisPool) != null ==> redisPool == old(redisPool)
      ensures redisUrl.None? || redisUrl.value == "" ==>
                d == MemoryFallback(ttl) && redisPool == old(redisPool) && poolCreations == old(poolCreations)
      ensures redisUrl.Some? && redisUrl.value != "" ==>
                redisPool != null && d == RedisDecorator(redisPool, ttl, isMethod, cacheFalsy)
      ensures redisUrl.Some? && redisUrl.value != "" && old(redisPool) == null ==>
                fresh(redisPool) && redisPool.url == redisUrl.value && redisPool.server == server
                && redisPool.maxConnections == 10 && redisPool.socketConnectTimeout == 5
                && redisPool.socketTimeout == 5 && redisPool.decodeResponses
    {
      if redisUrl.None? || redisUrl.value == "" {
        return MemoryFallback(ttl);
      }
      if redisPool == null {
        redisPool := new ConnectionPool.FromUrl(redisUrl.value, server, 10, 5, 5, true);
        poolCreations := poolCreations + 1;
      }
      d := RedisDecorator(redisPool, ttl, isMethod, cacheFalsy);
    }
  }

  /** The decorator returned by `ttl_cache` applied to a function: a fresh
      `RedisCached` over the shared pool with the decorator's settings. */
  method Decorate(d: Decorator, name: string, wrapped: Wrapped,
                  serializer: Serializer, deserializer: Deserializer) returns (c: RedisCached)
    requires d.RedisDecorator?
    ensures fresh(c) && c.red == d.pool.server && c.ttlSeconds == d.ttl
    ensures c.name == name && c.wrapped == wrapped
    ensures c.serializer == serializer && c.deserializer == deserializer
    ensures c.isMethod == d.isMethod && c.cacheFalsy == d.cacheFalsy
    ensures c.invocations == []
  {
    c := new RedisCached(d.pool, d.ttl, name, wrapped, serializer, deserializer,
                         isMethod := d.isMethod, cacheFalsy := d.cacheFalsy);
  }
}
