# Redis-backed TTL memoization (`rcon/cache_utils.py`)

A Dafny model of the cache-aside decorator used by the RCON tool. A wrapped
function's calls are memoized in Redis under a key made of the function's
name, `__`, and the serialized positional and keyword arguments. In method
mode the receiver is left out of that key. A lookup that finds a stored value
returns it deserialized without running the function. A miss, or a lookup
that fails, runs the function and stores the serialized result with a TTL,
unless the result is falsy and falsy results are not cached. Errors of the
store are swallowed; errors of the function and of the (de)serializer
propagate. `clear_all` deletes every key matching `name*`. `ttl_cache`
creates the shared connection pool once, or falls back to an in-memory cache
when no `REDIS_URL` is configured.

Modules:

- `Values` (`values.dfy`): Python values (`None`, bools, ints, strings,
  lists/tuples, dicts, other objects with their own truth value), Python
  truthiness (`Falsy`), and the outcome of a call that may raise (`Fallible`).
- `RedisStore` (`redis_store.dfy`): the Redis server the pool reaches, as a
  class `Backend` holding a `map` from keys to entries with an expiry time on
  a logical clock, and the set of commands that currently fail with a
  `RedisError`. It provides GET, SETEX, SCAN (`scan_iter` collected into a
  list), DEL and the passing of time.
- `CacheUtils` (`cache_utils.dfy`): `RedisCached` (`key_prefix`, `key`,
  `__call__`, `clear_all`), the module's global pool (`CacheModule`),
  `ttl_cache` and the decorator it returns. Three client methods check
  multi-call behaviour: a repeated call hits, an expired entry is recomputed,
  and a falsy result is never cached.

The wrapped function, the serializer and the deserializer are constructor
arguments in the source. They are arrow-typed fields here, and each one may
raise. The wrapped function's invocations are recorded in a ghost log.

Behaviour of the code worth noting:

- A stored entry that cannot be decoded is not treated as a miss. The
  deserializer runs outside the `try` (line 52), so its exception reaches the
  caller.
- Keys are not canonical: the serializer is called without sorting keyword
  arguments (line 31), so no claim is made that keyword order is irrelevant.
- A serializer error on the result (line 62) is not a `RedisError`. It
  escapes the `try`, so the caller gets the exception even though the function
  already ran.
- Clearing uses the pattern `name*` (line 71), not `name__*`. It also deletes
  the keys of every function whose name extends this one
  (`ExtendedNameKeysMatch`). Only functions whose names are not prefixes of
  each other are kept apart (`ClearSparesUnrelatedKeys`).

## Model

| member | source | states |
|---|---|---|
| `CacheUtils.RedisCached.Key` | rcon/cache_utils.py:24-32 | a key exists exactly when the serializer accepts `{'args': args, 'kwargs': kwargs}` (otherwise its exception propagates); every key starts with the function name followed by `__`, and the rest of the key is the serialized arguments |
| `CacheUtils.MethodKeyIgnoresReceiver` | rcon/cache_utils.py:28-32 | in method mode two calls that differ only in their first positional argument get the same key |
| `CacheUtils.KeyDeterminesArguments` | rcon/cache_utils.py:28-32 | the key depends on nothing but the name and the serialized arguments: with an injective serializer, equal keys mean equal key arguments (receiver dropped in method mode) and equal keyword arguments |
| `CacheUtils.FunctionKeySeesFirstArgument` | rcon/cache_utils.py:29-31 | outside method mode the first argument is part of the key: with an injective serializer, changing it changes the key |
| `CacheUtils.RedisCached.constructor` | rcon/cache_utils.py:15-22 | the decorator keeps the function, the (de)serializer, the TTL and both flags as given, with `is_method` defaulting to false and `cache_falsy` to true, and talks to the pool's store |
| `CacheUtils.RedisCached.Call` | rcon/cache_utils.py:42-67 | a key error propagates before the store is touched; on a hit the result is the deserialized stored text, the function is not run and the store is unchanged; a failed GET behaves as a miss; on a miss the function runs once; its exception propagates with the store unchanged; a falsy result with `cache_falsy` off is returned and not stored; otherwise the store changes only at the key, which now holds the serialized result expiring `ttl_seconds` from now, unless SETEX fails (store unchanged, result still returned); no store error ever reaches the caller |
| `CacheUtils.RepeatedCallHitsCache` | rcon/cache_utils.py:44-62 | with a working store and a storable result, two identical calls run the function once, the second returns the deserialized stored text of the first result, and the store changes only at that call's key |
| `CacheUtils.ExpiredEntryIsRecomputed` | rcon/cache_utils.py:61-62 | once `ttl_seconds` or more clock units have passed since the store, the same call misses and runs the function again |
| `CacheUtils.FalsyResultIsNeverCached` | rcon/cache_utils.py:57-59 | with `cache_falsy` off, a function returning a falsy value runs on every call and the store never changes |
| `CacheUtils.RedisCached.ClearAll` | rcon/cache_utils.py:69-77 | if SCAN or DEL fails nothing changes and nothing is raised; otherwise exactly the live keys starting with the function name are removed: they all read as absent and every other key reads as before |
| `CacheUtils.ExtendedNameKeysMatch` | rcon/cache_utils.py:71 | the `name*` pattern matches every key of this function and of any function whose name extends this name |
| `CacheUtils.ClearedKeysMiss` | rcon/cache_utils.py:69-73 | after clearing, every call of this function (and of functions whose names extend it) finds nothing stored |
| `CacheUtils.ClearSparesUnrelatedKeys` | rcon/cache_utils.py:69-73 | clearing leaves the entries of a function untouched when neither name is a prefix of the other |
| `CacheUtils.CacheModule.constructor` | rcon/cache_utils.py:11 | the module starts with no shared pool and no pool created, the starting point of the at-most-one-pool invariant |
| `CacheUtils.ConnectionPool.FromUrl` | rcon/cache_utils.py:88-91 | a pool records its URL, connection limit, timeouts and response decoding as given |
| `CacheUtils.CacheModule.TtlCache` | rcon/cache_utils.py:80-91 | with no or an empty `REDIS_URL` the result is the in-memory fallback and the pool is not touched; otherwise the pool is created on first use only (10 connections, 5 s timeouts, decoded responses) and never replaced, so at most one pool is ever created; `is_method` and `cache_falsy` default to true |
| `CacheUtils.Decorate` | rcon/cache_utils.py:93-103 | decorating a function gives a fresh cached wrapper over the shared pool carrying the settings given to `ttl_cache` |
| `RedisStore.Backend.Get` | rcon/cache_utils.py:46 | GET fails with a RedisError exactly when the store is failing GET; otherwise it returns the key's value exactly when the key is stored and not expired |
| `RedisStore.Backend.SetEx` | rcon/cache_utils.py:62 | SETEX fails (store unchanged) when SETEX is failing or the expiry is not positive; otherwise only that key changes, to the value with expiry now + TTL |
| `RedisStore.Backend.ScanIter` | rcon/cache_utils.py:71 | the scan fails exactly when SCAN is failing; otherwise it lists every live key with the prefix, each once, and nothing else |
| `RedisStore.Backend.Delete` | rcon/cache_utils.py:72-73 | DEL with no keys or while DEL is failing raises and changes nothing; otherwise it removes exactly the given keys and reports how many of them were live |
| `RedisStore.SetExThenLookup` | rcon/cache_utils.py:62 | a value stored with a TTL reads back until TTL clock units have passed, and reads as absent from then on |
| `RedisStore.SetExLeavesOtherKeys` | rcon/cache_utils.py:62 | storing one key does not change what any other key reads |
| `RedisStore.DeleteMatchingLookup` | rcon/cache_utils.py:71-73 | deleting the keys a prefix scan reports makes every key with that prefix read as absent and leaves every other key's reading unchanged |

## Left out

- The Redis client, the connection pool's internals and the wire protocol. `Backend` stands for the server the pool reaches. Its failures are a set of failing commands, not network events.
- Real expiry is enforced by Redis. Here it is a logical clock in `Backend`, advanced explicitly.
- The in-memory fallback (`cachetools` `ttl_cache`) is a foreign library. `TtlCache` only returns the `MemoryFallback` marker with the TTL. The source does not pass `is_method` or `cache_falsy` to it.
- Reading `REDIS_URL` from the environment is an input parameter of `TtlCache`. The server that the URL reaches is a parameter too.
- `simplejson`: the serializer and deserializer are abstract arguments. No exact round trip is claimed, because JSON turns tuples into lists. The simplejson defaults of `RedisCached` are not modelled, so callers pass both.
- Logging. The key is derived again for the debug messages (lines 51, 54 and 63); that is left out too. The serializer is a pure function, so those repeats give the same key as the first derivation.
- `__name__`, `__wrapped__` and `functools.update_wrapper` are reflection. The wrapper closure is the `RedisCached` object itself: `Call` stands for calling it, and `ClearAll` stands for `cache_clear`.
- Concurrent callers, races between misses and staggered expiries are not modelled. The model is single-threaded.
- The wrapped function is a pure function of its arguments. Its side effects are visible only through the ghost invocation log. Floats and other Python types beyond `Values.Value` are left out, and so is their truthiness. Any other object is `Object`, with the truth value its class gives it.
- `RedisStore.Backend.ScanIter`: glob metacharacters in a function name are not interpreted. The name is matched as a literal prefix. Python identifiers and `<lambda>` contain no such characters.
- `RedisStore.Backend.ScanIter`: Redis SCAN may report a key twice, but the model reports each key once. DEL of a repeated key has the same effect, so the clearing result does not change.
