/** The key-value server behind the connection pool, reduced to what the cache
    layer uses: GET, SETEX, SCAN with a `prefix*` pattern and DEL, over string
    keys and string values (the pool decodes responses), with expiry measured
    on a logical clock. Any command may fail with a RedisError; which ones do
    is part of the server's state. */
module RedisStore {
  import opened Values

  /** A stored value and the clock reading at which it expires. */
  datatype Entry = Entry(value: string, expiresAt: int)

  /** The reply to a command: its result, or the RedisError the client raises. */
  datatype Reply<+T> = Done(value: T) | RedisError

  /** The commands the cache layer sends. */
  datatype Command = GET | SETEX | SCAN | DEL

  predicate StartsWith(s: string, prefix: string) {
    |prefix| <= |s| && s[..|prefix|] == prefix
  }

  /** The value a read of `key` sees at time `now`: expired entries are absent. */
  function Lookup(store: map<string, Entry>, now: int, key: string): Option<string> {
    if key in store && now < store[key].expiresAt then Some(store[key].value) else None
  }

  /** The keys a `prefix*` scan reports at time `now`. */
  function Matching(store: map<string, Entry>, now: int, prefix: string): set<string> {
    set k | k in store && now < store[k].expiresAt && StartsWith(k, prefix)
  }

  predicate NoDuplicates(keys: seq<string>) {
    forall i, j :: 0 <= i < j < |keys| ==> keys[i] != keys[j]
  }

  /** A value written with a time-to-live of `ttl` is read back until `ttl`
      clock units have passed, and is absent from then on. */
  lemma SetExThenLookup(store: map<string, Entry>, now: int, key: string, value: string, ttl: int, later: int)
    requires now <= later
    ensures Lookup(store[key := Entry(value, now + ttl)], later, key)
            == if later - now < ttl then Some(value) else None
  {
  }

  /** Writing one key leaves what every other key reads unchanged. */
  lemma SetExLeavesOtherKeys(store: map<string, Entry>, now: int, key: string, entry: Entry, other: string)
    requires other != key
    ensures Lookup(store[key := entry], now, other) == Lookup(store, now, other)
  {
  }

  /** Deleting what a `prefix*` scan reports makes every key with that prefix
      read as absent and leaves what every other key reads unchanged. */
  lemma DeleteMatchingLookup(store: map<string, Entry>, now: int, prefix: string, key: string)
    ensures Lookup(store - Matching(store, now, prefix), now, key)
            == if StartsWith(key, prefix) then None else Lookup(store, now, key)
  {
  }

  class Backend {
    var store: map<string, Entry>
    var now: int
    /** The commands that currently fail with a RedisError. */
    var outage: set<Command>

    constructor (now: int, outage: set<Command>)
      ensures store == map[] && this.now == now && this.outage == outage
    {
      store := map[];
      this.now := now;
      this.outage := outage;
    }

    /** GET: the live value of `key`, if any. */
    method Get(key: string) returns (r: Reply<Option<string>>)
      ensures GET in outage <==> r.RedisError?
      ensures r.Done? ==> (r.value.Some? <==> key in store && now < store[key].expiresAt)
      ensures r.Done? && r.value.Some? ==> r.value.value == store[key].value
    {
      if GET in outage {
        return RedisError;
      }
      r := Done(Lookup(store, now, key));
    }

    /** SETEX: store `value` under `key` for `ttl` clock units; the server
        rejects an expiry time that is not positive. */
    method SetEx(key: string, ttl: int, value: string) returns (r: Reply<bool>)
      modifies this`store
      ensures r.RedisError? <==> SETEX in outage || ttl <= 0
      ensures r.Done? ==> store == old(store)[key := Entry(value, now + ttl)]
      ensures r.RedisError? ==> store == old(store)
    {
      if SETEX in outage || ttl <= 0 {
        return RedisError;
      }
      store := store[key := Entry(value, now + ttl)];
      r := Done(true);
    }

    /** `list(scan_iter(match=prefix + "*"))`: every live key that starts
        with `prefix`, each once. */
    method ScanIter(prefix: string) returns (r: Reply<seq<string>>)
      ensures SCAN in outage <==> r.RedisError?
      ensures r.Done? ==> NoDuplicates(r.value)
      ensures r.Done? ==> forall k :: k in r.value <==> k in store && now < store[k].expiresAt && StartsWith(k, prefix)
    {
      if SCAN in outage {
        return RedisError;
      }
      var pending := store.Keys;
      var found: seq<string> := [];
      while pending != {}
        invariant pending <= store.Keys
        invariant forall k :: k in found <==> k in Matching(store, now, prefix) && k !in pending
        invariant NoDuplicates(found)
        decreases pending
      {
        var k :| k in pending;
        pending := pending - {k};
        if now < store[k].expiresAt && StartsWith(k, prefix) {
          found := found + [k];
        }
      }
      r := Done(found);
    }

    /** DEL: remove the given keys and report how many of them were live; the
        server rejects a DEL with no keys. */
    method Delete(keys: seq<string>) returns (r: Reply<nat>)
      modifies this`store
      ensures r.RedisError? <==> DEL in outage || keys == []
      ensures r.Done? ==> store == old(store) - set k | k in keys
      ensures r.Done? ==> r.value == |set k | k in keys && Lookup(old(store), now, k).Some?|
      ensures r.RedisError? ==> store == old(store)
    {
      if DEL in outage || keys == [] {
        return RedisError;
      }
      var count := |set k | k in keys && Lookup(store, now, k).Some?|;
      store := store - set k | k in keys;
      r := Done(count);
    }

    /** The passing of time: entries whose expiry is reached become absent. */
    method Advance(elapsed: nat)
      modifies this`now
      ensures now == old(now) + elapsed
    {
      now := now + elapsed;
    }
  }
}
