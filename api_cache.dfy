/** The TTL response cache of `useAPICache.ts`: a string-keyed store whose entries
    carry the time they were stored and their time-to-live, bounded in size, with
    first-inserted eviction, expiry checked lazily on read, and `withCaching`, which
    memoises a fetch under a generated key. Time is the explicit parameter `now`
    (milliseconds), standing for `Date.now()`. */
module ApiCache {
  import opened Wrappers
  import Seqs

  /** The store defaults when the options leave them undefined. */
  const DefaultTtl: int := 30000
  const DefaultMaxSize: int := 100

  /** A stored response: its data, when it was stored and for how long it is fresh. */
  datatype Entry<T> = Entry(data: T, timestamp: int, ttl: int)

  /** `APICacheOptions`: both fields optional. */
  datatype Options = Options(ttl: Option<int>, maxSize: Option<int>)

  /** What `getStats` reports; `hitRate` is always 0 in the source. */
  datatype Stats = Stats(totalEntries: nat, validEntries: nat, expiredEntries: nat, hitRate: nat)

  /** A JavaScript `Map` as the pair of its key/value table and its key insertion order. */
  datatype Store<T> = Store(entries: map<string, Entry<T>>, order: seq<string>)

  /** An entry is stale once strictly more than `ttl` milliseconds have passed. */
  predicate Expired<T>(e: Entry<T>, now: int) {
    now - e.timestamp > e.ttl
  }

  /** The insertion order lists each key of the table exactly once. */
  ghost predicate WellFormed<T>(st: Store<T>) {
    Seqs.Distinct(st.order) && forall k :: k in st.entries <==> k in st.order
  }

  /** The most entries a store with this `maxSize` can hold after any `set`:
      `maxSize` itself, or 1 when `maxSize` is below 1 (eviction then empties
      the store before each insertion). */
  function Bound(maxSize: int): (b: int)
    ensures b >= 1 && (maxSize >= 1 ==> b == maxSize)
  {
    if maxSize >= 1 then maxSize else 1
  }

  /** `customTtl || ttl`: an absent or zero custom TTL falls back to the store's. */
  function EffectiveTtl(customTtl: Option<int>, storeTtl: int): int {
    if customTtl.Some? && customTtl.value != 0 then customTtl.value else storeTtl
  }

  /** The insertion order without `key`. */
  function Without(order: seq<string>, key: string): seq<string> {
    Seqs.Filter(order, Other(key))
  }

  /** The test that keeps every key but `key`. */
  function Other(key: string): string -> bool {
    k => k != key
  }

  /** `Map.prototype.delete`: the key leaves the table and the order. */
  function Remove<T>(st: Store<T>, key: string): Store<T> {
    Store(st.entries - {key}, Without(st.order, key))
  }

  /** The value `get` returns: the stored data while the entry is fresh. */
  function Lookup<T>(st: Store<T>, key: string, now: int): Option<T> {
    if key in st.entries && !Expired(st.entries[key], now) then Some(st.entries[key].data) else None
  }

  /** The store after `get`: an expired entry for `key` is deleted, nothing else changes. */
  function AfterGet<T>(st: Store<T>, key: string, now: int): Store<T> {
    if key in st.entries && Expired(st.entries[key], now) then Remove(st, key) else st
  }

  /** Whether `set` evicts: the store is at or over `maxSize` and has a first key. */
  predicate Evicts<T>(st: Store<T>, maxSize: int) {
    |st.order| >= maxSize && st.order != []
  }

  /** The store after `set(key, data)` with the given TTL at time `now`: the first key
      in insertion order is evicted when the store is full, then `key` is written;
      an existing key keeps its position, a new key goes last. */
  function AfterSet<T>(st: Store<T>, key: string, data: T, ttl: int, maxSize: int, now: int): Store<T> {
    var st1 := if Evicts(st, maxSize) then Remove(st, st.order[0]) else st;
    Store(st1.entries[key := Entry(data, now, ttl)],
          if key in st1.entries then st1.order else st1.order + [key])
  }

  /** How many of the keys `keys` name an expired entry. */
  function CountExpired<T>(keys: seq<string>, entries: map<string, Entry<T>>, now: int): (n: nat)
    requires forall k :: k in keys ==> k in entries
    ensures n <= |keys|
  {
    if keys == [] then 0
    else CountExpired(keys[..|keys| - 1], entries, now)
         + (if Expired(entries[keys[|keys| - 1]], now) then 1 else 0)
  }

  /** Removing a key from a well-formed store keeps it well formed, removes exactly that
      key and shortens the order by one when the key was present. */
  lemma RemoveWellFormed<T>(st: Store<T>, key: string)
    requires WellFormed(st)
    ensures WellFormed(Remove(st, key))
    ensures Remove(st, key).entries.Keys == st.entries.Keys - {key}
    ensures key in st.entries ==> |Remove(st, key).order| == |st.order| - 1
    ensures key !in st.entries ==> Remove(st, key) == st
  {
    WithoutMembership(st.order, key);
    Seqs.FilterDistinct(st.order, Other(key));
    if key in st.entries {
      Seqs.FilterDropsOne(st.order, Other(key), key);
    } else {
      WithoutAbsent(st.order, key);
      assert st.entries - {key} == st.entries;
    }
  }

  lemma WithoutMembership(order: seq<string>, key: string)
    ensures forall k :: k in Without(order, key) <==> k in order && k != key
  {
    forall k ensures k in Without(order, key) <==> k in order && k != key {
      Seqs.FilterMembership(order, Other(key), k);
    }
  }

  lemma WithoutAbsent(order: seq<string>, key: string)
    requires key !in order
    ensures Without(order, key) == order
  {
    forall i | 0 <= i < |order| ensures Other(key)(order[i]) {
      assert order[i] in order;
    }
    Seqs.FilterAll(order, Other(key));
  }

  /** In a well-formed store, removing the first key leaves exactly the rest of the order. */
  lemma RemoveFirst<T>(st: Store<T>)
    requires WellFormed(st) && st.order != []
    ensures Remove(st, st.order[0]).order == st.order[1..]
  {
    var o := st.order;
    assert o == [o[0]] + o[1..];
    forall i | 0 <= i < |o[1..]| ensures o[1..][i] != o[0] {
      assert o[1..][i] == o[i + 1];
    }
    Seqs.FilterAll(o[1..], Other(o[0]));
  }

  /** `set` keeps the store well formed and within `Bound(maxSize)`, and afterwards
      the key is present with the new entry. */
  lemma SetInvariant<T>(st: Store<T>, key: string, data: T, ttl: int, maxSize: int, now: int)
    requires WellFormed(st) && |st.order| <= Bound(maxSize)
    ensures var st' := AfterSet(st, key, data, ttl, maxSize, now);
      WellFormed(st') && |st'.order| <= Bound(maxSize)
      && key in st'.entries && st'.entries[key] == Entry(data, now, ttl)
      && st'.entries.Keys <= st.entries.Keys + {key}
  {
    var st1 := if Evicts(st, maxSize) then Remove(st, st.order[0]) else st;
    if Evicts(st, maxSize) {
      RemoveWellFormed(st, st.order[0]);
    }
    assert WellFormed(st1);
    assert |st1.order| <= Bound(maxSize) - 1 || key in st1.entries || |st1.order| < Bound(maxSize);
    var st' := AfterSet(st, key, data, ttl, maxSize, now);
    if key !in st1.entries {
      assert key !in st1.order;
      forall i, j | 0 <= i < j < |st'.order| ensures st'.order[i] != st'.order[j] {
        if j == |st1.order| {
          assert st'.order[i] == st1.order[i];
        }
      }
    }
  }

  /** When the store is full, `set` removes exactly the first-inserted key (FIFO, not
      least-recently-used), even when the key being set is already present; the
      survivors keep their relative order. */
  lemma SetEvictsFirstInserted<T>(st: Store<T>, key: string, data: T, ttl: int, maxSize: int, now: int)
    requires WellFormed(st) && Evicts(st, maxSize)
    ensures var st' := AfterSet(st, key, data, ttl, maxSize, now);
      st'.order == (if key in st.order[1..] then st.order[1..] else st.order[1..] + [key])
      && (key != st.order[0] ==> st.order[0] !in st'.entries)
  {
    RemoveFirst(st);
    RemoveWellFormed(st, st.order[0]);
    var st1 := Remove(st, st.order[0]);
    assert key in st1.entries <==> key in st.order[1..];
  }

  /** When the store is not full, overwriting a key keeps the insertion order as it was. */
  lemma SetKeepsPosition<T>(st: Store<T>, key: string, data: T, ttl: int, maxSize: int, now: int)
    requires WellFormed(st) && key in st.entries && !Evicts(st, maxSize)
    ensures AfterSet(st, key, data, ttl, maxSize, now).order == st.order
  {
  }

  /** A value just `set` is what `get` returns while its TTL has not passed, and
      nothing once it has. */
  lemma SetThenGet<T>(st: Store<T>, key: string, data: T, ttl: int, maxSize: int, setAt: int, now: int)
    ensures Lookup(AfterSet(st, key, data, ttl, maxSize, setAt), key, now)
         == if now - setAt <= ttl then Some(data) else None
  {
  }

  /** `get` on an expired key returns nothing and deletes only that key: every other
      entry and the order of the survivors are unchanged. */
  lemma {:induction false} GetExpiredDeletesOnlyKey<T>(st: Store<T>, key: string, now: int)
    requires WellFormed(st) && key in st.entries && Expired(st.entries[key], now)
    ensures Lookup(st, key, now).None?
    ensures var st' := AfterGet(st, key, now);
      key !in st'.entries && WellFormed(st')
      && (forall k :: k != key ==> (k in st'.entries <==> k in st.entries))
      && (forall k :: k in st'.entries ==> st'.entries[k] == st.entries[k])
      && Seqs.IsSubsequence(st'.order, st.order)
  {
    RemoveWellFormed(st, key);
    Seqs.FilterIsSubsequence(st.order, Other(key));
  }

  /** A key that is absent or fresh is left alone by `get`. */
  lemma GetFreshChangesNothing<T>(st: Store<T>, key: string, now: int)
    requires !(key in st.entries && Expired(st.entries[key], now))
    ensures AfterGet(st, key, now) == st
    ensures Lookup(st, key, now).Some? <==> key in st.entries
  {
  }

  /** The per-instance store behind `useAPICache` and `createAPICache`
      (`createAPICache` exposes only `get` and `set` of the same store). */
  class Cache<T> {
    /** The store-wide default TTL (`ttl = 30000`). */
    const ttl: int
    /** The size bound (`maxSize = 100`). */
    const maxSize: int
    /** The entries of the JavaScript `Map`. */
    var entries: map<string, Entry<T>>
    /** Its keys in insertion order. */
    var order: seq<string>

    ghost predicate Valid()
      reads this
    {
      WellFormed(State()) && |order| <= Bound(maxSize)
    }

    /** The store as a value. */
    function State(): Store<T>
      reads this
    {
      Store(entries, order)
    }

    constructor (options: Options)
      ensures Valid() && State() == Store(map[], [])
      ensures ttl == options.ttl.GetOr(DefaultTtl)
      ensures maxSize == options.maxSize.GetOr(DefaultMaxSize)
    {
      ttl := options.ttl.GetOr(DefaultTtl);
      maxSize := options.maxSize.GetOr(DefaultMaxSize);
      entries := map[];
      order := [];
    }

    /** `get(key)`: the fresh data, or nothing; an expired entry is deleted. */
    method Get(key: string, now: int) returns (r: Option<T>)
      requires Valid()
      modifies this
      ensures Valid()
      ensures r == Lookup(old(State()), key, now)
      ensures State() == AfterGet(old(State()), key, now)
    {
      if key !in entries {
        return None;
      }
      var entry := entries[key];
      if now - entry.timestamp > entry.ttl {
        RemoveWellFormed(State(), key);
        entries := entries - {key};
        order := Without(order, key);
        return None;
      }
      return Some(entry.data);
    }

    /** `set(key, data, customTtl)`: evicts the first-inserted key when full, then stores
        the entry stamped with `now`. */
    method Set(key: string, data: T, customTtl: Option<int>, now: int)
      requires Valid()
      modifies this
      ensures Valid()
      ensures State() == AfterSet(old(State()), key, data, EffectiveTtl(customTtl, ttl), maxSize, now)
    {
      SetInvariant(State(), key, data, EffectiveTtl(customTtl, ttl), maxSize, now);
      if |order| >= maxSize && order != [] {
        var first := order[0];
        entries := entries - {first};
        order := Without(order, first);
      }
      if key !in entries {
        order := order + [key];
      }
      entries := entries[key := Entry(data, now, EffectiveTtl(customTtl, ttl))];
    }

    /** `invalidate(key)`: deletes that key only. */
    method Invalidate(key: string)
      requires Valid()
      modifies this
      ensures Valid()
      ensures State() == Remove(old(State()), key)
    {
      RemoveWellFormed(State(), key);
      entries := entries - {key};
      order := Without(order, key);
    }

    /** `clear()`: the store is empty afterwards. */
    method Clear()
      requires Valid()
      modifies this
      ensures Valid()
      ensures State() == Store(map[], [])
    {
      entries := map[];
      order := [];
    }

    /** `getStats()`: counts, in insertion order, the entries that are fresh and those
        that are expired at `now`; it changes nothing. */
    method GetStats(now: int) returns (s: Stats)
      requires Valid()
      ensures s.totalEntries == |order|
      ensures s.validEntries + s.expiredEntries == s.totalEntries
      ensures s.expiredEntries == CountExpired(order, entries, now)
      ensures s.hitRate == 0
    {
      var valid, expired := 0, 0;
      var i := 0;
      while i < |order|
        invariant 0 <= i <= |order|
        invariant expired == CountExpired(order[..i], entries, now)
        invariant valid + expired == i
      {
        assert order[..i + 1][..i] == order[..i];
        var entry := entries[order[i]];
        if now - entry.timestamp > entry.ttl {
          expired := expired + 1;
        } else {
          valid := valid + 1;
        }
        i := i + 1;
      }
      assert order[..i] == order;
      s := Stats(|order|, valid, expired, 0);
    }
  }

  /** The outcome of the wrapped API call: the promise resolves with a value or rejects. */
  datatype Outcome<R> = Resolved(value: R) | Rejected

  /** The no-entry-found case of `withCaching`: whether the cached data can be served. */
  predicate IsHit<R>(st: Store<R>, key: string, now: int) {
    Lookup(st, key, now).Some?
  }

  /** `withCaching(apiCall, keyGenerator, options)`: the wrapped function with its own,
      private cache. The network call is represented by its outcome, passed in. */
  class CachedCall<A, R> {
    const cache: Cache<R>
    const keyGen: A -> string

    ghost predicate Valid()
      reads this, cache
    {
      cache.Valid()
    }

    constructor (keyGenerator: A -> string, options: Options)
      ensures Valid() && fresh(cache)
      ensures keyGen == keyGenerator && cache.State() == Store(map[], [])
      ensures cache.ttl == options.ttl.GetOr(DefaultTtl)
      ensures cache.maxSize == options.maxSize.GetOr(DefaultMaxSize)
    {
      keyGen := keyGenerator;
      cache := new Cache(options);
    }

    /** One call of the wrapped function with `args`, looked up at time `now`. On a hit
        the cached value is returned and `apiCall` is not invoked (`called` is false). On a
        miss `apiCall` is invoked once and awaited; a resolved value is stored under the
        generated key with the cache's TTL, stamped with the clock `resolvedAt` read when
        the promise settled, and returned; a rejection propagates and nothing is stored. */
    method Call(args: A, now: int, apiCall: Outcome<R>, resolvedAt: int) returns (r: Outcome<R>, called: bool)
      requires Valid()
      modifies cache
      ensures Valid()
      ensures var key := keyGen(args);
        var st0 := old(cache.State());
        var st1 := AfterGet(st0, key, now);
        && called == !IsHit(st0, key, now)
        && (!called ==> r == Resolved(Lookup(st0, key, now).value) && cache.State() == st0)
        && (called && apiCall.Rejected? ==> r == Rejected && cache.State() == st1)
        && (called && apiCall.Resolved? ==>
              r == apiCall
              && cache.State() == AfterSet(st1, key, apiCall.value, cache.ttl, cache.maxSize, resolvedAt))
    {
      var key := keyGen(args);
      var cached := cache.Get(key, now);
      if cached.Some? {
        return Resolved(cached.value), false;
      }
      called := true;
      if apiCall.Rejected? {
        return Rejected, called;
      }
      cache.Set(key, apiCall.value, None, resolvedAt);
      r := apiCall;
    }
  }
}
