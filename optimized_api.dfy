/** The `optimizedAPI` table of `optimizedAPI.ts`: eight read endpoints, each wrapped by
    `withCaching` with a constant key and its own TTL, and eight mutations that always go
    to the network. */
module OptimizedApi {
  import opened Wrappers
  import ApiCache

  datatype Endpoint =
    | GetDashboard | GetBookings | GetRoutes | GetPointsBalance
    | GetPointsHistory | GetPickups | GetDeliveryGuys | GetAssignments
    | CreateBooking | UpdateStatus | AssignDelivery | ScheduleRoutes
    | RedeemPoints | Login | Register | ClassifyImage
  {
    /** The endpoints that write on the server. */
    predicate IsMutation() {
      this in {CreateBooking, UpdateStatus, AssignDelivery, ScheduleRoutes,
               RedeemPoints, Login, Register, ClassifyImage}
    }
  }

  /** The read endpoints, the ones `withCaching` wraps. */
  const Reads: set<Endpoint> := {GetDashboard, GetBookings, GetRoutes, GetPointsBalance,
                                 GetPointsHistory, GetPickups, GetDeliveryGuys, GetAssignments}

  lemma ReadsAreNotMutations(e: Endpoint)
    ensures e in Reads <==> !e.IsMutation()
  {
  }

  /** An axios response body, left abstract. */
  datatype Response = Response(body: string)

  /** How an endpoint is called: through a cache under a constant key with a TTL in
      milliseconds, or straight to the network. */
  datatype Policy = Cached(key: string, ttl: int) | Uncached

  /** The table of cache keys and TTLs. */
  function PolicyOf(e: Endpoint): (p: Policy)
    ensures p.Uncached? <==> e.IsMutation()
    ensures p.Cached? ==> p.ttl in {10000, 15000, 30000, 60000}
  {
    match e
    case GetDashboard => Cached("dashboard", 30000)
    case GetBookings => Cached("bookings", 10000)
    case GetRoutes => Cached("routes", 60000)
    case GetPointsBalance => Cached("points_balance", 15000)
    case GetPointsHistory => Cached("points_history", 30000)
    case GetPickups => Cached("admin_pickups", 10000)
    case GetDeliveryGuys => Cached("delivery_guys", 60000)
    case GetAssignments => Cached("delivery_assignments", 15000)
    case _ => Uncached
  }

  /** The eight cached endpoints use eight different keys. */
  lemma CachedKeysDistinct(e1: Endpoint, e2: Endpoint)
    requires PolicyOf(e1).Cached? && PolicyOf(e2).Cached? && e1 != e2
    ensures PolicyOf(e1).key != PolicyOf(e2).key
  {
  }

  /** The wrapper of read endpoint `e` is set up as the table says: key, TTL, default size. */
  predicate Configured(e: Endpoint, c: ApiCache.CachedCall<(), Response>) {
    && !e.IsMutation()
    && c.keyGen(()) == PolicyOf(e).key
    && c.cache.ttl == PolicyOf(e).ttl
    && c.cache.maxSize == ApiCache.DefaultMaxSize
  }

  /** `withCaching(() => api.get(...), () => key, { ttl })` for read endpoint `e`. */
  method NewCall(e: Endpoint) returns (c: ApiCache.CachedCall<(), Response>)
    requires !e.IsMutation()
    ensures fresh(c) && fresh(c.cache)
    ensures Configured(e, c) && c.cache.Valid() && c.cache.State() == ApiCache.Store(map[], [])
  {
    var key := PolicyOf(e).key;
    c := new ApiCache.CachedCall<(), Response>(_ => key, ApiCache.Options(Some(PolicyOf(e).ttl), None));
  }

  /** The caches behind the wrappers of `m`. */
  ghost function CachesOf(m: map<Endpoint, ApiCache.CachedCall<(), Response>>): set<object>
  {
    set e | e in m :: m[e].cache
  }

  /** Every wrapper of `m` is set up as the table says, and no two share a cache. */
  predicate Wired(m: map<Endpoint, ApiCache.CachedCall<(), Response>>) {
    && (forall e :: e in m ==> Configured(e, m[e]))
    && (forall e1, e2 :: e1 in m && e2 in m && e1 != e2 ==> m[e1].cache != m[e2].cache)
  }

  /** Every cache behind `m` keeps its invariant. */
  ghost predicate CachesValid(m: map<Endpoint, ApiCache.CachedCall<(), Response>>)
    reads CachesOf(m)
  {
    forall e :: e in m ==> m[e].cache.Valid()
  }

  /** Every cache behind `m` is empty. */
  ghost predicate AllEmpty(m: map<Endpoint, ApiCache.CachedCall<(), Response>>)
    reads CachesOf(m)
  {
    forall e :: e in m ==> m[e].cache.State() == ApiCache.Store(map[], [])
  }

  /** An empty cache keeps its invariant. */
  lemma EmptyCachesValid(m: map<Endpoint, ApiCache.CachedCall<(), Response>>)
    requires AllEmpty(m)
    ensures CachesValid(m)
  {
    forall e | e in m
      ensures m[e].cache.Valid()
    {
      assert m[e].cache.State() == ApiCache.Store(map[], []);
    }
  }

  /** Module initialisation: the object literal, every cache empty. */
  method NewClient() returns (client: Client)
    ensures client.Valid() && AllEmpty(client.calls)
  {
    var m := NewTable();
    EmptyCachesValid(m);
    client := Client(m);
  }

  /** Builds the table of `withCaching` wrappers, one per read endpoint. */
  method NewTable() returns (m: map<Endpoint, ApiCache.CachedCall<(), Response>>)
    ensures m.Keys == Reads && Wired(m) && AllEmpty(m)
  {
    var getters := [GetDashboard, GetBookings, GetRoutes, GetPointsBalance,
                    GetPointsHistory, GetPickups, GetDeliveryGuys, GetAssignments];
    m := map[];
    var i := 0;
    while i < |getters|
      invariant 0 <= i <= |getters|
      invariant forall e :: e in m <==> e in getters[..i]
      invariant Wired(m) && AllEmpty(m)
    {
      var c := NewCall(getters[i]);
      m := m[getters[i] := c];
      i := i + 1;
    }
    assert getters[..i] == getters;
  }

  /** The module-level `optimizedAPI` object: an immutable table holding one
      `withCaching` wrapper, with a cache of its own, per read endpoint. */
  datatype Client = Client(calls: map<Endpoint, ApiCache.CachedCall<(), Response>>)
  {
    ghost predicate Valid()
      reads CachesOf(calls)
    {
      calls.Keys == Reads && Wired(calls) && CachesValid(calls)
    }

    /** A call of a read endpoint, started at `now` and, on a miss, settled at
        `resolvedAt`: it goes through that endpoint's cache, and no other endpoint's
        cache changes. */
    method Read(e: Endpoint, now: int, apiCall: ApiCache.Outcome<Response>, resolvedAt: int)
      returns (r: ApiCache.Outcome<Response>, called: bool)
      requires Valid() && e in Reads
      modifies calls[e].cache
      ensures Valid()
      ensures var st0 := old(calls[e].cache.State());
        var key := PolicyOf(e).key;
        var st1 := ApiCache.AfterGet(st0, key, now);
        && called == !ApiCache.IsHit(st0, key, now)
        && (!called ==> r == ApiCache.Resolved(ApiCache.Lookup(st0, key, now).value)
                        && calls[e].cache.State() == st0)
        && (called && apiCall.Rejected? ==> r == apiCall && calls[e].cache.State() == st1)
        && (called && apiCall.Resolved? ==>
              r == apiCall
              && calls[e].cache.State()
                 == ApiCache.AfterSet(st1, key, apiCall.value, PolicyOf(e).ttl, ApiCache.DefaultMaxSize, resolvedAt))
      ensures forall e' :: e' in calls && e' != e ==> calls[e'].cache.State() == old(calls[e'].cache.State())
    {
      r, called := calls[e].Call((), now, apiCall, resolvedAt);
      forall e' | e' in calls && e' != e
        ensures calls[e'].cache.Valid() && calls[e'].cache.State() == old(calls[e'].cache.State())
      {
        assert calls[e'].cache != calls[e].cache;
      }
    }

    /** A mutation goes to the network uncached: its outcome is the network's outcome,
        whatever any cache holds, and no cache is read or written. */
    method Mutate(e: Endpoint, apiCall: ApiCache.Outcome<Response>) returns (r: ApiCache.Outcome<Response>)
      requires Valid() && e.IsMutation()
      ensures r == apiCall
      ensures forall e' :: e' in calls ==> calls[e'].cache.State() == old(calls[e'].cache.State())
    {
      r := apiCall;
    }

    /** A second call of the same read endpoint, started after the first call's fetch
        settled at `done1` and within the TTL of that response, returns that response
        without a network call. */
    method ReadTwiceWithinTtl(e: Endpoint, t1: int, done1: int, t2: int, done2: int,
                              first: ApiCache.Outcome<Response>, second: ApiCache.Outcome<Response>)
      returns (r1: ApiCache.Outcome<Response>, called1: bool, r2: ApiCache.Outcome<Response>, called2: bool)
      requires Valid() && e in Reads && first.Resolved?
      requires t1 <= done1 <= t2 <= done1 + PolicyOf(e).ttl
      modifies calls[e].cache
      ensures Valid()
      ensures called1 ==> !called2 && r2 == r1 == first
    {
      var key := PolicyOf(e).key;
      ghost var st0 := calls[e].cache.State();
      r1, called1 := Read(e, t1, first, done1);
      if called1 {
        ApiCache.SetThenGet(ApiCache.AfterGet(st0, key, t1), key, first.value,
                            PolicyOf(e).ttl, ApiCache.DefaultMaxSize, done1, t2);
      }
      r2, called2 := Read(e, t2, second, done2);
    }
  }
}
