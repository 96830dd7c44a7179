/** The real-time provider of `RealTimeContext.tsx`: it keeps the signed-in user's
    collections fresh by a role-gated global refresh, a self-re-arming polling chain
    of one-shot timers, and a cross-tab trigger key in local storage.

    An `async` refresh is split at its `await`: `StartCycle` is the synchronous
    prefix (the re-entrancy guard and the requests being sent), `FinishRefreshAll`
    the continuation once every request settled, with the settled results as input.
    Timers are the map `liveTimers` from handle to the polling chain that armed them;
    the environment decides when a live timer fires. */
module RealTime {
  import opened Wrappers
  import Decimal

  /** The authenticated user, or none. */
  datatype Session = NoUser | User(role: string)

  /** The five per-resource refreshers. */
  datatype Resource = Assignments | Pickups | Dashboard | Bookings | Points

  /** One row of a collection, as the server sent it. */
  type Row = string

  /** How one request settled. */
  datatype Fetch = Ok(rows: seq<Row>) | Failed

  /** The settled results of the three refreshers whose data is kept; the dashboard
      and points refreshers discard their responses. */
  datatype Outcomes = Outcomes(assignments: Fetch, pickups: Fetch, bookings: Fetch)

  /** The provider's three collections. */
  datatype Collections = Collections(assignments: seq<Row>, pickups: seq<Row>, bookings: seq<Row>)

  const TriggerKey: string := "e_waste_refresh_trigger"

  /** The role a refresher serves; it returns at once for anyone else. */
  function RoleFor(r: Resource): string {
    match r
    case Assignments => "delivery"
    case Pickups | Dashboard => "admin"
    case Bookings | Points => "user"
  }

  /** Whether refresher `r`, called under session `s`, sends its request. */
  predicate Owns(s: Session, r: Resource) {
    s.User? && s.role == RoleFor(r)
  }

  /** The refreshers `refreshAll` starts for session `s`, in order. */
  function FanOut(s: Session): (rs: seq<Resource>)
    ensures forall r :: r in rs <==> Owns(s, r)
  {
    if s.NoUser? then []
    else if s.role == "delivery" then [Assignments]
    else if s.role == "admin" then [Pickups, Dashboard]
    else if s.role == "user" then [Bookings, Points]
    else []
  }

  /** The delay before the next poll, by role. */
  function PollingInterval(role: string): (ms: int)
    ensures ms == 10000 <==> role == "delivery"
    ensures ms == 15000 <==> role == "admin"
    ensures ms == 20000 <==> role == "user"
    ensures ms == 30000 <==> role !in {"delivery", "admin", "user"}
  {
    match role
    case "delivery" => 10000
    case "admin" => 15000
    case "user" => 20000
    case _ => 30000
  }

  /** The collection a resource's refresher writes; the dashboard and points
      refreshers write none. */
  function Collection(c: Collections, r: Resource): Option<seq<Row>> {
    match r
    case Assignments => Some(c.assignments)
    case Pickups => Some(c.pickups)
    case Bookings => Some(c.bookings)
    case Dashboard | Points => None
  }

  /** The settled result of a kept resource. */
  function FetchOf(o: Outcomes, r: Resource): Fetch {
    match r
    case Assignments => o.assignments
    case Pickups => o.pickups
    case Bookings => o.bookings
    case Dashboard | Points => Failed
  }

  /** A refresher's effect on one collection: a successful response under a session
      that owns the resource replaces it wholesale; anything else keeps it. */
  function Replace(s: Session, r: Resource, f: Fetch, old_: seq<Row>): seq<Row> {
    if Owns(s, r) && f.Ok? then f.rows else old_
  }

  /** The collections after a refresh cycle run under session `s` settles with `o`. */
  function Applied(c: Collections, s: Session, o: Outcomes): (r: Collections) {
    Collections(
      Replace(s, Assignments, o.assignments, c.assignments),
      Replace(s, Pickups, o.pickups, c.pickups),
      Replace(s, Bookings, o.bookings, c.bookings))
  }

  /** Each kept collection is replaced by its response exactly when the cycle's session
      owns it and the request succeeded, and is otherwise untouched. */
  lemma AppliedPerResource(c: Collections, s: Session, o: Outcomes, r: Resource)
    requires r in {Assignments, Pickups, Bookings}
    ensures Collection(Applied(c, s, o), r)
         == Some(if Owns(s, r) && FetchOf(o, r).Ok? then FetchOf(o, r).rows else Collection(c, r).value)
  {
  }

  /** The roles are exclusive, so one refresh cycle rewrites at most one collection. */
  lemma AppliedTouchesAtMostOne(c: Collections, s: Session, o: Outcomes)
    ensures var a := Applied(c, s, o);
      (a.assignments != c.assignments ==> a.pickups == c.pickups && a.bookings == c.bookings)
      && (a.pickups != c.pickups ==> a.bookings == c.bookings)
  {
  }

  /** Without a user, or with a role no refresher serves, a cycle fetches nothing. */
  lemma UnknownRoleFetchesNothing(s: Session, c: Collections, o: Outcomes)
    requires s.NoUser? || s.role !in {"delivery", "admin", "user"}
    ensures FanOut(s) == [] && Applied(c, s, o) == c
  {
  }

  /** A one-shot poll timer: the session its chain's closure captured, and its delay. */
  datatype Timer = Timer(chain: Session, delay: int)

  /** A refresh cycle awaiting its responses: the session its refreshers captured, and,
      when a poll started it, the chain that poll re-arms once it settles. */
  datatype Cycle = Cycle(session: Session, resume: Option<Session>)

  /** The browser's local storage, shared by every tab of the origin. */
  class LocalStorage {
    var items: map<string, string>

    constructor ()
      ensures items == map[]
    {
      items := map[];
    }
  }

  /** One mounted provider. */
  class Provider {
    const storage: LocalStorage
    var session: Session
    var data: Collections
    /** `isRefreshingRef.current`, mirrored by the `isRefreshing` state. */
    var refreshing: bool
    var lastUpdate: Option<int>
    var inFlight: Option<Cycle>
    var liveTimers: map<nat, Timer>
    /** `refreshTimeoutRef.current`: the handle last armed, or null. */
    var timeoutRef: Option<nat>
    var nextHandle: nat
    /** Whether the `storage` event listener is attached. */
    var listening: bool
    /** Whether `window.triggerEwasteRefresh` is installed. */
    var triggerExposed: bool
    var mounted: bool

    ghost predicate Valid()
      reads this
    {
      && (refreshing <==> inFlight.Some?)
      && (inFlight.Some? && inFlight.value.resume.Some? ==> inFlight.value.resume.value.User?)
      && (forall h :: h in liveTimers ==> h < nextHandle)
      && (forall h :: h in liveTimers ==>
            liveTimers[h].chain.User? && liveTimers[h].delay == PollingInterval(liveTimers[h].chain.role))
      && (timeoutRef.Some? ==> timeoutRef.value < nextHandle)
    }

    /** A poll started the cycle in flight, and will arm the next timer when it settles. */
    ghost predicate PollInFlight()
      reads this
    {
      inFlight.Some? && inFlight.value.resume.Some?
    }

    /** The number of live polling chains: pending timers plus a poll awaiting its cycle. */
    ghost function Chains(): nat
      reads this
    {
      |liveTimers.Keys| + (if PollInFlight() then 1 else 0)
    }

    /** The intended steady state: while mounted, exactly one polling chain runs for a
        signed-in user and none otherwise, it polls for the current session, and a
        pending timer is the one the ref holds, so cleanup can clear it. */
    ghost predicate Steady()
      reads this
    {
      && mounted
      && Chains() == (if session.User? then 1 else 0)
      && (liveTimers.Keys == {} || (timeoutRef.Some? && liveTimers.Keys == {timeoutRef.value}))
      && (forall h :: h in liveTimers ==> liveTimers[h].chain == session)
      && (PollInFlight() ==> inFlight.value.resume.value == session)
    }

    /** Mounting under `session`: the polling effect polls at once for a signed-in user,
        then the storage listener is attached and the global trigger installed. */
    constructor (session: Session, storage: LocalStorage)
      ensures Valid() && Steady()
      ensures this.storage == storage && this.session == session
      ensures data == Collections([], [], []) && lastUpdate.None?
      ensures listening && triggerExposed && liveTimers == map[] && timeoutRef.None?
      ensures session.User? ==> inFlight == Some(Cycle(session, Some(session)))
      ensures session.NoUser? ==> inFlight.None?
    {
      this.storage := storage;
      this.session := session;
      data := Collections([], [], []);
      refreshing := false;
      lastUpdate := None;
      inFlight := None;
      liveTimers := map[];
      timeoutRef := None;
      nextHandle := 0;
      listening := true;
      triggerExposed := true;
      mounted := true;
      new;
      if session.User? {
        StartPolling();
      }
    }

    /** Arms a one-shot timer for chain `chain` and stores its handle in the ref. */
    method Arm(chain: Session)
      requires Valid() && chain.User?
      modifies this
      ensures Valid()
      ensures timeoutRef == Some(old(nextHandle)) && nextHandle == old(nextHandle) + 1
      ensures liveTimers == old(liveTimers)[old(nextHandle) := Timer(chain, PollingInterval(chain.role))]
      ensures old(nextHandle) !in old(liveTimers)
      ensures session == old(session) && data == old(data) && refreshing == old(refreshing)
      ensures inFlight == old(inFlight) && lastUpdate == old(lastUpdate)
      ensures listening == old(listening) && triggerExposed == old(triggerExposed) && mounted == old(mounted)
    {
      liveTimers := liveTimers[nextHandle := Timer(chain, PollingInterval(chain.role))];
      timeoutRef := Some(nextHandle);
      nextHandle := nextHandle + 1;
    }

    /** The synchronous prefix of `refreshAll` under the session its closure captured:
        a cycle already in flight makes it return at once; otherwise it raises the
        flag and sends the requests `FanOut(s)` names. */
    method StartCycle(s: Session, resume: Option<Session>)
      requires Valid() && (resume.Some? ==> resume.value.User?)
      modifies this
      ensures Valid() && refreshing
      ensures old(refreshing) ==> inFlight == old(inFlight)
      ensures !old(refreshing) ==> inFlight == Some(Cycle(s, resume))
      ensures session == old(session) && data == old(data) && lastUpdate == old(lastUpdate)
      ensures liveTimers == old(liveTimers) && timeoutRef == old(timeoutRef) && nextHandle == old(nextHandle)
      ensures listening == old(listening) && triggerExposed == old(triggerExposed) && mounted == old(mounted)
    {
      if refreshing {
        return;
      }
      refreshing := true;
      inFlight := Some(Cycle(s, resume));
    }

    /** `refreshAll` as the context exposes it, under the current session. */
    method RefreshAll()
      requires Valid()
      modifies this
      ensures Valid() && refreshing
      ensures old(refreshing) ==> inFlight == old(inFlight)
      ensures !old(refreshing) ==> inFlight == Some(Cycle(session, None))
      ensures session == old(session) && data == old(data) && lastUpdate == old(lastUpdate)
      ensures liveTimers == old(liveTimers) && timeoutRef == old(timeoutRef) && nextHandle == old(nextHandle)
      ensures listening == old(listening) && triggerExposed == old(triggerExposed) && mounted == old(mounted)
      ensures old(Steady()) ==> Steady()
    {
      StartCycle(session, None);
    }

    /** The continuation of `refreshAll` once every request settled: the collections
        take the responses the cycle's session owns, the update time is stamped, the
        flag is lowered, and a poll that started the cycle arms its next timer. */
    method FinishRefreshAll(o: Outcomes, now: int)
      requires Valid() && inFlight.Some?
      modifies this
      ensures Valid() && !refreshing && inFlight.None?
      ensures data == Applied(old(data), old(inFlight).value.session, o)
      ensures lastUpdate == Some(now)
      ensures old(inFlight).value.resume.None? ==>
        liveTimers == old(liveTimers) && timeoutRef == old(timeoutRef)
      ensures old(inFlight).value.resume.Some? ==>
        var chain := old(inFlight).value.resume.value;
        timeoutRef == Some(old(nextHandle))
        && liveTimers == old(liveTimers)[old(nextHandle) := Timer(chain, PollingInterval(chain.role))]
      ensures session == old(session)
      ensures listening == old(listening) && triggerExposed == old(triggerExposed) && mounted == old(mounted)
      ensures old(Steady()) ==> Steady()
    {
      var cycle := inFlight.value;
      data := Applied(data, cycle.session, o);
      lastUpdate := Some(now);
      refreshing := false;
      inFlight := None;
      if cycle.resume.Some? {
        Arm(cycle.resume.value);
      }
    }

    /** One `poll` of chain `chain`: with a cycle in flight it only arms the next timer;
        otherwise it starts a cycle that arms the next timer when it settles. */
    method Poll(chain: Session)
      requires Valid() && chain.User?
      modifies this
      ensures Valid() && refreshing
      ensures old(refreshing) ==>
        inFlight == old(inFlight) && timeoutRef == Some(old(nextHandle))
        && liveTimers == old(liveTimers)[old(nextHandle) := Timer(chain, PollingInterval(chain.role))]
      ensures !old(refreshing) ==>
        inFlight == Some(Cycle(chain, Some(chain)))
        && liveTimers == old(liveTimers) && timeoutRef == old(timeoutRef)
      ensures session == old(session) && data == old(data) && lastUpdate == old(lastUpdate)
      ensures listening == old(listening) && triggerExposed == old(triggerExposed) && mounted == old(mounted)
    {
      if refreshing {
        Arm(chain);
      } else {
        StartCycle(chain, Some(chain));
      }
    }

    /** `startPolling`: clears the timer the ref holds, then polls at once. */
    method StartPolling()
      requires Valid() && session.User?
      modifies this
      ensures Valid() && refreshing
      ensures var cleared := if old(timeoutRef).Some? then old(liveTimers) - {old(timeoutRef).value} else old(liveTimers);
        if old(refreshing) then
          inFlight == old(inFlight) && timeoutRef == Some(old(nextHandle))
          && liveTimers == cleared[old(nextHandle) := Timer(old(session), PollingInterval(old(session).role))]
        else
          inFlight == Some(Cycle(old(session), Some(old(session)))) && liveTimers == cleared
          && timeoutRef == old(timeoutRef)
      ensures session == old(session) && data == old(data) && lastUpdate == old(lastUpdate)
      ensures listening == old(listening) && triggerExposed == old(triggerExposed) && mounted == old(mounted)
      ensures old(mounted) && old(liveTimers).Keys == {} && !old(PollInFlight()) ==> Steady()
    {
      if timeoutRef.Some? {
        liveTimers := liveTimers - {timeoutRef.value};
      }
      Poll(session);
    }

    /** The live timer `h` elapses: it is gone, and its chain polls. */
    method TimerFires(h: nat)
      requires Valid() && h in liveTimers
      modifies this
      ensures Valid() && refreshing
      ensures var chain := old(liveTimers)[h].chain;
        if old(refreshing) then
          inFlight == old(inFlight) && timeoutRef == Some(old(nextHandle))
          && liveTimers == (old(liveTimers) - {h})[old(nextHandle) := Timer(chain, PollingInterval(chain.role))]
        else
          inFlight == Some(Cycle(chain, Some(chain))) && liveTimers == old(liveTimers) - {h}
          && timeoutRef == old(timeoutRef)
      ensures session == old(session) && data == old(data) && lastUpdate == old(lastUpdate)
      ensures listening == old(listening) && triggerExposed == old(triggerExposed) && mounted == old(mounted)
      ensures old(Steady()) ==> Steady()
    {
      var chain := liveTimers[h].chain;
      liveTimers := liveTimers - {h};
      Poll(chain);
    }

    /** The polling effect's cleanup: for a signed-in user it clears the timer the ref
        holds, and leaves the ref as it is. */
    method CleanupPolling()
      requires Valid()
      modifies this
      ensures Valid()
      ensures liveTimers == (if session.User? && old(timeoutRef).Some?
                             then old(liveTimers) - {old(timeoutRef).value} else old(liveTimers))
      ensures session == old(session) && data == old(data) && refreshing == old(refreshing)
      ensures lastUpdate == old(lastUpdate) && inFlight == old(inFlight) && timeoutRef == old(timeoutRef)
      ensures nextHandle == old(nextHandle) && listening == old(listening)
      ensures triggerExposed == old(triggerExposed) && mounted == old(mounted)
      ensures old(Steady()) && !old(PollInFlight()) ==> liveTimers.Keys == {} && !PollInFlight()
    {
      if session.User? && timeoutRef.Some? {
        liveTimers := liveTimers - {timeoutRef.value};
      }
    }

    /** The authenticated user changes (`null` to `null` is no change): the old polling
        effect's cleanup clears the timer the ref holds, without nulling the ref, and
        for a signed-in user the new effect starts polling. A poll of the old session
        still awaiting its cycle is not cancelled: it re-arms its own chain when the
        cycle settles, so the steady state survives only when none is in flight. */
    method SessionChanged(newSession: Session)
      requires Valid() && mounted && !(session.NoUser? && newSession.NoUser?)
      modifies this
      ensures Valid() && session == newSession
      ensures newSession.NoUser? ==>
        inFlight == old(inFlight) && timeoutRef == old(timeoutRef)
        && liveTimers == (if old(timeoutRef).Some? then old(liveTimers) - {old(timeoutRef).value} else old(liveTimers))
      ensures newSession.User? ==>
        var cleared := if old(timeoutRef).Some? then old(liveTimers) - {old(timeoutRef).value} else old(liveTimers);
        if old(refreshing) then
          inFlight == old(inFlight) && timeoutRef == Some(old(nextHandle))
          && liveTimers == cleared[old(nextHandle) := Timer(newSession, PollingInterval(newSession.role))]
        else
          inFlight == Some(Cycle(newSession, Some(newSession))) && liveTimers == cleared
          && timeoutRef == old(timeoutRef)
      ensures data == old(data) && lastUpdate == old(lastUpdate)
      ensures listening == old(listening) && triggerExposed == old(triggerExposed) && mounted
      ensures old(Steady()) && !old(PollInFlight()) ==> Steady()
    {
      ghost var quiet := Steady() && !PollInFlight();
      ghost var cleared := if timeoutRef.Some? then liveTimers - {timeoutRef.value} else liveTimers;
      CleanupPolling();
      session := newSession;
      if newSession.User? {
        assert (if timeoutRef.Some? then liveTimers - {timeoutRef.value} else liveTimers) == cleared;
        StartPolling();
      }
    }

    /** A `storage` event from another tab: the trigger key, whatever its new value and
        including its removal, starts `refreshAll` and removes the key; any other key is
        ignored, as is every event once the listener is detached. */
    method OnStorageEvent(key: Option<string>)
      requires Valid()
      modifies this, storage
      ensures Valid()
      ensures var hit := listening && key == Some(TriggerKey);
        && (hit ==> refreshing && storage.items == old(storage.items) - {TriggerKey})
        && (hit && !old(refreshing) ==> inFlight == Some(Cycle(session, None)))
        && (!hit ==> storage.items == old(storage.items) && refreshing == old(refreshing))
        && (!hit || old(refreshing) ==> inFlight == old(inFlight))
      ensures session == old(session) && data == old(data) && lastUpdate == old(lastUpdate)
      ensures liveTimers == old(liveTimers) && timeoutRef == old(timeoutRef)
      ensures listening == old(listening) && triggerExposed == old(triggerExposed) && mounted == old(mounted)
      ensures old(Steady()) ==> Steady()
    {
      if listening && key == Some(TriggerKey) {
        RefreshAll();
        storage.items := storage.items - {TriggerKey};
      }
    }

    /** `window.triggerEwasteRefresh()` at time `now`: while installed, it writes the
        time in decimal under the trigger key, which other tabs observe. */
    method GlobalTrigger(now: nat) returns (invoked: bool)
      modifies storage
      ensures invoked == triggerExposed
      ensures invoked ==> storage.items == old(storage.items)[TriggerKey := Decimal.NatToString(now)]
      ensures !invoked ==> storage.items == old(storage.items)
    {
      invoked := triggerExposed;
      if invoked {
        storage.items := storage.items[TriggerKey := Decimal.NatToString(now)];
      }
    }

    /** One refresher called on its own through the context, settling with `f`. */
    method RefreshResource(r: Resource, f: Fetch)
      requires Valid()
      modifies this
      ensures Valid()
      ensures Collection(data, r) == (if Collection(old(data), r).Some? && Owns(session, r) && f.Ok?
                                      then Some(f.rows) else Collection(old(data), r))
      ensures forall q :: q != r ==> Collection(data, q) == Collection(old(data), q)
      ensures session == old(session) && refreshing == old(refreshing) && inFlight == old(inFlight)
      ensures liveTimers == old(liveTimers) && timeoutRef == old(timeoutRef) && lastUpdate == old(lastUpdate)
      ensures old(Steady()) ==> Steady()
    {
      match r
      case Assignments => data := data.(assignments := Replace(session, r, f, data.assignments));
      case Pickups => data := data.(pickups := Replace(session, r, f, data.pickups));
      case Bookings => data := data.(bookings := Replace(session, r, f, data.bookings));
      case Dashboard | Points =>
    }

    /** Unmounting: the polling effect's cleanup (registered only for a signed-in user)
        clears the timer the ref holds, the listener is detached and the global trigger
        deleted. From the steady state with no poll awaiting a cycle, no timer and no
        chain survives. */
    method Unmount()
      requires Valid() && mounted
      modifies this
      ensures Valid() && !mounted && !listening && !triggerExposed
      ensures liveTimers == (if old(session).User? && old(timeoutRef).Some?
                             then old(liveTimers) - {old(timeoutRef).value} else old(liveTimers))
      ensures session == old(session) && data == old(data) && inFlight == old(inFlight)
      ensures old(Steady()) && !old(PollInFlight()) ==> Chains() == 0
    {
      CleanupPolling();
      listening := false;
      triggerExposed := false;
      mounted := false;
    }
  }

  /** Logging out while a poll awaits its cycle leaves that chain running: the old
      user's poll re-arms a timer when the cycle settles, though nobody is signed in. */
  method LogoutDuringPoll() returns (p: Provider)
    ensures p.session.NoUser? && p.Chains() == 1 && p.PollInFlight()
  {
    var storage := new LocalStorage();
    p := new Provider(User("user"), storage);
    p.SessionChanged(NoUser);
  }
}
