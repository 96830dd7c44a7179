/** The adaptive poller of `useSmartPolling.ts`: a recurring timer whose period grows
    as the user goes idle, and whose ticks invoke the callback only while the tab is
    visible and the user is either recently active or idle for longer than
    `maxInterval`. Browser timers are the map `live` from handle to period; the clock
    and the DOM events are parameters. */
module SmartPolling {
  import opened Wrappers

  const DefaultMaxInterval: int := 30000
  const DefaultActivityThreshold: int := 30000

  /** The period armed by the polling effect: the base interval while the user is
      recently active (at most half the threshold idle), twice it while moderately idle,
      and three times it, capped at `maxInterval`, once idle past the threshold.
      `timeSinceActivity > activityThreshold / 2` uses JavaScript's exact division,
      which for integers is `2 * timeSinceActivity > activityThreshold`. */
  function NextInterval(interval: int, maxInterval: int, activityThreshold: int, timeSinceActivity: int): int {
    if timeSinceActivity > activityThreshold then
      (if interval * 3 < maxInterval then interval * 3 else maxInterval)
    else if 2 * timeSinceActivity > activityThreshold then interval * 2
    else interval
  }

  /** Whether a tick of `poll` invokes the callback. */
  predicate ShouldFire(isVisible: bool, timeSinceActivity: int, activityThreshold: int, maxInterval: int) {
    isVisible && (timeSinceActivity < activityThreshold || timeSinceActivity > maxInterval)
  }

  /** The period never drops below the base interval nor exceeds three times it, and
      once the user is idle past the threshold it never exceeds `maxInterval`. */
  lemma NextIntervalBounds(interval: int, maxInterval: int, activityThreshold: int, timeSinceActivity: int)
    requires 0 <= interval <= maxInterval
    ensures var r := NextInterval(interval, maxInterval, activityThreshold, timeSinceActivity);
      interval <= r <= 3 * interval
      && (timeSinceActivity > activityThreshold ==> r <= maxInterval)
  {
  }

  /** The three tiers as idle time grows, for threshold 30 s, base 10 s, maximum 30 s:
      0 s idle gives 10 s, 20 s idle gives 20 s, 35 s idle gives 30 s. */
  lemma NextIntervalTiers()
    ensures NextInterval(10000, 30000, 30000, 0) == 10000
    ensures NextInterval(10000, 30000, 30000, 20000) == 20000
    ensures NextInterval(10000, 30000, 30000, 35000) == 30000
  {
  }

  /** The moderately-idle period is not capped: with base 20 s and maximum 30 s, a user
      idle for 20 s gets a 40 s period, longer than `maxInterval`. */
  lemma ModerateIntervalExceedsMax()
    ensures NextInterval(20000, DefaultMaxInterval, DefaultActivityThreshold, 20000) == 40000
    ensures 40000 > DefaultMaxInterval
  {
  }

  /** The period never shrinks as the user stays idle longer, provided twice the base
      interval is within `maxInterval`. */
  lemma NextIntervalMonotone(interval: int, maxInterval: int, activityThreshold: int, t1: int, t2: int)
    requires 0 <= interval && 2 * interval <= maxInterval && t1 <= t2
    ensures NextInterval(interval, maxInterval, activityThreshold, t1)
         <= NextInterval(interval, maxInterval, activityThreshold, t2)
  {
  }

  /** A hidden tab never polls. */
  lemma HiddenNeverFires(timeSinceActivity: int, activityThreshold: int, maxInterval: int)
    ensures !ShouldFire(false, timeSinceActivity, activityThreshold, maxInterval)
  {
  }

  /** With both defaults at 30 s, a visible tick fires unless exactly 30 s have passed
      since the last activity. */
  lemma DefaultsSilentOnlyAtThreshold(timeSinceActivity: int)
    ensures ShouldFire(true, timeSinceActivity, DefaultActivityThreshold, DefaultMaxInterval)
        <==> timeSinceActivity != 30000
  {
  }

  /** One mounted `useSmartPolling` hook. */
  class Poller {
    const interval: int
    const maxInterval: int
    const activityThreshold: int
    var enabled: bool
    var isVisible: bool
    var lastActivity: int
    /** `intervalRef.current`: the handle of the armed interval, or null. */
    var slot: Option<nat>
    /** The browser's live interval timers owned by this hook: handle to period. */
    var live: map<nat, int>
    /** The next handle `setInterval` hands out. */
    var nextHandle: nat

    /** At most one timer is pending, and it is the one the slot holds. */
    ghost predicate Consistent()
      reads this
    {
      && live.Keys == (if slot.Some? then {slot.value} else {})
      && (slot.Some? ==> slot.value < nextHandle)
    }

    /** Between renders, moreover, a timer is armed exactly when polling is enabled. */
    ghost predicate Valid()
      reads this
    {
      Consistent() && (enabled <==> slot.Some?)
    }

    /** The period the polling effect arms at time `now`. */
    function Period(now: int): int
      reads this
    {
      NextInterval(interval, maxInterval, activityThreshold, now - lastActivity)
    }

    /** Mounting: the hook's state is initialised and the polling effect runs once. */
    constructor (interval: int, enabled: Option<bool>, maxInterval: Option<int>,
                 activityThreshold: Option<int>, documentHidden: bool, now: int)
      ensures Valid()
      ensures this.interval == interval
      ensures this.maxInterval == maxInterval.GetOr(DefaultMaxInterval)
      ensures this.activityThreshold == activityThreshold.GetOr(DefaultActivityThreshold)
      ensures this.enabled == enabled.GetOr(true)
      ensures isVisible == !documentHidden && lastActivity == now
      ensures this.enabled ==> slot.Some? && live == map[slot.value := Period(now)]
      ensures !this.enabled ==> slot.None? && live == map[]
    {
      this.interval := interval;
      this.maxInterval := maxInterval.GetOr(DefaultMaxInterval);
      this.activityThreshold := activityThreshold.GetOr(DefaultActivityThreshold);
      this.enabled := enabled.GetOr(true);
      isVisible := !documentHidden;
      lastActivity := now;
      slot := None;
      live := map[];
      nextHandle := 0;
      new;
      RunEffect(now);
    }

    /** The body of the polling effect: when disabled it clears and nulls the slot and
        arms nothing; otherwise it clears any armed timer and arms one with the period
        for the current idle time. */
    method RunEffect(now: int)
      requires Consistent()
      modifies this
      ensures Valid()
      ensures enabled == old(enabled) && isVisible == old(isVisible) && lastActivity == old(lastActivity)
      ensures enabled ==> slot.Some? && live == map[slot.value := Period(now)]
      ensures !enabled ==> slot.None? && live == map[]
    {
      if !enabled {
        if slot.Some? {
          live := live - {slot.value};
          slot := None;
        }
        return;
      }
      var period := Period(now);
      if slot.Some? {
        live := live - {slot.value};
      }
      live := live[nextHandle := period];
      slot := Some(nextHandle);
      nextHandle := nextHandle + 1;
    }

    /** The cleanup of the polling effect: the armed timer is cleared and the slot nulled. */
    method Cleanup()
      requires Consistent()
      modifies this
      ensures Consistent()
      ensures slot.None? && live == map[]
      ensures enabled == old(enabled) && isVisible == old(isVisible) && lastActivity == old(lastActivity)
    {
      if slot.Some? {
        live := live - {slot.value};
        slot := None;
      }
    }

    /** A re-render whose dependencies changed: cleanup, then the effect again. */
    method Rerun(now: int)
      requires Consistent()
      modifies this
      ensures Valid()
      ensures enabled == old(enabled) && isVisible == old(isVisible) && lastActivity == old(lastActivity)
      ensures enabled ==> slot.Some? && live == map[slot.value := Period(now)]
      ensures !enabled ==> slot.None? && live == map[]
    {
      Cleanup();
      RunEffect(now);
    }

    /** A mouse, keyboard, scroll or touch event at `now` records the activity time;
        React re-runs the effect only when the value changed. */
    method OnActivity(now: int)
      requires Valid()
      modifies this
      ensures Valid()
      ensures lastActivity == now && isVisible == old(isVisible) && enabled == old(enabled)
      ensures now == old(lastActivity) ==> slot == old(slot) && live == old(live)
      ensures now != old(lastActivity) && enabled ==> slot.Some? && live == map[slot.value := Period(now)]
      ensures !enabled ==> live == map[]
    {
      if now != lastActivity {
        lastActivity := now;
        Rerun(now);
      }
    }

    /** A `visibilitychange` event: `isVisible` becomes `!document.hidden`. */
    method OnVisibilityChange(documentHidden: bool, now: int)
      requires Valid()
      modifies this
      ensures Valid()
      ensures isVisible == !documentHidden && lastActivity == old(lastActivity) && enabled == old(enabled)
      ensures isVisible == old(isVisible) ==> slot == old(slot) && live == old(live)
      ensures isVisible != old(isVisible) && enabled ==> slot.Some? && live == map[slot.value := Period(now)]
      ensures !enabled ==> live == map[]
    {
      if !documentHidden != isVisible {
        isVisible := !documentHidden;
        Rerun(now);
      }
    }

    /** The `enabled` option changes between renders. */
    method SetEnabled(e: bool, now: int)
      requires Valid()
      modifies this
      ensures Valid()
      ensures enabled == e && isVisible == old(isVisible) && lastActivity == old(lastActivity)
      ensures !e ==> slot.None? && live == map[]
      ensures e && !old(enabled) ==> slot.Some? && live == map[slot.value := Period(now)]
      ensures e && old(enabled) ==> slot == old(slot) && live == old(live)
    {
      if e != enabled {
        enabled := e;
        Rerun(now);
      }
    }

    /** The interval with handle `h` elapses at `now`: it invokes the callback exactly
        when it is still live and `poll`'s condition holds. A `setInterval` timer stays
        armed after it fires, so nothing changes. */
    method Tick(h: nat, now: int) returns (invoked: bool)
      requires Valid()
      ensures invoked <==> h in live && ShouldFire(isVisible, now - lastActivity, activityThreshold, maxInterval)
      ensures invoked ==> isVisible
    {
      invoked := h in live && isVisible
                 && (now - lastActivity < activityThreshold || now - lastActivity > maxInterval);
    }

    /** Unmounting: the polling effect's cleanup clears the armed timer and nulls the
        slot, so the separate unmount effect, which runs after it, finds nothing left
        to clear. No timer survives. */
    method Unmount()
      requires Valid()
      modifies this
      ensures Consistent()
      ensures slot.None? && live == map[]
    {
      Cleanup();
    }
  }
}
