# E-waste pickup app: a verified Dafny model of its core

This project models the parts of the e-waste pickup application that decide
behaviour, and proves properties of them. The application is a React front end
over a FastAPI/SQLite back end. Users book pickups of old devices. An admin
schedules routes and assigns delivery staff. A completed delivery earns the user
20 loyalty points, which can be redeemed for gift cards.

The model has these parts:

- **`ApiCache`** (`api_cache.dfy`): the client-side response cache of
  `useAPICache`/`createAPICache`.
  - A class over a key-to-entry map and the map's insertion order.
  - Expiry is checked on read; the first-inserted key is evicted when the cache is full.
  - `getStats` is a counting loop.
  - `withCaching` wraps a call with a private cache.
- **`OptimizedApi`** (`optimized_api.dfy`): the table of endpoints.
  - Reads are cached under a constant key with a fixed TTL.
  - Mutations go straight through.
  - The `optimizedAPI` object is an immutable value holding one wrapper, with its own cache, per getter.
- **`SmartPolling`** (`smart_polling.dfy`): the adaptive polling hook.
  - The dynamic-interval formula and the fire condition of one tick.
  - A class for the hook's timer slot, its live intervals and its activity/visibility state.
- **`RealTime`** (`realtime.dfy`): the real-time context provider.
  - Role-based refresh fan-out and the single-flight `refreshAll`, split at its `await`.
  - The self-rescheduling poll chain.
  - The cross-tab storage trigger.
- **`Backend`** (`backend.dfy`): the endpoints as methods on a class holding the tables:
  - registration, booking, assignment and delivery status with the points award;
  - redemption;
  - pincode-to-route scheduling.
- **`Classifier`** (`classifier.dfy`): the keyword fallback parse of the image
  classifier's reply, result validation and the error result.
- **`UserDashboard`** and **`AdminDashboard`** (`user_dashboard.dfy`, `admin_dashboard.dfy`):
  - the list filters and the in-place sort;
  - the redemption pre-checks, the points total and the stepper index;
  - the status chip and the section cards.
- **`Wrappers`**, **`Seqs`** and **`Decimal`** are shared helpers:
  - an `Option` type;
  - `filter` and the subsequence relation;
  - decimal rendering and the first digit run of a string.

Clocks, timers, network outcomes and browser events are parameters or method
calls. The clock is `now`, a response is an `Outcome`/`Fetch` value, and each
timer firing or DOM event is a method call. All integers are unbounded;
confidences are integer tenths.

The points tables are modelled as the schema defines them:
- `user_points` has no unique constraint on `user_id`. `INSERT OR IGNORE` therefore appends a fresh zero row on every award.
- Each `UPDATE` applies to all of the user's rows.
- A balance read is the first row of the user.
- The ledger invariant holds across awards and redemptions: the balance read equals the sum of the user's history, and every row of the user lies between 0 and that balance.

## Model

| member | source | states |
|---|---|---|
| ApiCache.Bound | react-frontend/src/hooks/useAPICache.ts:40-49 | the size a cache can reach after any `set`: `maxSize` when it is at least 1, else 1 |
| ApiCache.CountExpired | react-frontend/src/hooks/useAPICache.ts:66-73 | the expired count over the entries never exceeds the number of entries |
| ApiCache.RemoveWellFormed | react-frontend/src/hooks/useAPICache.ts:52-54 | deleting a key removes exactly that key from the table and the order, keeps the order duplicate-free, and changes nothing when the key is absent |
| ApiCache.RemoveFirst | react-frontend/src/hooks/useAPICache.ts:40-43 | deleting the first key of the iteration order leaves the rest of the order |
| ApiCache.SetInvariant | react-frontend/src/hooks/useAPICache.ts:38-50 | after `set` the size stays within the bound, the key holds the new data, timestamp and TTL, and no other key is added |
| ApiCache.SetEvictsFirstInserted | react-frontend/src/hooks/useAPICache.ts:40-49 | when full, exactly the first-inserted key is evicted before writing, even when the key being set is already present |
| ApiCache.SetKeepsPosition | react-frontend/src/hooks/useAPICache.ts:45-49 | overwriting a present key without eviction keeps the insertion order |
| ApiCache.SetThenGet | react-frontend/src/hooks/useAPICache.ts:22-50 | a `get` after `set` returns the data exactly while `now - timestamp <= ttl` |
| ApiCache.GetExpiredDeletesOnlyKey | react-frontend/src/hooks/useAPICache.ts:29-33 | a strictly expired entry reads as null and is deleted; every other entry is kept unchanged |
| ApiCache.GetFreshChangesNothing | react-frontend/src/hooks/useAPICache.ts:22-36 | a `get` that finds no expired entry leaves the store as it was, and hits exactly when the key is present |
| ApiCache.Cache.constructor | react-frontend/src/hooks/useAPICache.ts:18-20 | an empty store with TTL 30000 and size 100 unless options say otherwise |
| ApiCache.Cache.Get | react-frontend/src/hooks/useAPICache.ts:22-36 | returns the fresh data or nothing, and deletes the entry only when it is expired |
| ApiCache.Cache.Set | react-frontend/src/hooks/useAPICache.ts:38-50 | evict-then-insert, with a falsy custom TTL (absent or 0) falling back to the store TTL |
| ApiCache.Cache.Invalidate | react-frontend/src/hooks/useAPICache.ts:52-54 | removes only the given key |
| ApiCache.Cache.Clear | react-frontend/src/hooks/useAPICache.ts:56-58 | leaves the store empty |
| ApiCache.Cache.GetStats | react-frontend/src/hooks/useAPICache.ts:60-81 | does not change the store; valid + expired = total, and expired is the count of strictly expired entries; hit rate is 0 |
| ApiCache.CachedCall.constructor | react-frontend/src/hooks/useAPICache.ts:135-140 | a wrapper owns a fresh, empty cache with the given options |
| ApiCache.CachedCall.Call | react-frontend/src/hooks/useAPICache.ts:142-160 | a hit returns the cached value without calling; a miss calls once and stores a resolved result under the generated key with the cache's TTL, stamped with the time the call settled; a rejected call stores nothing |
| OptimizedApi.ReadsAreNotMutations | react-frontend/src/services/optimizedAPI.ts:41-107 | the eight getters and the eight mutations partition the endpoints |
| OptimizedApi.PolicyOf | react-frontend/src/services/optimizedAPI.ts:41-107 | an endpoint is uncached exactly when it is a mutation; cached TTLs are 10, 15, 30 or 60 seconds |
| OptimizedApi.CachedKeysDistinct | react-frontend/src/services/optimizedAPI.ts:43-96 | no two cached getters share a key |
| OptimizedApi.NewCall | react-frontend/src/services/optimizedAPI.ts:43-96 | each getter gets its own empty cache, constant key and TTL |
| OptimizedApi.NewTable | react-frontend/src/services/optimizedAPI.ts:41-97 | the table has exactly the eight getters, each set up with its own key and TTL, on pairwise distinct empty caches |
| OptimizedApi.NewClient | react-frontend/src/services/optimizedAPI.ts:41-97 | the module object starts with every getter on an empty, private cache that keeps the cache invariant |
| OptimizedApi.Client.Read | react-frontend/src/services/optimizedAPI.ts:41-97 | a getter behaves as the cached call with its key and TTL, stamping a fetched response with its settle time, and touches no other getter's cache |
| OptimizedApi.Client.Mutate | react-frontend/src/services/optimizedAPI.ts:98-107 | a mutation returns the network outcome as it is and leaves every cache unchanged |
| OptimizedApi.Client.ReadTwiceWithinTtl | react-frontend/src/services/optimizedAPI.ts:43-96 | a read started after an earlier read's fetch settled, and within the TTL of that settle time, makes no network call and returns the same value |
| SmartPolling.NextIntervalBounds | react-frontend/src/hooks/useSmartPolling.ts:83-92 | the period lies between the interval and three times it, and past the threshold it does not exceed `maxInterval` |
| SmartPolling.NextIntervalTiers | react-frontend/src/hooks/useSmartPolling.ts:83-92 | the three tiers for interval 10 s: active 10 s, half-idle 20 s, idle 30 s |
| SmartPolling.ModerateIntervalExceedsMax | react-frontend/src/hooks/useSmartPolling.ts:89-92 | the doubled half-idle period is not capped: 20 s becomes 40 s, above the 30 s default maximum |
| SmartPolling.NextIntervalMonotone | react-frontend/src/hooks/useSmartPolling.ts:83-92 | when doubling stays within the maximum, longer idleness never shortens the period |
| SmartPolling.HiddenNeverFires | react-frontend/src/hooks/useSmartPolling.ts:71-80 | a tick on a hidden page never invokes the callback |
| SmartPolling.DefaultsSilentOnlyAtThreshold | react-frontend/src/hooks/useSmartPolling.ts:71-80 | with the default 30 s threshold and maximum, a visible tick fires unless the idle time is exactly 30 s |
| SmartPolling.Poller.constructor | react-frontend/src/hooks/useSmartPolling.ts:18-27 | defaults enabled/30 s/30 s; visibility from the document; when enabled, mounting arms one interval at the dynamic period |
| SmartPolling.Poller.RunEffect | react-frontend/src/hooks/useSmartPolling.ts:62-101 | disabled: the slot is cleared; enabled: exactly one live interval, at the dynamic period |
| SmartPolling.Poller.Cleanup | react-frontend/src/hooks/useSmartPolling.ts:102-107 | clears the live interval and empties the slot |
| SmartPolling.Poller.Rerun | react-frontend/src/hooks/useSmartPolling.ts:62-108 | cleanup then effect: one live interval when enabled, none otherwise |
| SmartPolling.Poller.OnActivity | react-frontend/src/hooks/useSmartPolling.ts:36-39 | records the activity time; a changed time re-arms the interval at the new period |
| SmartPolling.Poller.OnVisibilityChange | react-frontend/src/hooks/useSmartPolling.ts:41-43 | records visibility; a change re-arms the interval |
| SmartPolling.Poller.SetEnabled | react-frontend/src/hooks/useSmartPolling.ts:63-69 | disabling clears every interval; enabling arms one |
| SmartPolling.Poller.Tick | react-frontend/src/hooks/useSmartPolling.ts:71-80 | a live interval invokes the callback exactly when visible and recently active or idle beyond the maximum |
| SmartPolling.Poller.Unmount | react-frontend/src/hooks/useSmartPolling.ts:111-117 | after unmount no interval is live |
| RealTime.FanOut | react-frontend/src/contexts/RealTimeContext.tsx:119-134 | the refreshers started are exactly those whose role matches the signed-in user |
| RealTime.PollingInterval | react-frontend/src/contexts/RealTimeContext.tsx:158-165 | 10 s for delivery, 15 s for admin, 20 s for user, 30 s for any other role, each in both directions |
| RealTime.AppliedPerResource | react-frontend/src/contexts/RealTimeContext.tsx:60-116 | a collection is replaced by its response exactly when the session owns it and the request succeeded |
| RealTime.AppliedTouchesAtMostOne | react-frontend/src/contexts/RealTimeContext.tsx:128-136 | a refresh cycle changes at most one of the three collections |
| RealTime.UnknownRoleFetchesNothing | react-frontend/src/contexts/RealTimeContext.tsx:128-134 | signed out or with an unknown role, nothing is fetched and nothing changes |
| RealTime.Provider.constructor | react-frontend/src/contexts/RealTimeContext.tsx:148-215 | mounting installs the listener and the global trigger and, for a signed-in user, starts the first poll cycle |
| RealTime.Provider.Arm | react-frontend/src/contexts/RealTimeContext.tsx:172-173 | arms one new timeout at the chain's role interval and records it in the ref |
| RealTime.Provider.StartCycle | react-frontend/src/contexts/RealTimeContext.tsx:119-123 | a cycle starts only when none is in flight, and sets the refreshing flag |
| RealTime.Provider.RefreshAll | react-frontend/src/contexts/RealTimeContext.tsx:119-145 | single flight: a call while refreshing changes nothing; the steady invariant is kept |
| RealTime.Provider.FinishRefreshAll | react-frontend/src/contexts/RealTimeContext.tsx:136-144 | applies the settled outcomes under the session the cycle started with, stamps the time, always releases the flag, and a poll cycle re-arms its timeout |
| RealTime.Provider.Poll | react-frontend/src/contexts/RealTimeContext.tsx:167-174 | skips the refresh while one is in flight but still re-arms the timeout |
| RealTime.Provider.StartPolling | react-frontend/src/contexts/RealTimeContext.tsx:151-180 | clears the stored timeout and starts a poll; from a state with no timer and no poll in flight it reaches the steady state |
| RealTime.Provider.CleanupPolling | react-frontend/src/contexts/RealTimeContext.tsx:182-186 | for a signed-in user clears only the timeout the ref holds and leaves the ref and every other field as they were; a quiet steady state is left with no chain |
| RealTime.Provider.TimerFires | react-frontend/src/contexts/RealTimeContext.tsx:167-173 | a fired timeout runs one poll of its chain |
| RealTime.Provider.SessionChanged | react-frontend/src/contexts/RealTimeContext.tsx:148-187 | the old effect's cleanup clears the stored timeout; a signed-in user starts a new chain; from a quiet steady state, exactly one chain remains |
| RealTime.Provider.OnStorageEvent | react-frontend/src/contexts/RealTimeContext.tsx:190-202 | only the trigger key starts a refresh and removes the key; other keys change nothing |
| RealTime.Provider.GlobalTrigger | react-frontend/src/contexts/RealTimeContext.tsx:205-215 | while exposed, the trigger writes the current time in decimal under the trigger key |
| RealTime.Provider.RefreshResource | react-frontend/src/contexts/RealTimeContext.tsx:60-116 | one refresher replaces only its own collection, and only for the owning role on success |
| RealTime.Provider.Unmount | react-frontend/src/contexts/RealTimeContext.tsx:182-215 | removes the listener and the global trigger and clears only the stored timeout; from a quiet steady state no chain remains |
| RealTime.LogoutDuringPoll | react-frontend/src/contexts/RealTimeContext.tsx:167-186 | a logout while a poll awaits its refresh leaves a chain that re-arms after teardown |
| Backend.FirstBalance | backend/main.py:549-553 | no balance is found exactly when the user has no points row |
| Backend.FirstBalanceIsFirstRow | backend/main.py:549-553 | the balance read is the user's lowest-rowid row |
| Backend.FirstBalanceAppend | backend/main.py:472-475 | an appended row is read only when the user had no row |
| Backend.FirstBalanceCredit | backend/main.py:477-481 | crediting all the user's rows raises the balance read by the amount and leaves other users' reads unchanged |
| Backend.FirstBalanceReset | backend/main.py:565-569 | setting all the user's rows makes the read return the new value and leaves other users' reads unchanged |
| Backend.SumForAppend | backend/main.py:484-487 | a history row adds its amount to its own user's total only |
| Backend.BalanceNonNegative | backend/main.py:541-569 | under the ledger invariant no balance read is negative |
| Backend.AwardKeepsLedger | backend/main.py:457-487 | the award keeps the ledger and award-once invariants, is a no-op when already recorded, otherwise adds 20 to the user's balance read, and leaves other users alone |
| Backend.AwardLedgerFor | backend/main.py:470-487 | per user: a new award keeps that user's ledger and adds 20 to the awardee's balance read |
| Backend.AwardIdempotent | backend/main.py:464-470 | awarding the same booking twice equals awarding it once |
| Backend.DebitKeepsLedger | backend/main.py:559-575 | a redemption within the balance keeps both invariants and leaves a non-negative balance reduced by the amount |
| Backend.DebitLedgerFor | backend/main.py:559-575 | per user: a redemption keeps that user's ledger and reduces only the redeemer's balance read |
| Backend.PyMod | backend/main.py:273 | Python's `%`: the remainder differs from the dividend by a multiple of the divisor; for a positive divisor it is in [0, d) and agrees with Euclidean `%`; for a negative divisor it lies in (d, 0] |
| Backend.Unique | backend/main.py:267 | pandas `unique()`: the same values, without duplicates, in the order of their first appearance |
| Backend.RouteMap | backend/main.py:271-273 | the loop maps the i-th distinct pincode to route `i % n + 1` (Python modulo) and maps nothing else |
| Backend.RoundRobinCovers | backend/main.py:268-273 | with k ≥ 1 every route number lies in 1..n, and the first n pincodes get routes 1..n in order |
| Backend.PendingPincodesCovered | backend/main.py:261-275 | every unscheduled booking's pincode has a route |
| Backend.ScheduleRowsMatch | backend/main.py:271-280 | the map the loop builds covers every unscheduled booking's pincode, and applying it row by row is the round-robin rescheduling, after which every row is scheduled |
| Backend.SchedulingCoversAll | backend/main.py:261-280 | after scheduling every booking is scheduled; each previously unscheduled one gets a route and status `scheduled`, in 1..n when k ≥ 1, and bookings with the same pincode share a route |
| Backend.RescheduleAllValid | backend/main.py:279-280 | scheduling keeps the booking table valid |
| Backend.FindBooking | backend/main.py:376-379 | a booking is found exactly when one has the id |
| Backend.SetBookingStatusValid | backend/main.py:450-454 | a status update with an allowed status keeps the booking table valid |
| Backend.MarkAssignedValid | backend/main.py:394-398 | marking assigned keeps the booking table valid |
| Backend.SetDeliveryStatusValid | backend/main.py:443-447 | a delivery status update keeps `completed_at` set exactly for delivered rows |
| Backend.SetStatusKeepsRecipient | backend/main.py:450-461 | updating a booking's status first does not change whose points the delivery earns |
| Backend.Db.constructor | backend/setup_db.py:58-94 | empty tables |
| Backend.Db.Register | backend/main.py:164-185 | only `user`/`delivery` may register, an existing username is refused, otherwise one user row is added |
| Backend.Db.CreateBooking | backend/main.py:219-229 | a user's booking is appended as pending, unscheduled, without a route, under the next id |
| Backend.Db.AssignDelivery | backend/main.py:370-403 | succeeds exactly when the caller is an admin, the booking exists and the assignee is a delivery user; otherwise 403 or 404 and nothing changes; on success a delivery row is appended and the booking is marked assigned and scheduled |
| Backend.Db.UpdateDeliveryStatus | backend/main.py:424-492 | succeeds exactly when the caller is delivery staff, the status is known and the caller is assigned the booking; otherwise 403, 400 or 404; on success both statuses are updated and a delivery awards 20 points once per booking |
| Backend.Db.RedeemPoints | backend/main.py:541-591 | succeeds exactly when a user redeems at least 60 points and has a balance row holding at least the amount; the minimum is checked first, then a missing balance, then sufficiency; success debits exactly the amount and reports a non-negative remaining balance |
| Backend.Db.ScheduleRoutes | backend/main.py:258-284 | admin only; nothing to do without unscheduled bookings; k = 0 fails; otherwise every booking is scheduled by the round-robin pincode map |
| Decimal.NatToString | react-frontend/src/contexts/RealTimeContext.tsx:206 | decimal digits without a leading zero |
| Decimal.IntToString | backend/ai_image_classifier.py:384 | a leading minus sign exactly for negative numbers |
| Decimal.FirstInteger | backend/ai_image_classifier.py:349-350 | no number exactly when the text has no digit |
| Decimal.FirstIntegerRoundTrip | backend/ai_image_classifier.py:349-350 | a number written after digit-free text, and not followed by a digit, is read back |
| Classifier.TitleFrom | backend/ai_image_classifier.py:380 | each character is title-cased by whether the previous one is a letter |
| Classifier.Title | backend/ai_image_classifier.py:380 | `title()` keeps the length |
| Classifier.TitleOfLowerWord | backend/ai_image_classifier.py:380 | a lower-case type name is shown with its first letter capitalised |
| Classifier.Truncate | backend/ai_image_classifier.py:359 | up to 200 characters are kept as they are; longer text keeps its first 200 followed by "..." |
| Classifier.DeviceOf | backend/ai_image_classifier.py:272-333 | the model guessed always belongs to the detected device type |
| Classifier.FallbackParse | backend/ai_image_classifier.py:268-360 | the count is non-negative and the message is the truncated reply |
| Classifier.PriorityOrder | backend/ai_image_classifier.py:276-333 | the type is laptop, smartphone, battery, tablet or other, each exactly when its keywords match and no earlier category's do |
| Classifier.VerdictAgrees | backend/ai_image_classifier.py:345-358 | electronic exactly when an electronic keyword matches, with the detected list and 0.7/0.3 confidence to match |
| Classifier.CaseInsensitive | backend/ai_image_classifier.py:270 | texts equal after lower-casing get the same type, model and verdict |
| Classifier.CountIsFirstNumber | backend/ai_image_classifier.py:347-350 | the count is the first number in the text |
| Classifier.CountWithoutDigits | backend/ai_image_classifier.py:350 | without digits the count is 1 for electronic text and 0 otherwise |
| Classifier.ScreenNotElectronic | backend/ai_image_classifier.py:336-345 | "screen" matches no electronic keyword |
| Classifier.ScreenIsLaptopButNotElectronic | backend/ai_image_classifier.py:277-345 | "screen" is typed as a laptop yet judged not electronic: type and verdict use different lists |
| Classifier.ValidateResult | backend/ai_image_classifier.py:362-386 | missing fields take their defaults, `error` is false, and the user message follows the count |
| Classifier.ValidatedFallback | backend/ai_image_classifier.py:362-386 | validating a digit-free fallback result keeps its fields and asks for a retry or greets the single device |
| Classifier.ErrorVerdict | backend/ai_image_classifier.py:402-412 | the error result is marked as an error, non-electronic, with count 0, no detections, no model and confidence 0 |
| UserDashboard.StepFiltersPartition | react-frontend/src/pages/UserDashboard.tsx:300-318 | a booking at a known step is kept by exactly one of the active/assigned/picked-up/delivered filters |
| UserDashboard.RankAsWritten | react-frontend/src/pages/UserDashboard.tsx:321-328 | the comparator's rank is 4 for every status except assigned, picked up and delivered |
| UserDashboard.Rank | react-frontend/src/pages/UserDashboard.tsx:321-328 | the intended rank: 0 exactly for pending and scheduled, 4 exactly for a status outside the steps |
| UserDashboard.RankFollowsSteps | react-frontend/src/pages/UserDashboard.tsx:320-324 | the intended order: pending and scheduled together, then assigned, picked up and delivered in step order, and any unknown status after every step |
| UserDashboard.PendingAfterDeliveredAsWritten | react-frontend/src/pages/UserDashboard.tsx:321-332 | as written, a pending booking sorts after a delivered one |
| UserDashboard.OpenBookingsFirst | react-frontend/src/pages/UserDashboard.tsx:321-332 | with the intended rank, pending and scheduled bookings sort before all others |
| UserDashboard.SortByRank | react-frontend/src/pages/UserDashboard.tsx:322-332 | the in-place sort orders by rank, then newest first, and is a permutation |
| UserDashboard.Insert | react-frontend/src/pages/UserDashboard.tsx:322-332 | one insertion pass extends the sorted prefix by one element and permutes the array |
| UserDashboard.FilterAndSort | react-frontend/src/pages/UserDashboard.tsx:298-333 | `all` sorts and returns the shared array itself; other filters return a fresh array; the result is a permutation of the kept bookings sorted by the given rank |
| UserDashboard.GetFilteredBookings | react-frontend/src/pages/UserDashboard.tsx:298-333 | as written: `all` sorts and returns the shared array itself; other filters return a fresh array; the result is a permutation of the kept bookings sorted by the rank `statusOrder[status] \|\| 4` |
| UserDashboard.GetFilteredBookingsIntended | react-frontend/src/pages/UserDashboard.tsx:298-333 | the same filter and sort with the intended rank, so pending and scheduled bookings come first |
| UserDashboard.RedeemPrecheck | react-frontend/src/pages/UserDashboard.tsx:260-275 | a numeric amount passes exactly when 60 ≤ amount ≤ balance; above the balance the balance message wins; within the balance but below 60 the minimum message is shown; NaN passes both checks |
| UserDashboard.PrecheckMatchesServer | react-frontend/src/pages/UserDashboard.tsx:262-273 | an amount the client passes meets the server's minimum and balance checks |
| UserDashboard.ClientReportsBalanceFirst | react-frontend/src/pages/UserDashboard.tsx:264-273 | the client reports the balance for an amount that is also below the minimum |
| UserDashboard.MemoizedPoints | react-frontend/src/pages/UserDashboard.tsx:93-98 | the total is a multiple of 20, between 0 and 20 per booking |
| UserDashboard.MemoizedPointsAppend | react-frontend/src/pages/UserDashboard.tsx:93-98 | one more booking adds 20 points exactly when it is delivered |
| UserDashboard.IndexIn | react-frontend/src/pages/UserDashboard.tsx:647 | `indexOf`: the first position of the status, or -1 exactly when absent |
| UserDashboard.StepperIndex | react-frontend/src/pages/UserDashboard.tsx:647 | the stepper shows the status's step, or step 0 for an unknown status |
| AdminDashboard.GetFilteredPickups | react-frontend/src/pages/AdminDashboard.tsx:269-282 | an order-preserving subsequence holding exactly the kept pickups; `all` and unknown filters return the list itself |
| AdminDashboard.UnassignedAndAssignedDisjoint | react-frontend/src/pages/AdminDashboard.tsx:271-274 | no pickup is both unassigned and assigned |
| AdminDashboard.StatusChip | react-frontend/src/pages/AdminDashboard.tsx:251-267 | a delivery status decides the label first (raw value if unknown), then a delivery person, then scheduling, else Pending |
| AdminDashboard.ChipAgreesWithFilter | react-frontend/src/pages/AdminDashboard.tsx:251-282 | the chip shown agrees with the filter that keeps the pickup |
| AdminDashboard.AssignedHasTwoColours | react-frontend/src/pages/AdminDashboard.tsx:253-262 | "Assigned" is amber from the delivery status and green from the delivery person alone |
| AdminDashboard.CardClick | react-frontend/src/pages/AdminDashboard.tsx:170-173 | a status card closes the sections and filters by its status |
| AdminDashboard.SectionClick | react-frontend/src/pages/AdminDashboard.tsx:175-203 | clicking the open section closes it, clicking another opens it; the filter resets to `all` |
| AdminDashboard.SectionClickTwice | react-frontend/src/pages/AdminDashboard.tsx:175-203 | two clicks on the same card restore it when it was open and close it otherwise |

## Left out

- Real timers, DOM events, `document.hidden`, `localStorage` delivery across tabs and the network are parameters or method calls; time is an integer passed in.
- Rendering, styling and logging (`console.log`) are omitted; `cacheUtils` only logs and returns zeros, so it is not modelled.
- React's batching of state updates, and its behaviour for a state setter called after unmount, are not modelled. A refresh that settles after unmount updates the model's fields.
- RealTime.Provider.RefreshResource: each refresher is applied atomically at the moment its response settles. Interleavings inside `Promise.all` beyond the settled outcomes are not modelled.
- RealTime.Provider.Unmount: no claim of zero pending timers. A poll in flight at teardown re-arms after cleanup, as `LogoutDuringPoll` exhibits.
- SmartPolling.NextInterval: the doubled half-idle period is not capped by `maxInterval`; the model follows the code.
- The `get_points_balance` endpoint, the schedule summary (`groupby(...).size()`), the materials inserts and the dashboard and listing queries are not modelled. The schedule success reply is `Message("routes")`.
- FastAPI/pydantic request validation (422 responses, type coercion), JWT and bcrypt are not modelled. The caller's id and role come in as a `Caller`.
- Backend.Db.ScheduleRoutes: `k = 0` is modelled as an error reply rather than an exception that escapes the handler.
- Classifier.Lower: lower-cases ASCII letters only, not the full Unicode mapping of `str.lower()`.
- Classifier.Title: title-cases ASCII letters only.
- Decimal.FirstInteger: treats only ASCII digits as `\d`.
- The Gemini call, its retry loop, image preprocessing, JSON extraction and the pixel-statistics fallback are not modelled. Confidences are tenths instead of floats.
- UserDashboard.SortByRank: the order among bookings with equal rank and equal creation time is not stated. `Array.prototype.sort` is stable; the model does not claim stability.
- JavaScript object-prototype keys in `statusOrder` lookups (such as `"constructor"`) are treated as unknown statuses.
- `new Date(created_at).getTime()` is taken as an integer timestamp field.
- Absent and empty text fields of a pickup are both `""`; `scheduled` is its truthiness.
- ApiCache.CachedCall.Call: a call is atomic from its lookup to its store. Two calls whose fetches overlap both miss and both fetch; the model does not interleave them, so OptimizedApi.Client.ReadTwiceWithinTtl covers only a second read started after the first settled.
- Backend.Db.CreateBooking: assumes the `bookings` table has the `device_model` column that the insert of main.py:224-226 names. The schema of setup_db.py:29-44 has no such column and no migration adds it; against that schema the insert fails and the endpoint replies 500.
- Backend.Db.AssignDelivery: `INSERT OR REPLACE` on `deliveries` appends a row, because the table has no unique key to replace on.

## Findings

| source | as written | input that shows it | evidently intended | confidence | as-written member | corrected member |
|---|---|---|---|---|---|---|
| react-frontend/src/pages/UserDashboard.tsx:321-328 | `statusOrder[status] \|\| 4` turns the rank 0 of pending and scheduled into 4 | bookings `[pending, delivered]`: the sort lists the delivered booking first | pending/scheduled first, as the comment above the sort states | high; not executed | UserDashboard.PendingAfterDeliveredAsWritten | UserDashboard.OpenBookingsFirst |
