# react-native-umami delivery core in Dafny

This project models the delivery subsystem of the react-native-umami
analytics client and the navigation hook that feeds it screen views.

The delivery subsystem has these parts:

- **The in-memory queue** (`_queue`) holds records of an event body, the
  number of failed attempts so far and the earliest time the record may be
  sent again.
- **The flush timer** (`scheduleFlush`) is single-flight: while a timer is
  armed, further requests do nothing.
- **A flush round** (`flushQueue`) runs when the timer fires.
  - It does nothing on an empty queue.
  - When the reachability probe reports offline, it retries after 2000 ms.
  - Otherwise it selects due records: the earliest one in single mode, up
    to `maxBatchSize` in batch mode.
  - It hands them to the transport. On success it removes them. On failure
    it raises their attempt count, then drops them past `retries` or
    reschedules them with a backoff delay.
  - Finally it re-arms the timer for the earliest remaining record.
- **`track`** throws when the tracker is not initialised. Otherwise it
  either queues the event (batch mode or offline) or sends it at once and
  queues it for retry after a failure.
- **`init`** strips one trailing slash from the host URL and fills in the
  retry and batching defaults. **`isInitialized`** tells whether both the
  website id and the host URL are set and non-empty.
- **`setUserProperties`** and **`setCustomDimensions`** merge maps.
- **The `type` rule** of the event body: a named payload is an event, an
  unnamed one a pageview.

The navigation hook (`withUmamiTracking`) remembers the last route name.
On a state change it emits one "ScreenView" `track` call when the route
actually changed.

Modules, one per file:

- `Optional` (optional.dfy): `Option` and `Min`.
- `Backoff` (backoff.dfy): the retry policy and `computeBackoffDelay`.
- `DeliveryQueue` (delivery_queue.dfy): the queue records, the send
  selector, the effect of the transport outcome on the queue, and the
  re-arm delay.
- `Flush` (flush.dfy): the timer rule and one round as a function, with
  the lemmas about rounds.
- `UmamiTracker` (tracker.dfy): the tracker's module state as the class
  `Tracker`, whose methods update it in place. `Fire` is the timer
  callback running `flushQueue`. `Settle` is the record-by-record update
  loop after the transport call.
- `NavigationTracking` (navigation.dfy): `routeNameRef` as the class
  `RouteTracker`, and the screen-view payload.

Every method that changes the tracker is proved against a function.
`Fire` ends in exactly the state `Flush.Round` describes. `Settle` ends
with the queue `AfterSend` describes. The lemmas about `Round` and
`AfterSend` state what a round promises.

The model follows the code in three points worth noting:

- A round whose selection is empty still reaches the `finally` block, so
  it re-arms the timer when the queue is not empty (`Flush.RoundNothingDue`).
  It does not leave the scheduler idle.
- A failed immediate send in `track` queues the body with attempt 1 even
  when `retries` is 0. So the attempt bound kept invariant is
  `max(retries, 1)` (`DeliveryQueue.AttemptsBounded`), not `retries`.
- `init` leaves the queue and an armed timer as they were.

## Model

| member | source | states |
|---|---|---|
| Backoff.BaseDelay | src/UmamiTracker.ts:73-76 | the un-jittered delay is the smaller of minDelayMs·factor^attempt and maxDelayMs: it equals one of them and is bounded by both |
| Backoff.Delay | src/UmamiTracker.ts:72-82 | without jitter the delay is the base delay; with jitter it lies between half the base and the base; it never exceeds maxDelayMs |
| Backoff.DelayMonotone | src/UmamiTracker.ts:72-82 | without jitter and with factor ≥ 1 the delay never decreases as the attempt count grows |
| DeliveryQueue.DueFrom | src/UmamiTracker.ts:235-236 | the positions listed are exactly the due records from position k on, in increasing queue order |
| DeliveryQueue.NoneDueFrom | src/UmamiTracker.ts:235-236 | when no record is due the due list is empty |
| DeliveryQueue.Limit | src/UmamiTracker.ts:233-258 | a round may select maxBatchSize records in batch mode and exactly one in single mode |
| DeliveryQueue.Selection | src/UmamiTracker.ts:234-249 | a round selects min(limit, number due) records, all due, in queue order, skipping no earlier due record, and every due record when fewer than the limit are selected (limit maxBatchSize in batch mode, 1 otherwise) |
| DeliveryQueue.SingleSelection | src/UmamiTracker.ts:247-249 | in single mode the selection is empty exactly when nothing is due, and otherwise is the one earliest due record |
| DeliveryQueue.Retried | src/UmamiTracker.ts:259-267 | after a failure a record is dropped exactly when attempt+1 exceeds retries; otherwise it keeps its body, has attempt+1 and is due at now + delay(attempt+1) ≤ now + maxDelayMs |
| DeliveryQueue.Settled | src/UmamiTracker.ts:241-268 | after the transport call every unselected record is untouched; after a success every selected record is removed; after a failure every selected record becomes its Retried update; a surviving record always keeps its body |
| DeliveryQueue.AfterSend | src/UmamiTracker.ts:241-268 | the transport outcome never makes the queue longer, and leaves it as it was when nothing was selected |
| DeliveryQueue.CompactKeepsPresent | src/UmamiTracker.ts:242-244 | removing records by splicing keeps every other record, once each and in queue order |
| DeliveryQueue.SettleStepsDone | src/UmamiTracker.ts:242-268 | settling the selected records one at a time in queue order, each looked up where it sits once the earlier ones are spliced out, leaves exactly the queue AfterSend describes |
| DeliveryQueue.EarliestAttempt | src/UmamiTracker.ts:272 | the minimum nextAttemptAt of a non-empty queue is attained and bounds every record |
| DeliveryQueue.RearmDelay | src/UmamiTracker.ts:272 | the re-arm delay is zero exactly when some record is due, and otherwise now plus it is the earliest due time |
| Flush.Schedule | src/UmamiTracker.ts:94-101 | after a flush request a timer is always armed: an armed timer is kept, otherwise the requested delay is used, or when it is omitted maxIntervalMs in batch mode and 0 otherwise |
| Flush.Round | src/UmamiTracker.ts:225-276 | on an empty queue or offline a round sends nothing and keeps the queue; it hands at most Limit bodies to the transport, never makes the queue longer, and leaves a timer armed exactly when records remain |
| Flush.ScheduleSingleFlight | src/UmamiTracker.ts:94-101 | a flush request always leaves one timer armed, a second request changes nothing, and an omitted delay is maxIntervalMs in batch mode and 0 otherwise |
| Flush.RoundOnEmptyQueue | src/UmamiTracker.ts:226 | a round on an empty queue sends nothing, changes nothing and arms nothing |
| Flush.RoundOffline | src/UmamiTracker.ts:227-231 | offline, a round sends nothing, leaves every record as it was and arms a retry after 2000 ms |
| Flush.RoundNothingDue | src/UmamiTracker.ts:269-274 | with nothing due, a round sends nothing, keeps the queue and still re-arms the timer for the earliest due time |
| Flush.AfterSendFrame | src/UmamiTracker.ts:241-268 | after the transport call the queue lists, in order, every unselected record unchanged and, after a failure, every selected record still within retries as updated by Retried; no other record remains |
| Flush.NonBatchRound | src/UmamiTracker.ts:246-268 | a single-mode round sends exactly the earliest due record; on success it alone leaves the queue, on failure it is retried in place or dropped; every other record keeps its place and contents |
| Flush.RoundKeepsAttemptsBounded | src/UmamiTracker.ts:259-266 | a round keeps every attempt count within max(retries, 1) |
| Flush.SurvivesFailures | src/UmamiTracker.ts:259-267 | a record failing n times with attempt+n ≤ retries survives with attempt+n and the same body |
| Flush.DroppedPastRetries | src/UmamiTracker.ts:260-265 | the failure that takes the attempt count past retries drops the record |
| Flush.TwoRetriesScenario | src/UmamiTracker.ts:259-267 | with retries = 2, a record queued with attempt 1 survives one failed flush with attempt 2 and is dropped at the next |
| Flush.BatchOfTwo | src/UmamiTracker.ts:234-245 | a batch round of size 2 over three due records sends the first two together and on success leaves only the third, re-armed at once |
| UmamiTracker.IsOnline | src/UmamiTracker.ts:84-92 | the probe reports offline only by answering false; no probe, a non-boolean answer or a throw count as online |
| UmamiTracker.NormalizeHostUrl | src/UmamiTracker.ts:295 | the host URL loses one character exactly when it ends with a slash, and is otherwise unchanged |
| UmamiTracker.NormalizedEndpoint | src/UmamiTracker.ts:295 | a host given with a trailing slash yields the same endpoint URL as without it |
| UmamiTracker.TrailingSlashHost | src/__tests__/UmamiTracker.test.ts:18-31 | "https://umami.local/" with the send path gives "https://umami.local/api/send" |
| UmamiTracker.TypeOf | src/UmamiTracker.ts:194 | the body type is an event exactly when the payload has a non-empty name, a pageview otherwise |
| UmamiTracker.Merge | src/UmamiTracker.ts:370-381 | the merged map has the keys of both; the update's values win, and the current values stay elsewhere |
| UmamiTracker.RetryPolicyOf | src/UmamiTracker.ts:305-311 | each retry option given is kept, and each omitted one defaults to 5 retries, 1000 ms minimum, 30000 ms maximum, factor 2, jitter on |
| UmamiTracker.BatchingPolicyOf | src/UmamiTracker.ts:300-304 | each batching option given is kept, and each omitted one defaults to batching off, batches of 20, a 10000 ms interval |
| UmamiTracker.Tracker.constructor | src/UmamiTracker.ts:17-46 | the module starts uninitialised, with the default paths and policies, no properties, an empty queue and no timer |
| UmamiTracker.Tracker.Init | src/UmamiTracker.ts:282-318 | init stores the website id, the normalised host URL, the policies and paths with their defaults, leaves queue, timer and properties alone, and initialises the tracker exactly when both strings end up non-empty |
| UmamiTracker.Tracker.IsInitialized | src/UmamiTracker.ts:323-325 | the tracker is initialised exactly when the website id and the host URL are both set and non-empty |
| UmamiTracker.Tracker.ScheduleFlush | src/UmamiTracker.ts:94-101 | the timer after a request is Schedule of the old timer: an armed timer is kept, otherwise one is armed |
| UmamiTracker.Tracker.Fire | src/UmamiTracker.ts:225-276 | the timer callback leaves exactly the queue, timer and sent bodies of Flush.Round |
| UmamiTracker.Tracker.Settle | src/UmamiTracker.ts:242-268 | the record-by-record splice and update loop leaves exactly the queue AfterSend describes |
| UmamiTracker.Tracker.SettleAt | src/UmamiTracker.ts:243-267 | one selected record is spliced out after a success or past retries, and otherwise rescheduled in place |
| UmamiTracker.Tracker.Track | src/UmamiTracker.ts:330-351 | uninitialised: NotInitialized with nothing changed; batch mode or offline: one record (attempt 0, due now) appended and a flush requested; successful send: nothing changed; failed send: one record (attempt 1, due now + delay(1)) appended and a flush requested; the attempt bound is preserved |
| UmamiTracker.Tracker.SetUserProperties | src/UmamiTracker.ts:370-374 | the user properties become the merge of the old ones with the new |
| UmamiTracker.Tracker.SetCustomDimensions | src/UmamiTracker.ts:379-381 | the custom dimensions become the merge of the old ones with the new |
| NavigationTracking.ScreenViewFor | src/withUmamiTracking.ts:14-20 | a call is made exactly when the current route is present, non-empty and differs from the remembered one; it is named "ScreenView" with url "/"+current and title current, and has referrer "/"+previous exactly when a non-empty previous route is remembered |
| NavigationTracking.ScreenViewIsEvent | src/UmamiTracker.ts:194 | a screen-view payload always has the event type |
| NavigationTracking.RouteTracker.constructor | src/withUmamiTracking.ts:4 | no route is remembered at start-up |
| NavigationTracking.RouteTracker.OnReady | src/withUmamiTracking.ts:6-8 | the current route is remembered, and no call is made |
| NavigationTracking.RouteTracker.OnStateChange | src/withUmamiTracking.ts:10-24 | the call made is ScreenViewFor of the old remembered route and the current one, and the current route is remembered afterwards, even when absent |
| NavigationTracking.HomeToProfile | src/__tests__/withUmamiTracking.test.ts:22-37 | from "Home" to "Profile" the call has url "/Profile", title "Profile" and referrer "/Home" |
| NavigationTracking.UnchangedRouteNotTracked | src/__tests__/withUmamiTracking.test.ts:40-45 | a state change to the remembered route makes no call |
| NavigationTracking.FirstScreenViewHasNoReferrer | src/withUmamiTracking.ts:18 | with no remembered route the call carries no referrer |

## Left out

- The transport (`sendSingle`, `sendBatch`, `fetch`) is not modelled. Its outcome is the boolean `sendOk`, and only a thrown `fetch` counts as a failure; HTTP error statuses count as success, as in the code.
- `setTimeout` is not modelled. The timer is the delay it was armed with (`Option<nat>`), and `Fire` is its callback; elapsed time and the order in which timers fire are not modelled.
- The clock is the parameter `now`. A round is atomic with one `now`: the code reads the clock again after awaiting the transport, and `track` calls may interleave during that await. Neither is modelled, so the records updated after a failure are exactly the records sent. Because the timer callback clears `_flushTimer` before the round's awaits, a `track` during an await can arm a second timer whose round overlaps the first and resends the same due records; the `idx >= 0` guards exist for that case. The atomic-round model rules such overlapping rounds out by construction.
- Backoff.Delay: works in whole milliseconds on natural numbers. `factor` is a natural number and not a float. Half the base is rounded down. `Math.random()` is a draw d standing for d/1000000, and the jitter is (base/2)·d/1000000 rounded down.
- `Math.random()` is not modelled as a source of randomness. Each flush takes a sequence of draws, one per queue position, and `track` takes one draw.
- Record identity (`indexOf` on record objects) is modelled as queue position. Within an atomic round, each selected record is always found, so the `idx >= 0` guards always hold.
- `buildBody`'s enrichment is not modelled: device info, platform, locale, screen size, ids and merged data. Event bodies are an opaque type parameter, and only the `type` rule is modelled (`TypeOf`).
- The anonymous and session ids, `randomId`, and the key-value storage are not modelled. Neither are `identify`, `startSession`, `endSession` or the convenience `track*` wrappers; they are storage writes or thin calls into `track`.
- `setUserProperties` also persists the merged map to storage; only the merge is modelled.
- `init` also stores the app version, the device-info provider, the storage and the network collaborator. These are not modelled. The network's `isOnline` provider is the per-call `Probe`.
- `console.warn` after a failed immediate send is not modelled.
- src/useUmami.ts (React hooks) and src/types.ts (type declarations only) are not part of this model.
- NavigationTracking.RouteTracker.OnStateChange: returns the payload it would pass to `track` and does not call the tracker.
