# diconai: alarm pipeline

A sensor sample becomes a risk decision, then an event in a work queue, then a message broadcast to every
browser. This project models the five parts of that pipeline that carry state or arithmetic, and proves what
they keep.

| part | modules |
|---|---|
| event lifecycle: merge, escalation, cooldown, forced split, acknowledgement, status update, auto-resolve | `EventModel`, `EventHistory`, `EventRuns`, `EventTheorems`, `EventDecisions`, `EventService` |
| alarm delivery: fingerprint, idempotent push, stream reads, one cursor per replica, broadcast | `AlarmPayload`, `AlarmQueue`, `FlushLoop`, `FlushProgress` |
| both together: the alarm tasks, from decision to stream and on to the browsers | `Delivery`, `AlarmTasks`, `EndToEnd` |
| power decisions: windows, z-score, change points, risk combination, rate limit, fallback, mute keys, rule guards | `Statistics`, `ZScore`, `ChangePoint`, `PowerRisk`, `PowerInference`, `PowerRuns`, `PowerSeverity`, `PowerSamples`, `PowerService`, `PowerLabels`, `PowerStream`, `PowerAiStream`, `AiMute`, `AlarmDedupe` |
| simulator scenarios, policy matching, side menu | `Scenario`, `PolicyMatcher`, `MenuTree`, `MenuCache` |

`Wrappers`, `Clock`, `Tables` and `RiskLevels` hold what the others share. Code that changes things step by
step is a class or a method with loops (`EventDatabase`, `AlarmStream`, `Broadcaster`, `Detector`, `Pipeline`,
`MuteStore`, `AlarmGuards`, `ChannelState`, `PolicyService`, `MenuService`); each is proved equal to a
specification function, and the theorems about whole runs are proved of those functions.

Conventions of the model:

- Times are whole microseconds; one transaction reads the clock once; the clock never goes back. A key set at
  time t with expiry n exists on [t, t + n).
- An event's id is its row number, a stream entry's id its position. Rows and stream entries are never reused.
- Numbers are exact reals; the square root is a parameter with the defining property of the root. Model
  answers (IsolationForest, ARIMA), network and database failures, what the server trims, and random draws are
  parameters.
- Every database operation is one atomic step. The flush loop is cut at its awaits instead.
- A channel's label is a function of place and time, so the table of names may be refreshed at any moment.
- The rows of a menu or policy query are given in the order in which the database returns them.

What the proofs found:

- `create_alarm_and_event` relies on exactly one non-zero source id, and a worker for a geofence. `clean()` demands
  exactly one non-null source, neither a non-zero id nor a worker, and is not called there.
  `KeysAgreeExactlyForValidRequests` shows that the condition is exact.
- Exactly-once delivery holds iff the cooldown covers the 30 s deduplication TTL. The default of 60 s does, the
  documented demo value of 15 s does not.
- The fingerprint key is set before the XADD; a push is silently dropped iff a push of its fingerprint was lost to a
  failed XADD within the TTL.
- While its cursor is `$` a replica forgets whatever the stream holds between reads; a failed state read then loses its
  batch for good, although the loop's documentation says the alarms are kept.
- A static alarm is dropped as a duplicate of another channel's iff two channels that inference covers alike bear the
  same name within a TTL. Without a name a channel is called by its number alone, so unnamed channels of two devices
  always can be; and a refresh that exchanges names mixes them.
- An AI alarm is dropped iff its event was announced at its risk within the TTL, and its own sensor never did that. AI
  events are merged by device, so a danger on one channel hides that on another, which the rate limit then keeps silent.
- A danger less than a minute after an AI warning of its channel is held back by the rate limit.
- Fingerprints of events collide iff a risk is called `resolved`; those of static and AI alarms iff their parts read
  the same once joined, for which a risk or a source has to hold a colon; those of back-to-normal notices never.
- With the current value inside its own window the z-score cannot reach the square root of 29, so a threshold
  of 3 can fire and one of 5.4 never could.
- An AI alarm can be weaker than the static alarm it replaces iff the synced danger bound is below 100 percent, and a
  run of 30 samples shows it.
- Editing a policy's event type leaves the old type's cached list in place; a role string that is not a profile
  code keeps its cached menu when menus change, and any role keeps it when profiles change.
- The status view moves an event to ACKNOWLEDGED without recording who did it, although its documentation says
  so; a resolved event lacks `resolved_at` iff the forced 12-hour split closed it. The model follows the code.

## Model

| member | source | states |
|---|---|---|
| `EventTheorems.AtMostOneOpenEventPerKey` | drf-server/apps/alerts/services/event_service.py:67-106 | in every run of alarms, splits, acknowledgements, status updates and auto-resolves no two unresolved events share facility, type, source (and worker for a geofence) |
| `EventTheorems.EveryEventIsLawful` | drf-server/apps/alerts/services/event_service.py:91-192 | for every event of every run: its alarms share its merge key and its risk is their maximum; all but the first came within 12 h of first detection; its log is a gapless chain from CREATED to its status with at most three status changes; notifications of one risk are a cooldown apart and number at most 1 + rises + room / cooldown, so at most 3 + 12 h / cooldown |
| `EventTheorems.NotificationBoundIsTight` | drf-server/apps/alerts/services/event_service.py:143-160 | for every cooldown some run sends exactly 3 + 12 h / cooldown notifications for one event |
| `EventTheorems.KeysAgreeExactlyForValidRequests` | drf-server/apps/alerts/models/event.py:131-140 | create never mixes merge keys in any reachable store iff the request names exactly one non-zero source id, and a worker for a geofence; clean() demands one non-null source, neither a non-zero id nor a worker, and is not called here |
| `EventTheorems.InvalidRequestMixesKeys` | drf-server/apps/alerts/services/event_service.py:76-87 | a concrete store in which a request with no or several sources joins an event of another key |
| `EventTheorems.RunsOnlyExtend` | drf-server/apps/alerts/services/event_service.py:245-332 | over any continuation of a run alarm, log and notification rows are only appended, keys and first detection never change, risk and status never go back, a resolved event is final |
| `EventTheorems.RecordsFitTogether` | drf-server/apps/alerts/views/event.py:114-120 | on every run: acknowledging person and time come together, a resolving person has a time, a resolution time only on resolved events, work in progress always names who took it on, an active event nobody |
| `EventTheorems.AcknowledgedBySomeoneIff` | drf-server/apps/alerts/views/event.py:114-120 | an event that becomes acknowledged names the person iff it was not the status view that acknowledged it |
| `EventTheorems.ResolvedEventHasTimeIff` | drf-server/apps/alerts/services/event_service.py:91-106 | in every run each resolved event was resolved by exactly one step; it has a resolution time iff that step raised no alarm, so iff no forced split closed it, and names a person iff the status view closed it |
| `EventTheorems.ResolvedWithTimeIff` | drf-server/apps/alerts/services/event_service.py:91-106 | the same of any single step from any store whose rows fit together |
| `EventTheorems.SplitLeavesNoTime` | drf-server/apps/alerts/services/event_service.py:91-106 | two alarms more than twelve hours apart leave a resolved event without a time |
| `EventDecisions.AlarmJoinsIff` | drf-server/apps/alerts/services/event_service.py:67-106 | in every reachable store: an alarm of a valid request is recorded with the unresolved event of its key that was first detected at most 12 h ago, and with a new event if there is none |
| `EventDecisions.AlarmNotifiedIff` | drf-server/apps/alerts/services/event_service.py:143-162 | an alarm adds one notification, of its own risk and time, iff it outranks every earlier alarm of the event it joins or no notification of that event is younger than the cooldown, whatever the status of the event; otherwise none |
| `EventDecisions.RunNotifiesIff` | drf-server/apps/alerts/services/event_service.py:143-215 | the same after every run |
| `EventDecisions.AlarmChangesRows` | drf-server/apps/alerts/services/event_service.py:91-162 | the row of every event after an alarm: the joined one has the new detection time, the higher risk and, if notified, the new time; one of the same key that is too old is resolved; all others are untouched |
| `EventDecisions.AlarmStartsEvent` | drf-server/apps/alerts/services/event_service.py:164-191 | the row of a new event |
| `EventDecisions.AlarmIsLogged` | drf-server/apps/alerts/services/event_service.py:91-140 | an alarm logs a rise in risk iff it outranks all earlier alarms of its event, the end of an event that is too old, and the creation of a new one |
| `EventDecisions.AutoResolveClosesIff` | drf-server/apps/alerts/services/event_service.py:271-332 | auto-resolve closes an event iff it is active, its type starts with the prefix, its source is the sensor or without one the device, and, given a list of gases, some alarm of it names a gas and every alarm of it that names one names one of the list; it resolves and logs these, touches no other, and returns their number |
| `EventDecisions.AcknowledgedExactly` | drf-server/apps/alerts/services/event_service.py:222-242 | an acknowledgement succeeds iff the event exists and is active, and then writes person, time and log entry and nothing else |
| `EventDecisions.StatusUpdatedExactly` | drf-server/apps/alerts/views/event.py:91-133 | a status update succeeds iff it moves the event forward, and then writes status, log entry and, for work in progress without a person and for a resolution, person and time |
| `EventDecisions.StepIsOneCall` | drf-server/apps/alerts/services/event_service.py:40-332 | each step of a run is one call of the service, and a refused one leaves the store as it was |
| `EventRuns.MatchesIsSameKey` | drf-server/apps/alerts/services/event_service.py:67-87 | for valid requests the query filter accepts exactly the unresolved events with the request’s merge key |
| `EventRuns.CreateKeepsInv` | drf-server/apps/alerts/services/event_service.py:89-215 | one create transaction (merge, forced split or new event) keeps the whole store invariant |
| `EventRuns.AcknowledgeKeepsInv` | drf-server/apps/alerts/services/event_service.py:222-242 | an acknowledgement keeps the store invariant |
| `EventRuns.UpdateStatusKeepsInv` | drf-server/apps/alerts/views/event.py:91-140 | a status update through the view keeps the store invariant |
| `EventRuns.AutoResolveIsExact` | drf-server/apps/alerts/services/event_service.py:271-332 | auto-resolve closes exactly the ACTIVE events of the prefix and source whose non-empty gas set lies in the cleared set, adds one log entry to each, leaves every other event’s row, alarms, log and notifications untouched, and returns their number |
| `EventRuns.RunInv` | drf-server/apps/alerts/services/event_service.py:40-332 | the invariant holds in every reachable store |
| `EventHistory.MergeIsLawful` | drf-server/apps/alerts/services/event_service.py:108-162 | merging an alarm into an open event of its key keeps all laws of the event’s life |
| `EventHistory.FreshIsLawful` | drf-server/apps/alerts/services/event_service.py:164-215 | a new event satisfies all laws of an event’s life |
| `EventHistory.AdvanceIsLawful` | drf-server/apps/alerts/views/event.py:95-134 | any allowed status change with its one log entry keeps the laws |
| `EventHistory.StatusChangesAtMostThree` | drf-server/apps/alerts/views/event.py:95-134 | a chained log holds at most three status changes, and no more than the stage of its last status |
| `EventHistory.NotificationBudget` | drf-server/apps/alerts/services/event_service.py:143-162 | the number of notifications is at most one, plus the escalations, plus the cooldowns that fit into the merge window |
| `EventModel.FirstMatch` | drf-server/apps/alerts/services/event_service.py:89 | the event an alarm may join is the first in key order that passes the filter, None iff none passes |
| `EventModel.ClearedIds` | drf-server/apps/alerts/services/event_service.py:271-314 | the selection of auto-resolve, complete and in order |
| `EventService.EventDatabase.CreateAlarmAndEvent` | drf-server/apps/alerts/services/event_service.py:67-215 | the statement-by-statement service leaves exactly the specified store, and returns the event and, iff a notification is due, the alarm |
| `EventService.EventDatabase.FindOpenEvent` | drf-server/apps/alerts/services/event_service.py:67-89 | the scan for the first matching row |
| `EventService.EventDatabase.AcknowledgeEvent` | drf-server/apps/alerts/services/event_service.py:222-242 | acknowledges an ACTIVE event; every refusal leaves the store unchanged |
| `EventService.EventDatabase.UpdateEventStatus` | drf-server/apps/alerts/views/event.py:91-140 | allowed transitions write status, actor, time and log entry; refused ones write nothing |
| `EventService.EventDatabase.EventGases` | drf-server/apps/alerts/services/event_service.py:290-296 | the set of non-empty gas types recorded for an event |
| `EventService.EventDatabase.SelectCleared` | drf-server/apps/alerts/services/event_service.py:271-312 | the loop that picks the events to resolve |
| `EventService.EventDatabase.AutoResolveActiveEvents` | drf-server/apps/alerts/services/event_service.py:245-332 | selection and closing loop end in the specified store and count |
| `AlarmPayload.SameFingerprintIffSameIdentity` | fastapi-server/websocket/services/alarm_queue.py:63-105 | two payloads whose risk and source hold no colon, and whose risk is not called resolved, have the same fingerprint iff they announce the same event resolution, event at a risk, AI alarm or threshold alarm with the same fields |
| `AlarmPayload.KeyInjective` | fastapi-server/websocket/services/alarm_queue.py:63-105 | the deduplication key of an identity determines the identity |
| `AlarmPayload.FingerprintOfIdentity` | fastapi-server/websocket/services/alarm_queue.py:50-105 | a payload has a fingerprint iff it announces something identifiable, and then it is that identity’s key |
| `AlarmPayload.EventKeysCollideIff` | fastapi-server/websocket/services/alarm_queue.py:65-72 | for all events and all risks, plain or not: the keys of a resolution and of alarms coincide iff the event is the same and so is the last part, so a resolution and an alarm collide iff the risk is called resolved |
| `AlarmPayload.CoverKeysCollideIff` | fastapi-server/websocket/services/alarm_queue.py:97-103 | static alarms with colon-free sources have the same key iff source is the same and name and risk read the same when joined |
| `AlarmPayload.AiKeysCollideIff` | fastapi-server/websocket/services/alarm_queue.py:75-83 | for all AI alarms: they have the same key iff device, channel and risk read the same when joined |
| `AlarmPayload.AiKeysWithColonsCollide` | fastapi-server/websocket/services/alarm_queue.py:75-83 | two AI alarms that collide because a risk and a device hold colons |
| `AlarmPayload.ClearKeysAreApart` | fastapi-server/websocket/services/alarm_queue.py:85-91 | back-to-normal notices never collide, whatever the names hold |
| `AlarmPayload.KeysOfOtherKindDiffer` | fastapi-server/websocket/services/alarm_queue.py:63-105 | keys of different kinds never coincide, whatever the parts hold |
| `AlarmPayload.ColonsAndResolvedCollide` | fastapi-server/websocket/services/alarm_queue.py:63-105 | two concrete collisions of payloads that announce different things |
| `AlarmPayload.IntTextInjective` | fastapi-server/websocket/services/alarm_queue.py:69-72 | the decimal text of an id determines the id |
| `AlarmQueue.SameFingerprintEntriesAreTtlApart` | fastapi-server/websocket/services/alarm_queue.py:126-146 | over any run of pushes, failed XADDs included, two stream entries with one fingerprint are at least a TTL apart |
| `AlarmQueue.SuppressedOnlyByItself` | fastapi-server/websocket/services/alarm_queue.py:127-134 | in every run, failed XADDs included: a push is suppressed iff a push that announces the very same thing was accepted less than a TTL ago, so never a resolution by its alarm nor an escalated alarm by a milder one |
| `AlarmQueue.SuppressedIffAccepted` | fastapi-server/websocket/services/alarm_queue.py:126-146 | the same by fingerprint, for any payloads |
| `AlarmQueue.SilentlySuppressedIffLost` | fastapi-server/websocket/services/alarm_queue.py:126-146 | in every run: a push is suppressed although no entry of the last TTL bears its fingerprint iff a push of that fingerprint was lost to a failed XADD less than a TTL ago |
| `AlarmQueue.AppendedIffNotAnnounced` | fastapi-server/websocket/services/alarm_queue.py:126-146 | derived from these: without failed XADDs a push is appended iff no entry of the last TTL has its fingerprint |
| `AlarmQueue.RetryAfterFailedXAdd` | fastapi-server/websocket/services/alarm_queue.py:127-146 | after a push whose XADD failed added nothing, a retry is appended iff the payload has no fingerprint or the TTL is over, and suppressed otherwise |
| `AlarmQueue.TrimsIff` | fastapi-server/websocket/services/alarm_queue.py:139-144 | an append leaves the stream untrimmed or trimmed to any point that leaves at least 10000 entries, and never restores anything |
| `AlarmQueue.AlarmStream.PushAlarm` | fastapi-server/websocket/services/alarm_queue.py:108-146 | SET NX EX, then XADD: new stream, keys and outcome as specified |
| `AlarmQueue.AlarmStream.ReadAlarmsBlocking` | fastapi-server/websocket/services/alarm_queue.py:149-198 | returns every decodable entry behind the cursor in order and the last id read, also when that entry does not decode; on an error or an empty batch the cursor stays |
| `AlarmQueue.DecodedMembers` | fastapi-server/websocket/services/alarm_queue.py:181-196 | an id is in a batch iff it lies in the range, decodes and was not lost |
| `AlarmQueue.DecodedAscends` | fastapi-server/websocket/services/alarm_queue.py:181-196 | the ids of a batch ascend strictly |
| `FlushLoop.BroadcastsAreTheStream` | fastapi-server/websocket/routers/ws_router.py:77-102 | for every interleaving of pushes, undecodable entries, clients, read errors, failed state reads and replicas: broadcast ids ascend strictly, are exactly the decodable entries from the first concrete cursor to the current one except those trimmed before they were read, and each connected client received exactly the broadcasts since it joined |
| `FlushLoop.OriginIsFirstKeptRead` | fastapi-server/websocket/routers/ws_router.py:77-91 | a replica’s broadcasts begin exactly where the stream ended when its first read at $ whose batch was kept was issued |
| `FlushLoop.TailForgets` | fastapi-server/websocket/routers/ws_router.py:77-91 | whatever the stream holds when a replica is idle at $ is never broadcast by it, in any continuation |
| `FlushLoop.FailedStateReadKeepsEntryIff` | fastapi-server/websocket/routers/ws_router.py:83-91 | an entry whose batch a failed state read dropped is in the next batch, whatever was added or trimmed by then, iff the cursor is concrete and the entry was not trimmed; the documentation promises it always |
| `FlushLoop.FirstAlarmMayBeLost` | fastapi-server/websocket/routers/ws_router.py:77-91 | a run in which the first alarm after the boot is lost for good because the state read behind it fails |
| `FlushLoop.RunIsFaithful` | fastapi-server/websocket/routers/ws_router.py:77-102 | the invariant behind it, in every reachable state, also in the middle of a batch |
| `FlushLoop.GoIsFaithful` | fastapi-server/websocket/routers/ws_router.py:77-102 | every single move of the loop keeps it |
| `FlushLoop.FetchIsFaithful` | fastapi-server/websocket/routers/ws_router.py:83-91 | a read with its error and failed-state branches keeps it; a failed state read leaves the cursor where it was |
| `FlushLoop.NothingIsLostWhenKeepingUp` | fastapi-server/websocket/services/alarm_queue.py:139-144 | a replica whose reads never find more unread entries than MAXLEN loses nothing to trimming |
| `FlushLoop.HistoriesAgree` | fastapi-server/websocket/routers/ws_router.py:60-69 | two replicas that keep up and start at the same entry: one broadcast history is a prefix of the other |
| `FlushProgress.ReplicaCatchesUp` | fastapi-server/websocket/routers/ws_router.py:77-102 | from any reachable state in which a replica is idle and a client connected: after a round without errors it has broadcast, in order, every decodable entry from its cursor to the end of the stream that was not trimmed, those included that came in during the read, and its cursor stands at the end |
| `FlushProgress.FrozenWithoutClients` | fastapi-server/websocket/routers/ws_router.py:79-82 | without clients an idle replica stays as it is in every run until somebody connects: it reads nothing and its cursor does not move |
| `FlushProgress.ClientsComeAndGo` | fastapi-server/websocket/routers/ws_router.py:41-54 | a move connects, disconnects and drops exactly the clients it names: those whose send fails leave, all others stay |
| `FlushProgress.FailedReadChangesNothing` | fastapi-server/websocket/services/alarm_queue.py:149-198 | a read that fails, or finds nothing new, leaves cursor, broadcasts and clients as they were |
| `FlushLoop.RoundIsIteration` | fastapi-server/websocket/routers/ws_router.py:77-102 | the moves of a round, one after the other, come to one iteration of the loop, and to nothing without clients |
| `FlushLoop.Broadcaster.SendEach` | fastapi-server/websocket/routers/ws_router.py:43-50 | every listed client gets the payload unless its send fails |
| `FlushLoop.Broadcaster.Prune` | fastapi-server/websocket/routers/ws_router.py:51-54 | the clients whose send failed are removed, the others stay in order |
| `FlushLoop.Broadcaster.Remove` | fastapi-server/websocket/routers/ws_router.py:53-54 | removes the first occurrence of a client |
| `FlushLoop.Broadcaster.SendToAll` | fastapi-server/websocket/routers/ws_router.py:41-54 | parallel sends followed by the pruning loop equal one delivery to every client that can be reached |
| `FlushLoop.Broadcaster.BroadcastBatch` | fastapi-server/websocket/routers/ws_router.py:92-102 | the batch is broadcast entry by entry, in order |
| `FlushLoop.Broadcaster.FlushOnce` | fastapi-server/websocket/routers/ws_router.py:78-102 | one round of the loop ends in the state that the moves begin, end of read, sends and commit lead to; without clients nothing happens |
| `Delivery.ExactlyOnceIffCooldownCoversTtl` | drf-server/apps/alerts/tasks.py:168-226 | over a shared stream with failing writes, pushes and XADDs, resends, foreign pushes, undecodable entries and alarms of other types: in all runs the entries of each task event and risk are its notifications, in order and at their times, without exactly those whose push was lost or never posted, iff the cooldown is at least the 30 s TTL |
| `Delivery.AllReachStreamIff` | drf-server/apps/alerts/tasks.py:168-226 | with such a cooldown every notification of an event and risk is in the stream exactly once iff each of their pushes was posted and added |
| `Delivery.RunIsGood` | drf-server/apps/alerts/tasks.py:168-226 | the end-to-end invariant: entries match the notifications that were sent, each key lasts one TTL beyond the last posted one |
| `Delivery.StepIsGood` | drf-server/apps/alerts/tasks.py:168-226 | every step keeps it |
| `Delivery.ForeignIsGood` | fastapi-server/power/services/anomaly_inference.py:159-160 | pushes of other producers keep it: AI alarms, static covers, clear notices and alarms of events that are none of the tasks’ own, whether their XADD succeeds or not |
| `Delivery.ForeignIsAppendedUnless` | fastapi-server/websocket/services/alarm_queue.py:126-146 | what another producer pushes is appended unless its identity was accepted within the TTL or its XADD fails |
| `Delivery.OtherAlarmIsGood` | drf-server/apps/alerts/views/anomaly_alarm_record.py:73-86 | alarms of other types, raised by other callers of the event service, keep it |
| `Delivery.KeyHasExpired` | fastapi-server/websocket/services/alarm_queue.py:34-38 | a notification always finds its deduplication key expired, because any earlier one of its event and risk is a cooldown away |
| `Delivery.ResendIsDropped` | fastapi-server/websocket/services/alarm_queue.py:127-134 | sending a posted payload again within the TTL of its notification changes neither store nor stream |
| `Delivery.ResolutionIsAnnounced` | drf-server/apps/alerts/views/event.py:135-160 | resolving an event through the view appends its resolution to the stream whenever push and XADD succeed |
| `Delivery.ShortCooldownLosesARepeat` | drf-server/config/settings/base.py:354-355 | with any cooldown below the TTL (the documented demo value is 15 s) two alarms suffice for a notification that is posted and never reaches the stream |
| `AlarmTasks.AttemptAlarmTask` | drf-server/apps/alerts/tasks.py:149-226 | one attempt is one step of such a run, whatever happens in between: a failed write changes nothing and asks for another attempt 5 s later, up to three; a failed push is never repeated |
| `AlarmTasks.AttemptWarningTask` | drf-server/apps/alerts/tasks.py:237-321 | the same, and the attempt that writes deletes the key of the pending warning whatever became of the push |
| `AlarmTasks.FireAlarmTask` | drf-server/apps/alerts/tasks.py:149-226 | the attempts in a row leave one alarm record and one push; after the fourth failure nothing has changed |
| `EndToEnd.NotificationsReachTheBrowserOnce` | fastapi-server/websocket/routers/ws_router.py:77-102 | for any interleaving of those steps and the loops of n replicas, with the cooldown at least the TTL: the notifications of each task event and risk whose push was posted and added are, in order and each once, those announced before a replica’s first batch, those up to its cursor and those still ahead; of the middle ones it has broadcast all but the entries it lost, each of which was trimmed before it could read it |
| `EndToEnd.ReplicaIsFaithful` | fastapi-server/websocket/routers/ws_router.py:77-102 | in the combined system too, every replica’s broadcasts are the decodable entries up to its cursor and every connected client has them all since it joined |
| `EndToEnd.DecodedAnnounces` | fastapi-server/websocket/services/alarm_queue.py:181-196 | broadcasting what decodes in a stretch of the stream and was not lost announces exactly what the entries that were not lost announce |
| `PowerInference.NoSilentStaticAlarm` | fastapi-server/power/services/anomaly_inference.py:196-266 | on every run, a usable sample with static risk warning or danger has a push for its device, channel and data type within the last 60 s including now, unless the window is stuck or no model is loaded |
| `PowerInference.StaticAlarmPushesUnless` | fastapi-server/power/services/anomaly_inference.py:267-482 | such a sample pushes at once unless it is silenced or rate limited, and never when it is silenced |
| `PowerInference.AtMostOnePush` | fastapi-server/power/services/anomaly_inference.py:196-605 | one sample causes at most one push, of its own sensor and time |
| `PowerInference.RunStampsArePushes` | fastapi-server/power/services/anomaly_inference.py:446-466 | every rate-limit stamp is the time of an AI push of that sensor |
| `PowerInference.PushIsNotWeaker` | fastapi-server/power/services/anomaly_inference.py:482-571 | no push is below the static risk whenever the built-in evaluator sees the danger the synced one sees |
| `PowerInference.AiPushesAreAMinuteApart` | fastapi-server/power/services/anomaly_inference.py:446-461 | AI pushes of one sensor are at least 60 s apart on every run |
| `PowerInference.AiAlarmMutesRules` | fastapi-server/power/services/anomaly_inference.py:466-470 | marks are written by tasks of their own, up to a delay later and in any order: rule alarms of a device and channel are muted at a level if an AI alarm at it or above, as far as its keys were written, was pushed at least the delay and less than 60 s ago, and only if one was pushed less than 60 s and the delay ago |
| `PowerInference.AiStep` | fastapi-server/power/services/anomaly_inference.py:441-482 | a sample adds nothing from the AI, or exactly one AI push with its stamp and its mark |
| `PowerService.Pipeline.ProcessAnomalyInference` | fastapi-server/power/services/anomaly_inference.py:196-605 | the loop over the channels equals processing the samples one after the other |
| `PowerService.Pipeline.ProcessChannel` | fastapi-server/power/services/anomaly_inference.py:197-266 | quality, disabled, warm-up and stuck branches as specified |
| `PowerService.Pipeline.InferChannel` | fastapi-server/power/services/anomaly_inference.py:269-605 | the inference branch with its fallback to the static alarm |
| `PowerService.Pipeline.InferAxes` | fastapi-server/power/services/anomaly_inference.py:285-410 | the five axes; an exception asks for the fallback but keeps what the change-point machine has already recorded |
| `PowerService.Pipeline.RaiseAiAlarm` | fastapi-server/power/services/anomaly_inference.py:446-482 | rate limit, stamp, mute mark and push, in that order |
| `PowerSamples.SampleCounts` | fastapi-server/power/services/anomaly_inference.py:196-243 | a value that is missing, -1 or above 50000 W, 200 A or 600 V leaves no trace; any other power value of channels 1, 9, 14 and 15 becomes the newest of its window of 30, and other channels have no window |
| `PowerSamples.SilencedMeans` | fastapi-server/power/services/anomaly_inference.py:254-282 | the pipeline is silent on those channels iff the last 30 values are all the same or no model is loaded |
| `PowerSamples.StaticRiskIs` | fastapi-server/power/services/threshold_eval.py:120-174 | power and current: the static risk by comparing 100 times the value with the synced maxima times the rated value; without rating, thresholds or maxima normal |
| `PowerSamples.StaticVoltageRiskIs` | fastapi-server/power/services/threshold_eval.py:120-167 | voltage: the same against minima and maxima, of which any may be missing |
| `PowerSamples.ThresholdAxisIs` | fastapi-server/power/services/threshold_eval.py:74-98 | the threshold axis compares with 80 and 100 percent of the rated power, whatever was synced |
| `PowerSamples.StaticSourceIs` | fastapi-server/power/services/decide_alarm.py:85-117 | where the AI has no alarm of its own, the static alarm goes out with the source that says what the AI was doing: no model, warming up, failed, or found nothing |
| `PowerSamples.RateLimitedIff` | fastapi-server/power/services/anomaly_inference.py:446-461 | on every run a sample is rate limited iff the AI pushed for its sensor less than 60 s before |
| `PowerSamples.MachinesFollowTheirChannel` | fastapi-server/power/services/anomaly_inference.py:299-316 | in every run of the pipeline each channel’s change-point machine is where the values of that channel that reached it lead, whatever the other channels did in between |
| `PowerSamples.QuietSampleAtNight` | fastapi-server/power/services/anomaly_inference.py:340-366 | through the whole call: a power sample in which no axis finds anything is pushed iff its hour is known and between 13 and 20 o’clock UTC, 22 to 5 in Korea, and its value above 30 percent of the rated power; it goes out as an AI warning |
| `PowerSamples.InferredSampleIsPushedIff` | fastapi-server/power/services/anomaly_inference.py:331-482 | a sample that is inferred and not rate limited raises an AI alarm iff a model finds something, its value reaches 80 percent of the rated power or lies three deviations off, the change-point machine fires, or it is busy at night; a danger from 100 percent on, or at 80 when both models agree; otherwise the static alarm goes out as it is |
| `PowerSamples.ThresholdAxisFailsIff` | fastapi-server/power/services/threshold_eval.py:74-117 | the threshold evaluator refuses exactly the unknown quantities |
| `PowerSamples.OthersAreQuietAtNight` | fastapi-server/power/services/anomaly_inference.py:223-236 | a sample of another quantity or of a channel without a model is pushed at no hour unless it has a static risk |
| `PowerSamples.NightRun` | fastapi-server/power/services/night_escalation.py:23-41 | a warm-up and one sample after which an alarm is pushed at exactly those hours |
| `PowerStream.DropsAreOwnIffNamesDistinguish` | fastapi-server/websocket/services/alarm_queue.py:97-103 | in every run of the pipeline on power samples of a set of channels, whatever others push, whichever XADDs fail and however names change: a static alarm is dropped only for one of its own sensor, source and risk, iff no two channels of the set that inference covers alike bear the same name within a TTL |
| `PowerStream.StaticAlarmWasAccepted` | fastapi-server/power/services/anomaly_inference.py:143-163 | then every static alarm, or one of its sensor, source and risk less than a TTL before, was accepted |
| `PowerStream.SharedNameDrops` | fastapi-server/power/services/anomaly_inference.py:219-226 | of two channels that bear the same name within a TTL and are covered alike by inference, the second one’s danger alarm is dropped as the first one’s |
| `PowerStream.UnnamedTwinsDrop` | fastapi-server/power/services/anomaly_inference.py:220 | for every table: two devices without a name for a channel, known or not, have the danger of the second dropped as that of the first |
| `PowerStream.PushesBelong` | fastapi-server/power/services/anomaly_inference.py:223-236 | in every run on power samples of a set of channels each push is of a channel of the set, and its source is static_no_ai_available iff inference does not cover the channel |
| `PowerLabels.SteadyTableDistinguishesIff` | fastapi-server/power/services/anomaly_inference.py:219-220 | under one table names distinguish a set of channels iff no two that inference covers alike have the same label; labels are never empty |
| `PowerLabels.UnnamedApartIff` | fastapi-server/power/services/anomaly_inference.py:220 | channels without a name are told apart iff no two of the set have the same number, whatever their devices |
| `PowerLabels.MissingDeviceBorrows` | fastapi-server/power/services/channel_meta_cache.py:29-42 | without a device id a channel bears the name of the first device that has an entry for it |
| `PowerLabels.RefreshMixesNames` | fastapi-server/power/services/channel_meta_cache.py:45-65 | a refresh that exchanges two names mixes them for a TTL, although each table tells the channels apart |
| `PowerAiStream.AiDroppedIffEventAnnounced` | fastapi-server/power/services/anomaly_inference.py:538-572 | in every run, with the TTL no longer than the rate limit: an AI alarm is dropped iff it was answered with an event that was announced at its risk less than a TTL before, and never by its own sensor |
| `PowerAiStream.SharedEventDropsAi` | drf-server/apps/alerts/services/event_service.py:67-87 | dangers on two channels of one device that are answered with one event: the second is never announced, and its channel is silent for the next minute |
| `PowerSeverity.RunNeverDowngradesIff` | fastapi-server/ai/risk_combine.py:112-155 | in all runs on power samples no push is below its sample’s static risk iff the synced danger bound is at least 100 percent, or a synced maximum is missing |
| `PowerSeverity.DangerGoesOutAsWarning` | fastapi-server/ai/risk_combine.py:60-110 | below 100 percent: a warm-up of 29 samples and one anomalous sample whose static danger goes out as a warning |
| `PowerSeverity.StaticAlarmOutcome` | fastapi-server/power/services/anomaly_inference.py:267-482 | a usable sample with a static alarm that is not silenced: one push at the AI’s risk if inference raises its own alarm, none if the rate limit holds that back, otherwise one push at the static risk |
| `PowerSeverity.UnansweredIffOverruled` | fastapi-server/power/services/anomaly_inference.py:446-482 | on every run such a sample is left without a push of its severity or above within the last 60 s iff there was none before and the AI’s own alarm takes its place but is rate limited or milder |
| `PowerSeverity.OnlyDangersAreUnanswered` | fastapi-server/power/services/anomaly_inference.py:446-461 | then it is a danger, and if the rate limit holds it back, it does so for an AI warning of less than 60 s before |
| `PowerSeverity.DangerBehindWarningIsSilent` | fastapi-server/power/services/anomaly_inference.py:446-461 | a run in which a danger within a minute after the first AI warning of its channel is pushed by nobody |
| `PowerRisk.EvaluatorsAgree` | fastapi-server/power/services/threshold_eval.py:74-174 | when the synced thresholds are the built-in percentages, both evaluators give the same risk for every value of every known type |
| `PowerRisk.WattEvaluatorsAgreeIff` | fastapi-server/power/services/threshold_eval.py:36-37 | for power they agree on every value iff the synced maxima are 80 and 100 percent |
| `PowerRisk.NoDowngradeIff` | fastapi-server/power/services/decide_alarm.py:85-117 | combination, night escalation and decision never end below the static risk iff a static danger is a danger for the built-in evaluator too |
| `PowerRisk.VerdictInOneFormula` | fastapi-server/ai/risk_combine.py:60-155 | five-axis tables, night escalation and decision in one formula: an AI alarm iff any sign of trouble, danger iff the threshold says so or says warning with both models agreeing, otherwise the static alarm unchanged |
| `ZScore.ZScoreIsBounded` | fastapi-server/power/services/zscore_anomaly.py:38-44 | the score of the value just added satisfies z² < n − 1, so below √29 on a full window |
| `ZScore.ThresholdCanFireIff` | fastapi-server/power/services/zscore_anomaly.py:21-44 | a threshold t ≥ 0 can be reached by the newest value of a full window iff t² < 29 |
| `ZScore.SpikeFires` | fastapi-server/power/services/zscore_anomaly.py:38-44 | the window that reaches it: 29 equal values and one outlier |
| `ZScore.ScoreMeans` | fastapi-server/power/services/zscore_anomaly.py:21-44 | on a full window of 30 the check holds iff the value lies the threshold times the deviation away from the mean |
| `Statistics.Samuelson` | fastapi-server/power/services/zscore_anomaly.py:39-42 | Samuelson’s inequality for every non-empty sequence of reals |
| `Statistics.Cauchy` | fastapi-server/power/services/zscore_anomaly.py:39-42 | the square of a sum of deviations is at most n times the sum of their squares |
| `Statistics.ShiftMovesMeanOnly` | fastapi-server/power/services/change_point_service.py:60-66 | a constant added to all values moves the mean by it and leaves the variance |
| `Statistics.NegationFlipsMeanOnly` | fastapi-server/power/services/change_point_service.py:60-66 | negating all values negates the mean and leaves the variance |
| `ChangePoint.FiresOnRisingEdge` | fastapi-server/power/services/change_point_service.py:57-88 | for every history the machine fires iff the two-window test holds on the newest 60 values and did not hold on a full window one value earlier |
| `ChangePoint.MachineRemembers` | fastapi-server/power/services/change_point_service.py:57-88 | its state is the newest 60 values and whether they pass the test |
| `ChangePoint.ChangedMeans` | fastapi-server/power/services/change_point_service.py:62-75 | without quotients: the halves of the 60 values differ iff their means are three deviations apart or one deviation is at least twice the other |
| `ChangePoint.VerdictsIgnoreShift` | fastapi-server/power/services/change_point_service.py:60-75 | adding a constant to the whole history changes no verdict |
| `ChangePoint.VerdictsIgnoreSign` | fastapi-server/power/services/change_point_service.py:60-75 | negating the whole history changes no verdict |
| `ChangePoint.Detector.DetectChangePoint` | fastapi-server/power/services/change_point_service.py:40-88 | each call answers for its own channel’s history, whatever the other channels did in between |
| `ChangePoint.Detector.Feed` | fastapi-server/power/services/change_point_service.py:57-88 | one call moves exactly the machine of its own channel |
| `AiMute.MutedIffRecentlyMarked` | fastapi-server/services/ai_mute.py:37-95 | a rule at a level is muted iff an AI mark of that level or above was set for its device and channel less than a TTL ago |
| `AiMute.MutedBelow` | drf-server/apps/alerts/services/alarm_dedupe.py:75-144 | muting is downward closed |
| `AiMute.PartialMarkIsMilder` | fastapi-server/services/ai_mute.py:82-97 | a mark cut short by a failure equals a whole mark of a lower level, so muting stays downward closed |
| `AiMute.ReadLevelIff` | fastapi-server/services/ai_mute.py:37-41 | a level is known iff it is one of the three risk texts, and then that risk |
| `AiMute.MuteStore.MarkAiRecent` | fastapi-server/services/ai_mute.py:66-102 | sets the keys of the levels up to the alarm’s as far as Redis lets it; without device, channel or known level nothing |
| `AiMute.MuteStore.IsAiMuteActive` | drf-server/apps/alerts/services/alarm_dedupe.py:128-144 | looks at the one key of the asked level; fails open |
| `AlarmDedupe.FiresUnlessRepeated` | drf-server/apps/alerts/services/alarm_dedupe.py:24-45 | over any history of attempts and clears an attempt fires unless the last firing since the last clear was of the same state less than a TTL ago |
| `AlarmDedupe.BurstFiresOnce` | drf-server/apps/alerts/services/alarm_dedupe.py:37-45 | of any number of attempts at one state within a TTL exactly one fires |
| `AlarmDedupe.CounterCountsStreak` | drf-server/apps/alerts/services/alarm_dedupe.py:59-70 | the counter has reached n iff the last n beats are ticks, each less than a TTL after the one before |
| `AlarmDedupe.AlarmGuards.TryTransition` | drf-server/apps/alerts/services/alarm_dedupe.py:37-45 | compare and set on one key; all others untouched |
| `AlarmDedupe.AlarmGuards.ConfirmConsecutive` | drf-server/apps/alerts/services/alarm_dedupe.py:59-70 | counts one tick and confirms iff the threshold is reached |
| `AlarmDedupe.AlarmGuards.ClearState` | drf-server/apps/alerts/services/alarm_dedupe.py:54-56 | forgets one key |
| `Scenario.ScenarioRunsItsCourse` | fastapi-server/dummies/_state_machine.py:60-121 | whatever entries come in between, after k ticks the machine is where the closed form says, and in NORMAL exactly after u + h + d ticks |
| `Scenario.TickAdvances` | fastapi-server/dummies/_state_machine.py:81-121 | the k-th tick puts out weight k/u, then 1, then (u + h + d − k)/d, anomalous except the last |
| `Scenario.ForcedIsPeriodic` | fastapi-server/dummies/gas_dummy.py:219-248 | from any state on course: once the scenario under way is over, a forced mode puts out its own weights from the first and repeats them with period u + h + d |
| `Scenario.ForcedCycle` | fastapi-server/dummies/gas_dummy.py:219-248 | from any state on course, also in the middle of another scenario: that one runs its course, and then the forced one cycles; where each tick finds the machine and what it puts out |
| `Scenario.RunIsOnCourse` | fastapi-server/dummies/_state_machine.py:60-121 | every state that ticks and entries lead to from a new channel is normal or where the closed form of its scenario says |
| `Scenario.OutputWeighs` | fastapi-server/dummies/_state_machine.py:81-121 | a tick puts out the weight of the closed form, 0 at the end, and a normal channel weight 0 |
| `Scenario.WeightsSum` | fastapi-server/dummies/_state_machine.py:92-121 | the weights of one scenario add up to h + (u + d)/2 |
| `Scenario.WeightsAreSmooth` | fastapi-server/dummies/_state_machine.py:92-121 | weights lie in [0, 1] and adjacent ones differ by at most max(1/u, 1/d) |
| `Scenario.MixFollowsWeight` | fastapi-server/dummies/_state_machine.py:151-153 | the mixed value is the normal one at weight 0 and the scenario’s at weight 1, lies between the two and moves in proportion to the weight |
| `Scenario.ChannelState.StepOnce` | fastapi-server/dummies/_state_machine.py:81-121 | one tick on the channel’s fields |
| `Scenario.ChannelState.EnterPlan` | fastapi-server/dummies/_state_machine.py:60-78 | entry from NORMAL with tick counts of at least one; ignored otherwise |
| `Scenario.ChannelState.MaybeTrigger` | fastapi-server/dummies/_state_machine.py:124-148 | a draw below the probability enters the picked scenario, only from NORMAL |
| `MenuTree.OccursOnceIffRooted` | drf-server/apps/dashboard/menu.py:82-102 | for any parent pointers, dangling or cyclic, a listed menu occurs exactly once in the tree if all its ancestors up to a parentless one are listed, and otherwise not at all |
| `MenuTree.OnlyListed` | drf-server/apps/dashboard/menu.py:82-102 | no other code occurs |
| `MenuTree.SiblingsKeepOrder` | drf-server/apps/dashboard/menu.py:79-85 | menus with the same parent stand in query order |
| `MenuTree.ChainIsUnique` | drf-server/apps/dashboard/menu.py:82-102 | a menu has at most one chain of ancestors |
| `MenuTree.ChainFits` | drf-server/apps/dashboard/menu.py:88-100 | no menu repeats on a chain, so the recursion is no deeper than the list is long and ends |
| `MenuTree.TreeShowsMenus` | drf-server/apps/dashboard/menu.py:88-102 | every node shows code, name, icon and path of its menu, and below it the menus whose parent it is, in query order |
| `MenuTree.ByParentIff` | drf-server/apps/dashboard/menu.py:82-85 | those are exactly the listed menus with that parent |
| `MenuTree.GroupByParent` | drf-server/apps/dashboard/menu.py:82-85 | the loop groups all menus by parent, in order |
| `MenuTree.BuildNode` | drf-server/apps/dashboard/menu.py:88-100 | the recursion over the grouped menus builds the specified node |
| `MenuTree.BuildTree` | drf-server/apps/dashboard/menu.py:82-102 | grouping and recursion from the parentless menus build the specified tree |
| `MenuCache.MenuOccursOnceIffReachable` | drf-server/apps/dashboard/menu.py:54-102 | for every menu row and role: once in the role’s tree iff there is a chain from a parentless menu down to it, all of them active side-bar menus granted visibly to the role’s profile, which is its own if active, else the active worker profile; otherwise not at all |
| `MenuCache.AlwaysCurrentIff` | drf-server/apps/dashboard/menu.py:105-110 | every answer for a role is current in every run of lookups, expiries, changes of menus and visibility, and changes of profiles that keep its profile and its reach, iff the role is a profile code or there is no worker fallback |
| `MenuCache.ProfileChangeIsHarmlessIff` | drf-server/apps/dashboard/menu.py:59-67 | a change of profiles, which drops nothing, leaves a cached tree current for all grants and menus iff the role keeps its profile |
| `MenuCache.FallbackRoleStaysStale` | drf-server/apps/dashboard/menu.py:105-110 | a role served by the fallback keeps an empty menu after the first menu was set up |
| `MenuCache.MenuService.GetMenuTree` | drf-server/apps/dashboard/menu.py:30-51 | cached tree if there is one, otherwise built and cached |
| `MenuCache.MenuService.BuildMenuTree` | drf-server/apps/dashboard/menu.py:54-102 | profile fallback, empty visibility and tree |
| `MenuCache.MenuService.InvalidateMenuTreeCache` | drf-server/apps/dashboard/menu.py:105-110 | drops the trees of all profile codes and no others |
| `MenuCache.MenuService.SaveMenus` | drf-server/apps/dashboard/signals.py:9-14 | a change of menus drops the trees of all profile codes |
| `MenuCache.MenuService.SaveGrants` | drf-server/apps/dashboard/signals.py:9-14 | so does a change of visibility |
| `MenuCache.MenuService.SaveProfiles` | drf-server/apps/dashboard/signals.py:9-14 | a change of profiles changes the table and leaves the cache as it is |
| `PolicyMatcher.MatchIsFirstMostSpecific` | drf-server/apps/alerts/services/policy_matcher.py:69-91 | the answer is the first, in list order, of the most specific policies that apply; None iff none applies |
| `PolicyMatcher.ScoreMeansSpecificity` | drf-server/apps/alerts/services/policy_matcher.py:94-132 | a policy has a score iff it applies, and a higher score iff it is more specific in the documented order |
| `PolicyMatcher.SortIsStable` | drf-server/apps/alerts/services/policy_matcher.py:89-91 | the sort is by descending score and keeps all elements of each score in order |
| `PolicyMatcher.OnlyPolicyAnswersIff` | drf-server/apps/alerts/services/policy_matcher.py:94-132 | a policy on its own is the answer iff its facility is unset or the trigger’s, and its three lists are empty or the trigger’s sensor, device or geofence is in the list of its kind |
| `PolicyMatcher.OtherKindIsNotAnswered` | drf-server/apps/alerts/services/policy_matcher.py:123-130 | a policy whose only list is one of sensors never answers a trigger without a sensor; likewise for devices and geofences |
| `PolicyMatcher.QuerySelects` | drf-server/apps/alerts/services/policy_matcher.py:33-43 | the query answers exactly the active policies of the type |
| `PolicyMatcher.SaveEditsOneRow` | drf-server/apps/alerts/services/policy_matcher.py:170-180 | a save writes the one row and drops the cached list of its current type and no other |
| `PolicyMatcher.DeleteRemovesOneRow` | drf-server/apps/alerts/signals.py:18-26 | a delete removes the one row and drops the cached list of its type and no other |
| `PolicyMatcher.LookupEqualsDirectQuery` | drf-server/apps/alerts/services/policy_matcher.py:33-54 | through the cache every answer equals a direct query, for any interleaving of lookups, saves, deletes and expiries in which no save moves an active policy away from a cached type |
| `PolicyMatcher.SaveStaysCoherentIff` | drf-server/apps/alerts/services/policy_matcher.py:170-180 | a save leaves the cache coherent iff it does not move an active policy away from a cached event type |
| `PolicyMatcher.DeleteStaysCoherent` | drf-server/apps/alerts/signals.py:18-26 | a delete always leaves the cache coherent |
| `PolicyMatcher.MovedPolicyIsStillMatched` | drf-server/apps/alerts/services/policy_matcher.py:177-180 | after such a move the old type still answers with the policy that has left it |
| `PolicyMatcher.PolicyService.GetCachedPolicies` | drf-server/apps/alerts/services/policy_matcher.py:33-43 | cached list if there is one, an empty one included, otherwise queried and cached |
| `PolicyMatcher.PolicyService.MatchPolicy` | drf-server/apps/alerts/services/policy_matcher.py:57-91 | scoring loop, sort and choice answer the first of the most specific policies that apply, and None iff none does; the cache is filled |
| `PolicyMatcher.PolicyService.SavePolicyRow` | drf-server/apps/alerts/services/policy_matcher.py:170-180 | the row is written, then the list of its current type dropped |
| `PolicyMatcher.PolicyService.DeletePolicyRow` | drf-server/apps/alerts/signals.py:18-26 | the row is removed and the list of its type dropped |

## Left out

- HTTP, WebSocket and JWT plumbing, Discord mirroring, metrics and logging: only success or failure is modelled.
- IsolationForest, ARIMA and the model registry: arbitrary answers.
- Floating-point rounding, and the rounding to one decimal in `get_static_threshold_abs`.
- Message texts, measured values and policy foreign keys on events: nothing modelled depends on them.
- Concurrent creation while no event row exists that could be locked.
- The state keys of `mark_ai_state` and `get_ai_state`, and the gas twins of the power AI keys: the same expiring keys without levels.
- `fire_geofence_alarm_task` and the clearing tasks: their write and push share one retry block; to the delivery theorem they are other producers.
- Gaps between the clock readings of one transaction, and alarms without `detected_at`.
- Stream entries that are valid JSON but no object; several devices' samples interleaved inside one inference call.
- The sort of menus by `sort_order` and `code`, which the database performs.
- Mute marks with varying TTLs: one TTL per run.
- Delivery.ExactlyOnceIffCooldownCoversTtl: a push is made at the time of its decision; a payload is sent again only after it was posted and within the TTL.
- FlushLoop.HistoriesAgree: asks that both replicas keep up with trimming; BroadcastsAreTheStream needs no such condition and names what was lost.
- FlushLoop.BroadcastsAreTheStream: begins at the origin, which OriginIsFirstKeptRead locates; what lies before it is not broadcast.
- PowerStream.DropsAreOwnIffNamesDistinguish: others push no static alarms without an event id; the threshold alarms of the alarm tasks name their event.
- PowerAiStream.AiDroppedIffEventAnnounced: others push no power AI alarm without an event id.
- PowerInference.NoSilentStaticAlarm: asks for a clock of at least 60 s, because a missing rate-limit stamp reads as 0, and for exceptions that arise before the rate-limit stamp; it counts pushes of any risk and ends at the push: PowerSeverity says when they are too mild, PowerStream and PowerAiStream what the stream drops.
