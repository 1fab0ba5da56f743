# Verification of the gateway's reliability, cache and operation engine

The project models five linked parts of the industrial gateway and proves properties of every run of them:

1. **Connection manager** (`RetryPolicy`, `DeviceState`, `Cooldown`, `Fleet`, `ConnectionManager`, `Phases`,
   `OutageLoad`, `OutageWindows`, `OutageTightness`, `OutageCrowd`, `RequestMoves`). Every request is a sequence of
   locked steps - admission, marking, recording - around unlocked connector calls. The steps form a transition relation
   on one device record; a mutable class with the same critical sections is proved against it. The model follows the
   code, not a textbook breaker: the retry loop does not ask the breaker again between attempts, HalfOpen lets any
   number of callers through, and a success closes the breaker from any state.
2. **State cache and alarms** (`Thresholds`, `AlarmEdges`, `StateCache`, `AlarmPass`, `Interleaving`, `CacheRuns`,
   `Collisions`, `Agreement`, `CacheWorker`). A refresh classifies each reading and appends an alarm only when a key's
   signature changes; a worker thread is stopped and restarted around configuration changes.
3. **Two-phase operations and configuration tools** (`OperationIds`, `Operations`, `Authorisation`, `Access`,
   `Management`, `Switches`, `McpServer`, `ServerRuns`). `Operations.Handle` is the step function of the server's
   bookkeeping; the class `McpServer.Server` implements it in place together with the connection manager and the cache,
   and its runs are runs of the cache.
4. **Diagnosis** (`Diagnosis`). Its threshold classifier is independent of the cache's and is proved to agree with it.
5. **Alarm store** (`Lexicographic`, `Timestamps`, `AlarmStore`, `Queries`, `Pipeline`). Records over a list of lines:
   load, normalise, append, query, analyse.

`Phases`, `AlarmPass`, `Access`, `Switches` and `Queries` say what the functions that the methods are proved against
mean, in the words of the configuration, the inputs and the records.

`Config` holds the part of the configuration these components read. `dafny verify dfyconfig.toml` checks everything.

## How the model is set up

- Clock readings, wall-clock strings, connector answers, the result of reading the configuration file again and the
  backend's answer to an append are inputs of the operations. The steady clock is a number of milliseconds; theorems
  that need it say that it does not go back.
- A request is handed one reply for each attempt it may make and uses a prefix of them (`Used`); a connector answers a
  read of several variables with one result per variable.
- Numbers are mathematical reals, so there is no NaN. `int32` settings keep their range, and the backoff loop is proved
  free of 32-bit overflow.
- The configuration's hash maps of variables and methods are sequences with distinct names; the sequence stands for the
  map's iteration order.
- `CacheWorker` and `OutageLoad` are interleaving systems: any order of their steps is a run. Runs of `OutageLoad` start
  from any record and any requests under way, and their calls may fail or succeed; an outage is a stretch without
  success. No attempt of a read is sent before the backoff after the previous one has passed; the read of all variables
  of a device that has none is the one read that never sleeps.
- An alarm signature is the pair that the code prints as `level:code`. A JSON document is an object seen through the
  keys that are ever read, or something else; a file is a list of lines, each complete.

Three conditions the code does not check matter, and each is stated where it does:

- Device ids that repeat. Nothing is assumed about loaded ids; a record is known to be sound for every device whose id
  is its own (`Sole`), and `IdsStayUnique` says when all of them are.
- Device ids that collide once a bar is appended (`Collide`). `CollideExactly`, `RefinementExactly` and
  `AgreementExactly` give the exact conditions, `CollisionRepeatsAlarm` and `SharedKeyDisagrees` runs that break
  without them.
- A variable named `__communication`. `OwnExactly` gives the exact condition, `ReservedNameRepeatsAlarm` the run.

## What differs from what one might expect

- An operation prepared for a method whose name is empty authorises any other method of the device
  (`EmptyNameAuthorisesOtherMethod`); `OperationFitsMethod` gives the exact condition.
- The backoff delay can exceed the capped power of two by one millisecond (`DelayVersusExact` says exactly when,
  `DelayOvershoots` shows an input).
- The outage load bound cannot always be met by reads that sleep (`LongSleepsSaveCalls`); `TightExactly` says exactly
  when it can, `LoadByWindows` and `PlanIsAttained` what load is possible in any case.
- A query with limit 0 returns one record when there is a match, because the limit is tested after the record is taken.
  `LimitExceededExactly` says exactly when, `LimitZeroReturnsOne` shows it. Only a direct call can pass 0; the tools
  replace it by their default.
- A variable whose read is lost while every read of the device fails keeps its earlier active signature (`Skip`).
- A refresh that another request interleaves can leave a device online but not Connected
  (`InterleavingBreaksCoherence`); `InterleavedExactly` says exactly when a refresh leaves a coherent state.

## Model

| member | source | states |
|---|---|---|
| RetryPolicy.DelayMs | src/reliability/device_connection_manager.cpp:105-118 | the 32-bit doubling loop returns the specified delay for every failure count and configuration, with no intermediate overflow |
| RetryPolicy.DelayIsClosed | src/reliability/device_connection_manager.cpp:105-118 | the delay equals a closed form: the ceiling once half of it has been reached before the last doubling, else initial times a power of two |
| RetryPolicy.DelayInRange | src/reliability/device_connection_manager.cpp:105-118 | with a positive initial delay and at least one failure the delay lies between the initial delay and the ceiling |
| RetryPolicy.DelayMonotone | src/reliability/device_connection_manager.cpp:105-118 | more failures never shorten the delay |
| RetryPolicy.DelayVersusExact | src/reliability/device_connection_manager.cpp:105-118 | the early exit of the loop differs from the capped power exactly when the doubled delay is one below the ceiling; then it is one more, and the ceiling is odd |
| RetryPolicy.DelayOvershoots | src/reliability/device_connection_manager.cpp:105-118 | a concrete configuration whose second delay is 3 ms where the capped power is 2 ms |
| RetryPolicy.TotalBackoffBound | src/reliability/device_connection_manager.cpp:352-355 | a retry loop sleeps at most its number of retries times the ceiling |
| RetryPolicy.TotalBackoffGeometric | src/reliability/device_connection_manager.cpp:352-355 | without saturation the sleeps add up to initial * (2^retries - 1) |
| DeviceState.FieldsFollowHistory | src/reliability/device_connection_manager.cpp:202-247 | after any interleaving of locked steps since a reset, every field of a record is a function of the recorded outcomes: trailing failure run, number of maximal failure runs, last outcome, delay, Closed iff below threshold; admissions and marks leave no trace |
| DeviceState.PhaseInvariantHolds | src/reliability/device_connection_manager.cpp:173-247 | in every reachable record the connection phase, online flag, failure run and breaker state constrain each other as listed |
| DeviceState.FailureNeverClosesBreaker | src/reliability/device_connection_manager.cpp:134-149 | in every reachable record a failure leaves an Open breaker open with its opening time, reopens a HalfOpen one, and opens a Closed one exactly at the threshold; the below-threshold HalfOpen branch is not taken |
| Phases.PhaseFollowsRun | src/reliability/device_connection_manager.cpp:173-247 | in every reachable record the phase is told by its run: Disconnected at first, Connected after a success, after a failure Faulted from the configured number of failures in a row on and Reconnecting below it, after a mark Reconnecting or Connecting by whether failures are standing, Faulted after a refusal, and what it was after a granted admission |
| Cooldown.CooldownSafety | src/reliability/device_connection_manager.cpp:120-149 | once the breaker opens, no request is admitted within the cooldown unless a success is recorded in between, whatever else is in flight |
| Cooldown.ReopeningSpacing | src/reliability/device_connection_manager.cpp:134-149 | two openings with no success between them are at least the cooldown apart |
| Cooldown.AdmissionExactly | src/reliability/device_connection_manager.cpp:120-128 | a request is turned away if and only if the breaker is Open and the cooldown of its latest opening is still running |
| OutageLoad.RunIsInterleaving | src/reliability/device_connection_manager.cpp:319-477 | any run of concurrent callers, from any record and with any failures and successes, is an interleaving of the device's locked steps |
| OutageLoad.OutageLoadBound | src/reliability/device_connection_manager.cpp:319-477 | from any record whose breaker is Closed and below its threshold, whatever requests are under way, n concurrent callers whose calls fail make at most the failures missing to the threshold less one plus n full retry rounds for the first outage and each full cooldown period after it |
| OutageLoad.OutageAfterSuccess | src/reliability/device_connection_manager.cpp:319-477 | in any run of concurrent callers, with any earlier failures and successes, the calls from one success to the next keep within that bound |
| OutageLoad.SequentialOutageLoad | src/reliability/device_connection_manager.cpp:319-477 | from any such record a sequential run on a dead device without earlier failures makes at most T + R + (R + 1) * floor(L / c) connector calls, over any mix of requests, and fewer by the failures already recorded |
| OutageTightness.BoundIsTight | src/reliability/device_connection_manager.cpp:319-477 | from every Closed record without failures that bound is reached with equality for every number of cooldown periods: by reads of a device without variables, which never sleep, and by reads that sleep where k times the whole sleep takes less than k + 1 cooldowns |
| OutageTightness.TightExactly | src/reliability/device_connection_manager.cpp:319-477 | from every such record, reads that sleep between their attempts can reach the bound with k cooldown periods if and only if k times the loop's whole backoff is less than k + 1 cooldowns |
| OutageCrowd.CrowdBoundIsTight | src/reliability/device_connection_manager.cpp:319-477 | the bound for concurrent callers is reached with equality too: for any number of callers and of cooldown periods, from every Closed record without failures |
| OutageWindows.LoadByWindows | src/reliability/device_connection_manager.cpp:319-477 | every sequential run on a dead device, from any Closed record without failures, is accounted for by its windows: it makes at most the threshold less one plus the calls of its windows, and each window but the last takes at least the cooldown and at least the sleep of its request |
| OutageWindows.SleptIsBackoff | src/reliability/device_connection_manager.cpp:344-357 | the sleep between the last attempts of a loop and the sleep before them add up to the loop's whole backoff |
| OutageTightness.PlanIsAttained | src/reliability/device_connection_manager.cpp:319-477 | from every such record every admissible plan of windows is realised by a run that makes exactly its calls in exactly its time, with sleeping reads where the windows sleep |
| OutageTightness.LongSleepsSaveCalls | src/reliability/device_connection_manager.cpp:344-357 | with one retry, a sleep of two seconds and a cooldown of one, the condition fails: sleeping reads make at most three calls in the first period, one less than the bound |
| RequestMoves.RequestIsRun | src/reliability/device_connection_manager.cpp:319-477 | every request of the connection manager, from any record and whether it fails, succeeds at some attempt or is turned away, is a run of one caller's moves in the concurrent system, with the same final record and one counted call per attempt |
| Fleet.DeviceIsolation | src/reliability/device_connection_manager.cpp:160-247 | an interleaved run of many devices, projected onto one device's steps, ends in the record that device reaches alone |
| Fleet.EnabledDeviceReplays | src/reliability/device_connection_manager.cpp:173-247 | for an enabled device, running alone is the replay of its locked steps |
| ConnectionManager.TotalFailure | src/reliability/device_connection_manager.cpp:344-359 | a retry loop that fails throughout makes every attempt and adds each one to the failure run |
| ConnectionManager.FirstSuccess | src/reliability/device_connection_manager.cpp:344-351 | a retry loop stops at the first success, which leaves the device connected with a closed breaker |
| ConnectionManager.RequestOutcome | src/reliability/device_connection_manager.cpp:319-360 | replaying all locked steps of a request equals its gate followed, when let through, by the retry loop |
| Phases.RequestPhase | src/reliability/device_connection_manager.cpp:319-477 | after a request the device is Connected and online if some reply is good, and offline otherwise: Faulted if it was turned away or its failures reach the configured threshold, else Reconnecting |
| Phases.AnswersExactly | src/reliability/device_connection_manager.cpp:323-351 | exactly when a request is answered how: a disabled device, then an open breaker within the configured cooldown, then a missing connector; otherwise by the first good reply or the last one |
| Phases.MissingConnector | src/reliability/device_connection_manager.cpp:332-341 | a missing connector counts as one failure without an attempt, and the error names the device |
| Phases.DeadReadCalls | src/reliability/device_connection_manager.cpp:343-359 | a read on a dead device makes one call and the configured number of retries, none where that number is negative |
| Phases.JudgedBy | src/reliability/device_connection_manager.cpp:78-99 | a batch is good if one of its readings is; its error is the first error text of a failed one, its attempts those of the first reading |
| Phases.RefusalsTell | src/reliability/device_connection_manager.cpp:16-34 | refused reads carry a status of their own for each reason and an error that names the device, no value and no attempt |
| Phases.OthersStand | src/reliability/device_connection_manager.cpp:319-477 | a request for a disabled device moves no record, and one for an enabled device no record but its own |
| ConnectionManager.RequestKeepsReachable | src/reliability/device_connection_manager.cpp:319-477 | a request takes a reachable record to a reachable record, so every theorem on interleavings applies after it |
| ConnectionManager.DeviceConnectionManager.constructor | src/reliability/device_connection_manager.cpp:155-158 | a new manager holds a fresh record and a connector for exactly the configured ids; where an id repeats, the last device decides |
| ConnectionManager.DeviceConnectionManager.Reset | src/reliability/device_connection_manager.cpp:160-171 | a reset leaves fresh records and connectors for exactly the configured ids, the last device deciding where one repeats, and the current retry policy |
| ConnectionManager.FreshAt | src/reliability/device_connection_manager.cpp:160-171 | after a reset every device that no later one shares its id with has a fresh record of its own kind |
| ConnectionManager.DeviceConnectionManager.StateForLocked | src/reliability/device_connection_manager.cpp:173-180 | looking up a record creates it when missing and forces a disabled device offline; no other record moves |
| ConnectionManager.DeviceConnectionManager.AllowRequest | src/reliability/device_connection_manager.cpp:120-128 | the breaker's answer and its new state at an admission |
| ConnectionManager.DeviceConnectionManager.RequestAllowed | src/reliability/device_connection_manager.cpp:323-331 | the admission section moves the table by exactly one admission step |
| ConnectionManager.DeviceConnectionManager.MarkDevice | src/reliability/device_connection_manager.cpp:202-207 | marking moves the table by exactly one marking step |
| ConnectionManager.DeviceConnectionManager.RecordOk | src/reliability/device_connection_manager.cpp:209-222 | recording a success moves the table by exactly one success step |
| ConnectionManager.DeviceConnectionManager.CircuitFailure | src/reliability/device_connection_manager.cpp:134-149 | the breaker after a recorded failure |
| ConnectionManager.DeviceConnectionManager.RecordError | src/reliability/device_connection_manager.cpp:224-247 | recording a failure moves the table by exactly one failure step, including the computed delay |
| ConnectionManager.DeviceConnectionManager.Gate | src/reliability/device_connection_manager.cpp:323-343 | the opening of a request refuses a disabled device, an open breaker and a missing connector, in this order, and moves the record by the corresponding steps |
| ConnectionManager.DeviceConnectionManager.RetryLoop | src/reliability/device_connection_manager.cpp:344-359 | the retry loop returns the last reply it used, leaves the record where the retries lead, and sleeps the sum of its backoff delays |
| ConnectionManager.DeviceConnectionManager.ReadNode | src/reliability/device_connection_manager.cpp:319-360 | a read answers by the refusal rules or with the first good, else the last reply; the table moves by the locked steps of that request; the sleep is the sum of the delays between attempts |
| ConnectionManager.DeviceConnectionManager.ReadNodes | src/reliability/device_connection_manager.cpp:362-405 | the same for a read of several variables, where one good read makes an attempt a success and a device without variables is never slept for |
| ConnectionManager.DeviceConnectionManager.CallOnce | src/reliability/device_connection_manager.cpp:407-477 | a write or method call makes at most one attempt and moves the table by the locked steps of that request |
| ConnectionManager.DeviceConnectionManager.GetHealth | src/reliability/device_connection_manager.cpp:275-305 | a health probe of an enabled device is a one-attempt request; a disabled device is only marked; the answer is the resulting record |
| Thresholds.ClassifiersAgree | src/diagnosis/diagnostics.cpp:52-72 | for every rule and value the cache's classifier and the diagnosis name the same class |
| AlarmEdges.LogIsEdges | src/device/device_state_cache.cpp:389-404 | over any events the alarms appended under a key are exactly the edges of that key's observation stream, and its active signature is the one standing |
| AlarmEdges.ActiveFollowsStream | src/device/device_state_cache.cpp:389-404 | from any earlier state the active signature of a key is determined by its stream alone |
| AlarmEdges.UnchangedEmitsOnce | src/device/device_state_cache.cpp:389-399 | an abnormal state that only repeats or is skipped is not reported again |
| AlarmEdges.EveryAlarmReported | src/device/device_state_cache.cpp:389-399 | every abnormal observation belongs to a reported edge with the same signature and nothing else in between |
| AlarmEdges.RecoveryReemits | src/device/device_state_cache.cpp:389-404 | the first abnormal observation after a recovery is reported again |
| StateCache.KeysAreDistinct | src/device/device_state_cache.cpp:173-195 | keys of device ids that do not collide are equal only for equal names |
| StateCache.CollideExactly | src/device/device_state_cache.cpp:173-195 | two different device ids can share a key if and only if one of them, followed by a bar, starts the other |
| StateCache.CacheHoldsReadings | src/device/device_state_cache.cpp:124-141 | a refresh caches every variable under its own name with its own reading, and nothing else |
| StateCache.StreamOfRefresh | src/device/device_state_cache.cpp:171-265 | under every key of an id that the device's id does not collide with, a refresh leaves the device's own observations and nothing else |
| AlarmPass.FailedReadRaises | src/device/device_state_cache.cpp:196-212 | a read that fails while another of the device is good leaves OPCUA_READ_FAILED active for its variable and appends exactly one alarm with its own clock, error and node, unless that signature was active already |
| AlarmPass.TotalLossRaises | src/device/device_state_cache.cpp:171-212 | when every read fails COMMUNICATION_ERROR is active for the device, with exactly one alarm appended unless it was active already, carrying the first error text; the signatures and alarms of its variables stand as they were |
| AlarmPass.GoodReadClearsDevice | src/device/device_state_cache.cpp:186-188 | a good read, or a device without variables, leaves no communication alarm active and appends none |
| AlarmPass.NormalReadClears | src/device/device_state_cache.cpp:214-249 | a good read of a value that is no number or within all limits leaves no active signature on its variable and appends nothing |
| AlarmPass.LimitRaises | src/device/device_state_cache.cpp:214-265 | a number beyond a limit leaves the signature of the worst limit it exceeds active and appends exactly one alarm with the number and that limit, unless the signature was active already |
| AlarmPass.OtherDevicesStand | src/device/device_state_cache.cpp:171-265 | a refresh leaves the signatures and alarms of every device whose id does not collide as they were |
| AlarmPass.RecordTells | src/device/device_state_cache.cpp:174-185 | an alarm's record carries its device, clock, node, number and limit, and its printed level and code tell its signature |
| AlarmPass.MessageTells | src/device/device_state_cache.cpp:37-41 | a threshold message begins with the variable and ends with the limit |
| AlarmPass.DirectionTells | src/device/device_state_cache.cpp:224-244 | its words tell above from below and an alarm limit from a warning limit as its code does |
| AlarmPass.LossTells | src/device/device_state_cache.cpp:182-206 | the message of a lost read or device is its error text, and never empty |
| StateCache.LoopOutcome | src/reliability/device_connection_manager.cpp:382-404 | after a retry loop online, phase Connected and a good last reply are equivalent |
| StateCache.OnlineAfterRequest | src/reliability/device_connection_manager.cpp:362-405 | after a multi-read request, in every breaker state, online, phase Connected and some good reading are equivalent |
| StateCache.RefreshIsCoherent | src/device/device_state_cache.cpp:108-164 | after a refresh that no other request interleaves, cached online, device_connected and phase Connected are equivalent and the status is ERROR exactly when not online |
| AlarmPass.StatusTells | src/device/device_state_cache.cpp:122-164 | the cached status is OK exactly if there are reads and all are good, DEGRADED exactly if some are good and some are not, ERROR exactly if none is; the last error is the first error text, or the connection's where there is none |
| AlarmPass.CachedAsRead | src/device/device_state_cache.cpp:125-142 | every variable is cached with the value, outcome, status and error it was read with |
| Interleaving.InterleavedRefresh | src/device/device_state_cache.cpp:115-164 | when other requests step in before the snapshot, the status is still ERROR exactly when not online, and phase Connected still implies device_connected |
| Interleaving.InterleavedExactly | src/device/device_state_cache.cpp:115-164 | for any record, replies and steps of other requests between and after the refresh's own: the snapshot is coherent if and only if the steps after its last own step let its outcome stand - after a good one the latest step that is no admission is absent or a success, after a failed one no success has been recorded or a failure has been recorded since |
| Interleaving.InterleavingBreaksCoherence | src/device/device_state_cache.cpp:115-164 | a run that breaks, for every refresh whose first read is good: another request is admitted and marks the device before the snapshot, which then shows an online device that is not Connected |
| StateCache.SweepIsCoherent | src/device/device_state_cache.cpp:92-98 | after a refresh of all devices every one has a coherent cached state, even where ids repeat |
| StateCache.DeviceStateCache.constructor | src/device/device_state_cache.cpp:45-46 | a new cache holds no states, no active signatures and has raised nothing |
| StateCache.DeviceStateCache.AppendAlarmIfChanged | src/device/device_state_cache.cpp:389-399 | appends and remembers a signature only when it differs from the active one |
| StateCache.DeviceStateCache.ClearAlarmState | src/device/device_state_cache.cpp:401-404 | forgets exactly one key |
| StateCache.DeviceStateCache.ClearCachedAlarm | src/device/device_state_cache.cpp:268-276 | forgets the communication key or the variable's key, nothing for an empty device id |
| StateCache.DeviceStateCache.Reset | src/device/device_state_cache.cpp:278-282 | forgets all states and signatures and keeps the log |
| StateCache.DeviceStateCache.Classify | src/device/device_state_cache.cpp:219-245 | the imperative threshold chain equals the classifier function that is compared with the diagnosis |
| StateCache.DeviceStateCache.Collect | src/device/device_state_cache.cpp:122-148 | one pass yields the cached variables, any-ok, all-ok and the first error text |
| StateCache.DeviceStateCache.CacheState | src/device/device_state_cache.cpp:159-169 | only the refreshed device's cached state changes, to the snapshot of its readings |
| StateCache.DeviceStateCache.CheckVariable | src/device/device_state_cache.cpp:190-265 | one variable's alarm pass is one observation of its key |
| StateCache.DeviceStateCache.RaiseAlarms | src/device/device_state_cache.cpp:171-265 | the alarm pass is the communication observation followed by one per variable, each with its own clock reading |
| StateCache.DeviceStateCache.RefreshConfiguredDevice | src/device/device_state_cache.cpp:108-266 | one refresh performs one multi-read request, replaces the cached state, tracks its observations and leaves a coherent state |
| StateCache.DeviceStateCache.RefreshOnce | src/device/device_state_cache.cpp:92-98 | a refresh of all devices performs one refresh after the other, or nothing with the cache off |
| CacheRuns.AlarmLogRefinement | src/device/device_state_cache.cpp:171-282 | over any run of sequential refreshes, clears, rule updates and reconfigurations that refreshes and clears no device whose id collides, the alarms appended under the key of a device or variable are exactly the edges of its own observation stream |
| Collisions.RefinementExactly | src/device/device_state_cache.cpp:171-282 | over a set of device ids, every run refines every observation stream if and only if no two of the ids collide |
| Collisions.CollisionRepeatsAlarm | src/device/device_state_cache.cpp:171-282 | for any two colliding ids a concrete run reports an unchanged alarm twice |
| Collisions.OwnExactly | src/device/device_state_cache.cpp:171-265 | over every run that keeps off colliding ids the alarms logged for a variable are exactly the edges of its own observations, if and only if its name is not the reserved one |
| Collisions.ReservedNameRepeatsAlarm | src/device/device_state_cache.cpp:171-265 | two refreshes of a device whose variable has the reserved name log an unchanged alarm twice, where its own observations have one edge |
| CacheRuns.CacheAgreesWithRules | src/device/device_state_cache.cpp:214-265 | in every state that sequential refreshes reach, the active signature of a variable whose device shares its keys with no other is the verdict of the current rule on the cached value, and nothing exactly when that key was cleared by hand since the latest refresh of the device |
| CacheRuns.CacheAndDiagnosisAgree | src/diagnosis/diagnostics.cpp:31-78 | in every such state the active alarm and the diagnosis' status of a cached value name the same class, unless that key was cleared by hand since the latest refresh of the device; then no alarm is active |
| Agreement.AgreementExactly | src/device/device_state_cache.cpp:171-282 | the active alarms of a device follow from its cached values and the current rules over every run that ends with given ids, whatever the variables and rules, if and only if its id neither occurs elsewhere nor collides with another |
| Agreement.SharedKeyDisagrees | src/device/device_state_cache.cpp:171-265 | for every device whose id does, a run of two refreshes that leaves its cached value above its limit and no active alarm |
| Diagnosis.FindingsMatchAlarms | src/diagnosis/diagnostics.cpp:31-78 | unless the key was cleared since the latest refresh, the diagnosis owes a finding for exactly the variables that have an active alarm |
| Diagnosis.OwedExactly | src/diagnosis/diagnostics.cpp:31-75 | a finding is owed for exactly the variables cached as ok whose number is beyond a limit, and names the worst class |
| Diagnosis.VariableContext | src/diagnosis/diagnostics.cpp:31-78 | the diagnosis pass lists exactly the abnormal cached variables, each once, with one cause each |
| CacheWorker.InvariantHolds | src/device/device_state_cache.cpp:56-90 | the start/stop protocol invariant holds in every interleaving of the tool thread and the workers |
| CacheWorker.WorkerMutatorExclusion | src/device/device_state_cache.cpp:56-90 | the configuration changes only while no worker lives, at most one worker lives, at most one refresh begins after a stop request, and no joinable thread is overwritten |
| CacheWorker.StopTerminates | src/device/device_state_cache.cpp:65-90 | while stop joins, the join can return or the worker can step, and every worker step brings it closer to its exit |
| CacheWorker.StartPutsToWork | src/device/device_state_cache.cpp:56-63 | starting with the cache on puts exactly one new worker to work, about to refresh; with the cache off none |
| CacheWorker.ServesWithFreshCache | src/device/device_state_cache.cpp:79-90 | in every interleaving, while the server serves with the cache on one worker lives, can always step, and begins a refresh on the current configuration within three steps unless it is woken early; with the cache off none lives |
| OperationIds.OperationIdInjective | src/mcp/mcp_server.cpp:1079-1084 | the counter can be read off a printed operation id, whatever the wall clock prints |
| Authorisation.SlotStep | src/mcp/mcp_server.cpp:1065-1171 | one request moves the pending table, id by id, by issuing, approving or dropping, and by nothing else |
| Authorisation.PendingFollowsEffects | src/mcp/mcp_server.cpp:1065-1171 | over a run the pending entry of an id is determined by those effects alone |
| Authorisation.PendingOrigin | src/mcp/mcp_server.cpp:1065-1171 | every pending operation goes back to its prepare, and to its confirmation when confirmed, undisturbed since |
| Authorisation.CallsAreAuthorised | src/mcp/mcp_server.cpp:1137-1173 | every call that reaches the connection manager for a method needing confirmation was prepared for the same device, action and method, then confirmed, at most 60 s earlier, with no cancel, expiry, use or reset between; an empty prepared name is the only exception |
| Access.FlaggedCallsAreAuthorised | src/mcp/mcp_server.cpp:1137-1171 | over every run, a call that reaches the connection manager names an enabled method of an enabled configured device; if the method is flagged for confirmation the call is authorised by a prepare and a confirmation, and if it is not no operation is used |
| Access.AuthorisedWithinAMinute | src/mcp/mcp_server.cpp:1079-1171 | what authorises a call is a prepare of the same device and action, and of the same method or none, confirmed in between, at most 60000 ms before |
| Access.CalledExactly | src/mcp/mcp_server.cpp:1137-1171 | a call gets through if and only if device and method are enabled, the arguments fit in number and type and, for a flagged method, the operation is pending, confirmed, unexpired and for this device, action and method or none |
| Access.ConfirmationRefusalsExactly | src/mcp/mcp_server.cpp:1150-1163 | an otherwise admissible call is refused for want of a confirmation if and only if its method is flagged and the operation is not named or not confirmed, and as expired if and only if it is confirmed and past its time |
| Access.DeviceRefusalsExactly | src/mcp/mcp_server.cpp:1067-1142 | a prepare or a call is refused as unknown if and only if no device has the id, as disabled if and only if its device is, and then changes nothing |
| Access.FitsExactly | src/mcp/mcp_server.cpp:616-630 | which argument types accept a boolean, an integer, a real, a text and any other value |
| Access.PreparedExactly | src/mcp/mcp_server.cpp:1065-1105 | a prepare is accepted if and only if the device is enabled and, for a method call, offers an enabled method of that name; it files one unconfirmed operation that lives 60000 ms |
| Access.ConfirmedExactly | src/mcp/mcp_server.cpp:1107-1135 | a confirm is accepted if and only if the operation is pending and unexpired, and sets its flag alone; a cancel drops that operation alone |
| Authorisation.AuthorisationIsInjective | src/mcp/mcp_server.cpp:1170-1171 | one prepare authorises at most one call |
| Authorisation.CallsHaveTheirOwnPrepare | src/mcp/mcp_server.cpp:1137-1171 | two different such calls go back to two different prepares |
| Authorisation.IdsNeverRepeat | src/mcp/mcp_server.cpp:1079-1092 | no operation id is issued twice |
| Authorisation.OperationFitsMethod | src/mcp/mcp_server.cpp:1161-1168 | a confirmed, unexpired operation for the device lets a call through if and only if it was prepared for that method or for no name |
| Authorisation.EmptyNameAuthorisesOtherMethod | src/mcp/mcp_server.cpp:1164-1168 | a concrete run in which an operation prepared for a method with an empty name authorises another method |
| Authorisation.StepKeepsUniqueIds | src/mcp/mcp_server.cpp:900-966 | a request keeps device ids unique if and only if it loads no configuration that repeats one, or there is no source file to load |
| Authorisation.ReloadCanRepeatIds | src/mcp/mcp_server.cpp:947-966 | a concrete reload after which two devices share an id, since nothing checks the loaded ids |
| Authorisation.StepKeepsPendingEnabled | src/mcp/mcp_server.cpp:900-1135 | every request keeps pending operations naming enabled devices and methods |
| Authorisation.RunsStayCoherent | src/mcp/mcp_server.cpp:900-1135 | over every run, whatever is loaded, every pending operation names an enabled device and, for a method call, an enabled method |
| Authorisation.IdsStayUnique | src/mcp/mcp_server.cpp:900-966 | device ids are unique throughout a run if and only if they are at its start and no reload repeats one |
| Management.OthersUntouched | src/mcp/mcp_server.cpp:900-997 | adding, removing, enabling, disabling or changing a rule of one device leaves every other device exactly as it was |
| Switches.SetExactly | src/mcp/mcp_server.cpp:928-945 | enabling or disabling succeeds if and only if the device exists; it then has the asked flag, is otherwise the same, and no operation is pending |
| Switches.SwitchedUntilSwitched | src/mcp/mcp_server.cpp:928-1277 | over every run, from a disabling on every prepare, call, read, write and snapshot of the device is refused as disabled and changes nothing, and from an enabling on none is, until a later request switches or removes it or loads another configuration |
| Switches.AddedExactly | src/mcp/mcp_server.cpp:900-910 | a device is added if and only if no device has its id, and is then found under it |
| Switches.RemovedExactly | src/mcp/mcp_server.cpp:912-926 | a device is removed if and only if that is forced or it is disabled, and every other device remains in its order |
| Switches.RuledExactly | src/mcp/mcp_server.cpp:968-997 | a rule is changed if and only if its variable exists and no threshold is malformed; each threshold is set, unset or kept as asked, and nothing else of any device changes |
| Switches.ReloadedExactly | src/mcp/mcp_server.cpp:947-966 | a configuration is replaced by the loaded one if and only if there is a source and it could be loaded |
| Management.AddThenRemove | src/mcp/mcp_server.cpp:900-926 | adding a device and removing it again restores the configuration |
| Management.RuleUpdateIsUndone | src/mcp/mcp_server.cpp:968-997 | a rule update is undone completely by one that names the old thresholds |
| ServerRuns.ServerRunIsCacheRun | src/mcp/mcp_server.cpp:900-1063 | whatever tools, refreshes and manual clears a server goes through, its cache goes through a run of the cache and keeps to the configured devices |
| ServerRuns.ActiveAlarmsAreCurrent | src/mcp/mcp_server.cpp:900-1063 | in every state of the server an active alarm of a cached numeric variable names the class that the diagnosis gives the cached value under the configured thresholds |
| McpServer.Server.constructor | src/mcp/mcp_server.cpp:657-665 | a server starts coherent, with no pending operation |
| McpServer.Server.ResetRuntimeAfterConfigChange | src/mcp/mcp_server.cpp:1467-1472 | empties the pending table and the cache and rebuilds records and connectors for exactly the configured ids |
| McpServer.Server.ChangeConfiguration | src/mcp/mcp_server.cpp:905-908 | a configuration change keeps the server coherent and drops every pending operation |
| McpServer.Server.CheckPrepare | src/mcp/mcp_server.cpp:1065-1077 | the refusals of a prepare, in order |
| McpServer.Server.PrepareDeviceAction | src/mcp/mcp_server.cpp:1065-1105 | a prepare files one unconfirmed operation with a 60 s lifetime under a fresh id, or refuses; the server stays coherent |
| McpServer.Server.ConfirmDeviceAction | src/mcp/mcp_server.cpp:1107-1124 | a confirm approves, expires or refuses exactly one operation |
| McpServer.Server.CancelDeviceAction | src/mcp/mcp_server.cpp:1126-1135 | a cancel drops exactly one operation |
| McpServer.Server.ValidateArguments | src/mcp/mcp_server.cpp:616-630 | arguments pass if and only if they are an array of the configured length and every one fits its type |
| McpServer.Server.CheckCall | src/mcp/mcp_server.cpp:1137-1150 | the refusals of a method call before its operation is looked at, in order |
| McpServer.Server.Authorise | src/mcp/mcp_server.cpp:1152-1171 | the operation check and its order; success and expiry consume the operation |
| McpServer.Server.AdmitCall | src/mcp/mcp_server.cpp:1137-1171 | all checks of a method call together are one step of the operation state machine |
| McpServer.Server.CallDeviceMethod | src/mcp/mcp_server.cpp:1137-1180 | a method call is one step of that machine; when it gets through it is one request of the connection manager, never answered by a missing connector |
| McpServer.Server.AddDevice | src/mcp/mcp_server.cpp:900-910 | adding refuses a known id, else appends the device and resets the runtime; the server stays coherent |
| McpServer.Server.RemoveDevice | src/mcp/mcp_server.cpp:912-926 | removing refuses unknown ids and, unless forced, enabled devices, else drops exactly that device; the server stays coherent |
| McpServer.Server.SetDeviceEnabled | src/mcp/mcp_server.cpp:928-945 | enabling or disabling changes exactly that flag and resets the runtime; the server stays coherent |
| McpServer.Server.ReloadConfiguration | src/mcp/mcp_server.cpp:947-966 | a reload replaces the configuration, whatever its ids, or leaves everything as it was; the server stays coherent |
| McpServer.Server.ApplyThreshold | src/mcp/mcp_server.cpp:643-653 | an absent, null, numeric or malformed threshold argument |
| McpServer.Server.UpdateAlarmRule | src/mcp/mcp_server.cpp:968-997 | a rule update is all or nothing, keeps pending operations and connection records, and empties the cache; the server stays coherent |
| McpServer.Server.RefreshDeviceState | src/mcp/mcp_server.cpp:1023-1031 | a refresh of one device leaves it with a coherent cached state after exactly one request; the empty id refreshes every device; with the cache off nothing moves |
| McpServer.Server.ReadNode | src/mcp/mcp_server.cpp:1182-1207 | a read of a configured, enabled device that names a known variable, or a raw node where those are allowed, is one retried request, never answered by a missing connector; every other read is refused in the source's order and moves nothing |
| Operations.ReadTarget | src/mcp/mcp_server.cpp:1188-1204 | a read of a named variable reads its node; a node that belongs to no configured variable is read only where raw node ids are allowed |
| Access.ReadExactly | src/mcp/mcp_server.cpp:1182-1204 | a read reaches the connection manager if and only if the device is enabled and it names a configured variable or, without one, a node where raw nodes are allowed; what it reads and why it is refused otherwise |
| McpServer.Server.WriteNode | src/mcp/mcp_server.cpp:1209-1247 | a write that passes the switches, the device and variable checks, the writable flag and the constraints, in that order, is one connector call, never answered by a missing connector; every other write is refused and moves nothing |
| McpServer.Server.ValidateWrite | src/mcp/mcp_server.cpp:598-614 | a value may be written if and only if it equals an allowed one, where some are listed, and is a number within the limits, where there are any |
| Access.WrittenExactly | src/mcp/mcp_server.cpp:1209-1234 | a write reaches the connection manager if and only if writes are switched on, a value is given, the device is enabled and the variable is writable and takes the value |
| McpServer.Server.ReadDeviceSnapshot | src/mcp/mcp_server.cpp:1249-1277 | a snapshot of a configured, enabled device is one retried read of all its variables, answered by the breaker or by the last used batch, never by a missing connector |
| McpServer.Server.GetDeviceStatus | src/mcp/mcp_server.cpp:879-884 | a status query probes an enabled device once and answers with its record; if the id is its own the record is reachable and shows Faulted after a refusal or a failure at the threshold, Reconnecting after another failure and Connected after a success; a disabled device is only marked as such |
| McpServer.Server.GetNetworkStatus | src/mcp/mcp_server.cpp:999-1017 | a network status probes one device, or each configured device in turn from the table the one before it left, and answers with what each probe left |
| McpServer.Server.ClearCachedAlarm | src/mcp/mcp_server.cpp:1051-1063 | a manual clear forgets exactly one key of a known device |
| Config.FindDevice | src/mcp/config.cpp:309-314 | finds the first device with the id, none if and only if there is none |
| Config.FindVariable | src/mcp/config.cpp:323-330 | finds a variable with that name or node id, none if and only if there is none; a matching name wins over a matching node id |
| Config.FindMethod | src/mcp/config.cpp:341-345 | finds the method of that name if there is one |
| Sorting.Sort | src/alarm/alarm_store.cpp:103-105 | a permutation of the input in the given order; ties are left open |
| Timestamps.NumberOrder | src/alarm/alarm_store.cpp:103-105 | for digit strings of equal length string order is numeric order |
| Timestamps.StringOrderIsChronological | src/alarm/alarm_store.cpp:103-105 | for well-formed 20-character UTC timestamps string order is chronological order, both ways |
| Timestamps.InRangeIsInterval | src/alarm/alarm_store.cpp:36-40 | for well-formed timestamps the string filter selects exactly the closed time interval |
| AlarmStore.RoundTrip | src/alarm/alarm_store.cpp:232-249 | reading back a printed record gives the record with its canonical level in both level fields |
| AlarmStore.PrintIsStable | src/alarm/alarm_store.cpp:232-249 | printing a reloaded record reproduces the printed object |
| AlarmStore.LoadConserves | src/storage/storage_backend.cpp:25-42 | loaded records plus invalid count equal the non-blank stored lines |
| AlarmStore.AppendAddsOne | src/alarm/alarm_store.cpp:109-122 | a successful append adds exactly the normalised record, or exactly one invalid line when the device id is empty or the timestamp misshapen |
| Queries.LineLoads | src/alarm/alarm_store.cpp:74-99 | exactly the lines that are objects with a text device id and a well-shaped text timestamp are loaded, with their own texts and numbers, and every other line that is not blank is invalid |
| Queries.FilledIn | src/alarm/alarm_store.cpp:111-118 | an append fills in what is missing, keeps what is given and leaves everything else as it is |
| Queries.AckTells | src/alarm/alarm_store.cpp:124-141 | an acknowledgement records the alarm, the device, the time and its message, or who acknowledged where there is none |
| AlarmStore.AlarmStore.constructor | src/alarm/alarm_store.cpp:60-66 | a store begins with the lines its file already holds, and with none where it has no path |
| AlarmStore.AlarmStore.NormaliseRecord | src/alarm/alarm_store.cpp:111-118 | the field-by-field normalisation equals the specified record |
| AlarmStore.AlarmStore.Append | src/alarm/alarm_store.cpp:109-122 | an append writes one line when it has a path and the backend accepts it, and the loaded records grow by that record |
| AlarmStore.AlarmStore.Acknowledge | src/alarm/alarm_store.cpp:124-141 | an acknowledgement appends exactly its own record and changes no alarm before it |
| AlarmStore.AlarmStore.LoadAll | src/alarm/alarm_store.cpp:68-107 | loading returns the kept records in timestamp order and the exact invalid count, together all non-blank lines |
| AlarmStore.Scan | src/alarm/alarm_store.cpp:147-155 | the backward scan of sorted records returns the newest matches |
| AlarmStore.AlarmStore.Query | src/alarm/alarm_store.cpp:143-157 | a query returns, newest first, min(limit, matches) of the matching records, and no omitted match is newer than a returned one |
| Queries.MatchesExactly | src/alarm/alarm_store.cpp:147-152 | a record passes the filters if and only if it has the asked device id and, without case, the asked level or else severity, lies in the time bounds, and holds the keyword without case in its message, code or node |
| Queries.QueryAnswers | src/alarm/alarm_store.cpp:143-157 | every returned record is stored and meets those conditions, latest first; one that meets them is left out only when the limit is used up by records no older than it |
| Queries.Ask | src/alarm/alarm_store.cpp:143-157 | the same of a query run on a store |
| AlarmStore.LimitExceededExactly | src/alarm/alarm_store.cpp:143-157 | a query returns more records than its limit if and only if the limit is 0 and some record matches |
| AlarmStore.LimitZeroReturnsOne | src/alarm/alarm_store.cpp:143-157 | a query without filters and with limit 0 on a store with one record returns that record |
| AlarmStore.QueryIsChronological | src/alarm/alarm_store.cpp:143-157 | with well-formed record times and bounds that are open or well formed, a query returns only records of the closed interval, latest first, and omits one only when later ones use up the limit |
| AlarmStore.Tally | src/alarm/alarm_store.cpp:182-187 | counting lists every key once with its number of occurrences |
| AlarmStore.TallySums | src/alarm/alarm_store.cpp:182-187 | the counts of a tally add up to the number of records |
| AlarmStore.Timeline | src/alarm/alarm_store.cpp:206-215 | the timeline is the reversed result |
| AlarmStore.TimelineAscends | src/alarm/alarm_store.cpp:206-215 | the timeline of a newest-first result is in timestamp order |
| AlarmStore.AlarmStore.Analyze | src/alarm/alarm_store.cpp:178-230 | counts by code and level each sum to the total, the code list is the tally ordered by count and code, the timeline is the reversed query result, latest and first alarm are its extremes |
| Queries.AnalysisTells | src/alarm/alarm_store.cpp:178-226 | the analysis counts for each level and each code that occurs how many of its records have it, ranks codes by falling count and then by name, and lists each record's time, code and level from the oldest on |
| Pipeline.MergedStoreHoldsLog | src/alarm/alarm_store.cpp:68-101 | before sorting, a store whose lines merge those of the log with any others, in any order of arrival, holds each alarm as often as it was raised, messages included, and what the other lines hold; it counts as invalid what the other lines count |
| Pipeline.WriteAll | src/alarm/alarm_store.cpp:109-141 | the cache's appends and acknowledgements between them, made one after the other on a store with any lines, leave exactly the old lines and theirs |
| Pipeline.WrittenMerges | src/alarm/alarm_store.cpp:109-141 | such a file merges the lines of the alarms, in log order, with the old lines and the acknowledgements |
| Pipeline.LoadReadsBack | src/alarm/alarm_store.cpp:68-107 | a sorted load of the log's records and others holds every alarm as often as it was raised, in log order where clocks strictly increase, and is the others followed by the log where they ascend in that order |
| Pipeline.StoreAndLoad | src/alarm/alarm_store.cpp:60-141 | on a file with any earlier lines, appending alarms and acknowledgements and loading it returns every alarm as often as it was raised and unchanged, message included, beside every other record, by timestamp, with nothing invalid but what was there or has no device |
| Pipeline.StoreAndQuery | src/alarm/alarm_store.cpp:60-157 | a query on such a file returns the newest matching ones of the logged alarms and the other records; a keyword is searched in their messages, codes and nodes |
| Pipeline.KeywordFindsMessage | src/alarm/alarm_store.cpp:49-52 | a keyword in any mixture of cases finds every record whose message holds it and that passes the other filters |
| Pipeline.KeywordFindsVariable | src/device/device_state_cache.cpp:37-41 | a query for the name of a variable finds every stored threshold alarm of that variable that passes the other filters |
| Pipeline.RunIsReadBack | src/device/device_state_cache.cpp:171-282 | whatever the cache goes through and whatever other lines the file holds before, after and between its alarms, a load returns each alarm as often as it was raised and unchanged, by timestamp, and a query the newest matching records |

## Left out

- AlarmEdges.LogIsEdges: the log is that of sequential refreshes; with two refreshes at once the append happens after the lock is released, so the order of log lines is not modelled.
- CacheWorker.WorkerMutatorExclusion: covers the cache worker only; HTTP threads that read the configuration take no part in the protocol.
- StateCache.DeviceStateCache.CheckVariable: how a stream prints the two numbers of a threshold message is an input; the rest of every alarm's message is modelled.
- Texts of method and write results, which no later decision reads.
- Separate methods for write, method call and health probe: their sections are the same, so they share one method, as the three checks that open every request and the retry loop of the two reads do.
- StateCache.RefreshIsCoherent: covers a refresh that no other request interleaves; InterleavedExactly gives the exact condition for all others.
- CacheRuns.CacheAgreesWithRules: runs of the cache are sequential, because the alarm passes of two refreshes at once can interleave.
- StateCache.DeviceStateCache.CacheState: leaves out the temperature, current, voltage and running fields, names, units and timestamps of the cached state.
- StateCache.DeviceStateCache.AppendAlarmIfChanged: records the call of the store's append instead of making it; Pipeline makes the recorded calls.
- The order in which the library sort leaves equal timestamps.
- DeviceState.FieldsFollowHistory: failure and reconnect counters are unbounded; the 32-bit counters of the code would wrap after 2^31 failures in a row.
- OperationIds.OperationIdInjective: the operation counter is unbounded, so its wrap-around is not modelled.
- The largest retry count: the code adds one to it in 32 bits, the model without bound.
- The circuit breaker is a value inside the device record, as the record holds it by value; a class for it would add only a second name.
- Connector and OPC UA client: replaced by arbitrary replies; reconnection inside one connector call is not modelled.
- SQLite backend, file I/O and its errors other than a refused append; audit log, structured log, metrics, HTTP server.
- JSON-RPC envelope, tool permissions, tool schemas, help texts.
- McpServer.Server.ValidateWrite: two arrays or two objects are equal when their canonical texts are.
- The acknowledge tool's argument checks and its audit entry.
- A file whose last line was cut off by a crash, so that the next append continues it.
- Parsing of configuration files: a loaded configuration is an input.
- Staleness and age of the cached state.
- Confidences, advice and the other sections of the fault diagnosis.
- The worker's poll interval: a run is any sequence of single-device refreshes.
