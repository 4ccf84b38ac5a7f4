# fibaro-hc3-influx in Dafny

A model of the importer that copies telemetry from a Fibaro Home Center 3
controller into InfluxDB. The model covers five console commands, the
HC3 HTTP client they share, and the two cursor stores.

- `log:events` pages backwards through the controller's event log, from
  the saved event id up to the newest event seen at the start of the run.
  It writes one point per device property change it has not seen before.
- `log:consumption` queries the energy aggregates of each configured device.
  The windows are consecutive, each `span` seconds long. They start at the
  device's saved timestamp and end no later than the clock reading taken at
  the start of the run.
- `log:refreshStates` makes one poll of the controller's change feed from the
  saved token. It stores the token the controller returns. It then writes
  one point per change that names a device and carries a field, all in one
  batch.
- `log:devices` is the older form of the same poll. It keeps its token in a
  plain file and writes one point per change that carries an `id` and a
  `value`.
- `log:diagnostics` flattens the controller's memory, storage and CPU figures
  into one batch of points that share one timestamp.

Modules:

| module | file | models |
|---|---|---|
| `Values` | values.dfy | PHP scalars and string-keyed arrays, `isset`, `(int)`, `(float)`, `is_numeric`, integer text |
| `Api` | api.dfy | the controller's JSON entities and the responses of one run |
| `Points` | points.dfy | InfluxDB points, the sink (one batch per `writePoints` call), `fixValue`/`getFieldValue` |
| `Reference` | reference.dfy | the device → room → section join and the `'None'` sentinel tags |
| `CursorStore` | storage.dfy | `FileStorage`, `NullStorage`, the files PHP reads and writes |
| `HCClientModel` | hcclient.dfy | `HCClient`: base URL trim, response acceptance, id indexes, the events query |
| `Runs` | runs.dfy | the result of a command run: outcome, store, batches written |
| `LogEvents` | log_events.dfy | `LogEventsCommand` |
| `LogConsumption` | log_consumption.dfy | `LogConsumptionCommand` |
| `LogRefreshStates` | log_refresh_states.dfy | `LogRefreshStatesCommand` |
| `LogDevices` | log_devices.dfy | `LogDevicesCommand` |
| `LogDiagnostics` | log_diagnostics.dfy | `LogDiagnosticsCommand` |

All commands share one structure:

- Each command's `execute` is a Dafny `method`, with loops where the PHP has
  them. It changes the cursor store and the sink (`Points.Sink`, whose
  `written` field logs every `writePoints` batch).
- It is proved to end in the state a specification function computes from
  the starting state: `EventsRun`, `ConsumptionRun`, `RefreshRun`,
  `DevicesRun`, or `DiagnosticsPoints`.
- The command's properties are lemmas about that function.

The loops in the events and consumption commands are specified step by step.
`PageStep` and `WindowStep` each describe one iteration, and the lemmas say
what the whole loop does: the pages or windows requested, the cursors
stored, and the points written.

A few choices shape the model:

- **Missing devices.** A device id that the controller does not list is
  modelled as PHP's `null`. PHP 8 gives `null` (with a warning) for a missing
  array key. The device-level tags are then null and the room and section
  tags are `'None'`. The model has no precondition that the device exists.
- **Stored text.** Cursors are stored as text, and the commands only ever
  store integers. The model reads any stored text that is not an integer as
  an error, and the run ends `Thrown`. PHP 8 throws only for a non-numeric
  text such as `"abc"`; the other kinds of text are listed under "Left out".
- **Division by zero.** This happens in the progress-bar arithmetic when
  `limit` or `span` is 0, and the run ends `Thrown`.

Behaviours of the PHP that the model keeps, some of them unexpected:

- **Events start position.** The first events page is requested with `startFrom` set to `cursor + limit` (or to `limit` without a cursor), and each later page `limit` further on.
- **Cursor before write.** The consumption, refresh-states and devices commands store their cursor before they write the points. Only the events command writes first.
- **Failed event calls.** A failing events call yields an empty page. The loop then stores that page's position and goes on.
- **Missing consumption data.** For consumption, a window without data is skipped, but its end is still stored as the cursor.
- **Reference data.** `devices()` and `rooms()` never return null, so of the reference-data loads, only a missing section list ends a run with 1. A poll without `changes` in `log:refresh-states` and missing diagnostics in `log:diagnostics` also end with 1.
- **Caught-up device.** For consumption, a device already within `span` seconds of the clock ends the whole run (`break`), not just that device.
- **Consumption timestamp.** A consumption point is stamped at the truncated midpoint of the window after the one it measures. The code advances `from` and `to` before it computes the timestamp.
- **Refresh-states tags.** Unlike the `log:devices` points, these carry `device_type` and the section tags.

## Model

| member | source | states |
|---|---|---|
| Values.TruncDiv | src/Command/LogConsumptionCommand.php:150-192 | `(int)` of an exact quotient: its magnitude is the floor of the magnitudes' quotient, and its sign is that of the quotient (truncation toward zero) |
| Values.TruncDivMonotone | src/Command/LogEventsCommand.php:261 | for a positive divisor, truncating division keeps the order of the dividends |
| Values.CastIntOfIntToString | src/Storage/FileStorage.php:16-22 | `(int)` of the decimal text of an integer gives that integer back |
| Values.IntCursorOfIntToString | src/Storage/FileStorage.php:16-22 | the decimal text of an integer is an integer-numeric string, and it reads back as that integer |
| Values.IntToStringFalsy | src/Storage/FileStorage.php:22 | the text of an integer is falsy exactly when the integer is 0 |
| Points.Coerce | src/Command/LogEventsCommand.php:222-231 | true and "true" become 1.0, false and "false" become 0.0, every other value is unchanged; the result is never boolean-like |
| Points.CoerceIdempotent | src/Command/LogRefreshStatesCommand.php:129-138 | coercing a coerced value changes nothing |
| Points.Sink.WritePoints | src/Command/LogEventsCommand.php:163 | one `writePoints` call appends exactly its batch to what has been written |
| Reference.DeviceOf | src/Command/LogEventsCommand.php:199 | the unguarded `$devices[$id]`: the device when listed, null otherwise |
| Reference.RoomOf | src/Command/LogEventsCommand.php:233-244 | a room exactly when the device exists, has a room id, and that id is listed; then it is that room |
| Reference.SectionOf | src/Command/LogEventsCommand.php:246-257 | a section exactly when the room exists, has a section id, and that id is listed |
| Reference.RoomTags | src/Command/LogEventsCommand.php:210-211 | the tags are `room_name`, `room_id` in that order; `'None'` for both without a room |
| Reference.SectionTags | src/Command/LogEventsCommand.php:212-213 | the tags are `section_name`, `section_id` in that order; `'None'` for both without a section (which `SectionOf` gives for an unset or unlisted section id) |
| Reference.LocationSentinels | src/Command/LogEventsCommand.php:210-213 | an unknown device, no room id, or an unlisted room gives `'None'` for all four location tags; otherwise `room_id` is the room's id, and the section tags are `'None'` when the room's section id is unset or unlisted and carry the section's id otherwise |
| CursorStore.FileSystem.Get | src/Command/LogDevicesCommand.php:58 | `@file_get_contents`: the file's content exactly when the file exists |
| CursorStore.FileSystem.Put | src/Command/LogDevicesCommand.php:70 | `file_put_contents`: the file holds the content unless the path is unwritable; the byte count or false |
| CursorStore.FilePathInjective | src/Storage/FileStorage.php:25-28 | different keys map to different files |
| CursorStore.FileStorage.Store | src/Storage/FileStorage.php:14-17 | the file under the key holds the value unless unwritable; true exactly when a non-empty value was written |
| CursorStore.FileStorage.Load | src/Storage/FileStorage.php:19-23 | the file's content, with a missing file, `""` and `"0"` all giving null |
| CursorStore.NullStorage.Store | src/Storage/NullStorage.php:7-10 | always succeeds and changes nothing |
| CursorStore.NullStorage.Load | src/Storage/NullStorage.php:12-15 | always null |
| CursorStore.Storage.Store | src/Storage/FileStorage.php:14-17 | whichever store the command holds moves to `StoredIn` of its state and reports `StoreSucceeds` |
| CursorStore.Storage.Load | src/Storage/FileStorage.php:19-23 | whichever store the command holds answers `LoadFrom` of its state |
| CursorStore.LoadAfterStore | src/Storage/FileStorage.php:14-23 | a stored value reads back unless it is `""` or `"0"` (absent) or the file is unwritable (unchanged); NullStorage reads back nothing |
| CursorStore.StoreKeepsOtherKeys | src/Storage/FileStorage.php:14-28 | a store leaves every other key's value as it was |
| CursorStore.StoreResultIsBytesWritten | src/Storage/FileStorage.php:14-17 | a file store reports failure exactly when nothing was written |
| CursorStore.NullStorageForgets | src/Storage/NullStorage.php:7-15 | after any store, every load gives null |
| CursorStore.CursorRoundTrip | src/Storage/FileStorage.php:14-23 | an integer cursor stored as text reads back as that integer, except 0, which reads back as absent |
| CursorStore.LoadAfterStoreInts | src/Storage/FileStorage.php:14-23 | after a series of cursor stores the key reads back as the last of them |
| CursorStore.StoreIntsKeepsOtherKeys | src/Storage/FileStorage.php:14-28 | a series of stores under one key leaves other keys alone |
| HCClientModel.TrimSlashes | src/HCClient/HCClient.php:21 | the result is a prefix of the input that does not end in `/`, and everything after it is `/` |
| HCClientModel.TrimSlashesIdempotent | src/HCClient/HCClient.php:21 | trimming a trimmed URL changes nothing |
| HCClientModel.Accept | src/HCClient/HCClient.php:28-46 | data exactly when the status is 200 and the decoded body is truthy |
| HCClientModel.EmptyListIsRejected | src/HCClient/HCClient.php:40-43 | a 200 response with an empty list counts as a failed call |
| HCClientModel.IndexByIdKeys | src/HCClient/HCClient.php:49-57 | the index holds exactly the ids of the listed items |
| HCClientModel.IndexByIdLastWins | src/HCClient/HCClient.php:53-55 | an id maps to the last item carrying it |
| HCClientModel.BuildIndex | src/HCClient/HCClient.php:51-56 | the `foreach` builds exactly `IndexById` of the list |
| HCClientModel.EventQueryAppends | src/HCClient/HCClient.php:76-90 | the query is `type` followed by the non-null arguments among `last`, `startFrom`, `from`, `to`, in that order |
| HCClientModel.EventQueryLookup | src/HCClient/HCClient.php:76-90 | `type` maps to the type; each optional key is present exactly when its argument is not null, with its value; no other key is present |
| HCClientModel.AppendedQueryShape | src/HCClient/HCClient.php:76-90 | the query's keys are those of its entries in order, and no key appears twice |
| HCClientModel.EventQueryShape | src/HCClient/HCClient.php:76-90 | the query starts with `type`, has unique keys, and keeps them in the order they are added |
| HCClientModel.HCClient.constructor | src/HCClient/HCClient.php:19-26 | the base URL is stored trimmed; credentials and the SSL flag are stored as given |
| HCClientModel.HCClient.Devices | src/HCClient/HCClient.php:49-57 | never null: the id index of the listed devices, empty when the call fails |
| HCClientModel.HCClient.Rooms | src/HCClient/HCClient.php:59-67 | never null: the id index of the listed rooms, empty when the call fails |
| HCClientModel.HCClient.RefreshStates | src/HCClient/HCClient.php:69-72 | the poll exactly as `call` accepts it |
| HCClientModel.HCClient.PanelsEvent | src/HCClient/HCClient.php:74-94 | the accepted events for the query, and an empty list when the call gives null |
| LogEvents.Change | src/Command/LogEventsCommand.php:189-197 | a change exactly for a `DevicePropertyUpdatedEvent` inside a `DEVICE_EVENT` or a `DEVICE_PROPERTY_CHANGED`, taking the property and value from the right place |
| LogEvents.CreatePoint | src/Command/LogEventsCommand.php:187-220 | a point exactly for a recognised event: `panels.event.<type>`, the seven tags in order, one field holding the coerced value, the event's timestamp |
| LogEvents.CreatePointSentinels | src/Command/LogEventsCommand.php:199-213 | an unknown device or an unset or dangling room link gives `'None'` for all location tags; the field value is never boolean-like |
| LogEvents.ProgressSteps | src/Command/LogEventsCommand.php:259-264 | at least 1, at most `maxCalls` when that is positive; the page count itself when it lies between the two, `max(1, maxCalls)` above `maxCalls`, and 1 below 1 |
| LogEvents.ProgressStepsMonotone | src/Command/LogEventsCommand.php:259-264 | for a positive limit, more events between the cursor and the newest event never give a shorter bar |
| LogEvents.PointOf | src/Command/LogEventsCommand.php:143-159 | at most one point per event, exactly when the event is past the cursor and recognised, and then it is `CreatePoint`'s |
| LogEvents.BatchPointsAtMost | src/Command/LogEventsCommand.php:142-160 | a page yields no more points than it has events |
| LogEvents.BatchPointsSources | src/Command/LogEventsCommand.php:143-160 | every point of a page is `CreatePoint` of an event of the page that is past the cursor |
| LogEvents.SeenPageYieldsNothing | src/Command/LogEventsCommand.php:151-154 | a page whose events are all at or below the cursor yields no point |
| LogEvents.Reverse | src/Command/LogEventsCommand.php:141 | `array_reverse`: same length, element i is element n-1-i |
| LogEvents.ReverseKeeps | src/Command/LogEventsCommand.php:141-149 | reversing a page keeps the set of its ids |
| LogEvents.PageEvents | src/Command/LogEventsCommand.php:140-172 | a non-empty page leaves the position, the budget, the counts loaded and the requests as they were, and only appends batches |
| LogEvents.PageStep | src/Command/LogEventsCommand.php:127-172 | one iteration spends one call, moves `startFrom` on by `limit`, counts the page's events; an empty page writes nothing and keeps the stop flag |
| LogEvents.PagerLoopTraced | src/Command/LogEventsCommand.php:127-173 | the loop keeps its invariant and ends with the budget spent or the newest event reached |
| LogEvents.BatchOf | src/Command/LogEventsCommand.php:141-160 | the `foreach` computes the page's points, whether it saw the newest event, and the last id visited |
| LogEvents.ImportEvents | src/Command/LogEventsCommand.php:140-172 | a non-empty page ends in `PageStep`'s state: cursor stored, points written, counts updated |
| LogEvents.SkipPage | src/Command/LogEventsCommand.php:133-138 | an empty page stores its own position and ends in `PageStep`'s state |
| LogEvents.ImportPage | src/Command/LogEventsCommand.php:128-172 | one iteration of the `while` loop ends in `PageStep`'s state and keeps the PHP locals in step |
| LogEvents.ImportLoop | src/Command/LogEventsCommand.php:127-173 | the `while` loop ends in `LoopEnd`'s state: store and sink included |
| LogEvents.Execute | src/Command/LogEventsCommand.php:56-185 | the outcome, the store and the batches written are those of `EventsRun` |
| LogEvents.ExecuteFrom | src/Command/LogEventsCommand.php:107-185 | from the cursor load on, the run ends as `EventsRun` says |
| LogEvents.EventsRunEarlyExits | src/Command/LogEventsCommand.php:88-105 | exit 1 exactly without sections; exit 0 when the sections are listed and the probe finds no event; an exception exactly for an unreadable cursor or a zero limit after a non-empty probe; no other outcome; no store and no write before the loop |
| LogEvents.LoopEndTraced | src/Command/LogEventsCommand.php:127-173 | the final state is reached from the initial one, with the budget spent or the newest event seen |
| LogEvents.LoopPages | src/Command/LogEventsCommand.php:116-131 | pages start at `cursor + limit` and are `limit` apart; at most `maxCalls` of them; fewer only when the last page holds the newest event, and no earlier page holds it |
| LogEvents.LoopStores | src/Command/LogEventsCommand.php:132-172 | one cursor stored per page, which is the page's position when empty and else the first id listed; the store ends holding them in turn; the batches are those of the pages that yield points; the totals match |
| LogEvents.PageSources | src/Command/LogEventsCommand.php:141-160 | each point of a reversed page comes from one of its events past the cursor |
| LogEvents.PageBatchesNonEmpty | src/Command/LogEventsCommand.php:162-164 | no batch is empty: `writePoints` is called only for a page that yields points |
| LogEvents.PageBatchesSources | src/Command/LogEventsCommand.php:143-164 | each point of every batch written comes from an event of a requested page that is past the cursor |
| LogEvents.AllSourced | src/Command/LogEventsCommand.php:162-164 | the same, for all batches and points at once |
| LogEvents.LoopPoints | src/Command/LogEventsCommand.php:143-164 | every point a run writes is an event's point from a requested page, past the cursor loaded at the start; no batch is empty |
| LogEvents.TracedCursors | src/Command/LogEventsCommand.php:134-171 | when pages hold ids in `(startFrom - limit, startFrom]`, the stored cursors increase strictly and all are past the loaded cursor |
| LogEvents.LoopCursorAdvances | src/Command/LogEventsCommand.php:116-172 | under the same page property, cursors increase strictly from past the loaded one, and the next run loads the last of them |
| LogConsumption.CursorKeyInjective | src/Command/LogConsumptionCommand.php:110 | different device ids have different cursor keys |
| LogConsumption.ConsumptionPoint | src/Command/LogConsumptionCommand.php:168-194 | a `consumption` point with no main value, the given timestamp, six tags starting with `device_id`, and five fields |
| LogConsumption.ConsumptionPointShape | src/Command/LogConsumptionCommand.php:168-194 | the tag keys and the field keys in order, the device name (null for an unknown device), the location tags, and each field holding the aggregate it is named after |
| LogConsumption.ProgressSteps | src/Command/LogConsumptionCommand.php:222-226 | at most `maxCalls`; exactly the seconds left divided by the span when that quotient is at most `maxCalls`, and otherwise `maxCalls` |
| LogConsumption.WindowStep | src/Command/LogConsumptionCommand.php:132-154 | one iteration spends one call, logs the window queried and its end as the cursor, and moves to the next window |
| LogConsumption.WindowLoopTraced | src/Command/LogConsumptionCommand.php:132-154 | the loop keeps its invariant and ends with the budget spent or the clock reached |
| LogConsumption.DeviceEndTraced | src/Command/LogConsumptionCommand.php:132-154 | a device's final loop state is reached from its first window |
| LogConsumption.DeviceWindows | src/Command/LogConsumptionCommand.php:117-154 | the windows are `[from0 + k*span, from0 + k*span + span - 1]`, each ending by the clock reading, at most `maxCalls` of them, fewer only when the next would end after the clock |
| LogConsumption.DeviceWindowsContiguous | src/Command/LogConsumptionCommand.php:137-138 | each window starts the second after the previous one ends |
| LogConsumption.DeviceStores | src/Command/LogConsumptionCommand.php:134-152 | the end of every window queried is stored, with or without data; the batches are those of its windows |
| LogConsumption.WindowBatchTimestamp | src/Command/LogConsumptionCommand.php:144-152 | a window writes at most one point, stamped inside the window after it and tagged with the data's device |
| LogConsumption.WindowBatchesSources | src/Command/LogConsumptionCommand.php:144-152 | every batch of the queried windows is one point of one of them |
| LogConsumption.WindowBatchesCover | src/Command/LogConsumptionCommand.php:144-152 | every queried window with data has its point among the batches |
| LogConsumption.DevicePoints | src/Command/LogConsumptionCommand.php:132-154 | every batch a device writes is a single point from one of its queried windows, and every queried window with data has its point written |
| LogConsumption.ImportWindow | src/Command/LogConsumptionCommand.php:133-153 | one iteration ends in `WindowStep`'s state: store, sink and PHP locals |
| LogConsumption.ImportWindows | src/Command/LogConsumptionCommand.php:132-154 | a device's `while` loop ends in `WindowLoop`'s state |
| LogConsumption.ImportDevice | src/Command/LogConsumptionCommand.php:107-157 | one device's turn ends as `DeviceStep` says |
| LogConsumption.DevicesLoopAt | src/Command/LogConsumptionCommand.php:106-158 | the `foreach` from device i is that device's turn and then the rest, unless the turn stops the run |
| LogConsumption.Execute | src/Command/LogConsumptionCommand.php:60-166 | the outcome, the store and the batches written are those of `ConsumptionRun` |
| LogConsumption.ImportTurn | src/Command/LogConsumptionCommand.php:106-158 | one pass of the `foreach` leaves the rest of the loop computing the same result |
| LogConsumption.ImportDevices | src/Command/LogConsumptionCommand.php:106-158 | the `foreach` ends in `DevicesLoop`'s state |
| LogConsumption.CaughtUpEndsRun | src/Command/LogConsumptionCommand.php:117-122 | a device whose first window would end after the clock ends the run with 0, whatever devices follow |
| LogConsumption.DevicesLoopFrame | src/Command/LogConsumptionCommand.php:106-158 | a run leaves the cursors of other keys unchanged and only appends to what was written |
| LogConsumption.LastStoreBeforeNext | src/Command/LogConsumptionCommand.php:111-138 | in a traced state the last stored cursor reads back as the second before the next window |
| LogConsumption.NextRunResumes | src/Command/LogConsumptionCommand.php:111-138 | the next run's first window for a device starts where this run stopped, unless the last end is 0 |
| LogConsumption.DevicesLoopOutcome | src/Command/LogConsumptionCommand.php:106-165 | the devices' loop ends with 0 or an exception, never with 1 |
| LogConsumption.ConsumptionRunExit1 | src/Command/LogConsumptionCommand.php:95-99 | exit 1 exactly when the sections cannot be listed, with nothing stored or written |
| LogRefreshStates.Kept | src/Command/LogRefreshStatesCommand.php:176-182 | the non-bookkeeping entries, coerced: never longer than the change, no bookkeeping key, no boolean-like value |
| LogRefreshStates.FieldsOfIsKept | src/Command/LogRefreshStatesCommand.php:176-182 | for a change with unique keys, the fields are exactly its non-bookkeeping entries in order, each coerced |
| LogRefreshStates.FieldsOfEmpty | src/Command/LogRefreshStatesCommand.php:176-186 | no field exactly when every key of the change is bookkeeping |
| LogRefreshStates.BuildFields | src/Command/LogRefreshStatesCommand.php:176-182 | the `foreach` computes `FieldsOf` |
| LogRefreshStates.DeviceTags | src/Command/LogRefreshStatesCommand.php:192-194 | the keys `device_id`, `device_name`, `device_type` in that order |
| LogRefreshStates.ChangePoint | src/Command/LogRefreshStatesCommand.php:166-203 | a point exactly when the change has an `id` and a field; then its fields, the poll's timestamp and no main value |
| LogRefreshStates.PointTagsKeys | src/Command/LogRefreshStatesCommand.php:191-199 | the seven tag keys in order, whatever the device |
| LogRefreshStates.ChangePointShape | src/Command/LogRefreshStatesCommand.php:188-202 | measurement `refreshStates.<type>`, the device tags then the location tags, the seven keys |
| LogRefreshStates.CreateInfluxPoint | src/Command/LogRefreshStatesCommand.php:166-203 | the method with its field loop computes `ChangePoint` |
| LogRefreshStates.ChangesPointsBound | src/Command/LogRefreshStatesCommand.php:108-114 | no more points than changes, each one change's point, all stamped with the poll's timestamp |
| LogRefreshStates.CollectPoints | src/Command/LogRefreshStatesCommand.php:108-114 | the `foreach` collects exactly `ChangesPoints` |
| LogRefreshStates.Execute | src/Command/LogRefreshStatesCommand.php:51-127 | the outcome, the store and the batches written are those of `RefreshRun` |
| LogRefreshStates.RefreshRunEffects | src/Command/LogRefreshStatesCommand.php:77-118 | exit 1 exactly without sections or `changes`, then nothing stored or written; otherwise `last` stored when set and at most one non-empty batch of at most one point per change, one timestamp |
| LogRefreshStates.TokenRoundTrip | src/Command/LogRefreshStatesCommand.php:85-106 | with nothing stored the token is "1"; after storing a non-zero `last` the next run polls from it |
| LogDevices.FieldValue | src/Command/LogDevicesCommand.php:88-100 | "true" becomes 1, "false" 0, numbers and numeric strings pass; null exactly for everything else, booleans included; a non-null result is numeric |
| LogDevices.Kept | src/Command/LogDevicesCommand.php:117-128 | the retained entries: never longer than the change, no bookkeeping key, every value numeric |
| LogDevices.FieldsOfIsKept | src/Command/LogDevicesCommand.php:117-128 | for a change with unique keys, the fields are exactly its non-bookkeeping entries with a numeric coerced value, in order |
| LogDevices.BuildFields | src/Command/LogDevicesCommand.php:117-128 | the `foreach` computes `FieldsOf` |
| LogDevices.SensorTagsKeys | src/Command/LogDevicesCommand.php:134-139 | the tags are `sensor_id` (the change's id), `sensor_name`, `room_name`, `room_id`; `'None'` for the room's without a room |
| LogDevices.ChangePoint | src/Command/LogDevicesCommand.php:130-142 | the point's value is the float of the coerced `value`, its fields `FieldsOf` the change, its timestamp the poll's |
| LogDevices.ChangePointShape | src/Command/LogDevicesCommand.php:130-140 | measured under the device's type; the tags are `SensorTags` of the change: `sensor_id` (the change's id), `sensor_name` (the device's name), `room_name`, `room_id`, with `'None'` for the room's without a room, and no section tags |
| LogDevices.SaveToInflux | src/Command/LogDevicesCommand.php:115-144 | one `writePoints` call holding just the change's point |
| LogDevices.ChangesBatchesSources | src/Command/LogDevicesCommand.php:73-83 | every batch is one saved change's single point with the poll's timestamp; no more batches than changes |
| LogDevices.ChangesBatchesCover | src/Command/LogDevicesCommand.php:73-83 | every change with an `id` and a `value` is written as its own batch |
| LogDevices.SaveChange | src/Command/LogDevicesCommand.php:74-82 | one turn of the `foreach` writes the change's batch exactly when it has an `id` and a `value` |
| LogDevices.SaveChanges | src/Command/LogDevicesCommand.php:73-83 | the `foreach` writes exactly `ChangesBatches` |
| LogDevices.Execute | src/Command/LogDevicesCommand.php:50-86 | the outcome, the files and the batches written are those of `DevicesRun` |
| LogDevices.DevicesRunEffects | src/Command/LogDevicesCommand.php:58-85 | an exception exactly without `changes`, then the file unchanged and nothing written; otherwise exit 0 with `last` in the file when set; single-point batches |
| LogDevices.LastRoundTrip | src/Command/LogDevicesCommand.php:58-71 | no file gives token 1; after writing `last` the next token is `last`, or 1 when `last` is 0 |
| LogDiagnostics.MemoryPoint | src/Command/LogDiagnosticsCommand.php:77-88 | `system.memory`, no tags, fields `free`, `cache`, `buffers`, `used` |
| LogDiagnostics.StoragePoint | src/Command/LogDiagnosticsCommand.php:94-105 | `system.storage`, tags `type` and `name`, field `used` |
| LogDiagnostics.CpuPoint | src/Command/LogDiagnosticsCommand.php:113-126 | `system.cpuLoad`, tags `name` and `user`, fields `nice`, `system`, `idle` |
| LogDiagnostics.EntryPoints | src/Command/LogDiagnosticsCommand.php:92-107 | one storage point per entry, in order |
| LogDiagnostics.StoragePoints | src/Command/LogDiagnosticsCommand.php:91-108 | as many points as storage entries over all types |
| LogDiagnostics.CpuPoints | src/Command/LogDiagnosticsCommand.php:111-128 | one CPU point per CPU, in order |
| LogDiagnostics.OffsetBound | src/Command/LogDiagnosticsCommand.php:91-108 | each storage type's points lie inside the storage block |
| LogDiagnostics.StoragePointAt | src/Command/LogDiagnosticsCommand.php:91-108 | entry k of type t is the storage point at `Offset(t) + k` |
| LogDiagnostics.DiagnosticsLayout | src/Command/LogDiagnosticsCommand.php:74-130 | `1 + Σ entries + CPUs` points: memory first, then storage type by type and entry by entry, then the CPUs; one timestamp for all |
| LogDiagnostics.StoragePointsTimestamp | src/Command/LogDiagnosticsCommand.php:104 | every storage point carries the run's timestamp |
| LogDiagnostics.MergeEntries | src/Command/LogDiagnosticsCommand.php:92-107 | the inner `foreach` appends exactly one type's points |
| LogDiagnostics.MergeCpus | src/Command/LogDiagnosticsCommand.php:111-128 | the CPU `foreach` appends exactly the CPU points |
| LogDiagnostics.CreateInfluxPoints | src/Command/LogDiagnosticsCommand.php:74-131 | the nested loops build exactly `DiagnosticsPoints` |
| LogDiagnostics.Execute | src/Command/LogDiagnosticsCommand.php:56-71 | without diagnostics: exit 1 and nothing written; otherwise exit 0 and exactly one batch, `DiagnosticsPoints` at the given time |

## Left out

- HTTP (Guzzle) and `json_decode`: the controller's answers for one run are a `Controller` value, fixed during the run. A response body is already decoded into the modelled entities, and a malformed body is not modelled.
- `sections()`, `consumptionEnergyCompare()` and `diagnostics()` are not part of HCClient.php. Their results enter the model as optional controller answers.
- The InfluxDB client library is not part of this model. A `Point` is taken as always constructed, and `writePoints` always succeeds. A failing write, and the precision argument, are not modelled.
- Console output, progress bars, `microtime` durations and the printed totals: they are presentation only. The consumption command's `totalPoints` counter is not modelled. `DevicePoints` gives one point per batch, so the count equals the number of batches.
- `time()` is the `now` parameter of `log:consumption` and `log:diagnostics`.
- 64-bit integer overflow and floating-point arithmetic: integers are unbounded. `(float)` of a numeric string is the uninterpreted `FloatOfString`.
- Values.IntCast: reads a string as `CastInt` does (leading decimal digits), so an exponent such as `"1e3"` is not applied.
- Reference.ChangeDevice: only an integer `id` finds a device. PHP's conversion of numeric-string, float or boolean array keys to integers is not modelled.
- The `=== null` checks on `devices()` and `rooms()` in the commands are dead code, because those methods always return an array. The model has no such branch.
- LogEvents.LoopCursorAdvances and LogEvents.TracedCursors: the ordering of stored cursors holds only when the controller answers each page with ids in `(startFrom - limit, startFrom]` (`PagesBelow`). That is a hypothesis about the controller, not something the code checks.
- The progress bar itself is left out. Only its maximum is modelled (`ProgressSteps`), because dividing by a zero `limit` or `span` there ends the run with an exception. In the consumption command the `(int)` cast applies before the division, so the maximum is a fraction.
- CursorStore.ParseCursor: every stored text that is not an integer reads as `Unreadable`, and the run ends `Thrown`. PHP 8 throws only for a non-numeric text such as `"abc"`. A leading-numeric text such as `"12abc"` gives a warning and computes from its leading integer, both in `$lastEventId - $lastSavedEventId` and `$lastSavedEventId + $limit` and in `$lastUsedTimestamp + 1`. A float text such as `"1.5"` or `"1e3"` computes as a float. The commands never store such texts themselves, so they arise only from an edited storage file. PHP 7's silent conversion is not modelled either.
- LogRefreshStates.Execute, LogDevices.Execute, LogConsumption.ImportWindow and LogEvents.ImportEvents: the order of effects is in no contract. The first three store the poll token or the window's end before the `writePoints` call, and `ImportEvents` writes a page's points before it stores the page's cursor, as the source does. Their ensures state only the final store and the batches written. The order matters only when `writePoints` fails, which is not modelled.
- LogWeatherCommand and config/config.php: the weather command is one fixed mapping, and the configuration is static. The configured device ids are the `ids` parameter of `log:consumption`.
- Concurrency between runs and crashes between a write and a cursor store: the model is one sequential run.

