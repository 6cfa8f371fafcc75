# Battery logger: the logging-session controller

A Dafny model of `BatteryLoggingService`, the Android service of the battery
logger app. On `START_LOGGING` it takes a partial wake lock, creates a CSV log
file named `battery_log_<yyyyMMdd_HHmmss>.csv` with a header row, and posts a
runnable that samples voltage, current and temperature every 10 seconds,
appending and flushing one row per tick. On `STOP_LOGGING` it cancels the
runnable, releases the wake lock and copies the log file into shared storage
under `Documents/BatteryLogger` as `text/csv`. `onDestroy` closes the writer.

Files:

- `wrappers.dfy`: `Option`, standing for Kotlin's nullable references.
- `telemetry.dfy`: the raw platform integers (`int32`), the battery intent with its two
  extras, and the three conversions. Current is micro-amps to milli-amps, with the
  `Int.MIN_VALUE` sentinel read as 0.0. Voltage is milli-volts to volts. Temperature is
  tenths of a degree to degrees.
- `csv.dfy`: the header, joining a row with commas, `Fields` (how a CSV reader splits a
  line), the file's bytes (`Text`), and the file name built from the start stamp.
- `session.dfy`: the service's state as a value (`ServiceState`), one function per routine
  of the service, the invariant `Valid`, and `Step`/`Run` over events (commands, timer
  ticks, the wake-lock timeout, destruction).
- `session_properties.dfy`: lemmas about those functions, alone and over any sequence of
  events.
- `service.dfy`: the class `BatteryLoggingService`. Its fields are the service's fields and
  the log file's lines. Every method is proved to leave the state that the matching
  `Session` function gives (`ensures State() == Session.X(old(State()))`), and the
  top-level methods keep `Valid()`.

The source's collaborators are inputs. The start stamp, the row timestamp, the raw
`BatteryManager` current and the battery intent are method parameters. So is
`onDisk`: the lines already stored under the new file name. The `FileWriter` is
opened in append mode, so these come before the header; the list is empty unless a
file with the same local start stamp is already stored (an earlier start in the same
local second, including one before the clock was set back). `writeOk` says whether the append and
flush succeed, and `destinationAvailable` whether shared storage gives both an entry
(`resolver.insert` returns a URI) and an output stream for it. `render` is Kotlin's `Double` to `String` conversion. The conversions
themselves are exact `real` divisions.

The model follows the code as written:

- STOP has no `isLogging` guard. On an idle service every step is a no-op except the
  export. That step copies the file again if one was created earlier in the service's
  life.
- STOP neither closes the writer nor clears `csvFile`. The writer is closed only in
  `onDestroy`. A START that comes after a STOP on the same service instance reuses the
  same file and writer. `createCsvFile` silently keeps the existing file.
- The log file is opened in append mode. When a file of the same name is already stored
  (an earlier start in the same local second, including one before the clock was set
  back), the new header follows the old lines, so the header appears twice. `SessionProperties.SameStampRestartRepeatsHeader`
  shows this. When nothing is stored under the name, the header appears once, as the
  first line, and every later line is a tick's row (`SessionProperties.HeaderOnceInNewFile`).
- The export runs while the writer is still open. Every append is flushed, so the copy
  equals the file's current lines.

## Model

| member | source | states |
|---|---|---|
| Telemetry.IntExtra | app/src/main/java/com/example/batteryloggerapp/BatteryLoggingService.kt:157-163 | a present extra gives its value; a missing one gives the default |
| Telemetry.CurrentMilliAmps | app/src/main/java/com/example/batteryloggerapp/BatteryLoggingService.kt:152-153 | the sentinel gives 0.0; any other raw value r gives a result that times 1000 is r; the result is 0.0 exactly for raw 0 or the sentinel; it lies within ±2147483.647 |
| Telemetry.VoltageVolts | app/src/main/java/com/example/batteryloggerapp/BatteryLoggingService.kt:155-159 | 0.0 without an intent; otherwise 1000 times the result is the voltage extra (0 when missing); bounded by the int32 range / 1000 |
| Telemetry.TemperatureCelsius | app/src/main/java/com/example/batteryloggerapp/BatteryLoggingService.kt:161-163 | 0.0 without an intent; otherwise 10 times the result is the temperature extra (0 when missing); bounded by the int32 range / 10 |
| Telemetry.ReadSample | app/src/main/java/com/example/batteryloggerapp/BatteryLoggingService.kt:150-163 | the sentinel current reads as 0.0; without an intent, voltage and temperature read as 0.0 |
| Telemetry.MissingExtrasReadAsAbsentIntent | app/src/main/java/com/example/batteryloggerapp/BatteryLoggingService.kt:155-163 | an intent lacking both extras reads the same as no intent |
| Csv.FieldsOfJoin | app/src/main/java/com/example/batteryloggerapp/BatteryLoggingService.kt:171-172 | a comma-joined row reads back as exactly its fields when no field holds a comma |
| Csv.HeaderIsJoinedColumns | app/src/main/java/com/example/batteryloggerapp/BatteryLoggingService.kt:215 | the header literal is the four column names joined by commas |
| Csv.HeaderColumns | app/src/main/java/com/example/batteryloggerapp/BatteryLoggingService.kt:215 | a CSV reader sees the header as the four columns timestamp, voltage_v, current_ma, temperature_c |
| Csv.TextAppend | app/src/main/java/com/example/batteryloggerapp/BatteryLoggingService.kt:171-174 | appending a line adds exactly that line and a newline to the end of the file's bytes |
| Csv.TextPrefix | app/src/main/java/com/example/batteryloggerapp/BatteryLoggingService.kt:171-174 | the bytes of a file grow only at the end as lines are appended |
| Csv.FileNameRoundTrip | app/src/main/java/com/example/batteryloggerapp/BatteryLoggingService.kt:206-211 | the generated name has the `battery_log_` prefix and `.csv` suffix and gives back its start stamp |
| Csv.LogFileNameFromStamp | app/src/main/java/com/example/batteryloggerapp/BatteryLoggingService.kt:211 | every name of that shape is the generated name of its own stamp |
| SessionProperties.InitialIsValid | app/src/main/java/com/example/batteryloggerapp/BatteryLoggingService.kt:34-38 | a new service (all fields null/false) satisfies the session invariant |
| SessionProperties.SampleRowFields | app/src/main/java/com/example/batteryloggerapp/BatteryLoggingService.kt:171-172 | a row reads back as timestamp, voltage, current, temperature, the same number of fields as the header |
| SessionProperties.SentinelCurrentIsWrittenAsZero | app/src/main/java/com/example/batteryloggerapp/BatteryLoggingService.kt:152-172 | with the unavailable-current sentinel the row's current_ma field is the printed 0.0 |
| SessionProperties.LeaseHelpers | app/src/main/java/com/example/batteryloggerapp/BatteryLoggingService.kt:100-121 | acquiring twice equals acquiring once and adds at most one lease; release always drops the lock, ends a held lease exactly once, and is idempotent |
| SessionProperties.CreateCsvFileOnce | app/src/main/java/com/example/batteryloggerapp/BatteryLoggingService.kt:203-219 | with a file set nothing changes; otherwise the file gets the stamped name, an open writer and the header after what was on disk (only the header for a new file) |
| SessionProperties.StartPreservesValid | app/src/main/java/com/example/batteryloggerapp/BatteryLoggingService.kt:74-83 | START keeps the session invariant |
| SessionProperties.StopPreservesValid | app/src/main/java/com/example/batteryloggerapp/BatteryLoggingService.kt:85-93 | STOP keeps the session invariant |
| SessionProperties.LogBatteryDataPreservesValid | app/src/main/java/com/example/batteryloggerapp/BatteryLoggingService.kt:148-184 | a tick's write keeps the session invariant |
| SessionProperties.StepPreservesValid | app/src/main/java/com/example/batteryloggerapp/BatteryLoggingService.kt:70-97 | every event the platform can deliver keeps the session invariant |
| SessionProperties.RunPreservesValid | app/src/main/java/com/example/batteryloggerapp/BatteryLoggingService.kt:70-200 | any sequence of events keeps the session invariant |
| SessionProperties.AtMostOneLease | app/src/main/java/com/example/batteryloggerapp/BatteryLoggingService.kt:100-121 | after any events from a new service, at most one lease is held and every acquired lease is held or ended once |
| SessionProperties.StartWhileLoggingIsIgnored | app/src/main/java/com/example/batteryloggerapp/BatteryLoggingService.kt:75 | START while logging changes no state |
| SessionProperties.StartTwiceIsStartOnce | app/src/main/java/com/example/batteryloggerapp/BatteryLoggingService.kt:74-83 | a second START is a no-op; START leaves logging, runnable, lock and open writer set, adds at most one lease, and keeps an existing file |
| SessionProperties.StopEndsSession | app/src/main/java/com/example/batteryloggerapp/BatteryLoggingService.kt:85-93 | after STOP nothing is pending, no lock is held, isLogging is false; file, writer and lines unchanged; no export without a file; with a file, exactly one copy of its current lines (same bytes) |
| SessionProperties.TickAppendsOneRow | app/src/main/java/com/example/batteryloggerapp/BatteryLoggingService.kt:128-136 | a tick keeps the runnable pending; with an open writer and a successful write it appends exactly one row after the unchanged earlier lines; otherwise nothing changes |
| SessionProperties.RunKeepsLogFile | app/src/main/java/com/example/batteryloggerapp/BatteryLoggingService.kt:203-204 | over any events the file is append-only, exports are kept, and a file once set is never replaced |
| SessionProperties.RunKeepsFileBytes | app/src/main/java/com/example/batteryloggerapp/BatteryLoggingService.kt:171-174 | over any events the file's bytes only grow at the end |
| Csv.TextOfPrefix | app/src/main/java/com/example/batteryloggerapp/BatteryLoggingService.kt:171-174 | a file whose lines extend another's has bytes extending the other's |
| SessionProperties.StepLinesWithFile | app/src/main/java/com/example/batteryloggerapp/BatteryLoggingService.kt:171-174 | once a file exists, any one event leaves its lines alone or appends exactly that tick's row |
| SessionProperties.LinesAfterCreationAreTickRows | app/src/main/java/com/example/batteryloggerapp/BatteryLoggingService.kt:171-174 | once a file exists, every line added afterwards is the row of one of the tick events |
| SessionProperties.HeaderOnceInNewFile | app/src/main/java/com/example/batteryloggerapp/BatteryLoggingService.kt:213-216 | after a first START with nothing stored under the name, the header is the first line and every later line is a tick's row |
| SessionProperties.SameStampRestartRepeatsHeader | app/src/main/java/com/example/batteryloggerapp/BatteryLoggingService.kt:213-215 | as written, creating the file over a stored file holding a header gives the header twice |
| SessionProperties.LoggingTicksAppendRows | app/src/main/java/com/example/batteryloggerapp/BatteryLoggingService.kt:128-136 | while logging, ticks whose writes succeed append exactly their rows, in tick order, after the unchanged earlier lines, and logging continues |
| SessionProperties.HeaderStaysFirst | app/src/main/java/com/example/batteryloggerapp/BatteryLoggingService.kt:213-216 | a header written as the first line stays the first line |
| SessionProperties.StopWithoutStart | app/src/main/java/com/example/batteryloggerapp/BatteryLoggingService.kt:222-223 | STOP on a new service leaves it exactly as new: no file, no export |
| SessionProperties.ThreeTickSession | app/src/main/java/com/example/batteryloggerapp/BatteryLoggingService.kt:70-97 | START, three writing ticks with their own readings, STOP: the file is the header and the three rows in tick order, and the one export is a copy of it |
| Service.BatteryLoggingService.constructor | app/src/main/java/com/example/batteryloggerapp/BatteryLoggingService.kt:34-38 | a new service is in the initial state and valid |
| Service.BatteryLoggingService.AcquireWakeLock | app/src/main/java/com/example/batteryloggerapp/BatteryLoggingService.kt:100-111 | acquires only when no lock is set; with one set nothing changes |
| Service.BatteryLoggingService.ReleaseWakeLock | app/src/main/java/com/example/batteryloggerapp/BatteryLoggingService.kt:113-121 | releases a held lock and always clears the reference |
| Service.BatteryLoggingService.WakeLockTimeout | app/src/main/java/com/example/batteryloggerapp/BatteryLoggingService.kt:107 | the 10-hour timeout ends a held lock and keeps the invariant |
| Service.BatteryLoggingService.StopLogging | app/src/main/java/com/example/batteryloggerapp/BatteryLoggingService.kt:140-146 | no runnable remains pending |
| Service.BatteryLoggingService.StartLogging | app/src/main/java/com/example/batteryloggerapp/BatteryLoggingService.kt:124-138 | stops any runnable, then one runnable is pending |
| Service.BatteryLoggingService.CreateCsvFile | app/src/main/java/com/example/batteryloggerapp/BatteryLoggingService.kt:203-219 | no-op once a file is set; otherwise stamped name and header appended |
| Service.BatteryLoggingService.LogBatteryData | app/src/main/java/com/example/batteryloggerapp/BatteryLoggingService.kt:148-184 | appends the converted row only with an open writer and a successful write |
| Service.BatteryLoggingService.Tick | app/src/main/java/com/example/batteryloggerapp/BatteryLoggingService.kt:128-136 | keeps the invariant and the runnable pending; the file grows by at most one line, earlier lines unchanged |
| Service.BatteryLoggingService.ExportCsvToDocuments | app/src/main/java/com/example/batteryloggerapp/BatteryLoggingService.kt:222-244 | no-op without a file; otherwise adds a text/csv copy of the current lines under Documents/BatteryLogger when the destination opens |
| Service.BatteryLoggingService.OnStartCommand | app/src/main/java/com/example/batteryloggerapp/BatteryLoggingService.kt:70-97 | keeps the invariant, returns START_STICKY; START leaves the service logging and is a no-op while logging; STOP leaves nothing pending or held with the file's lines unchanged |
| Service.BatteryLoggingService.OnDestroy | app/src/main/java/com/example/batteryloggerapp/BatteryLoggingService.kt:187-200 | nothing pending, no lock, writer not open afterwards, invariant kept |
| Service.StartTwiceOnNewService | app/src/main/java/com/example/batteryloggerapp/BatteryLoggingService.kt:74-83 | two STARTs on a new service: one file named after the first start, logging, lease held |
| Service.StopOnNewService | app/src/main/java/com/example/batteryloggerapp/BatteryLoggingService.kt:85-93 | STOP on a new service: no file, no export, no lock |

## Left out

- Notifications and foreground state (`createNotification`, `startForeground`, `stopForeground`, `stopSelf`, `onBind`): platform presentation with no session logic. `stopSelf` leads the platform to call `onDestroy`; the model has that as a separate event.
- `Handler`/`Looper` scheduling and the 10-second interval: a tick is an explicit call, allowed only while a runnable is pending. The immediate first post and the drift between ticks are timing, which the model does not have.
- Row order by timestamp: the timestamps are inputs from `SimpleDateFormat`/`Date`. The model proves rows are appended in tick order (`SessionProperties.LoggingTicksAppendRows`), not that the clock is monotonic.
- `destinationAvailable`: when `resolver.insert` gives a URI but `openOutputStream` gives no stream, the source leaves an empty entry in `Documents/BatteryLogger`; the model records no copy in that case.
- Kotlin `Double`: the conversions are exact rationals, not rounded doubles, and the printing of a `Double` is the `render` parameter.
- `BatteryManager`, `registerReceiver`, `PowerManager`, `MediaStore`/`ContentResolver`: foreign services. Their results are parameters or booleans. The provider may rename a copy whose display name already exists; that is not modelled.
- Exceptions outside `logBatteryData`'s try block propagate out of `onStartCommand` in the source and are not modelled. These are the `FileWriter` constructor and the header `append` and `flush` in `createCsvFile`; `resolver.insert`, `openOutputStream` and the stream copy in the export; and `startForeground` in the START branch, which runs after `acquireWakeLock` and so would leave the lock taken. A failed append or flush is modelled as the row being lost. A partially written row is not modelled.
- An exception from `close()` in `onDestroy` is caught and logged in the source. It changes no modelled state and is not modelled.
- `Log.d`/`Log.e` output.
- `MainActivity.kt` (buttons, status text, permission requests) is not part of this model.
- The lease's 10-hour safety timeout is an event with no clock; its duration is not modelled.
