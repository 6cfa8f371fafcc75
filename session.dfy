/**
 * The logging-session controller of BatteryLoggingService as values: the
 * state its fields hold, one function per routine giving the state that
 * routine leaves behind, and the properties the routines keep. The class
 * in module Service updates the same state in place and is proved to agree
 * with these functions.
 */
module Session {
  import opened Wrappers
  import opened Telemetry
  import Csv

  /** Android's START_STICKY: the value onStartCommand returns. */
  const StartSticky: int := 1

  const StartAction: string := "START_LOGGING"
  const StopAction: string := "STOP_LOGGING"

  /** Content type and folder of the exported copy in shared storage. */
  const ExportMimeType: string := "text/csv"
  const ExportRelativePath: string := "Documents/BatteryLogger"

  /** `csvWriter`: no writer yet, an open FileWriter, or one closed by onDestroy. */
  datatype WriterState = NoWriter | Open | Closed

  /** A file inserted into shared storage by the export, with the lines it received. */
  datatype ExportedCopy = ExportedCopy(displayName: string, mimeType: string, relativePath: string, lines: seq<string>)

  /**
   * The service's fields, the log file's lines and the copies in shared
   * storage. `wakeLock` says the reference is set and `leaseHeld` that the
   * lock is held (`isHeld`), which stops after the 10-hour timeout.
   * `loggingRunnable` says a runnable is set and posted to the handler.
   * The two lease counters and `destroyed` are bookkeeping of the model.
   */
  datatype ServiceState = ServiceState(
    isLogging: bool,
    wakeLock: bool,
    leaseHeld: bool,
    loggingRunnable: bool,
    csvFile: Option<string>,
    csvWriter: WriterState,
    lines: seq<string>,
    exports: seq<ExportedCopy>,
    leasesAcquired: nat,
    leasesEnded: nat,
    destroyed: bool)

  /** A freshly created service: nothing set. */
  function Initial(): ServiceState
  {
    ServiceState(false, false, false, false, None, NoWriter, [], [], 0, 0, false)
  }

  /** Export number `i` is a copy of this service's log file as it was at some earlier time. */
  predicate ExportIsCopyOfFile(s: ServiceState, i: nat)
    requires i < |s.exports|
  {
    var e := s.exports[i];
    s.csvFile == Some(e.displayName)
    && e.mimeType == ExportMimeType
    && e.relativePath == ExportRelativePath
    && e.lines <= s.lines
  }

  /**
   * The invariant the routines keep: at most one lease, and every lease
   * acquired is held or has ended; a file exists exactly when a writer
   * does, with the header in it; exports are earlier copies of the file;
   * and while the service lives, isLogging, a pending runnable and a
   * wake-lock reference go together, and logging implies an open writer.
   */
  predicate Valid(s: ServiceState)
  {
    (s.leaseHeld ==> s.wakeLock)
    && s.leasesAcquired == s.leasesEnded + (if s.leaseHeld then 1 else 0)
    && (s.csvFile.None? <==> s.csvWriter == NoWriter)
    && (s.csvFile.None? ==> s.lines == [] && s.exports == [])
    && (s.csvFile.Some? ==> Csv.IsLogFileName(s.csvFile.value) && Csv.Header in s.lines)
    && (forall i :: 0 <= i < |s.exports| ==> ExportIsCopyOfFile(s, i))
    && if s.destroyed then
         !s.loggingRunnable && !s.wakeLock && s.csvWriter != Open
       else
         s.csvWriter != Closed
         && (s.isLogging <==> s.loggingRunnable)
         && (s.isLogging <==> s.wakeLock)
         && (s.isLogging ==> s.csvWriter == Open)
  }

  /** `acquireWakeLock`: a new lock, acquired, only when there is none. */
  function AcquireWakeLock(s: ServiceState): ServiceState
  {
    if s.wakeLock then s
    else s.(wakeLock := true, leaseHeld := true, leasesAcquired := s.leasesAcquired + 1)
  }

  /** `releaseWakeLock`: release only a lock that is still held; always drop the reference. */
  function ReleaseWakeLock(s: ServiceState): ServiceState
  {
    var released := if s.wakeLock && s.leaseHeld then s.(leaseHeld := false, leasesEnded := s.leasesEnded + 1) else s;
    released.(wakeLock := false)
  }

  /** The platform ends a held lock when its 10-hour timeout passes. */
  function WakeLockTimeout(s: ServiceState): ServiceState
  {
    if s.leaseHeld then s.(leaseHeld := false, leasesEnded := s.leasesEnded + 1) else s
  }

  /** `stopLogging`: remove the pending runnable, if any. */
  function StopLogging(s: ServiceState): ServiceState
  {
    s.(loggingRunnable := false)
  }

  /** `startLogging`: stop any runnable, then set and post a new one. */
  function StartLogging(s: ServiceState): ServiceState
  {
    StopLogging(s).(loggingRunnable := true)
  }

  /**
   * `createCsvFile`: nothing when a file is already set; otherwise name the
   * file after `stamp`, open it for appending (it holds `onDisk`, normally
   * nothing) and append the header.
   */
  function CreateCsvFile(s: ServiceState, stamp: string, onDisk: seq<string>): ServiceState
  {
    if s.csvFile.Some? then s
    else s.(csvFile := Some(Csv.FileName(stamp)), csvWriter := Open, lines := onDisk + [Csv.Header])
  }

  /** The row a tick writes: timestamp, voltage, current and temperature as `render` prints them. */
  function SampleRow(timestamp: string, sample: Sample, render: real -> string): string
  {
    Csv.Join([timestamp, render(sample.voltage), render(sample.current), render(sample.temperature)])
  }

  /**
   * `logBatteryData`: read, convert and append one row when the writer is
   * open and the write succeeds; a failed write or a closed writer loses
   * the row, and without a writer nothing is written.
   */
  function LogBatteryData(s: ServiceState, timestamp: string, currentRaw: int32, intent: Option<BatteryIntent>,
                          render: real -> string, writeOk: bool): ServiceState
  {
    if s.csvWriter == Open && writeOk
    then s.(lines := s.lines + [SampleRow(timestamp, ReadSample(currentRaw, intent), render)])
    else s
  }

  /** `exportCsvToDocuments`: nothing without a file; otherwise copy its lines when the destination opens. */
  function ExportCsvToDocuments(s: ServiceState, destinationAvailable: bool): ServiceState
  {
    match s.csvFile
    case None => s
    case Some(name) =>
      if destinationAvailable
      then s.(exports := s.exports + [ExportedCopy(name, ExportMimeType, ExportRelativePath, s.lines)])
      else s
  }

  /** START_LOGGING: ignored while logging; otherwise lease, file, runnable, then isLogging. */
  function Start(s: ServiceState, stamp: string, onDisk: seq<string>): ServiceState
  {
    if s.isLogging then s
    else StartLogging(CreateCsvFile(AcquireWakeLock(s), stamp, onDisk)).(isLogging := true)
  }

  /** STOP_LOGGING, unguarded: runnable, lease, export, then isLogging cleared. */
  function Stop(s: ServiceState, destinationAvailable: bool): ServiceState
  {
    ExportCsvToDocuments(ReleaseWakeLock(StopLogging(s)), destinationAvailable).(isLogging := false)
  }

  /** `onStartCommand`: dispatch on the intent's action; any other action, or none, is ignored. */
  function OnStartCommand(s: ServiceState, action: Option<string>, stamp: string, onDisk: seq<string>,
                          destinationAvailable: bool): ServiceState
  {
    if action == Some(StartAction) then Start(s, stamp, onDisk)
    else if action == Some(StopAction) then Stop(s, destinationAvailable)
    else s
  }

  /** `onDestroy`: runnable, lease, then close the writer if there is one. */
  function OnDestroy(s: ServiceState): ServiceState
  {
    var t := ReleaseWakeLock(StopLogging(s));
    t.(csvWriter := if t.csvWriter == NoWriter then NoWriter else Closed, destroyed := true)
  }

  /** What can happen to a service: a command, a timer tick, the lease timing out, destruction. */
  datatype Event =
    | Command(action: Option<string>, stamp: string, onDisk: seq<string>, destinationAvailable: bool)
    | Tick(timestamp: string, currentRaw: int32, intent: Option<BatteryIntent>, render: real -> string, writeOk: bool)
    | LeaseTimeout
    | Destroy

  /** The platform delivers commands only to a live service, and runs only a posted runnable. */
  predicate Enabled(s: ServiceState, e: Event)
  {
    match e
    case Command(_, _, _, _) => !s.destroyed
    case Tick(_, _, _, _, _) => s.loggingRunnable
    case LeaseTimeout => s.leaseHeld
    case Destroy => !s.destroyed
  }

  /** One event; one that cannot happen in `s` leaves it as it is. */
  function Step(s: ServiceState, e: Event): ServiceState
  {
    if !Enabled(s, e) then s
    else match e
      case Command(action, stamp, onDisk, dest) => OnStartCommand(s, action, stamp, onDisk, dest)
      case Tick(ts, raw, intent, render, ok) => LogBatteryData(s, ts, raw, intent, render, ok)
      case LeaseTimeout => WakeLockTimeout(s)
      case Destroy => OnDestroy(s)
  }

  function Run(s: ServiceState, events: seq<Event>): ServiceState
    decreases |events|
  {
    if events == [] then s else Run(Step(s, events[0]), events[1..])
  }
}
