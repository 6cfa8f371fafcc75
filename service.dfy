/**
 * BatteryLoggingService as a class: its fields are updated in place by the
 * same routines as in the service, and every method is proved to leave the
 * state that the matching function of module Session describes.
 */
module Service {
  import opened Wrappers
  import opened Telemetry
  import Csv
  import Session
  import SessionProperties

  class BatteryLoggingService {
    var isLogging: bool
    /** `wakeLock != null` */
    var wakeLock: bool
    /** `wakeLock.isHeld` */
    var leaseHeld: bool
    /** `loggingRunnable != null`: a runnable is set and posted */
    var loggingRunnable: bool
    /** `csvFile`, by name */
    var csvFile: Option<string>
    var csvWriter: Session.WriterState
    /** The log file's lines, as flushed to storage. */
    var lines: seq<string>
    /** The copies the export has inserted into shared storage. */
    var exports: seq<Session.ExportedCopy>
    ghost var leasesAcquired: nat
    ghost var leasesEnded: nat
    ghost var destroyed: bool

    ghost function State(): Session.ServiceState
      reads this
    {
      Session.ServiceState(isLogging, wakeLock, leaseHeld, loggingRunnable, csvFile, csvWriter,
                           lines, exports, leasesAcquired, leasesEnded, destroyed)
    }

    ghost predicate Valid()
      reads this
    {
      Session.Valid(State())
    }

    constructor ()
      ensures State() == Session.Initial() && Valid()
    {
      isLogging, wakeLock, leaseHeld, loggingRunnable := false, false, false, false;
      csvFile, csvWriter, lines, exports := None, Session.NoWriter, [], [];
      leasesAcquired, leasesEnded, destroyed := 0, 0, false;
      SessionProperties.InitialIsValid();
    }

    method AcquireWakeLock()
      modifies this
      ensures State() == Session.AcquireWakeLock(old(State()))
      ensures wakeLock && (old(wakeLock) ==> State() == old(State()))
    {
      if !wakeLock {
        wakeLock, leaseHeld := true, true;
        leasesAcquired := leasesAcquired + 1;
      }
    }

    method ReleaseWakeLock()
      modifies this
      ensures State() == Session.ReleaseWakeLock(old(State()))
      ensures !wakeLock && (old(wakeLock) ==> !leaseHeld)
    {
      if wakeLock && leaseHeld {
        leaseHeld := false;
        leasesEnded := leasesEnded + 1;
      }
      wakeLock := false;
    }

    /** The platform's 10-hour timeout ending a held lock. */
    method WakeLockTimeout()
      requires Valid() && leaseHeld
      modifies this
      ensures Valid()
      ensures State() == Session.WakeLockTimeout(old(State()))
      ensures !leaseHeld
    {
      leaseHeld := false;
      leasesEnded := leasesEnded + 1;
      SessionProperties.StepPreservesValid(old(State()), Session.LeaseTimeout);
    }

    method StopLogging()
      modifies this
      ensures State() == Session.StopLogging(old(State()))
    {
      loggingRunnable := false;
    }

    method StartLogging()
      modifies this
      ensures State() == Session.StartLogging(old(State()))
    {
      StopLogging();
      loggingRunnable := true;
    }

    method CreateCsvFile(stamp: string, onDisk: seq<string>)
      modifies this
      ensures State() == Session.CreateCsvFile(old(State()), stamp, onDisk)
      ensures old(csvFile).Some? ==> State() == old(State())
      ensures old(csvFile).None? ==> csvFile == Some(Csv.FileName(stamp)) && lines == onDisk + [Csv.Header]
    {
      if csvFile.Some? {
        return;
      }
      csvFile := Some(Csv.FileName(stamp));
      csvWriter := Session.Open;
      lines := onDisk + [Csv.Header];
    }

    method LogBatteryData(timestamp: string, currentRaw: int32, intent: Option<BatteryIntent>,
                          render: real -> string, writeOk: bool)
      modifies this
      ensures State() == Session.LogBatteryData(old(State()), timestamp, currentRaw, intent, render, writeOk)
    {
      var current := CurrentMilliAmps(currentRaw);
      var voltage := VoltageVolts(intent);
      var temp := TemperatureCelsius(intent);
      if csvWriter == Session.Open && writeOk {
        lines := lines + [Session.SampleRow(timestamp, Sample(voltage, current, temp), render)];
      }
    }

    /** One run of the posted runnable: log, then post itself again. */
    method Tick(timestamp: string, currentRaw: int32, intent: Option<BatteryIntent>,
                render: real -> string, writeOk: bool)
      requires Valid() && loggingRunnable
      modifies this
      ensures Valid() && loggingRunnable
      ensures State() == Session.Step(old(State()), Session.Tick(timestamp, currentRaw, intent, render, writeOk))
      ensures old(lines) <= lines && |lines| <= |old(lines)| + 1
    {
      LogBatteryData(timestamp, currentRaw, intent, render, writeOk);
      SessionProperties.StepPreservesValid(old(State()), Session.Tick(timestamp, currentRaw, intent, render, writeOk));
    }

    method ExportCsvToDocuments(destinationAvailable: bool)
      modifies this
      ensures State() == Session.ExportCsvToDocuments(old(State()), destinationAvailable)
      ensures old(csvFile).None? ==> State() == old(State())
    {
      if csvFile.None? {
        return;
      }
      var sourceFile := csvFile.value;
      if destinationAvailable {
        exports := exports + [Session.ExportedCopy(sourceFile, Session.ExportMimeType, Session.ExportRelativePath, lines)];
      }
    }

    /**
     * START_LOGGING and STOP_LOGGING. `stamp` is the start time as
     * `yyyyMMdd_HHmmss`, `onDisk` what is already stored under the new file
     * name, and `destinationAvailable` whether shared storage gives both an
     * entry and an output stream for the copy.
     */
    method OnStartCommand(action: Option<string>, stamp: string, onDisk: seq<string>, destinationAvailable: bool)
      returns (r: int)
      requires Valid() && !destroyed
      modifies this
      ensures Valid() && !destroyed && r == Session.StartSticky
      ensures State() == Session.OnStartCommand(old(State()), action, stamp, onDisk, destinationAvailable)
      ensures action == Some(Session.StartAction) ==>
                isLogging && loggingRunnable && wakeLock && csvWriter == Session.Open
                && (old(isLogging) ==> State() == old(State()))
      ensures action == Some(Session.StopAction) ==>
                !isLogging && !loggingRunnable && !wakeLock && !leaseHeld
                && lines == old(lines) && csvFile == old(csvFile)
    {
      if action == Some(Session.StartAction) {
        if !isLogging {
          AcquireWakeLock();
          CreateCsvFile(stamp, onDisk);
          StartLogging();
          isLogging := true;
        }
        SessionProperties.StartPreservesValid(old(State()), stamp, onDisk);
        SessionProperties.StartTwiceIsStartOnce(old(State()), stamp, onDisk, stamp, onDisk);
      } else if action == Some(Session.StopAction) {
        StopLogging();
        ReleaseWakeLock();
        ExportCsvToDocuments(destinationAvailable);
        isLogging := false;
        SessionProperties.StopPreservesValid(old(State()), destinationAvailable);
        SessionProperties.StopEndsSession(old(State()), destinationAvailable);
      }
      r := Session.StartSticky;
    }

    method OnDestroy()
      requires Valid() && !destroyed
      modifies this
      ensures Valid() && destroyed
      ensures State() == Session.OnDestroy(old(State()))
      ensures !loggingRunnable && !wakeLock && !leaseHeld && csvWriter != Session.Open
    {
      StopLogging();
      ReleaseWakeLock();
      if csvWriter != Session.NoWriter {
        csvWriter := Session.Closed;
      }
      destroyed := true;
      SessionProperties.StepPreservesValid(old(State()), Session.Destroy);
    }
  }

  /** START twice on a new service: one file, named after the first start, and a held lease. */
  method StartTwiceOnNewService(stamp1: string, stamp2: string) returns (file: Option<string>, logging: bool, held: bool)
    ensures file == Some(Csv.FileName(stamp1)) && logging && held
  {
    var service := new BatteryLoggingService();
    var _ := service.OnStartCommand(Some(Session.StartAction), stamp1, [], true);
    var _ := service.OnStartCommand(Some(Session.StartAction), stamp2, [], true);
    file, logging, held := service.csvFile, service.isLogging, service.leaseHeld;
  }

  /** STOP on a new service: no file, no export, nothing held. */
  method StopOnNewService(destinationAvailable: bool) returns (file: Option<string>, exported: nat, held: bool)
    ensures file == None && exported == 0 && !held
  {
    var service := new BatteryLoggingService();
    var _ := service.OnStartCommand(Some(Session.StopAction), "", [], destinationAvailable);
    file, exported, held := service.csvFile, |service.exports|, service.wakeLock;
  }
}
