/** What the session routines guarantee, alone and over any sequence of events. */
module SessionProperties {
  import opened Wrappers
  import opened Telemetry
  import Csv
  import opened Session

  lemma InitialIsValid()
    ensures Valid(Initial())
  {
  }

  /**
   * A row holds the four values in column order, and a CSV reader sees as
   * many fields in it as in the header, when no printed value holds a comma.
   */
  lemma SampleRowFields(timestamp: string, sample: Sample, render: real -> string)
    requires Csv.Separator !in timestamp
    requires forall x: real :: Csv.Separator !in render(x)
    ensures Csv.Fields(SampleRow(timestamp, sample, render))
         == [timestamp, render(sample.voltage), render(sample.current), render(sample.temperature)]
    ensures |Csv.Fields(SampleRow(timestamp, sample, render))| == |Csv.Fields(Csv.Header)|
  {
    var fields := [timestamp, render(sample.voltage), render(sample.current), render(sample.temperature)];
    assert Csv.NoSeparator(fields);
    Csv.FieldsOfJoin(fields);
    Csv.HeaderColumns();
  }

  /** With the "unavailable" current, the current_ma field is the printed 0.0. */
  lemma SentinelCurrentIsWrittenAsZero(timestamp: string, intent: Option<BatteryIntent>, render: real -> string)
    requires Csv.Separator !in timestamp
    requires forall x: real :: Csv.Separator !in render(x)
    ensures |Csv.Fields(SampleRow(timestamp, ReadSample(IntMinValue, intent), render))| == 4
    ensures Csv.Fields(SampleRow(timestamp, ReadSample(IntMinValue, intent), render))[2] == render(0.0)
  {
    SampleRowFields(timestamp, ReadSample(IntMinValue, intent), render);
  }

  /** Two acquisitions in a row hold one lease; a release always drops the lock and ends a held lease once. */
  lemma LeaseHelpers(s: ServiceState)
    requires Valid(s)
    ensures AcquireWakeLock(AcquireWakeLock(s)) == AcquireWakeLock(s)
    ensures AcquireWakeLock(s).leasesAcquired <= s.leasesAcquired + 1
    ensures AcquireWakeLock(s).leaseHeld == (s.leaseHeld || !s.wakeLock)
    ensures var r := ReleaseWakeLock(s);
            !r.wakeLock && !r.leaseHeld
            && r.leasesEnded == s.leasesEnded + (if s.leaseHeld then 1 else 0)
            && ReleaseWakeLock(r) == r
  {
  }

  /** `createCsvFile` creates at most one file: once a file is set it changes nothing. */
  lemma CreateCsvFileOnce(s: ServiceState, stamp: string, onDisk: seq<string>)
    ensures s.csvFile.Some? ==> CreateCsvFile(s, stamp, onDisk) == s
    ensures s.csvFile.None? ==>
              var t := CreateCsvFile(s, stamp, onDisk);
              t.csvFile == Some(Csv.FileName(stamp)) && t.csvWriter == Open
              && t.lines == onDisk + [Csv.Header]
              && (onDisk == [] ==> t.lines == [Csv.Header] && Csv.Text(t.lines) == Csv.Header + "\n")
  {
  }

  /** Exports stay copies of the file when the file is kept and only grows. */
  lemma ExportsKept(s: ServiceState, t: ServiceState)
    requires forall i :: 0 <= i < |s.exports| ==> ExportIsCopyOfFile(s, i)
    requires t.exports == s.exports && t.csvFile == s.csvFile && s.lines <= t.lines
    ensures forall i :: 0 <= i < |t.exports| ==> ExportIsCopyOfFile(t, i)
  {
    forall i | 0 <= i < |t.exports|
      ensures ExportIsCopyOfFile(t, i)
    {
      assert ExportIsCopyOfFile(s, i);
    }
  }

  lemma StartPreservesValid(s: ServiceState, stamp: string, onDisk: seq<string>)
    requires Valid(s) && !s.destroyed
    ensures Valid(Start(s, stamp, onDisk))
  {
    var t := Start(s, stamp, onDisk);
    if !s.isLogging && s.csvFile.None? {
      Csv.FileNameRoundTrip(stamp);
      assert t.lines[|onDisk|] == Csv.Header;
    } else {
      ExportsKept(s, t);
    }
  }

  lemma StopPreservesValid(s: ServiceState, destinationAvailable: bool)
    requires Valid(s) && !s.destroyed
    ensures Valid(Stop(s, destinationAvailable))
  {
    var t := Stop(s, destinationAvailable);
    forall i | 0 <= i < |t.exports|
      ensures ExportIsCopyOfFile(t, i)
    {
      if i < |s.exports| {
        assert ExportIsCopyOfFile(s, i);
      }
    }
  }

  lemma LogBatteryDataPreservesValid(s: ServiceState, timestamp: string, currentRaw: int32,
                                     intent: Option<BatteryIntent>, render: real -> string, writeOk: bool)
    requires Valid(s)
    ensures Valid(LogBatteryData(s, timestamp, currentRaw, intent, render, writeOk))
  {
    var t := LogBatteryData(s, timestamp, currentRaw, intent, render, writeOk);
    ExportsKept(s, t);
  }

  lemma StepPreservesValid(s: ServiceState, e: Event)
    requires Valid(s)
    ensures Valid(Step(s, e))
  {
    if Enabled(s, e) {
      match e
      case Command(action, stamp, onDisk, dest) =>
        if action == Some(StartAction) {
          StartPreservesValid(s, stamp, onDisk);
        } else if action == Some(StopAction) {
          StopPreservesValid(s, dest);
        }
      case Tick(ts, raw, intent, render, ok) =>
        LogBatteryDataPreservesValid(s, ts, raw, intent, render, ok);
      case LeaseTimeout =>
        ExportsKept(s, WakeLockTimeout(s));
      case Destroy =>
        ExportsKept(s, OnDestroy(s));
    }
  }

  lemma {:induction false} RunPreservesValid(s: ServiceState, events: seq<Event>)
    requires Valid(s)
    ensures Valid(Run(s, events))
    decreases |events|
  {
    if events != [] {
      StepPreservesValid(s, events[0]);
      RunPreservesValid(Step(s, events[0]), events[1..]);
    }
  }

  /**
   * Whatever happens to a service, at most one lease is held at a time and
   * every lease acquired is either still held or has ended exactly once.
   */
  lemma AtMostOneLease(events: seq<Event>)
    ensures var s := Run(Initial(), events);
            s.leasesEnded <= s.leasesAcquired <= s.leasesEnded + 1
            && (s.leaseHeld <==> s.leasesAcquired == s.leasesEnded + 1)
  {
    InitialIsValid();
    RunPreservesValid(Initial(), events);
  }

  /** START while logging changes nothing: no second lease, file or runnable. */
  lemma StartWhileLoggingIsIgnored(s: ServiceState, stamp: string, onDisk: seq<string>, dest: bool)
    requires s.isLogging
    ensures OnStartCommand(s, Some(StartAction), stamp, onDisk, dest) == s
  {
  }

  /**
   * START twice is START once; the first START of a live service leaves it
   * logging with a pending runnable, a held lease acquired at most once, and
   * a file (the one it already had, if any).
   */
  lemma StartTwiceIsStartOnce(s: ServiceState, stamp: string, onDisk: seq<string>,
                              stamp2: string, onDisk2: seq<string>)
    requires Valid(s) && !s.destroyed
    ensures var once := Start(s, stamp, onDisk);
            Start(once, stamp2, onDisk2) == once
            && once.isLogging && once.loggingRunnable && once.wakeLock && once.csvWriter == Open
            && once.leasesAcquired <= s.leasesAcquired + 1
            && (s.csvFile.Some? ==> once.csvFile == s.csvFile && once.lines == s.lines)
  {
  }

  /**
   * STOP, with or without a session: afterwards nothing is pending, no lock
   * is held and isLogging is false; the file and its writer stay as they
   * were; without a file nothing is exported; with a file and an open
   * destination, exactly one copy of the file's current lines is added.
   */
  lemma StopEndsSession(s: ServiceState, destinationAvailable: bool)
    requires Valid(s)
    ensures var t := Stop(s, destinationAvailable);
            !t.isLogging && !t.loggingRunnable && !t.wakeLock && !t.leaseHeld
            && t.csvFile == s.csvFile && t.csvWriter == s.csvWriter && t.lines == s.lines
            && t.leasesAcquired == s.leasesAcquired
            && (s.csvFile.None? || !destinationAvailable ==> t.exports == s.exports)
            && (s.csvFile.Some? && destinationAvailable ==>
                  t.exports == s.exports + [ExportedCopy(s.csvFile.value, ExportMimeType, ExportRelativePath, s.lines)]
                  && Csv.Text(t.exports[|s.exports|].lines) == Csv.Text(s.lines))
  {
  }

  /**
   * A tick of the pending runnable leaves it pending; with an open writer
   * and a successful write it appends exactly one row, keeping every earlier
   * line, and the file's bytes grow by that row and a newline; otherwise the
   * state is unchanged.
   */
  lemma TickAppendsOneRow(s: ServiceState, timestamp: string, currentRaw: int32,
                          intent: Option<BatteryIntent>, render: real -> string, writeOk: bool)
    requires s.loggingRunnable
    ensures var t := Step(s, Tick(timestamp, currentRaw, intent, render, writeOk));
            var row := SampleRow(timestamp, ReadSample(currentRaw, intent), render);
            t.loggingRunnable
            && (s.csvWriter == Open && writeOk ==>
                  t.lines == s.lines + [row] && Csv.Text(t.lines) == Csv.Text(s.lines) + row + "\n")
            && (s.csvWriter != Open || !writeOk ==> t == s)
  {
    var row := SampleRow(timestamp, ReadSample(currentRaw, intent), render);
    Csv.TextAppend(s.lines, row);
  }

  /**
   * Over any sequence of events the file is append-only, a file once set
   * is never replaced (one log file per service), and earlier exports are
   * kept.
   */
  lemma {:induction false} RunKeepsLogFile(s: ServiceState, events: seq<Event>)
    requires Valid(s)
    ensures var t := Run(s, events);
            s.lines <= t.lines && s.exports <= t.exports
            && (s.csvFile.Some? ==> t.csvFile == s.csvFile)
    decreases |events|
  {
    if events != [] {
      var next := Step(s, events[0]);
      StepPreservesValid(s, events[0]);
      assert s.lines <= next.lines && s.exports <= next.exports;
      RunKeepsLogFile(next, events[1..]);
    }
  }

  /** Over any sequence of events the file's bytes only grow at the end. */
  lemma RunKeepsFileBytes(s: ServiceState, events: seq<Event>)
    requires Valid(s)
    ensures Csv.Text(s.lines) <= Csv.Text(Run(s, events).lines)
  {
    RunKeepsLogFile(s, events);
    Csv.TextOfPrefix(s.lines, Run(s, events).lines);
  }

  /** A header written first stays the first line, whatever happens next. */
  lemma HeaderStaysFirst(s: ServiceState, events: seq<Event>)
    requires Valid(s) && |s.lines| > 0 && s.lines[0] == Csv.Header
    ensures |Run(s, events).lines| > 0 && Run(s, events).lines[0] == Csv.Header
  {
    RunKeepsLogFile(s, events);
  }

  /** The row a tick event writes when its write succeeds; other events write none. */
  function RowOf(e: Event): Option<string>
  {
    match e
    case Tick(ts, raw, intent, render, _) => Some(SampleRow(ts, ReadSample(raw, intent), render))
    case _ => None
  }

  /** `line` is the row of one of the tick events. */
  predicate IsTickRow(line: string, events: seq<Event>)
  {
    exists k :: 0 <= k < |events| && RowOf(events[k]) == Some(line)
  }

  /** Once a file exists, one event leaves its lines alone or appends that event's row. */
  lemma StepLinesWithFile(s: ServiceState, e: Event)
    requires Valid(s) && s.csvFile.Some?
    ensures var t := Step(s, e);
            t.lines == s.lines || (RowOf(e).Some? && t.lines == s.lines + [RowOf(e).value])
  {
  }

  /**
   * Once the file exists, every line added to it afterwards is the row of a
   * tick: nothing else, the header included, is written again.
   */
  lemma {:induction false} LinesAfterCreationAreTickRows(s: ServiceState, events: seq<Event>)
    requires Valid(s) && s.csvFile.Some?
    ensures var t := Run(s, events);
            forall i :: |s.lines| <= i < |t.lines| ==> IsTickRow(t.lines[i], events)
    decreases |events|
  {
    var t := Run(s, events);
    if events != [] {
      var next := Step(s, events[0]);
      StepPreservesValid(s, events[0]);
      StepLinesWithFile(s, events[0]);
      RunKeepsLogFile(next, events[1..]);
      LinesAfterCreationAreTickRows(next, events[1..]);
      forall i | |s.lines| <= i < |t.lines|
        ensures IsTickRow(t.lines[i], events)
      {
        if i < |next.lines| {
          assert t.lines[i] == next.lines[i];
          assert RowOf(events[0]) == Some(t.lines[i]);
        } else {
          assert IsTickRow(t.lines[i], events[1..]);
          var k :| 0 <= k < |events[1..]| && RowOf(events[1..][k]) == Some(t.lines[i]);
          assert RowOf(events[k + 1]) == Some(t.lines[i]);
        }
      }
    }
  }

  /**
   * The header appears once, as the first line, in the file of a service
   * whose first START found nothing stored under the file name: every later
   * line is a tick's row.
   */
  lemma HeaderOnceInNewFile(stamp: string, dest: bool, events: seq<Event>)
    ensures var s := Run(Initial(), [Command(Some(StartAction), stamp, [], dest)] + events);
            |s.lines| > 0 && s.lines[0] == Csv.Header
            && forall i :: 1 <= i < |s.lines| ==> IsTickRow(s.lines[i], events)
  {
    var start := Command(Some(StartAction), stamp, [], dest);
    var s0 := Step(Initial(), start);
    InitialIsValid();
    StepPreservesValid(Initial(), start);
    assert s0.lines == [Csv.Header];
    assert ([start] + events)[1..] == events;
    assert Run(Initial(), [start] + events) == Run(s0, events);
    HeaderStaysFirst(s0, events);
    LinesAfterCreationAreTickRows(s0, events);
  }

  /**
   * As written, the file is opened in append mode: when a file with the same
   * local start stamp is already stored (an earlier start in the same local
   * second, including one before the clock was set back), the new header
   * follows the old lines and the header appears twice.
   */
  lemma SameStampRestartRepeatsHeader(stamp: string)
    ensures CreateCsvFile(Initial(), stamp, [Csv.Header]).lines == [Csv.Header, Csv.Header]
  {
  }

  /** The rows the tick events write, in order; other events write none. */
  function Rows(events: seq<Event>): seq<string>
    decreases |events|
  {
    if events == [] then []
    else (match RowOf(events[0]) case Some(row) => [row] case None => []) + Rows(events[1..])
  }

  /** Every event is a tick whose write succeeds. */
  predicate WritingTicks(events: seq<Event>)
  {
    forall k :: 0 <= k < |events| ==> events[k].Tick? && events[k].writeOk
  }

  /**
   * While logging, a run of ticks whose writes succeed appends exactly their
   * rows, in tick order, after the unchanged earlier lines.
   */
  lemma {:induction false} LoggingTicksAppendRows(s: ServiceState, events: seq<Event>)
    requires Valid(s) && s.isLogging && !s.destroyed
    requires WritingTicks(events)
    ensures Run(s, events).lines == s.lines + Rows(events)
    ensures Run(s, events).isLogging
    decreases |events|
  {
    if events != [] {
      var e := events[0];
      var next := Step(s, e);
      StepPreservesValid(s, e);
      assert next.lines == s.lines + [RowOf(e).value];
      assert Rows(events) == [RowOf(e).value] + Rows(events[1..]);
      assert WritingTicks(events[1..]) by {
        forall k | 0 <= k < |events[1..]|
          ensures events[1..][k].Tick? && events[1..][k].writeOk
        {
          assert events[1..][k] == events[k + 1];
        }
      }
      LoggingTicksAppendRows(next, events[1..]);
    }
  }

  /** STOP on a new service: no file, no export, nothing held. */
  lemma StopWithoutStart(dest: bool)
    ensures Run(Initial(), [Command(Some(StopAction), "", [], dest)]) == Initial()
  {
  }

  /**
   * Start, three ticks that write, stop: the export is one copy of the file,
   * which holds the header and the three rows, each with its own reading,
   * in tick order.
   */
  lemma ThreeTickSession(stamp: string, render: real -> string,
                         t1: string, raw1: int32, intent1: Option<BatteryIntent>,
                         t2: string, raw2: int32, intent2: Option<BatteryIntent>,
                         t3: string, raw3: int32, intent3: Option<BatteryIntent>)
    ensures var s := Run(Initial(), [
                Command(Some(StartAction), stamp, [], true),
                Tick(t1, raw1, intent1, render, true),
                Tick(t2, raw2, intent2, render, true),
                Tick(t3, raw3, intent3, render, true),
                Command(Some(StopAction), stamp, [], true)]);
            var lines := [Csv.Header,
                          SampleRow(t1, ReadSample(raw1, intent1), render),
                          SampleRow(t2, ReadSample(raw2, intent2), render),
                          SampleRow(t3, ReadSample(raw3, intent3), render)];
            s.lines == lines
            && s.exports == [ExportedCopy(Csv.FileName(stamp), ExportMimeType, ExportRelativePath, lines)]
            && !s.isLogging && !s.loggingRunnable && !s.leaseHeld
  {
    var start := Command(Some(StartAction), stamp, [], true);
    var stop := Command(Some(StopAction), stamp, [], true);
    var k1 := Tick(t1, raw1, intent1, render, true);
    var k2 := Tick(t2, raw2, intent2, render, true);
    var k3 := Tick(t3, raw3, intent3, render, true);
    var s0 := Step(Initial(), start);
    assert s0.lines == [Csv.Header] && s0.loggingRunnable && s0.csvWriter == Open;
    var s1 := Step(s0, k1);
    var s2 := Step(s1, k2);
    var s3 := Step(s2, k3);
    assert s3.lines == [Csv.Header,
                        SampleRow(t1, ReadSample(raw1, intent1), render),
                        SampleRow(t2, ReadSample(raw2, intent2), render),
                        SampleRow(t3, ReadSample(raw3, intent3), render)];
    var s4 := Step(s3, stop);
    var events := [start, k1, k2, k3, stop];
    assert Run(Initial(), events) == Run(s0, events[1..]);
    assert Run(s0, events[1..]) == Run(s1, events[2..]);
    assert Run(s1, events[2..]) == Run(s2, events[3..]);
    assert Run(s2, events[3..]) == Run(s3, events[4..]);
    assert Run(s3, events[4..]) == Run(s4, []);
  }
}
