/**
 * The log file's format: comma-separated rows under a fixed header, each
 * line terminated by a newline, in a file named after the session's start.
 */
module Csv {

  const Separator: char := ','

  /** The four columns, in order. */
  const Columns: seq<string> := ["timestamp", "voltage_v", "current_ma", "temperature_c"]

  /** The header row written when the file is created. */
  const Header: string := "timestamp,voltage_v,current_ma,temperature_c"

  const FilePrefix: string := "battery_log_"
  const FileSuffix: string := ".csv"

  /** The fields of a row joined by the separator. */
  function Join(fields: seq<string>): string
  {
    if |fields| <= 1 then (if fields == [] then "" else fields[0])
    else fields[0] + [Separator] + Join(fields[1..])
  }

  /** A row split at every separator: the way a CSV reader sees a line. */
  function Fields(line: string): (r: seq<string>)
    ensures |r| >= 1
    ensures |r| == 1 <==> Separator !in line
    decreases |line|
  {
    if line == [] then [""]
    else
      var rest := Fields(line[1..]);
      if line[0] == Separator then [""] + rest
      else [[line[0]] + rest[0]] + rest[1..]
  }

  predicate NoSeparator(fields: seq<string>)
  {
    forall i :: 0 <= i < |fields| ==> Separator !in fields[i]
  }

  lemma {:induction false} FieldsOfPlainText(a: string)
    requires Separator !in a
    ensures Fields(a) == [a]
    decreases |a|
  {
    if a != [] {
      FieldsOfPlainText(a[1..]);
      assert [a[0]] + a[1..] == a;
    }
  }

  lemma {:induction false} FieldsSplit(a: string, b: string)
    requires Separator !in a
    ensures Fields(a + [Separator] + b) == [a] + Fields(b)
    decreases |a|
  {
    var line := a + [Separator] + b;
    if a == [] {
      assert line == [Separator] + b;
      assert line[1..] == b;
    } else {
      FieldsSplit(a[1..], b);
      assert line[1..] == a[1..] + [Separator] + b;
      assert [a[0]] + a[1..] == a;
    }
  }

  /** Reading back a joined row gives its fields, when no field holds a separator. */
  lemma {:induction false} FieldsOfJoin(fields: seq<string>)
    requires |fields| >= 1 && NoSeparator(fields)
    ensures Fields(Join(fields)) == fields
    decreases |fields|
  {
    if |fields| == 1 {
      FieldsOfPlainText(fields[0]);
    } else {
      assert Separator !in fields[0];
      FieldsSplit(fields[0], Join(fields[1..]));
      FieldsOfJoin(fields[1..]);
      assert [fields[0]] + fields[1..] == fields;
    }
  }

  /** The header is the four column names joined. */
  lemma HeaderIsJoinedColumns()
    ensures Header == Join(Columns)
  {
  }

  /** A CSV reader sees the header as exactly the four column names. */
  lemma HeaderColumns()
    ensures Fields(Header) == Columns
  {
    HeaderIsJoinedColumns();
    assert NoSeparator(Columns) by {
      assert Separator !in "timestamp" && Separator !in "voltage_v";
      assert Separator !in "current_ma" && Separator !in "temperature_c";
    }
    FieldsOfJoin(Columns);
  }

  /** The bytes of a file holding `lines`: every line ends with a newline. */
  function Text(lines: seq<string>): string
  {
    if lines == [] then "" else lines[0] + "\n" + Text(lines[1..])
  }

  /** Appending a line to the file appends exactly that line and a newline to its bytes. */
  lemma {:induction false} TextAppend(lines: seq<string>, line: string)
    ensures Text(lines + [line]) == Text(lines) + line + "\n"
    decreases |lines|
  {
    if lines == [] {
      assert [] + [line] == [line];
    } else {
      assert (lines + [line])[1..] == lines[1..] + [line];
      TextAppend(lines[1..], line);
    }
  }

  /** The file bytes of a prefix of the lines are a prefix of the file bytes. */
  lemma {:induction false} TextPrefix(lines: seq<string>, more: seq<string>)
    ensures Text(lines) <= Text(lines + more)
    decreases |lines|
  {
    if lines != [] {
      assert (lines + more)[1..] == lines[1..] + more;
      TextPrefix(lines[1..], more);
    }
  }

  /** A file whose lines extend another's has bytes extending the other's. */
  lemma TextOfPrefix(lines: seq<string>, longer: seq<string>)
    requires lines <= longer
    ensures Text(lines) <= Text(longer)
  {
    assert longer == lines + longer[|lines|..];
    TextPrefix(lines, longer[|lines|..]);
  }

  /** `battery_log_<stamp>.csv`, where the stamp is the `yyyyMMdd_HHmmss` start time. */
  function FileName(stamp: string): string
  {
    FilePrefix + stamp + FileSuffix
  }

  predicate IsLogFileName(name: string)
  {
    |name| >= |FilePrefix| + |FileSuffix|
    && name[..|FilePrefix|] == FilePrefix
    && name[|name| - |FileSuffix|..] == FileSuffix
  }

  /** The start stamp a log file name carries. */
  function StampOf(name: string): string
    requires IsLogFileName(name)
  {
    name[|FilePrefix|..|name| - |FileSuffix|]
  }

  /** A generated name is a log file name, and it gives back the stamp it was made from. */
  lemma FileNameRoundTrip(stamp: string)
    ensures IsLogFileName(FileName(stamp))
    ensures StampOf(FileName(stamp)) == stamp
  {
  }

  /** Every log file name is the generated name of its own stamp. */
  lemma LogFileNameFromStamp(name: string)
    requires IsLogFileName(name)
    ensures FileName(StampOf(name)) == name
  {
  }
}
