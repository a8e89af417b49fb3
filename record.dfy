/** The log record `command_exec` writes for each command (furo2.py:89-135): where it
    goes, the header before the session transcript, and the commit headline. */
module Record {

  import opened Wrappers
  import opened Text
  import opened Paths

  // ---------------------------------------------------------------------------
  // The timestamp path

  /** `datetime.now()`, to the microsecond. */
  datatype Timestamp = Timestamp(year: int, month: int, day: int,
                                 hour: int, minute: int, second: int, microsecond: int)

  predicate IsLeapYear(y: int) {
    y % 4 == 0 && (y % 100 != 0 || y % 400 == 0)
  }

  function DaysInMonth(y: int, m: int): int
    requires 1 <= m <= 12
  {
    if m == 2 then (if IsLeapYear(y) then 29 else 28)
    else if m == 4 || m == 6 || m == 9 || m == 11 then 30
    else 31
  }

  /** The values a `datetime` can hold. */
  predicate Valid(t: Timestamp) {
    1 <= t.year <= 9999 && 1 <= t.month <= 12 && 1 <= t.day <= DaysInMonth(t.year, t.month)
    && 0 <= t.hour < 24 && 0 <= t.minute < 60 && 0 <= t.second < 60
    && 0 <= t.microsecond < 1000000
  }

  lemma Pow10Widths()
    ensures Pow10(2) == 100 && Pow10(4) == 10000 && Pow10(6) == 1000000
  {
  }

  /** The last part of the timestamp path, `%H%M%S.%f.log`. */
  function TimestampFile(t: Timestamp): (r: string)
    requires Valid(t)
    ensures |r| == 17
  {
    Pow10Widths();
    ZeroPad(t.hour, 2) + ZeroPad(t.minute, 2) + ZeroPad(t.second, 2) + "." + ZeroPad(t.microsecond, 6) + ".log"
  }

  /** `t.strftime('%Y/%m/%d/%H%M%S.%f.log')`: every field zero-padded to its width. */
  function TimestampPath(t: Timestamp): (r: string)
    requires Valid(t)
    ensures |r| == 28
  {
    Pow10Widths();
    ZeroPad(t.year, 4) + "/" + ZeroPad(t.month, 2) + "/" + ZeroPad(t.day, 2) + "/" + TimestampFile(t)
  }

  /** Reads a timestamp back from a path of the form `TimestampPath` writes. */
  function ParseTimestampPath(s: string): Option<Timestamp>
  {
    if |s| == 28 && s[4] == '/' && s[7] == '/' && s[10] == '/' && s[17] == '.' && s[24..] == ".log"
       && AllDigits(s[..4]) && AllDigits(s[5..7]) && AllDigits(s[8..10]) && AllDigits(s[11..13])
       && AllDigits(s[13..15]) && AllDigits(s[15..17]) && AllDigits(s[18..24])
    then Some(Timestamp(DigitsValue(s[..4]), DigitsValue(s[5..7]), DigitsValue(s[8..10]),
                        DigitsValue(s[11..13]), DigitsValue(s[13..15]), DigitsValue(s[15..17]),
                        DigitsValue(s[18..24])))
    else None
  }

  lemma TimestampFileSlices(t: Timestamp)
    requires Valid(t)
    ensures var f := TimestampFile(t);
      Pow10(2) == 100 && Pow10(6) == 1000000
      && f[..2] == ZeroPad(t.hour, 2) && f[2..4] == ZeroPad(t.minute, 2) && f[4..6] == ZeroPad(t.second, 2)
      && f[6] == '.' && f[7..13] == ZeroPad(t.microsecond, 6) && f[13..] == ".log"
  {
    Pow10Widths();
    var f := TimestampFile(t);
    var a := ZeroPad(t.hour, 2);
    var b := ZeroPad(t.minute, 2);
    var c := ZeroPad(t.second, 2);
    var d := ZeroPad(t.microsecond, 6);
    assert f == a + b + c + "." + d + ".log";
    assert f[..2] == a;
    assert f[2..4] == b;
    assert f[4..6] == c;
    assert f[7..13] == d;
  }

  lemma TimestampPathSlices(t: Timestamp)
    requires Valid(t)
    ensures var s := TimestampPath(t);
      Pow10(2) == 100 && Pow10(4) == 10000
      && s[..4] == ZeroPad(t.year, 4) && s[4] == '/' && s[5..7] == ZeroPad(t.month, 2) && s[7] == '/'
      && s[8..10] == ZeroPad(t.day, 2) && s[10] == '/' && s[11..] == TimestampFile(t)
  {
    Pow10Widths();
    var s := TimestampPath(t);
    var y := ZeroPad(t.year, 4);
    var m := ZeroPad(t.month, 2);
    var d := ZeroPad(t.day, 2);
    assert s == y + "/" + m + "/" + d + "/" + TimestampFile(t);
    assert s[..4] == y;
    assert s[5..7] == m;
    assert s[8..10] == d;
    assert s[11..] == TimestampFile(t);
  }

  /** The path names its timestamp: reading it back gives the timestamp. */
  lemma TimestampPathRoundTrip(t: Timestamp)
    requires Valid(t)
    ensures ParseTimestampPath(TimestampPath(t)) == Some(t)
  {
    var s := TimestampPath(t);
    TimestampPathSlices(t);
    TimestampFileSlices(t);
    var f := TimestampFile(t);
    assert s[11..13] == f[..2] && s[13..15] == f[2..4] && s[15..17] == f[4..6];
    assert s[17] == f[6] && s[18..24] == f[7..13] && s[24..] == f[13..];
  }

  /** Two commands run at different microseconds are logged to different files. */
  lemma TimestampPathInjective(t1: Timestamp, t2: Timestamp)
    requires Valid(t1) && Valid(t2) && t1 != t2
    ensures TimestampPath(t1) != TimestampPath(t2)
  {
    TimestampPathRoundTrip(t1);
    TimestampPathRoundTrip(t2);
  }

  lemma DigitsArePart(s: string)
    requires s != [] && AllDigits(s)
    ensures IsPart(s) && !HasPrefix(s, "/")
  {
    assert s[0] != '/' && s[0] != '.';
    forall i | 0 <= i < |s| ensures s[i] != '/' {
    }
  }

  /** The timestamp path is relative and made of the four parts year, month, day and
      time of day. */
  lemma TimestampPathParts(t: Timestamp)
    requires Valid(t)
    ensures Parse(TimestampPath(t)) ==
      PosixPath(false, [ZeroPad(t.year, 4), ZeroPad(t.month, 2), ZeroPad(t.day, 2), TimestampFile(t)])
  {
    Pow10Widths();
    var y := ZeroPad(t.year, 4);
    var m := ZeroPad(t.month, 2);
    var d := ZeroPad(t.day, 2);
    var f := TimestampFile(t);
    var s := TimestampPath(t);
    TimestampFileIsPart(t);
    DigitsArePart(y);
    DigitsArePart(m);
    DigitsArePart(d);
    TimestampPathSplit(t);
    DropEmptyKeepsParts([y, m, d, f]);
    TimestampPathSlices(t);
    assert s[0] == y[0];
  }

  lemma TimestampFileIsPart(t: Timestamp)
    requires Valid(t)
    ensures IsPart(TimestampFile(t))
  {
    var f := TimestampFile(t);
    TimestampFileSlices(t);
    forall i | 0 <= i < |f| ensures f[i] != '/' {
      if i < 2 { assert f[i] == f[..2][i]; }
      else if i < 4 { assert f[i] == f[2..4][i - 2]; }
      else if i < 6 { assert f[i] == f[4..6][i - 4]; }
      else if 7 <= i < 13 { assert f[i] == f[7..13][i - 7]; }
      else if i >= 13 { assert f[i] == f[13..][i - 13]; }
    }
    assert f[0] == f[..2][0];
  }

  lemma TimestampPathSplit(t: Timestamp)
    requires Valid(t)
    ensures Pow10(2) == 100 && Pow10(4) == 10000
    ensures Split(TimestampPath(t), '/') == [ZeroPad(t.year, 4), ZeroPad(t.month, 2), ZeroPad(t.day, 2), TimestampFile(t)]
  {
    Pow10Widths();
    var y := ZeroPad(t.year, 4);
    var m := ZeroPad(t.month, 2);
    var d := ZeroPad(t.day, 2);
    var f := TimestampFile(t);
    TimestampFileIsPart(t);
    DigitsArePart(y);
    DigitsArePart(m);
    DigitsArePart(d);
    assert TimestampPath(t) == y + ['/'] + (m + ['/'] + (d + ['/'] + f));
    SplitFour(y, m, d, f);
  }

  lemma SplitFour(y: string, m: string, d: string, f: string)
    requires '/' !in y && '/' !in m && '/' !in d && '/' !in f
    ensures Split(y + ['/'] + (m + ['/'] + (d + ['/'] + f)), '/') == [y, m, d, f]
  {
    var c := d + ['/'] + f;
    var b := m + ['/'] + c;
    SplitAfter(d, '/', f);
    assert Split(f, '/') == [f];
    assert Split(c, '/') == [d, f];
    SplitAfter(m, '/', c);
    assert Split(b, '/') == [m, d, f];
    SplitAfter(y, '/', b);
    assert [y] + [m, d, f] == [y, m, d, f];
  }

  /** `project_logs_dir / timestamp_path`. */
  function LogFile(logsDir: PosixPath, t: Timestamp): (r: PosixPath)
    requires Valid(t)
  {
    JoinPath(logsDir, TimestampPath(t))
  }

  /** The log file lies three directories (year, month, day) below the project's logs
      directory, and its parent is the directory `command_exec` creates. */
  lemma LogFileLocation(logsDir: PosixPath, t: Timestamp)
    requires Valid(t)
    ensures var r := LogFile(logsDir, t);
      r.absolute == logsDir.absolute
      && r.parts == logsDir.parts + [ZeroPad(t.year, 4), ZeroPad(t.month, 2), ZeroPad(t.day, 2), TimestampFile(t)]
      && Parent(r).parts == logsDir.parts + [ZeroPad(t.year, 4), ZeroPad(t.month, 2), ZeroPad(t.day, 2)]
  {
    TimestampPathParts(t);
    var r := LogFile(logsDir, t);
    assert r.parts[..|r.parts| - 1] == logsDir.parts + [ZeroPad(t.year, 4), ZeroPad(t.month, 2), ZeroPad(t.day, 2)];
  }

  // ---------------------------------------------------------------------------
  // The header

  /** The fields of a log header. `command` is the command as `json.dumps` encodes it;
      the encoder itself is not part of this model. */
  datatype Header = Header(command: string, user: string, repoPath: string, projectPath: string,
                           gitRevision: string, furoVersion: string, exitCode: int)

  /** The line prefixes, in order: the key, a colon, and spaces up to column 13. */
  const Labels: seq<string> := ["command:     ", "user:        ", "repoPath:    ", "projectPath: ",
                                "gitRevision: ", "furoVersion: ", "exitCode:    "]

  function Values(h: Header): seq<string>
  {
    [h.command, h.user, h.repoPath, h.projectPath, h.gitRevision, h.furoVersion, IntToString(h.exitCode)]
  }

  /** The seven `key: value` lines. */
  function HeaderLines(h: Header): (lines: seq<string>)
    ensures |lines| == 7
    ensures forall i :: 0 <= i < 7 ==> lines[i] == Labels[i] + Values(h)[i]
  {
    seq(7, i requires 0 <= i < 7 => Labels[i] + Values(h)[i])
  }

  /** What the first `open('w')` writes: the seven lines and a line `---`. */
  function HeaderText(h: Header): string
  {
    Unlines(HeaderLines(h) + ["---"])
  }

  /** No field holds a line break: `json.dumps` escapes them, and the other fields are
      single-line values. */
  predicate SingleLine(h: Header) {
    forall i :: 0 <= i < 6 ==> '\n' !in Values(h)[i]
  }

  /** Reads the fields back from a header's text. */
  function ParseHeader(text: string): Option<Header>
  {
    var lines := Split(text, '\n');
    if |lines| == 9 && lines[7] == "---" && lines[8] == ""
       && (forall i :: 0 <= i < 7 ==> HasPrefix(lines[i], Labels[i]))
       && ParseInt(lines[6][13..]).Some?
    then Some(Header(lines[0][13..], lines[1][13..], lines[2][13..], lines[3][13..],
                     lines[4][13..], lines[5][13..], ParseInt(lines[6][13..]).value))
    else None
  }

  lemma DecimalHasNoNewline(i: int)
    ensures '\n' !in IntToString(i)
  {
    var d := Decimal(if i < 0 then -i else i);
    assert forall k :: 0 <= k < |d| ==> d[k] != '\n';
    if i < 0 {
      assert IntToString(i) == "-" + d;
    }
  }

  lemma HeaderSingleLines(h: Header)
    requires SingleLine(h)
    ensures var lines := HeaderLines(h) + ["---"];
      forall i :: 0 <= i < |lines| ==> '\n' !in lines[i]
  {
    var lines := HeaderLines(h) + ["---"];
    DecimalHasNoNewline(h.exitCode);
    forall i | 0 <= i < |lines| ensures '\n' !in lines[i] {
      if i < 7 {
        assert '\n' !in Labels[i];
        assert '\n' !in Values(h)[i];
        assert lines[i] == Labels[i] + Values(h)[i];
      }
    }
  }

  /** A header loses nothing: its text gives back every field, the exit code included. */
  lemma HeaderRoundTrip(h: Header)
    requires SingleLine(h)
    ensures ParseHeader(HeaderText(h)) == Some(h)
  {
    var lines := HeaderLines(h) + ["---"];
    HeaderSingleLines(h);
    SplitUnlines(lines);
    var pieces := Split(HeaderText(h), '\n');
    assert pieces == lines + [""];
    forall i | 0 <= i < 7 ensures HasPrefix(pieces[i], Labels[i]) && pieces[i][13..] == Values(h)[i] {
      assert pieces[i] == Labels[i] + Values(h)[i];
      assert |Labels[i]| == 13;
    }
    ParseIntString(h.exitCode);
  }

  // ---------------------------------------------------------------------------
  // The file: header text, then the transcript's bytes

  /** The bytes of a log file: the header as UTF-8 text, then the transcript. */
  function RecordBytes(h: Header, transcript: seq<byte>): seq<byte>
  {
    Utf8(HeaderText(h)) + transcript
  }

  function IndexOfByte(b: seq<byte>, x: byte): (k: nat)
    ensures k <= |b|
    ensures k < |b| ==> b[k] == x
    ensures forall i :: 0 <= i < k ==> b[i] != x
  {
    if b == [] then 0 else if b[0] == x then 0 else 1 + IndexOfByte(b[1..], x)
  }

  /** Splits bytes after their `n`-th newline: the first `n` lines, and the rest. */
  function SplitAfterLines(b: seq<byte>, n: nat): (r: (seq<byte>, seq<byte>))
    ensures r.0 + r.1 == b
    decreases n
  {
    if n == 0 then ([], b)
    else
      var k := IndexOfByte(b, 10);
      if k == |b| then (b, [])
      else
        var rest := SplitAfterLines(b[k + 1..], n - 1);
        assert b[..k + 1] + (rest.0 + rest.1) == b;
        (b[..k + 1] + rest.0, rest.1)
  }

  /** Reading a log file back: its header, and the transcript that follows the `---` line. */
  function SplitRecord(b: seq<byte>): (seq<byte>, seq<byte>)
  {
    SplitAfterLines(b, 8)
  }

  lemma {:induction false} SplitAfterUnlines(lines: seq<string>, rest: seq<byte>)
    requires forall i :: 0 <= i < |lines| ==> '\n' !in lines[i]
    ensures SplitAfterLines(Utf8(Unlines(lines)) + rest, |lines|) == (Utf8(Unlines(lines)), rest)
  {
    if lines != [] {
      var first := Utf8(lines[0]);
      var tail := Utf8(Unlines(lines[1..]));
      Utf8Append(lines[0] + "\n", Unlines(lines[1..]));
      Utf8Append(lines[0], "\n");
      assert Utf8("\n") == [10];
      Utf8NoNewline(lines[0]);
      var b := Utf8(Unlines(lines)) + rest;
      assert b == first + [10] + (tail + rest);
      assert b[|first|] == 10;
      assert IndexOfByte(b, 10) == |first|;
      assert b[|first| + 1..] == tail + rest;
      assert b[..|first| + 1] == first + [10];
      SplitAfterUnlines(lines[1..], rest);
      assert first + [10] + tail == Utf8(Unlines(lines));
    } else {
      assert Utf8(Unlines(lines)) + rest == rest;
    }
  }

  /** The transcript is kept unchanged after the header: splitting the file after its
      `---` line gives exactly the header's text and the transcript, whatever bytes the
      transcript holds. */
  lemma RecordRoundTrip(h: Header, transcript: seq<byte>)
    requires SingleLine(h)
    ensures SplitRecord(RecordBytes(h, transcript)) == (Utf8(HeaderText(h)), transcript)
  {
    var lines := HeaderLines(h) + ["---"];
    HeaderSingleLines(h);
    SplitAfterUnlines(lines, transcript);
  }

  // ---------------------------------------------------------------------------
  // The headline

  /** The commit message: the command's words joined by spaces, marked when it failed. */
  function Headline(command: seq<string>, returnCode: int): string
  {
    (if returnCode != 0 then "[failed] " else "") + Join(command, " ")
  }

  /** Reads a headline back: whether it is marked as failed, and the command line. */
  function Summary(headline: string): (bool, string)
  {
    if HasPrefix(headline, "[failed] ") then (true, headline[9..]) else (false, headline)
  }

  /** The headline says whether the command failed and what it was, as long as the
      command line does not itself begin with the marker. */
  lemma HeadlineSummary(command: seq<string>, returnCode: int)
    requires !HasPrefix(Join(command, " "), "[failed] ")
    ensures Summary(Headline(command, returnCode)) == (returnCode != 0, Join(command, " "))
  {
    var j := Join(command, " ");
    if returnCode != 0 {
      assert Headline(command, returnCode) == "[failed] " + j;
      assert ("[failed] " + j)[..9] == "[failed] ";
      assert ("[failed] " + j)[9..] == j;
    } else {
      assert Headline(command, returnCode) == j;
    }
  }

  /** A command line that itself starts with the marker reads as failed even when it
      succeeded: the headline alone does not always tell. */
  lemma HeadlineAmbiguous()
    ensures Headline(["[failed]", "x"], 0) == Headline(["x"], 1)
  {
    assert Join(["[failed]", "x"], " ") == "[failed]" + " " + "x";
  }

  // ---------------------------------------------------------------------------
  // Writing the file

  /** What happened to the files: one written anew in text mode, bytes appended to one,
      or a directory removed with everything below it. */
  datatype FileEvent = Wrote(path: string, bytes: seq<byte>) | Appended(path: string, bytes: seq<byte>)
                     | RemovedTree(dir: string)

  /** `path` is the directory `dir` or lies below it. */
  predicate Under(path: string, dir: string) {
    path == dir || HasPrefix(path, dir + "/")
  }

  /** The files left after `shutil.rmtree(dir)`: exactly those not under `dir`, with
      their contents unchanged. */
  function Pruned(files: map<string, seq<byte>>, dir: string): (r: map<string, seq<byte>>)
    ensures forall p :: p in r <==> p in files && !Under(p, dir)
    ensures forall p :: p in r ==> r[p] == files[p]
  {
    map p | p in files && !Under(p, dir) :: files[p]
  }

  /** The files of the logs directory, with the writes made to them in order. */
  class FileStore {
    var files: map<string, seq<byte>>
    var events: seq<FileEvent>

    constructor (files: map<string, seq<byte>>)
      ensures this.files == files && events == []
    {
      this.files := files;
      events := [];
    }

    /** `open(path, 'w')`, write `text`, close. */
    method WriteText(path: string, text: string)
      modifies this
      ensures files == old(files)[path := Utf8(text)]
      ensures events == old(events) + [Wrote(path, Utf8(text))]
    {
      files := files[path := Utf8(text)];
      events := events + [Wrote(path, Utf8(text))];
    }

    /** `open(path, 'ab')`, write `bytes`, close. */
    method AppendBytes(path: string, bytes: seq<byte>)
      modifies this
      ensures files == old(files)[path := (if path in old(files) then old(files)[path] else []) + bytes]
      ensures events == old(events) + [Appended(path, bytes)]
    {
      var before := if path in files then files[path] else [];
      files := files[path := before + bytes];
      events := events + [Appended(path, bytes)];
    }

    /** `shutil.rmtree(dir)`. */
    method RemoveTree(dir: string)
      modifies this
      ensures files == Pruned(old(files), dir)
      ensures events == old(events) + [RemovedTree(dir)]
    {
      files := Pruned(files, dir);
      events := events + [RemovedTree(dir)];
    }

    /** Writes a log file in the source's two passes: the whole header is written and
        the file closed before the transcript is appended; the file then holds exactly
        the header's text and the transcript, and no other file changes. */
    method WriteRecord(path: string, h: Header, transcript: seq<byte>)
      modifies this
      ensures files == old(files)[path := RecordBytes(h, transcript)]
      ensures events == old(events) + [Wrote(path, Utf8(HeaderText(h))), Appended(path, transcript)]
    {
      WriteText(path, HeaderText(h));
      AppendBytes(path, transcript);
    }
  }
}
