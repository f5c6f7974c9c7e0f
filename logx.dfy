/**
 * The Logger of logx: its configuration, the chained setters, the
 * level-gated severity methods and `output`, which assembles a LogContent
 * from the field flags, renders it as text or JSON, appends a newline
 * and makes one write to the configured writer.
 *
 * What the Go runtime and libraries supply is an input here (Env):
 * the current instant (time.Now), the call site at a given depth
 * (runtime.Caller), message formatting (fmt.Sprintf) and JSON encoding
 * (encoding/json.Marshal).
 */
module Logx {
  import opened Severity
  import opened GoStrings
  import opened GoTime
  import opened Content

  // Field flags: bit positions of the Logger's flag word.
  const LogDate: bv64 := 1
  const LogTime: bv64 := 2
  const LogMicroSeconds: bv64 := 4
  const LogLongFile: bv64 := 8
  const LogShortFile: bv64 := 16
  const LogModule: bv64 := 32
  const LogLevel: bv64 := 64

  const StdFlags: bv64 := LogDate | LogMicroSeconds | LogShortFile | LogLevel

  // LogFormat values; any other value renders as text.
  const LogFormatText := 0
  const LogFormatJSON := 1

  /** What runtime.Caller reports: file name, line, and whether the frame could be resolved. */
  datatype Frame = Frame(file: string, line: int, ok: bool)

  /** An argument of a variadic log call; only the formatting function interprets it. */
  type Arg = string

  /** The collaborators the Go runtime provides to one log call. */
  datatype Env = Env(now: Moment, caller: int -> Frame, sprintf: (string, seq<Arg>) -> string,
                     encode: Payload -> string)

  /** How a log call ends: it returns, it panics with a value, or the process exits with a status. */
  datatype Outcome = Returned | Panicked(value: string) | Exited(code: int)

  /** The panic Go raises when output calls Write on a nil io.Writer. */
  const NilWriterPanic := "runtime error: invalid memory address or nil pointer dereference"

  /**
   * formatNum: the decimal rendering of i, padded by a case table on need minus its length:
   * 1 adds "0", 2 adds "00", 4 adds "000"; any other difference leaves the rendering as it is.
   */
  function FormatNum(i: int, need: int): string {
    var s := FormatInt(i);
    if s == "" then ""
    else
      var c := need - |s|;
      if c == 1 then "0" + s
      else if c == 2 then "00" + s
      else if c == 4 then "000" + s
      else s
  }

  /** Hour 3 becomes "03": a single digit at width 2 gets one leading zero. */
  lemma FormatNumTwoDigits(i: int)
    requires 0 <= i < 10
    ensures FormatNum(i, 2) == "0" + [DigitChar(i)]
  {
  }

  /** Millisecond 7 becomes "007"; a two-digit number at width 3 gets one leading zero. */
  lemma FormatNumThreeDigits(i: int)
    requires 0 <= i < 100
    ensures i < 10 ==> FormatNum(i, 3) == "00" + [DigitChar(i)]
    ensures 10 <= i ==> FormatNum(i, 3) == "0" + FormatInt(i)
  {
    DigitsLength(i);
  }

  /**
   * formatNum never truncates: the result is the decimal rendering preceded by at most three
   * zeros, and when need minus the length is not 1, 2 or 4 it is the rendering itself.
   */
  lemma FormatNumNeverTruncates(i: int, need: int)
    ensures var s := FormatInt(i); var r := FormatNum(i, need);
      |s| <= |r| <= |s| + 3 && r[|r| - |s|..] == s && (forall k :: 0 <= k < |r| - |s| ==> r[k] == '0')
    ensures need - |FormatInt(i)| !in {1, 2, 4} ==> FormatNum(i, need) == FormatInt(i)
  {
  }

  /** A year such as 2024 is left as it is at width 2. */
  lemma FormatNumKeepsYear()
    ensures FormatNum(2024, 2) == "2024"
  {
    assert FormatInt(2024) == "2024";
  }

  /** The odd entry of the table: a difference of 4 adds only three zeros, so 7 at width 5 is "0007". */
  lemma FormatNumDifferenceFour()
    ensures FormatNum(7, 5) == "0007"
  {
  }

  /** In the ranges the clock reports, widths 2 and 3 are exact: the field has that many digits and reads back. */
  lemma {:induction false} FormatNumFixedWidth(i: int, need: int)
    requires need == 2 || need == 3
    requires 0 <= i && (need == 2 ==> i < 100) && (need == 3 ==> i < 1000)
    ensures |FormatNum(i, need)| == need
    ensures AllDigits(FormatNum(i, need)) && ParseDigits(FormatNum(i, need)) == i
  {
    DigitsLength(i);
    ParseFormatInt(i);
    var s := FormatInt(i);
    if need - |s| == 1 {
      ParseLeadingZero(s);
    } else if need - |s| == 2 {
      ParseLeadingZero(s);
      ParseLeadingZero("0" + s);
      assert "00" + s == "0" + ("0" + s);
    }
  }

  /** The date part: "Y/MM/DD " with a trailing space. */
  function DatePart(t: Moment): string {
    FormatNum(t.year, 2) + "/" + FormatNum(t.month, 2) + "/" + FormatNum(t.day, 2) + " "
  }

  /** The milliseconds part, written only under LogMicroSeconds. */
  function MillisPart(flag: bv64, t: Moment): string {
    if flag & LogMicroSeconds != 0 then "." + FormatNum(t.nanosecond / 1000000, 3) else ""
  }

  /** "hh:mm:ss". */
  function Hms(t: Moment): string {
    FormatNum(t.hour, 2) + ":" + FormatNum(t.minute, 2) + ":" + FormatNum(t.second, 2)
  }

  /** The clock part: "hh:mm:ss" and the milliseconds part. */
  function ClockPart(flag: bv64, t: Moment): string {
    Hms(t) + MillisPart(flag, t)
  }

  /** The time field of a record, as output builds it from the date, time and microseconds flags. */
  function TimeStamp(flag: bv64, t: Moment): string {
    if flag & (LogDate | LogTime | LogMicroSeconds) == 0 then ""
    else
      (if flag & LogDate != 0 then DatePart(t) else "") +
      (if flag & (LogTime | LogMicroSeconds) != 0 then ClockPart(flag, t) else "")
  }

  /** The file name output reports: the caller's, or "???" when the frame could not be resolved. */
  function CallerName(f: Frame): string {
    if f.ok then f.file else "???"
  }

  function CallerLine(f: Frame): int {
    if f.ok then f.line else 0
  }

  /** The part of a path after its last '/'. */
  function ShortName(name: string): string {
    name[LastIndex(name, '/') + 1..]
  }

  /** The file field for a resolved name and line: "name:line", the name shortened under LogShortFile; empty without a file flag. */
  function FileText(flag: bv64, name: string, line: int): string {
    if flag & (LogShortFile | LogLongFile) == 0 then ""
    else (if flag & LogShortFile != 0 then ShortName(name) else name) + ":" + FormatInt(line)
  }

  /** The file field of the call site a frame describes. */
  function CallSite(flag: bv64, f: Frame): string {
    FileText(flag, CallerName(f), CallerLine(f))
  }

  /** The record output assembles in a fresh LogContent. */
  function Assemble(flag: bv64, prefix: string, color: bool, level: int, msg: string, t: Moment, f: Frame): Record {
    Record(prefix, TimeStamp(flag, t), "", CallSite(flag, f), msg, color,
           if flag & LogLevel != 0 then level else 0)
  }

  /** The bytes output hands to the writer: the Text or JSON rendering and a newline. */
  function Render(format: int, r: Record, encode: Payload -> string): string
    requires ValidLevel(r.levelInt)
  {
    (if format == LogFormatText then RenderText(r)
     else if format == LogFormatJSON then RenderJson(Resolved(r), encode)
     else RenderText(r)) + "\n"
  }

  /** The time field is set exactly when one of the date, time and microseconds flags is. */
  lemma TimeSetOnlyUnderFlags(flag: bv64, t: Moment)
    ensures TimeStamp(flag, t) == "" <==> flag & (LogDate | LogTime | LogMicroSeconds) == 0
  {
    if flag & (LogDate | LogTime | LogMicroSeconds) != 0 {
      if flag & LogDate != 0 {
        assert |DatePart(t)| > 0;
      } else {
        assert flag & (LogTime | LogMicroSeconds) != 0;
        assert |ClockPart(flag, t)| > 0;
      }
    }
  }

  /**
   * The shape of the time field: the date part has ten characters plus a space for a four-digit
   * year, the clock part eight, and ".mmm" adds four exactly under LogMicroSeconds.
   */
  lemma TimeStampWidths(flag: bv64, t: Moment)
    requires ValidMoment(t) && 1000 <= t.year
    ensures |DatePart(t)| == 11
    ensures |ClockPart(flag, t)| == if flag & LogMicroSeconds != 0 then 12 else 8
    ensures |TimeStamp(flag, t)| ==
      (if flag & LogDate != 0 then 11 else 0) +
      (if flag & (LogTime | LogMicroSeconds) != 0 then (if flag & LogMicroSeconds != 0 then 12 else 8) else 0)
  {
    DigitsLength(t.year);
    FormatNumFixedWidth(t.month, 2);
    FormatNumFixedWidth(t.day, 2);
    FormatNumFixedWidth(t.hour, 2);
    FormatNumFixedWidth(t.minute, 2);
    FormatNumFixedWidth(t.second, 2);
    FormatNumFixedWidth(t.nanosecond / 1000000, 3);
  }

  /** The columns of the date part for a four-digit year: "YYYY/MM/DD ". */
  lemma DatePartColumns(t: Moment)
    requires ValidMoment(t) && 1000 <= t.year
    ensures var d := DatePart(t);
      |d| == 11 && d[4] == '/' && d[7] == '/' && d[10] == ' ' &&
      d[0..4] == FormatInt(t.year) && d[5..7] == FormatNum(t.month, 2) && d[8..10] == FormatNum(t.day, 2)
  {
    DigitsLength(t.year);
    var y := FormatNum(t.year, 2);
    assert y == FormatInt(t.year);
    var mo := FormatNum(t.month, 2);
    var da := FormatNum(t.day, 2);
    FormatNumFixedWidth(t.month, 2);
    FormatNumFixedWidth(t.day, 2);
    DateColumns(y, mo, da);
  }

  lemma DateColumns(y: string, mo: string, da: string)
    requires |y| == 4 && |mo| == 2 && |da| == 2
    ensures var d := y + "/" + mo + "/" + da + " ";
      |d| == 11 && d[4] == '/' && d[7] == '/' && d[10] == ' ' && d[0..4] == y && d[5..7] == mo && d[8..10] == da
  {
    var d := y + "/" + mo + "/" + da + " ";
    assert d[0..4] == y;
    assert d[5..7] == mo;
    assert d[8..10] == da;
  }

  /** The columns of the clock part under LogMicroSeconds: "hh:mm:ss.mmm". */
  lemma ClockPartColumns(flag: bv64, t: Moment)
    requires ValidMoment(t) && flag & LogMicroSeconds != 0
    ensures var c := ClockPart(flag, t);
      |c| == 12 && c[2] == ':' && c[5] == ':' && c[8] == '.' &&
      c[0..2] == FormatNum(t.hour, 2) && c[3..5] == FormatNum(t.minute, 2) &&
      c[6..8] == FormatNum(t.second, 2) && c[9..12] == FormatNum(t.nanosecond / 1000000, 3)
  {
    var h := FormatNum(t.hour, 2);
    var mi := FormatNum(t.minute, 2);
    var se := FormatNum(t.second, 2);
    var ms := FormatNum(t.nanosecond / 1000000, 3);
    FormatNumFixedWidth(t.hour, 2);
    FormatNumFixedWidth(t.minute, 2);
    FormatNumFixedWidth(t.second, 2);
    FormatNumFixedWidth(t.nanosecond / 1000000, 3);
    assert ClockPart(flag, t) == h + ":" + mi + ":" + se + ("." + ms);
    ClockColumns(h, mi, se, ms);
  }

  lemma ClockColumns(h: string, mi: string, se: string, ms: string)
    requires |h| == 2 && |mi| == 2 && |se| == 2 && |ms| == 3
    ensures var c := h + ":" + mi + ":" + se + ("." + ms);
      |c| == 12 && c[2] == ':' && c[5] == ':' && c[8] == '.' &&
      c[0..2] == h && c[3..5] == mi && c[6..8] == se && c[9..12] == ms
  {
    var c := h + ":" + mi + ":" + se + ("." + ms);
    assert c[0..2] == h;
    assert c[3..5] == mi;
    assert c[6..8] == se;
    assert c[9..12] == ms;
  }

  /**
   * Under the standard flags the time field is "YYYY/MM/DD hh:mm:ss.mmm" at fixed positions:
   * every component reads back from its columns, whatever its magnitude.
   */
  lemma StdTimeStampRoundTrip(t: Moment)
    requires ValidMoment(t) && 1000 <= t.year
    ensures var s := TimeStamp(StdFlags, t);
      |s| == 23 &&
      s[4] == '/' && s[7] == '/' && s[10] == ' ' && s[13] == ':' && s[16] == ':' && s[19] == '.' &&
      AllDigits(s[0..4]) && ParseDigits(s[0..4]) == t.year &&
      AllDigits(s[5..7]) && ParseDigits(s[5..7]) == t.month &&
      AllDigits(s[8..10]) && ParseDigits(s[8..10]) == t.day &&
      AllDigits(s[11..13]) && ParseDigits(s[11..13]) == t.hour &&
      AllDigits(s[14..16]) && ParseDigits(s[14..16]) == t.minute &&
      AllDigits(s[17..19]) && ParseDigits(s[17..19]) == t.second &&
      AllDigits(s[20..23]) && ParseDigits(s[20..23]) == t.nanosecond / 1000000
  {
    StdStampColumns(t);
    ParseFormatInt(t.year);
    FormatNumFixedWidth(t.month, 2);
    FormatNumFixedWidth(t.day, 2);
    FormatNumFixedWidth(t.hour, 2);
    FormatNumFixedWidth(t.minute, 2);
    FormatNumFixedWidth(t.second, 2);
    FormatNumFixedWidth(t.nanosecond / 1000000, 3);
  }

  lemma StdStampColumns(t: Moment)
    requires ValidMoment(t) && 1000 <= t.year
    ensures var s := TimeStamp(StdFlags, t);
      |s| == 23 &&
      s[4] == '/' && s[7] == '/' && s[10] == ' ' && s[13] == ':' && s[16] == ':' && s[19] == '.' &&
      s[0..4] == FormatInt(t.year) && s[5..7] == FormatNum(t.month, 2) && s[8..10] == FormatNum(t.day, 2) &&
      s[11..13] == FormatNum(t.hour, 2) && s[14..16] == FormatNum(t.minute, 2) &&
      s[17..19] == FormatNum(t.second, 2) && s[20..23] == FormatNum(t.nanosecond / 1000000, 3)
  {
    var d := DatePart(t);
    var c := ClockPart(StdFlags, t);
    DatePartColumns(t);
    ClockPartColumns(StdFlags, t);
    StdStampSplit(t);
    JoinColumns(d, c);
  }

  lemma JoinColumns(d: string, c: string)
    requires |d| == 11 && |c| == 12
    ensures var s := d + c;
      |s| == 23 && s[4] == d[4] && s[7] == d[7] && s[10] == d[10] &&
      s[13] == c[2] && s[16] == c[5] && s[19] == c[8] &&
      s[0..4] == d[0..4] && s[5..7] == d[5..7] && s[8..10] == d[8..10] &&
      s[11..13] == c[0..2] && s[14..16] == c[3..5] && s[17..19] == c[6..8] && s[20..23] == c[9..12]
  {
  }

  lemma StdStampSplit(t: Moment)
    ensures TimeStamp(StdFlags, t) == DatePart(t) + ClockPart(StdFlags, t)
  {
    assert StdFlags & LogDate != 0;
    assert StdFlags & (LogTime | LogMicroSeconds) != 0;
  }

  /** The short name holds no '/', ends the full name, and follows the name's last '/' when there is one. */
  lemma ShortNameIsLastElement(name: string)
    ensures var s := ShortName(name);
      '/' !in s && |s| <= |name| && name[|name| - |s|..] == s &&
      ('/' in name ==> name[|name| - |s| - 1] == '/') &&
      ('/' !in name ==> s == name)
  {
    var i := LastIndex(name, '/');
    var s := ShortName(name);
    assert s == name[i + 1..];
    assert |name| - |s| == i + 1;
    assert '/' !in s by {
      forall k | 0 <= k < |s| ensures s[k] != '/' {
        assert s[k] == name[i + 1 + k];
      }
    }
    if '/' in name {
      var k :| 0 <= k < |name| && name[k] == '/';
      assert i >= 0 && name[i] == '/';
    } else {
      assert i == -1;
    }
  }

  /** A frame that cannot be resolved reports "???:0", shortened or not. */
  lemma CallSiteFallback(flag: bv64, f: Frame)
    requires !f.ok && flag & (LogShortFile | LogLongFile) != 0
    ensures CallSite(flag, f) == "???:0"
  {
    UnknownShortName();
    FormatZero();
    var name := if flag & LogShortFile != 0 then ShortName("???") else "???";
    assert name == "???";
    assert CallSite(flag, f) == name + ":" + FormatInt(0);
    UnknownSite();
  }

  lemma UnknownSite()
    ensures "???" + ":" + "0" == "???:0"
  {
  }

  lemma UnknownShortName()
    ensures ShortName("???") == "???"
  {
    var u := "???";
    assert u[2] != '/' && u[1] != '/' && u[0] != '/';
    assert LastIndex(u, '/') == -1;
  }

  lemma FormatZero()
    ensures FormatInt(0) == "0"
  {
  }

  /** A resolved frame reports its line in decimal after the name and a colon. */
  lemma CallSiteResolved(flag: bv64, f: Frame)
    requires f.ok && flag & (LogShortFile | LogLongFile) != 0
    ensures flag & LogShortFile != 0 ==> CallSite(flag, f) == ShortName(f.file) + ":" + FormatInt(f.line)
    ensures flag & LogShortFile == 0 ==> CallSite(flag, f) == f.file + ":" + FormatInt(f.line)
  {
  }

  /** The rendered bytes end in a newline; JSON is chosen only by LogFormatJSON, every other value is text. */
  lemma RenderDispatch(format: int, r: Record, encode: Payload -> string)
    requires ValidLevel(r.levelInt)
    ensures var b := Render(format, r, encode); |b| > 0 && b[|b| - 1] == '\n'
    ensures format == LogFormatJSON ==> Render(format, r, encode) == RenderJson(Resolved(r), encode) + "\n"
    ensures format != LogFormatJSON ==> Render(format, r, encode) == Render(LogFormatText, r, encode)
  {
  }

  /**
   * Without LogLevel the text still carries a bracketed level: the record's LevelInt stays 0,
   * so "[TEST]" is written whatever the severity of the call.
   */
  lemma LevelTokenWithoutFlag(flag: bv64, prefix: string, level: int, msg: string, t: Moment, f: Frame)
    requires flag & LogLevel == 0
    ensures var r := Assemble(flag, prefix, false, level, msg, t, f);
      r.levelInt == LevelTest && RenderText(r) == PrefixToken(prefix) + r.time + " [TEST] " + r.file + ": " + msg
  {
    var r := Assemble(flag, prefix, false, level, msg, t, f);
    assert r.levelInt == 0;
    assert LevelToken(0) == " [TEST] ";
    assert RenderText(r) == TextBody(r);
  }

  /** A writer that records every byte sequence written to it, one entry per Write call. */
  class Writer {
    var writes: seq<string>

    constructor ()
      ensures writes == []
    {
      writes := [];
    }

    method Write(p: string) returns (n: int)
      modifies this
      ensures writes == old(writes) + [p] && n == |p|
    {
      writes := writes + [p];
      n := |p|;
    }
  }

  /** The configuration fields of a Logger, as one value. */
  datatype Settings = Settings(w: Writer?, level: int, flag: bv64, callDepth: int, prefix: string,
                               color: bool, logFormat: int)

  class Logger {
    var w: Writer?
    var level: int
    var flag: bv64
    var callDepth: int
    var prefix: string
    var color: bool
    var logFormat: int

    function Get(): Settings
      reads this
    {
      Settings(w, level, flag, callDepth, prefix, color, logFormat)
    }

    /** New(writer...): standard flags, level 0, call depth 2, the first writer if any. */
    constructor New(writer: seq<Writer?>)
      ensures Get() == Settings(if |writer| > 0 then writer[0] else null, 0, StdFlags, 2, "", false, LogFormatText)
    {
      var first: Writer? := null;
      if |writer| > 0 {
        first := writer[0];
      }
      flag := StdFlags;
      level := 0;
      w := first;
      callDepth := 2;
      prefix := "";
      color := false;
      logFormat := LogFormatText;
    }

    method SetWriter(writer: Writer?) returns (r: Logger)
      modifies this
      ensures r == this && Get() == old(Get()).(w := writer)
    {
      w := writer;
      r := this;
    }

    method SetPrefix(p: string) returns (r: Logger)
      modifies this
      ensures r == this && Get() == old(Get()).(prefix := p)
    {
      prefix := p;
      r := this;
    }

    method SetFlag(f: bv64) returns (r: Logger)
      modifies this
      ensures r == this && Get() == old(Get()).(flag := f)
    {
      flag := f;
      r := this;
    }

    method SetLevel(l: int) returns (r: Logger)
      modifies this
      ensures r == this && Get() == old(Get()).(level := l)
    {
      level := l;
      r := this;
    }

    method SetColor(c: bool) returns (r: Logger)
      modifies this
      ensures r == this && Get() == old(Get()).(color := c)
    {
      color := c;
      r := this;
    }

    method SetFormat(format: int) returns (r: Logger)
      modifies this
      ensures r == this && Get() == old(Get()).(logFormat := format)
    {
      logFormat := format;
      r := this;
    }

    method SetCallDepth(depth: int) returns (r: Logger)
      modifies this
      ensures r == this && Get() == old(Get()).(callDepth := depth)
    {
      callDepth := depth;
      r := this;
    }

    method SetCallDepthPlus() returns (r: Logger)
      modifies this
      ensures r == this && Get() == old(Get()).(callDepth := old(callDepth) + 1)
    {
      callDepth := callDepth + 1;
      r := this;
    }

    function GetCallDepth(): int
      reads this
    {
      callDepth
    }

    /** The bytes a call at this level writes, under the current configuration. */
    function Line(lvl: int, msg: string, env: Env): string
      requires ValidLevel(lvl)
      reads this
    {
      var r := Assemble(flag, prefix, color, lvl, msg, env.now, env.caller(callDepth));
      Render(logFormat, r, env.encode)
    }

    /**
     * What a severity method at level lvl does, given the writes before the call: below the
     * threshold nothing; otherwise one write of Line(lvl, msg, env) and then `final` (return,
     * panic or exit), or the nil-writer panic when no writer is set.
     */
    ghost predicate Logged(lvl: int, msg: string, env: Env, before: seq<string>, outcome: Outcome, final: Outcome)
      requires ValidLevel(lvl)
      reads this, w
    {
      if lvl < level then outcome == Returned && (w != null ==> w.writes == before)
      else if w == null then outcome == Panicked(NilWriterPanic)
      else w.writes == before + [Line(lvl, msg, env)] && outcome == final
    }

    /** output: assembles the record, renders it, appends '\n' and makes one write. */
    method Output(lvl: int, msg: string, env: Env) returns (delivered: bool)
      requires ValidLevel(lvl)
      modifies w
      ensures delivered == (w != null)
      ensures w != null ==> w.writes == old(w.writes) + [Line(lvl, msg, env)]
    {
      var cc := NewContent(flag, prefix, color, lvl, msg, env.now, env.caller(callDepth));
      var s := Encode(cc, logFormat, env.encode);
      if w == null {
        return false;
      }
      var _ := w.Write(s);
      delivered := true;
    }

    method Info(format: string, v: seq<Arg>, env: Env) returns (outcome: Outcome)
      modifies w
      ensures Logged(LevelInfo, env.sprintf(format, v), env, if w == null then [] else old(w.writes), outcome, Returned)
    {
      if LevelInfo < level {
        return Returned;
      }
      var delivered := Output(LevelInfo, env.sprintf(format, v), env);
      outcome := if delivered then Returned else Panicked(NilWriterPanic);
    }

    method Debug(format: string, v: seq<Arg>, env: Env) returns (outcome: Outcome)
      modifies w
      ensures Logged(LevelDebug, env.sprintf(format, v), env, if w == null then [] else old(w.writes), outcome, Returned)
    {
      if LevelDebug < level {
        return Returned;
      }
      var delivered := Output(LevelDebug, env.sprintf(format, v), env);
      outcome := if delivered then Returned else Panicked(NilWriterPanic);
    }

    method Notice(format: string, v: seq<Arg>, env: Env) returns (outcome: Outcome)
      modifies w
      ensures Logged(LevelNotice, env.sprintf(format, v), env, if w == null then [] else old(w.writes), outcome, Returned)
    {
      if LevelNotice < level {
        return Returned;
      }
      var delivered := Output(LevelNotice, env.sprintf(format, v), env);
      outcome := if delivered then Returned else Panicked(NilWriterPanic);
    }

    method Error(format: string, v: seq<Arg>, env: Env) returns (outcome: Outcome)
      modifies w
      ensures Logged(LevelError, env.sprintf(format, v), env, if w == null then [] else old(w.writes), outcome, Returned)
    {
      if LevelError < level {
        return Returned;
      }
      var delivered := Output(LevelError, env.sprintf(format, v), env);
      outcome := if delivered then Returned else Panicked(NilWriterPanic);
    }

    method Warn(format: string, v: seq<Arg>, env: Env) returns (outcome: Outcome)
      modifies w
      ensures Logged(LevelWarn, env.sprintf(format, v), env, if w == null then [] else old(w.writes), outcome, Returned)
    {
      if LevelWarn < level {
        return Returned;
      }
      var delivered := Output(LevelWarn, env.sprintf(format, v), env);
      outcome := if delivered then Returned else Panicked(NilWriterPanic);
    }

    /** Panic: emits the record, then panics with the same formatted message. */
    method Panic(format: string, v: seq<Arg>, env: Env) returns (outcome: Outcome)
      modifies w
      ensures Logged(LevelPanic, env.sprintf(format, v), env, if w == null then [] else old(w.writes), outcome,
                     Panicked(env.sprintf(format, v)))
    {
      if LevelPanic < level {
        return Returned;
      }
      var s := env.sprintf(format, v);
      var delivered := Output(LevelPanic, s, env);
      if !delivered {
        return Panicked(NilWriterPanic);
      }
      outcome := Panicked(s);
    }

    /** Fatal: emits the record, then exits the process with status -1. */
    method Fatal(format: string, v: seq<Arg>, env: Env) returns (outcome: Outcome)
      modifies w
      ensures Logged(LevelFatal, env.sprintf(format, v), env, if w == null then [] else old(w.writes), outcome, Exited(-1))
    {
      if LevelFatal < level {
        return Returned;
      }
      var delivered := Output(LevelFatal, env.sprintf(format, v), env);
      if !delivered {
        return Panicked(NilWriterPanic);
      }
      outcome := Exited(-1);
    }
  }

  /** The first half of output: a fresh LogContent filled field by field from the configuration and the call. */
  method NewContent(flag: bv64, prefix: string, color: bool, lvl: int, msg: string, now: Moment, frame: Frame)
    returns (cc: LogContent)
    requires ValidLevel(lvl)
    ensures fresh(cc)
    ensures cc.View() == Assemble(flag, prefix, color, lvl, msg, now, frame)
  {
    var name, line := Locate(flag, frame);
    var time, levelInt, file := FlagFields(flag, lvl, now, name, line);
    AssembleFields(flag, prefix, color, lvl, msg, now, frame, name, line, time, levelInt, file);
    cc := new LogContent();
    cc.color := color;
    if prefix != "" {
      cc.prefix := prefix;
    }
    cc.time, cc.levelInt, cc.file, cc.msg := time, levelInt, file, msg;
  }

  /** The fields the flags switch on: the time stamp, the level and the caller's file; each left at its zero value otherwise. */
  method FlagFields(flag: bv64, lvl: int, now: Moment, name: string, line: int)
    returns (time: string, levelInt: int, file: string)
    ensures time == if flag & (LogDate | LogTime | LogMicroSeconds) != 0 then TimeStamp(flag, now) else ""
    ensures levelInt == if flag & LogLevel != 0 then lvl else 0
    ensures file == if flag & (LogShortFile | LogLongFile) != 0 then FileText(flag, name, line) else ""
  {
    time, levelInt, file := "", 0, "";
    if flag & (LogDate | LogTime | LogMicroSeconds) != 0 {
      time := TimeField(flag, now);
    }
    if flag & LogLevel != 0 {
      levelInt := lvl;
    }
    if flag & (LogShortFile | LogLongFile) != 0 {
      file := FileField(flag, name, line);
    }
  }

  lemma AssembleFields(flag: bv64, prefix: string, color: bool, lvl: int, msg: string, now: Moment, frame: Frame,
                       name: string, line: int, time: string, levelInt: int, file: string)
    requires flag & (LogShortFile | LogLongFile) != 0 ==> name == CallerName(frame) && line == CallerLine(frame)
    requires time == if flag & (LogDate | LogTime | LogMicroSeconds) != 0 then TimeStamp(flag, now) else ""
    requires levelInt == if flag & LogLevel != 0 then lvl else 0
    requires file == if flag & (LogShortFile | LogLongFile) != 0 then FileText(flag, name, line) else ""
    ensures Assemble(flag, prefix, color, lvl, msg, now, frame) == Record(prefix, time, "", file, msg, color, levelInt)
  {
  }

  /** The caller's file and line at the given depth, looked up only when a file flag is set. */
  method Locate(flag: bv64, f: Frame) returns (name: string, line: int)
    ensures flag & (LogShortFile | LogLongFile) != 0 ==> name == CallerName(f) && line == CallerLine(f)
  {
    name, line := "", 0;
    if flag & (LogShortFile | LogLongFile) != 0 {
      name, line := f.file, f.line;
      if !f.ok {
        name := "???";
        line := 0;
      }
    }
  }

  /** The time field as output writes it into its buffer, piece by piece. */
  method TimeField(flag: bv64, now: Moment) returns (s: string)
    ensures s == TimeStamp(flag, now)
  {
    s := "";
    if flag & LogDate != 0 {
      s := s + FormatNum(now.year, 2);
      assert s == FormatNum(now.year, 2);
      s := s + "/";
      s := s + FormatNum(now.month, 2);
      s := s + "/";
      s := s + FormatNum(now.day, 2);
      s := s + " ";
      DateStep(now);
    }
    ghost var date := s;
    assert date == if flag & LogDate != 0 then DatePart(now) else "";
    if flag & (LogTime | LogMicroSeconds) != 0 {
      s := s + FormatNum(now.hour, 2);
      s := s + ":";
      s := s + FormatNum(now.minute, 2);
      s := s + ":";
      s := s + FormatNum(now.second, 2);
      HmsStep(date, now);
      if flag & LogMicroSeconds != 0 {
        s := s + ".";
        s := s + FormatNum(now.nanosecond / 1000000, 3);
      }
      MillisStep(date, flag, now);
    }
    TimeStampSplit(flag, now, date, s);
  }

  /** The file field: the name, shortened after its last '/' under LogShortFile, a colon and the line. */
  method FileField(flag: bv64, name: string, line: int) returns (s: string)
    requires flag & (LogShortFile | LogLongFile) != 0
    ensures s == FileText(flag, name, line)
  {
    var n := name;
    if flag & LogShortFile != 0 {
      var i := LastIndex(n, '/');
      n := n[i + 1..];
    }
    s := "";
    s := s + n;
    assert s == n;
    s := s + ":";
    s := s + FormatInt(line);
  }

  /** The switch on the format and the trailing newline; Json resolves the level name in place. */
  method Encode(cc: LogContent, format: int, encode: Payload -> string) returns (s: string)
    requires ValidLevel(cc.levelInt)
    modifies cc
    ensures s == Render(format, old(cc.View()), encode)
  {
    ghost var r := cc.View();
    var b: string;
    if format == LogFormatText {
      b := cc.Text();
    } else if format == LogFormatJSON {
      b := Json(cc, encode);
      assert cc.View() == Resolved(r);
    } else {
      b := cc.Text();
    }
    s := "";
    s := s + b;
    assert s == b;
    s := s + ['\n'];
  }

  lemma TimeStampSplit(flag: bv64, t: Moment, date: string, s: string)
    requires date == if flag & LogDate != 0 then DatePart(t) else ""
    requires s == if flag & (LogTime | LogMicroSeconds) != 0 then date + ClockPart(flag, t) else date
    ensures s == TimeStamp(flag, t)
  {
  }

  lemma DateStep(t: Moment)
    ensures FormatNum(t.year, 2) + "/" + FormatNum(t.month, 2) + "/" + FormatNum(t.day, 2) + " " == DatePart(t)
  {
  }

  lemma HmsStep(date: string, t: Moment)
    ensures date + FormatNum(t.hour, 2) + ":" + FormatNum(t.minute, 2) + ":" + FormatNum(t.second, 2)
      == date + Hms(t)
  {
  }

  lemma MillisStep(date: string, flag: bv64, t: Moment)
    ensures flag & LogMicroSeconds != 0 ==>
      date + Hms(t) + "." + FormatNum(t.nanosecond / 1000000, 3) == date + ClockPart(flag, t)
    ensures flag & LogMicroSeconds == 0 ==> date + Hms(t) == date + ClockPart(flag, t)
  {
    var m := MillisPart(flag, t);
    assert date + Hms(t) + m == date + (Hms(t) + m);
    if flag & LogMicroSeconds != 0 {
      assert date + Hms(t) + "." + FormatNum(t.nanosecond / 1000000, 3) == date + Hms(t) + m;
    }
  }
}
