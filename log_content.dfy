/**
 * The log record (LogContent) and its two renderers. Text lays the fields
 * out as "[prefix] time [LEVL] file: msg"; Json hands the record, with the
 * level name resolved, to a JSON serialiser. Both optionally wrap the
 * result in the level's SGR colour sequence and the reset sequence.
 *
 * The serialiser (encoding/json.Marshal) is a parameter of the model:
 * Payload lists exactly the fields it sees, so Color and LevelInt, which
 * the source tags `json:"-"`, cannot reach the encoded bytes.
 */
module Content {
  import opened Severity

  /** The value of a LogContent object. */
  datatype Record = Record(prefix: string, time: string, level: string, file: string, msg: string,
                           color: bool, levelInt: int)

  /** The fields json.Marshal serialises, as "prefix", "time", "level", "file" and "msg". */
  datatype Payload = Payload(prefix: string, time: string, level: string, file: string, msg: string)

  /** The opening colour sequence, present only when colour is on. */
  function ColorOpen(r: Record): string
    requires ValidLevel(r.levelInt)
  {
    if r.color then LogColor[r.levelInt] else ""
  }

  /** The closing reset sequence, present only when colour is on. */
  function ColorClose(r: Record): string {
    if r.color then EndColor else ""
  }

  /** The bracketed prefix and its trailing space, or nothing for an empty prefix. */
  function PrefixToken(prefix: string): string {
    if prefix != "" then "[" + prefix + "] " else ""
  }

  /** The level name between brackets, with the separating spaces on both sides. */
  function LevelToken(levelInt: int): string
    requires ValidLevel(levelInt)
  {
    " [" + Levels[levelInt] + "] "
  }

  /** The uncoloured layout: optional prefix, time, bracketed level name, file, ": ", message. */
  function TextBody(r: Record): string
    requires ValidLevel(r.levelInt)
  {
    PrefixToken(r.prefix) + r.time + LevelToken(r.levelInt) + r.file + ": " + r.msg
  }

  /** The text rendering: the layout, in colour if asked. */
  function RenderText(r: Record): string
    requires ValidLevel(r.levelInt)
  {
    ColorOpen(r) + TextBody(r) + ColorClose(r)
  }

  /** What json.Marshal serialises: the five tagged fields, Level as the record holds it. */
  function PayloadOf(r: Record): Payload {
    Payload(r.prefix, r.time, r.level, r.file, r.msg)
  }

  /** The record after Json's first step: Level set to the name of LevelInt. */
  function Resolved(r: Record): Record
    requires ValidLevel(r.levelInt)
  {
    r.(level := Levels[r.levelInt])
  }

  /** The JSON rendering of a non-nil record, colour sequences outside the encoded object. */
  function RenderJson(r: Record, encode: Payload -> string): string
    requires ValidLevel(r.levelInt)
  {
    ColorOpen(r) + encode(PayloadOf(r)) + ColorClose(r)
  }

  class LogContent {
    var prefix: string
    var time: string
    var level: string
    var file: string
    var msg: string
    var color: bool
    var levelInt: int

    function View(): Record
      reads this
    {
      Record(prefix, time, level, file, msg, color, levelInt)
    }

    /** new(LogContent): every field at Go's zero value. */
    constructor ()
      ensures View() == Record("", "", "", "", "", false, 0)
    {
      prefix, time, level, file, msg := "", "", "", "", "";
      color, levelInt := false, 0;
    }

    /** (*LogContent).Text: writes the layout piece by piece into a fresh buffer. */
    method Text() returns (b: string)
      requires ValidLevel(levelInt)
      ensures b == RenderText(View())
    {
      var s := "";
      if color {
        s := s + LogColor[levelInt];
        assert s == LogColor[levelInt];
      }
      ghost var open := s;
      if prefix != "" {
        s := s + "[";
        s := s + prefix;
        s := s + "]";
        s := s + [' '];
        PrefixStep(open, prefix);
      }
      ghost var head := s;
      assert head == open + PrefixToken(prefix);
      s := s + time;
      s := s + [' '];
      s := s + "[";
      s := s + Levels[levelInt];
      s := s + "]";
      s := s + [' '];
      LevelStep(head, time, levelInt);
      s := s + file;
      s := s + ": ";
      s := s + msg;
      BodyStep(open, View());
      assert s == open + TextBody(View());
      assert open == ColorOpen(View());
      if color {
        s := s + EndColor;
      }
      b := s;
    }
  }

  lemma PrefixStep(open: string, prefix: string)
    requires prefix != ""
    ensures open + "[" + prefix + "]" + [' '] == open + PrefixToken(prefix)
  {
  }

  lemma LevelStep(head: string, time: string, levelInt: int)
    requires ValidLevel(levelInt)
    ensures head + time + [' '] + "[" + Levels[levelInt] + "]" + [' '] == head + time + LevelToken(levelInt)
  {
  }

  lemma BodyStep(open: string, r: Record)
    requires ValidLevel(r.levelInt)
    ensures open + PrefixToken(r.prefix) + r.time + LevelToken(r.levelInt) + r.file + ": " + r.msg
      == open + TextBody(r)
  {
  }

  /**
   * (*LogContent).Json: a nil record gives no bytes; otherwise Level is set in place to the
   * name of LevelInt, the record is serialised, and the colour sequences go around it.
   */
  method Json(cc: LogContent?, encode: Payload -> string) returns (b: string)
    requires cc != null ==> ValidLevel(cc.levelInt)
    modifies cc
    ensures cc == null ==> b == ""
    ensures cc != null ==> cc.View() == Resolved(old(cc.View()))
    ensures cc != null ==> b == RenderJson(cc.View(), encode)
  {
    if cc == null {
      return "";
    }
    cc.level := Levels[cc.levelInt];
    var s := "";
    var bytes := encode(PayloadOf(cc.View()));
    if cc.color {
      s := s + LogColor[cc.levelInt];
      assert s == LogColor[cc.levelInt];
    }
    s := s + bytes;
    if cc.color {
      s := s + EndColor;
    }
    b := s;
  }

  /** Colour is pure wrapping: the coloured text is the uncoloured text between the level's colour and the reset. */
  lemma TextColorWrap(r: Record)
    requires ValidLevel(r.levelInt)
    ensures r.color ==> RenderText(r) == LogColor[r.levelInt] + RenderText(r.(color := false)) + EndColor
    ensures !r.color ==> RenderText(r) == TextBody(r)
  {
    var plain := r.(color := false);
    assert TextBody(plain) == TextBody(r);
    assert RenderText(plain) == TextBody(r);
  }

  /** The same holds for JSON: colour adds exactly the level's colour before the encoded object and the reset after. */
  lemma JsonColorWrap(r: Record, encode: Payload -> string)
    requires ValidLevel(r.levelInt)
    ensures r.color ==> RenderJson(r, encode) == LogColor[r.levelInt] + encode(PayloadOf(r)) + EndColor
    ensures !r.color ==> RenderJson(r, encode) == encode(PayloadOf(r))
  {
  }

  /** Without colour, a record whose fields hold no escape character renders with no escape character at all. */
  lemma TextWithoutColorHasNoEscape(r: Record)
    requires ValidLevel(r.levelInt) && !r.color
    requires Esc !in r.prefix && Esc !in r.time && Esc !in r.file && Esc !in r.msg
    ensures Esc !in RenderText(r)
  {
    LevelNamesShape(r.levelInt);
    assert Esc !in LevelToken(r.levelInt);
    assert Esc !in PrefixToken(r.prefix);
    assert RenderText(r) == TextBody(r);
  }

  /** An empty prefix adds no token; a non-empty one adds "[prefix] " in front and changes nothing else. */
  lemma TextPrefixToken(r: Record)
    requires ValidLevel(r.levelInt) && !r.color
    ensures r.prefix == "" ==> RenderText(r) == r.time + LevelToken(r.levelInt) + r.file + ": " + r.msg
    ensures r.prefix != "" ==> RenderText(r) == "[" + r.prefix + "] " + RenderText(r.(prefix := ""))
  {
    var q := r.(prefix := "");
    Uncoloured(r);
    Uncoloured(q);
    BodyAfterPrefix(r);
    BodyAfterPrefix(q);
  }

  lemma Uncoloured(r: Record)
    requires ValidLevel(r.levelInt) && !r.color
    ensures RenderText(r) == TextBody(r)
  {
    assert ColorOpen(r) == "" && ColorClose(r) == "";
  }

  lemma BodyAfterPrefix(r: Record)
    requires ValidLevel(r.levelInt)
    ensures TextBody(r) == PrefixToken(r.prefix) + (r.time + LevelToken(r.levelInt) + r.file + ": " + r.msg)
  {
    var p, l := PrefixToken(r.prefix), LevelToken(r.levelInt);
    AppendAssoc5(p, r.time, l, r.file, ": ", r.msg);
  }

  lemma AppendAssoc5(a: string, b: string, c: string, d: string, e: string, f: string)
    ensures a + b + c + d + e + f == a + (b + c + d + e + f)
  {
    assert a + b + c == a + (b + c);
    assert a + b + c + d == a + (b + c + d);
    assert a + b + c + d + e == a + (b + c + d + e);
  }

  /**
   * Where the level name sits: without colour and prefix, the text is the time, " [", the four
   * characters of Levels[LevelInt], "] ", then the file, ": " and the message at the end.
   */
  lemma TextLevelNameAt(r: Record)
    requires ValidLevel(r.levelInt) && !r.color && r.prefix == ""
    ensures var s := RenderText(r); var t := |r.time|;
      |s| == t + 8 + |r.file| + 2 + |r.msg| &&
      s[..t] == r.time && s[t..t + 2] == " [" && s[t + 2..t + 6] == Levels[r.levelInt] &&
      s[t + 6..t + 8] == "] " && s[t + 8..] == r.file + ": " + r.msg
  {
    LevelNamesShape(r.levelInt);
    var lv := LevelToken(r.levelInt);
    var rest := r.file + ": " + r.msg;
    TextPrefixToken(r);
    var s := RenderText(r);
    assert s == r.time + lv + rest;
    var t := |r.time|;
    assert |lv| == 8;
    assert s[..t] == r.time;
    assert s[t..t + 8] == lv;
    assert s[t + 8..] == rest;
    assert lv[..2] == " [" && lv[2..6] == Levels[r.levelInt] && lv[6..] == "] ";
    assert s[t..t + 2] == lv[..2];
    assert s[t + 2..t + 6] == lv[2..6];
    assert s[t + 6..t + 8] == lv[6..];
  }

  /**
   * The `json:"-"` tags keep Color and LevelInt out of the payload; once Json has resolved the
   * level, the payload carries the name of LevelInt, whatever Level held before.
   */
  lemma PayloadIgnoresHiddenFields(r: Record, color: bool, levelInt: int, stale: string)
    requires ValidLevel(r.levelInt)
    ensures PayloadOf(r.(color := color, levelInt := levelInt)) == PayloadOf(r)
    ensures PayloadOf(Resolved(r.(level := stale))) == PayloadOf(Resolved(r))
    ensures PayloadOf(Resolved(r)).level == Levels[r.levelInt]
  {
  }
}
