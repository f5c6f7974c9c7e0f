/**
 * A broken-down instant (what time.Now().Date() and .Clock() report) and
 * the part of Go's time.Format that the rotating file sink uses: the
 * reference-layout tokens "2006" (four-digit year), "01" (month), "02"
 * (day), "15" (24-hour hour), "04" (minute) and "05" (second); every other
 * layout character is copied literally. Go's full layout language (bare
 * "1", "2", time zones, fractions, names) is not part of this model.
 */
module GoTime {
  import opened GoStrings

  datatype Moment = Moment(year: nat, month: nat, day: nat, hour: nat, minute: nat, second: nat, nanosecond: nat)

  /** The ranges time.Time reports its components in (years restricted to four digits). */
  predicate ValidMoment(t: Moment) {
    1 <= t.year <= 9999 && 1 <= t.month <= 12 && 1 <= t.day <= 31 &&
    t.hour < 24 && t.minute < 60 && t.second < 60 && t.nanosecond < 1000000000
  }

  function Zeros(k: int): (z: string)
    ensures |z| == if k <= 0 then 0 else k
    ensures forall j :: 0 <= j < |z| ==> z[j] == '0'
    decreases k
  {
    if k <= 0 then "" else "0" + Zeros(k - 1)
  }

  /** appendInt(b, n, width) of package time: the digits of n, left-padded with zeros to width. */
  function Pad(n: nat, width: int): string {
    Zeros(width - |Digits(n)|) + Digits(n)
  }

  /** Leading zeros do not change the value of a digit run. */
  lemma {:induction false} ParseZeros(k: int, s: string)
    requires AllDigits(s)
    ensures AllDigits(Zeros(k) + s) && ParseDigits(Zeros(k) + s) == ParseDigits(s)
    decreases k
  {
    if k > 0 {
      ParseZeros(k - 1, s);
      assert Zeros(k) + s == "0" + (Zeros(k - 1) + s);
      ParseLeadingZero(Zeros(k - 1) + s);
    } else {
      assert Zeros(k) + s == s;
    }
  }

  /** A padded field has exactly the width asked for and reads back as the number it renders. */
  lemma PadRoundTrip(n: nat, width: int)
    requires |Digits(n)| <= width
    ensures |Pad(n, width)| == width
    ensures AllDigits(Pad(n, width)) && ParseDigits(Pad(n, width)) == n
  {
    var d := Digits(n);
    var k := width - |d|;
    var z := Zeros(k);
    assert Pad(n, width) == z + d;
    assert |z| == k && |z + d| == width;
    ParseZeros(k, d);
    ParseFormatInt(n);
    assert FormatInt(n) == d;
    assert ParseDigits(z + d) == n;
  }

  /** time.Time.Format restricted to the tokens listed above. */
  function Format(layout: string, t: Moment): string
    decreases |layout|
  {
    if layout == [] then ""
    else if |layout| >= 4 && layout[..4] == "2006" then Pad(t.year, 4) + Format(layout[4..], t)
    else if |layout| >= 2 && layout[..2] == "01" then Pad(t.month, 2) + Format(layout[2..], t)
    else if |layout| >= 2 && layout[..2] == "02" then Pad(t.day, 2) + Format(layout[2..], t)
    else if |layout| >= 2 && layout[..2] == "15" then Pad(t.hour, 2) + Format(layout[2..], t)
    else if |layout| >= 2 && layout[..2] == "04" then Pad(t.minute, 2) + Format(layout[2..], t)
    else if |layout| >= 2 && layout[..2] == "05" then Pad(t.second, 2) + Format(layout[2..], t)
    else [layout[0]] + Format(layout[1..], t)
  }

  lemma FormatYear(rest: string, t: Moment)
    ensures Format("2006" + rest, t) == Pad(t.year, 4) + Format(rest, t)
  {
    var l := "2006" + rest;
    assert l[..4] == "2006" && l[4..] == rest;
  }

  lemma FormatMonth(rest: string, t: Moment)
    ensures Format("01" + rest, t) == Pad(t.month, 2) + Format(rest, t)
  {
    var l := "01" + rest;
    assert l[..2] == "01" && l[2..] == rest;
    assert l[0] == '0' && l[1] == '1';
    assert |l| >= 4 ==> l[..4][0] == '0' && l[..4][1] == '1';
  }

  lemma FormatDay(rest: string, t: Moment)
    ensures Format("02" + rest, t) == Pad(t.day, 2) + Format(rest, t)
  {
    var l := "02" + rest;
    assert l[..2] == "02" && l[2..] == rest;
    assert l[0] == '0' && l[1] == '2';
    assert |l| >= 4 ==> l[..4][0] == '0' && l[..4][1] == '2';
  }

  lemma FormatHour(rest: string, t: Moment)
    ensures Format("15" + rest, t) == Pad(t.hour, 2) + Format(rest, t)
  {
    var l := "15" + rest;
    assert l[..2] == "15" && l[2..] == rest;
    assert l[0] == '1' && l[1] == '5';
    assert |l| >= 4 ==> l[..4][0] == '1' && l[..4][1] == '5';
  }

  lemma FormatMinute(rest: string, t: Moment)
    ensures Format("04" + rest, t) == Pad(t.minute, 2) + Format(rest, t)
  {
    var l := "04" + rest;
    assert l[..2] == "04" && l[2..] == rest;
    assert l[0] == '0' && l[1] == '4';
    assert |l| >= 4 ==> l[..4][0] == '0' && l[..4][1] == '4';
  }

  lemma FormatDash(rest: string, t: Moment)
    ensures Format("-" + rest, t) == "-" + Format(rest, t)
  {
    var l := "-" + rest;
    assert l[0] == '-' && l[1..] == rest;
    assert |l| >= 2 ==> l[..2][0] == '-';
    assert |l| >= 4 ==> l[..4][0] == '-';
  }

  lemma FormatEmpty(t: Moment)
    ensures Format("", t) == ""
  {
  }
}
