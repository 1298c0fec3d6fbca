/**
 * Countdown formatting of the reminder lines: a number of seconds is shown
 * as whole minutes, a colon, and the remaining seconds padded to two digits
 * (`M:SS`). The minutes field has no padding and no upper bound.
 */
module TimeFormat {

  datatype Option<T> = None | Some(value: T)

  /** The character of a decimal digit. */
  function DigitChar(d: nat): (c: char)
    requires d < 10
    ensures '0' <= c <= '9'
    ensures c as int - '0' as int == d
  {
    ('0' as int + d) as char
  }

  predicate IsDigit(c: char)
  {
    '0' <= c <= '9'
  }

  function DigitValue(c: char): (d: nat)
    requires IsDigit(c)
    ensures d < 10
  {
    c as int - '0' as int
  }

  /** Canonical decimal rendering of a natural number: no sign, no leading zero.
      This is how a template literal writes the minute and second values the
      screen shows (at most 30 minutes); very large numbers, which JavaScript
      writes in exponent form, never reach it. */
  function Decimal(n: nat): (s: string)
    ensures |s| >= 1
    ensures forall i :: 0 <= i < |s| ==> IsDigit(s[i])
    ensures |s| > 1 ==> s[0] != '0'
    ensures n < 10 <==> |s| == 1
  {
    if n < 10 then [DigitChar(n)] else Decimal(n / 10) + [DigitChar(n % 10)]
  }

  /** Reads a string of decimal digits back as a number (the empty string reads as 0). */
  function ParseDecimal(s: string): nat
    requires forall i :: 0 <= i < |s| ==> IsDigit(s[i])
  {
    if s == [] then 0 else ParseDecimal(s[..|s| - 1]) * 10 + DigitValue(s[|s| - 1])
  }

  /** Decimal and ParseDecimal are inverse: the rendering loses nothing. */
  lemma {:induction false} DecimalRoundTrip(n: nat)
    ensures ParseDecimal(Decimal(n)) == n
  {
    var s := Decimal(n);
    if n >= 10 {
      assert s[..|s| - 1] == Decimal(n / 10);
      DecimalRoundTrip(n / 10);
    }
  }

  /** The split of a second count into whole minutes and leftover seconds
      (floor division and remainder by 60; both agree with JavaScript's
      `Math.floor(t / 60)` and `t % 60` for t >= 0). */
  function SplitTime(t: nat): (ms: (nat, nat))
    ensures ms.0 * 60 + ms.1 == t
    ensures ms.1 < 60
  {
    (t / 60, t % 60)
  }

  /** The seconds field: a `'0'` in front of a single digit, nothing otherwise. */
  function SecondsField(seconds: nat): (s: string)
    ensures |s| >= 2
    ensures forall i :: 0 <= i < |s| ==> IsDigit(s[i])
  {
    (if seconds < 10 then "0" else "") + Decimal(seconds)
  }

  /** Every seconds value below 100 (so every remainder by 60) takes exactly two
      characters: its tens digit and its units digit. */
  lemma {:induction false} SecondsFieldTwoDigits(seconds: nat)
    requires seconds < 100
    ensures SecondsField(seconds) == [DigitChar(seconds / 10), DigitChar(seconds % 10)]
  {
    if seconds >= 10 {
      assert Decimal(seconds / 10) == [DigitChar(seconds / 10)];
    }
  }

  /** `M:SS` for a number of seconds. */
  function FormatTime(t: nat): (s: string)
    ensures |s| >= 4
  {
    var (minutes, seconds) := SplitTime(t);
    SecondsFieldTwoDigits(seconds);
    Decimal(minutes) + ":" + SecondsField(seconds)
  }

  /** The layout of FormatTime: the minutes in decimal, a colon, then the tens and
      units digit of the leftover seconds. */
  lemma FormatTimeLayout(t: nat)
    ensures FormatTime(t) == Decimal(t / 60) + ":" + [DigitChar(t % 60 / 10), DigitChar(t % 60 % 10)]
  {
    SecondsFieldTwoDigits(t % 60);
  }

  /** Reads `M:SS` back: minutes before the colon, two digits of seconds after it. */
  function ParseTime(s: string): Option<nat>
  {
    if |s| < 4 || s[|s| - 3] != ':' then None
    else
      var minutes, seconds := s[..|s| - 3], s[|s| - 2..];
      if (forall i :: 0 <= i < |minutes| ==> IsDigit(minutes[i]))
         && IsDigit(seconds[0]) && IsDigit(seconds[1])
         && DigitValue(seconds[0]) < 6
      then Some(ParseDecimal(minutes) * 60 + DigitValue(seconds[0]) * 10 + DigitValue(seconds[1]))
      else None
  }

  /** Formatting loses nothing: the number of seconds can be read back from `M:SS`. */
  lemma FormatTimeRoundTrip(t: nat)
    ensures ParseTime(FormatTime(t)) == Some(t)
  {
    var s := FormatTime(t);
    FormatTimeLayout(t);
    var m := Decimal(t / 60);
    assert s[..|s| - 3] == m;
    assert s[|s| - 2..] == [DigitChar(t % 60 / 10), DigitChar(t % 60 % 10)];
    DecimalRoundTrip(t / 60);
  }

  /** Three sample displays: 0, 90 and 3599 seconds. */
  lemma FormatTimeExamples()
    ensures FormatTime(0) == "0:00"
    ensures FormatTime(90) == "1:30"
    ensures FormatTime(3599) == "59:59"
  {
    FormatTimeLayout(0);
    FormatTimeLayout(90);
    FormatTimeLayout(3599);
    assert Decimal(59) == Decimal(5) + [DigitChar(9)];
  }
}
