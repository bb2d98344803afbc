/**
 * The `mm:ss` text that the web monitor's call timer shows
 * (agora_web_quickstart/src/main.js, updateTimerDisplay): the whole minutes and
 * the remaining seconds, each written in decimal and left-padded with '0' to
 * at least two characters.
 */
module TimerDisplay {
  import opened Options

  predicate IsDigit(c: char) {
    '0' <= c <= '9'
  }

  predicate AllDigits(s: string) {
    forall i :: 0 <= i < |s| ==> IsDigit(s[i])
  }

  function DigitChar(d: nat): (c: char)
    requires d < 10
    ensures IsDigit(c) && DigitValue(c) == d
  {
    ('0' as int + d) as char
  }

  function DigitValue(c: char): (d: nat)
    requires IsDigit(c)
    ensures d < 10
  {
    c as int - '0' as int
  }

  /** `n.toString()` for a non-negative integer: decimal, no leading zero. */
  function Decimal(n: nat): (s: string)
    ensures 1 <= |s| && AllDigits(s)
    ensures |s| == 1 <==> n < 10
    ensures |s| <= 2 <==> n < 100
    ensures s[0] == '0' ==> n == 0
  {
    if n < 10 then [DigitChar(n)] else Decimal(n / 10) + [DigitChar(n % 10)]
  }

  /** The number a string of decimal digits denotes (leading zeros allowed). */
  function DecimalValue(s: string): nat
    requires AllDigits(s)
  {
    if s == [] then 0 else DecimalValue(s[..|s| - 1]) * 10 + DigitValue(s[|s| - 1])
  }

  /** `s.padStart(2, '0')`. */
  function PadStart2(s: string): string {
    if |s| < 2 then seq(2 - |s|, _ => '0') + s else s
  }

  /** The padded string has at least two characters: `s` at the end, zeros in front. */
  lemma PadStart2Shape(s: string)
    ensures var r := PadStart2(s);
      |r| == (if |s| < 2 then 2 else |s|)
      && r[|r| - |s|..] == s
      && forall i :: 0 <= i < |r| - |s| ==> r[i] == '0'
  {
  }

  /** The text updateTimerDisplay writes for a count of `seconds`. */
  function TimerText(seconds: nat): string {
    PadStart2(Decimal(seconds / 60)) + ":" + PadStart2(Decimal(seconds % 60))
  }

  /**
   * Reads a timer text back: a minutes field of at least two digits, a colon,
   * and a two-digit seconds field below 60.
   */
  function ParseTimerText(t: string): (r: Option<nat>)
    ensures r.Some? ==> |t| >= 5 && t[|t| - 3] == ':'
  {
    if |t| >= 5 && t[|t| - 3] == ':' && AllDigits(t[..|t| - 3]) && AllDigits(t[|t| - 2..])
       && DecimalValue(t[|t| - 2..]) < 60
    then Some(60 * DecimalValue(t[..|t| - 3]) + DecimalValue(t[|t| - 2..]))
    else None
  }

  lemma {:induction false} DecimalRoundTrip(n: nat)
    ensures DecimalValue(Decimal(n)) == n
  {
    if n >= 10 {
      var s := Decimal(n);
      assert s[..|s| - 1] == Decimal(n / 10);
      DecimalRoundTrip(n / 10);
    }
  }

  /** A leading '0' does not change the value of a digit string. */
  lemma {:induction false} LeadingZero(s: string)
    requires AllDigits(s)
    ensures AllDigits("0" + s) && DecimalValue("0" + s) == DecimalValue(s)
  {
    var t := "0" + s;
    if s != [] {
      assert t[..|t| - 1] == "0" + s[..|s| - 1];
      LeadingZero(s[..|s| - 1]);
    } else {
      assert t[..|t| - 1] == "";
    }
  }

  /** Padding a decimal string with zeros keeps its value. */
  lemma PaddedValue(s: string)
    requires AllDigits(s) && 1 <= |s|
    ensures AllDigits(PadStart2(s)) && DecimalValue(PadStart2(s)) == DecimalValue(s)
  {
    if |s| < 2 {
      assert PadStart2(s) == "0" + s;
      LeadingZero(s);
    }
    PadStart2Shape(s);
  }

  /** Splitting `m + ":" + s` at the colon third from the end gives back `m` and `s`. */
  lemma SplitAtColon(m: string, s: string)
    requires |m| >= 2 && |s| == 2
    ensures var t := m + ":" + s;
      |t| >= 5 && t[|t| - 3] == ':' && t[..|t| - 3] == m && t[|t| - 2..] == s
  {
  }

  /**
   * The two fields of the timer text: a colon third from the end, the minutes
   * field before it reads `seconds / 60`, the two-digit field after it reads
   * `seconds % 60`, which is below 60.
   */
  lemma TimerTextFields(seconds: nat)
    ensures var t := TimerText(seconds);
      |t| >= 5 && t[|t| - 3] == ':'
      && AllDigits(t[..|t| - 3]) && DecimalValue(t[..|t| - 3]) == seconds / 60
      && AllDigits(t[|t| - 2..]) && DecimalValue(t[|t| - 2..]) == seconds % 60
      && DecimalValue(t[|t| - 2..]) < 60
      && 60 * DecimalValue(t[..|t| - 3]) + DecimalValue(t[|t| - 2..]) == seconds
  {
    var mins, secs := seconds / 60, seconds % 60;
    assert 60 * mins + secs == seconds;
    var m, s := PadStart2(Decimal(mins)), PadStart2(Decimal(secs));
    SplitAtColon(m, s);
    PaddedValue(Decimal(mins));
    PaddedValue(Decimal(secs));
    DecimalRoundTrip(mins);
    DecimalRoundTrip(secs);
  }

  /** Reading the displayed text back gives the second count that was shown. */
  lemma TimerTextRoundTrip(seconds: nat)
    ensures ParseTimerText(TimerText(seconds)) == Some(seconds)
  {
    TimerTextFields(seconds);
  }

  /** Distinct second counts are displayed differently. */
  lemma TimerTextInjective(a: nat, b: nat)
    requires TimerText(a) == TimerText(b)
    ensures a == b
  {
    TimerTextRoundTrip(a);
    TimerTextRoundTrip(b);
  }

  /** The text is exactly `mm:ss`, five characters, below 100 minutes, and longer from then on. */
  lemma TimerTextLength(seconds: nat)
    ensures |TimerText(seconds)| == 5 <==> seconds < 6000
  {
    PadStart2Shape(Decimal(seconds / 60));
    PadStart2Shape(Decimal(seconds % 60));
  }

  lemma TimerTextZero()
    ensures TimerText(0) == "00:00"
  {
  }
}
