/** Minute-resolution wall-clock readings and their `"%H:%M"` rendering, as
    produced both by the scheduler's `time.strftime("%H:%M")` and by the
    reminder form's `time_input.strftime("%H:%M")`. */
module Clock {

  import opened Wrappers

  type Hour = h: nat | h < 24
  type Minute = m: nat | m < 60

  /** A time of day with seconds discarded. */
  datatype ClockTime = ClockTime(hour: Hour, minute: Minute)

  function DigitChar(d: nat): (c: char)
    requires d < 10
  {
    ('0' as int + d) as char
  }

  predicate IsDigit(c: char) { '0' <= c <= '9' }

  function DigitValue(c: char): (d: nat)
    requires IsDigit(c)
  {
    c as int - '0' as int
  }

  /** Two decimal digits, zero-padded (`%H`, `%M`). */
  function Pad2(n: nat): (r: string)
    requires n < 100
  {
    [DigitChar(n / 10), DigitChar(n % 10)]
  }

  /** `strftime("%H:%M")`. */
  function FormatHHMM(t: ClockTime): (r: string)
    ensures |r| == 5 && r[2] == ':'
    ensures forall k :: k in {0, 1, 3, 4} ==> IsDigit(r[k])
  {
    Pad2(t.hour) + ":" + Pad2(t.minute)
  }

  /** Reads back a `"HH:MM"` string in 24-hour form; `None` for anything else. */
  function ParseHHMM(s: string): Option<ClockTime>
  {
    if |s| == 5 && s[2] == ':' && IsDigit(s[0]) && IsDigit(s[1]) && IsDigit(s[3]) && IsDigit(s[4])
    then
      var h := 10 * DigitValue(s[0]) + DigitValue(s[1]);
      var m := 10 * DigitValue(s[3]) + DigitValue(s[4]);
      if h < 24 && m < 60 then Some(ClockTime(h, m)) else None
    else None
  }

  /** Every formatted reading parses back to itself. */
  lemma ParseFormat(t: ClockTime)
    ensures ParseHHMM(FormatHHMM(t)) == Some(t)
  {
    var s := FormatHHMM(t);
    assert DigitValue(s[0]) == t.hour / 10 && DigitValue(s[1]) == t.hour % 10;
    assert DigitValue(s[3]) == t.minute / 10 && DigitValue(s[4]) == t.minute % 10;
  }

  /** Every string that parses is exactly the rendering of what it parses to. */
  lemma FormatParse(s: string)
    requires ParseHHMM(s).Some?
    ensures FormatHHMM(ParseHHMM(s).value) == s
  {
    var t := ParseHHMM(s).value;
    var r := FormatHHMM(t);
    assert t.hour / 10 == DigitValue(s[0]) && t.hour % 10 == DigitValue(s[1]);
    assert t.minute / 10 == DigitValue(s[3]) && t.minute % 10 == DigitValue(s[4]);
    assert r[0] == s[0] && r[1] == s[1] && r[2] == s[2] && r[3] == s[3] && r[4] == s[4];
  }

  /** Two readings render to the same string exactly when they are the same
      minute of the day, so comparing the strings compares the times. */
  lemma FormatInjective(t1: ClockTime, t2: ClockTime)
    ensures FormatHHMM(t1) == FormatHHMM(t2) <==> t1 == t2
  {
    if FormatHHMM(t1) == FormatHHMM(t2) {
      ParseFormat(t1);
      ParseFormat(t2);
    }
  }
}
