/** The wall-clock string the reminder ticks compare against. Both reminder
    loops render "now" with
    `toLocaleTimeString([], { hour: '2-digit', minute: '2-digit', hour12: false })`;
    the model replaces that locale-dependent call by the zero-padded 24-hour
    `HH:MM` rendering below, over an hour in 0..23 and a minute in 0..59. */
module Clock {
  import opened Common

  predicate IsDigit(c: char) {
    '0' <= c <= '9'
  }

  function DigitValue(c: char): nat
    requires IsDigit(c)
  {
    (c as int) - ('0' as int)
  }

  function DigitChar(d: nat): (c: char)
    requires d < 10
    ensures IsDigit(c) && DigitValue(c) == d
  {
    (('0' as int) + d) as char
  }

  /** The two-digit rendering of a number below 100 (`'2-digit'`). */
  function Pad2(n: nat): (s: string)
    requires n < 100
    ensures |s| == 2 && IsDigit(s[0]) && IsDigit(s[1])
  {
    [DigitChar(n / 10), DigitChar(n % 10)]
  }

  /** The two digits of `Pad2(n)` read back as `n`. */
  lemma Pad2Value(n: nat)
    requires n < 100
    ensures DigitValue(Pad2(n)[0]) * 10 + DigitValue(Pad2(n)[1]) == n
  {
  }

  /** "now" as the reminder loops see it: `HH:MM`, 24-hour, zero-padded. */
  function FormatHHMM(hour: nat, minute: nat): (s: string)
    requires hour < 24 && minute < 60
    ensures |s| == 5 && s[2] == ':'
    ensures IsDigit(s[0]) && IsDigit(s[1]) && IsDigit(s[3]) && IsDigit(s[4])
  {
    Pad2(hour) + ":" + Pad2(minute)
  }

  /** The renderings of the minutes the reminder scenarios tick at. */
  lemma Format0700()
    ensures FormatHHMM(7, 0) == "07:00"
  {
  }

  lemma Format0730()
    ensures FormatHHMM(7, 30) == "07:30"
  {
  }

  lemma Format0759()
    ensures FormatHHMM(7, 59) == "07:59"
  {
  }

  lemma Format0800()
    ensures FormatHHMM(8, 0) == "08:00"
  {
  }

  lemma Format0801()
    ensures FormatHHMM(8, 1) == "08:01"
  {
  }

  lemma Format2000()
    ensures FormatHHMM(20, 0) == "20:00"
  {
  }

  datatype TimeOfDay = TimeOfDay(hour: nat, minute: nat)

  /** Reads a canonical `HH:MM` string back; anything else (`"24:00"`, `"0:0"`,
      `"08:00:00"`) is not a time of day. */
  function ParseHHMM(s: string): Option<TimeOfDay>
  {
    if |s| == 5 && IsDigit(s[0]) && IsDigit(s[1]) && s[2] == ':' && IsDigit(s[3]) && IsDigit(s[4]) then
      var hour := DigitValue(s[0]) * 10 + DigitValue(s[1]);
      var minute := DigitValue(s[3]) * 10 + DigitValue(s[4]);
      if hour < 24 && minute < 60 then Some(TimeOfDay(hour, minute)) else None
    else
      None
  }

  lemma DigitRoundTrip(c: char)
    requires IsDigit(c)
    ensures DigitValue(c) < 10 && DigitChar(DigitValue(c)) == c
  {
  }

  /** Parsing a formatted time gives the time back. */
  lemma FormatThenParse(hour: nat, minute: nat)
    requires hour < 24 && minute < 60
    ensures ParseHHMM(FormatHHMM(hour, minute)) == Some(TimeOfDay(hour, minute))
  {
    var s := FormatHHMM(hour, minute);
    Pad2Value(hour);
    Pad2Value(minute);
    assert s[0] == Pad2(hour)[0] && s[1] == Pad2(hour)[1];
    assert s[3] == Pad2(minute)[0] && s[4] == Pad2(minute)[1];
  }

  /** Every canonical time string is the rendering of the time it denotes. */
  lemma ParseThenFormat(s: string)
    requires ParseHHMM(s).Some?
    ensures ParseHHMM(s).value.hour < 24 && ParseHHMM(s).value.minute < 60
    ensures FormatHHMM(ParseHHMM(s).value.hour, ParseHHMM(s).value.minute) == s
  {
    var t := ParseHHMM(s).value;
    DigitRoundTrip(s[0]);
    DigitRoundTrip(s[1]);
    DigitRoundTrip(s[3]);
    DigitRoundTrip(s[4]);
    assert t.hour / 10 == DigitValue(s[0]) && t.hour % 10 == DigitValue(s[1]);
    assert t.minute / 10 == DigitValue(s[3]) && t.minute % 10 == DigitValue(s[4]);
    assert Pad2(t.hour) == [s[0], s[1]];
    assert Pad2(t.minute) == [s[3], s[4]];
    assert s == [s[0], s[1]] + ":" + [s[3], s[4]];
  }

  /** Two ticks see the same string exactly when they fall in the same minute. */
  lemma FormatInjective(h1: nat, m1: nat, h2: nat, m2: nat)
    requires h1 < 24 && m1 < 60 && h2 < 24 && m2 < 60
    ensures FormatHHMM(h1, m1) == FormatHHMM(h2, m2) <==> h1 == h2 && m1 == m2
  {
    FormatThenParse(h1, m1);
    FormatThenParse(h2, m2);
  }

  /** `"00:00"` is rendered only at midnight, and the formatter never renders
      `"24:00"` or the unpadded `"0:0"`. */
  lemma MidnightBoundary(hour: nat, minute: nat)
    requires hour < 24 && minute < 60
    ensures FormatHHMM(hour, minute) == "00:00" <==> hour == 0 && minute == 0
    ensures FormatHHMM(hour, minute) != "24:00" && FormatHHMM(hour, minute) != "0:0"
  {
    FormatThenParse(hour, minute);
    assert ParseHHMM("00:00") == Some(TimeOfDay(0, 0));
    assert ParseHHMM("24:00") == None;
  }
}
