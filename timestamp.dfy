/** The timestamp segment of an object key: a UTC `datetime` rendered with
    the `strftime` pattern `%Y%m%d_%H%M%S` (UploadBill/__init__.py, line 40).
    The clock itself is not modelled: the handler receives the date and time
    fields as a parameter. */
module Timestamp {
  import opened Wrappers

  /** The fields of a Python `datetime` that `%Y%m%d_%H%M%S` prints
      (microseconds and time zone are not printed and are left out). */
  datatype DateTime = DateTime(year: int, month: int, day: int, hour: int, minute: int, second: int)

  /** Proleptic Gregorian leap years, as Python's `datetime` counts them. */
  predicate IsLeapYear(y: int) {
    y % 4 == 0 && (y % 100 != 0 || y % 400 == 0)
  }

  function DaysInMonth(y: int, m: int): (n: int)
    requires 1 <= m <= 12
    ensures 28 <= n <= 31
    ensures m == 2 ==> (n == 29 <==> IsLeapYear(y))
  {
    if m == 2 then (if IsLeapYear(y) then 29 else 28)
    else if m == 4 || m == 6 || m == 9 || m == 11 then 30
    else 31
  }

  /** The ranges a `datetime` object always satisfies
      (MINYEAR is 1 and MAXYEAR is 9999). */
  predicate Valid(t: DateTime) {
    && 1 <= t.year <= 9999
    && 1 <= t.month <= 12
    && 1 <= t.day <= DaysInMonth(t.year, t.month)
    && 0 <= t.hour <= 23
    && 0 <= t.minute <= 59
    && 0 <= t.second <= 59
  }

  predicate IsDigit(c: char) {
    '0' <= c <= '9'
  }

  predicate AllDigits(s: string) {
    forall i | 0 <= i < |s| :: IsDigit(s[i])
  }

  function DigitValue(c: char): (d: nat)
    requires IsDigit(c)
    ensures d < 10
  {
    c as int - '0' as int
  }

  function DigitChar(d: nat): (c: char)
    requires d < 10
    ensures IsDigit(c) && DigitValue(c) == d
  {
    (d + '0' as int) as char
  }

  function Pow10(w: nat): (p: nat)
    ensures p >= 1
  {
    if w == 0 then 1 else 10 * Pow10(w - 1)
  }

  lemma Pow10Widths()
    ensures Pow10(2) == 100 && Pow10(4) == 10000
  {
    assert Pow10(1) == 10;
    assert Pow10(3) == 1000;
  }

  lemma {:induction false} AllDigitsConcat(a: string, b: string)
    requires AllDigits(a) && AllDigits(b)
    ensures AllDigits(a + b)
  {
    forall i | 0 <= i < |a + b| ensures IsDigit((a + b)[i]) {
      if i >= |a| {
        assert (a + b)[i] == b[i - |a|];
      }
    }
  }

  /** The number a string of decimal digits denotes, most significant first. */
  function Value(s: string): nat
    requires AllDigits(s)
  {
    if s == [] then 0 else Value(s[..|s| - 1]) * 10 + DigitValue(s[|s| - 1])
  }

  /** `n` written with exactly `width` decimal digits, zero-padded on the
      left: the `%Y` (width 4) and `%m %d %H %M %S` (width 2) directives. */
  function Pad(n: nat, width: nat): (s: string)
    requires n < Pow10(width)
    ensures |s| == width && AllDigits(s)
    ensures Value(s) == n
    decreases width
  {
    if width == 0 then ""
    else
      assert n / 10 < Pow10(width - 1);
      var prefix := Pad(n / 10, width - 1);
      var s := prefix + [DigitChar(n % 10)];
      assert s[..|s| - 1] == prefix;
      s
  }

  /** A string of digits denotes a number below 10 to the power of its length. */
  lemma {:induction false} ValueBound(s: string)
    requires AllDigits(s)
    ensures Value(s) < Pow10(|s|)
  {
    if s != [] {
      ValueBound(s[..|s| - 1]);
    }
  }

  /** Padding the value of a digit string to its own length gives it back:
      zero padding loses nothing. */
  lemma {:induction false} PadValue(s: string)
    requires AllDigits(s)
    ensures Value(s) < Pow10(|s|) && Pad(Value(s), |s|) == s
  {
    ValueBound(s);
    if s != [] {
      var init := s[..|s| - 1];
      var v := Value(s);
      assert v / 10 == Value(init) && v % 10 == DigitValue(s[|s| - 1]);
      PadValue(init);
      assert DigitChar(DigitValue(s[|s| - 1])) == s[|s| - 1];
      assert s == init + [s[|s| - 1]];
    }
  }

  /** The shape of every rendered timestamp: `YYYYMMDD_HHMMSS`, fifteen
      characters, `_` at index 8 and a decimal digit everywhere else. */
  predicate IsTimestampShape(s: string) {
    |s| == 15 && s[8] == '_' && forall i | 0 <= i < 15 && i != 8 :: IsDigit(s[i])
  }

  /** Six fields laid end to end, with `_` between date and time. */
  function Assemble(year: string, month: string, day: string,
                    hour: string, minute: string, second: string): string
  {
    year + month + day + "_" + hour + minute + second
  }

  /** Each field of an assembled string sits at a fixed position. */
  lemma AssembleSlices(year: string, month: string, day: string,
                       hour: string, minute: string, second: string)
    requires |year| == 4 && |month| == 2 && |day| == 2
    requires |hour| == 2 && |minute| == 2 && |second| == 2
    ensures var r := Assemble(year, month, day, hour, minute, second);
            && |r| == 15 && r[8] == '_'
            && r[0..4] == year && r[4..6] == month && r[6..8] == day
            && r[9..11] == hour && r[11..13] == minute && r[13..15] == second
  {
    var date := year + month + day;
    var time := hour + minute + second;
    var r := date + "_" + time;
    assert r[..8] == date && r[9..] == time;
    assert r[0..4] == date[0..4] && r[4..6] == date[4..6] && r[6..8] == date[6..8];
    assert r[9..11] == time[0..2] && r[11..13] == time[2..4] && r[13..15] == time[4..6];
  }

  /** A fifteen-character string with `_` at index 8 is the assembly of its
      own fields. */
  lemma SlicesAssemble(s: string)
    requires |s| == 15 && s[8] == '_'
    ensures s == Assemble(s[0..4], s[4..6], s[6..8], s[9..11], s[11..13], s[13..15])
  {
    AssembleSlices(s[0..4], s[4..6], s[6..8], s[9..11], s[11..13], s[13..15]);
    var r := Assemble(s[0..4], s[4..6], s[6..8], s[9..11], s[11..13], s[13..15]);
    forall i | 0 <= i < 15 ensures r[i] == s[i] {
      if i < 4 { assert r[i] == r[0..4][i]; }
      else if i < 6 { assert r[i] == r[4..6][i - 4]; }
      else if i < 8 { assert r[i] == r[6..8][i - 6]; }
      else if i == 8 { }
      else if i < 11 { assert r[i] == r[9..11][i - 9]; }
      else if i < 13 { assert r[i] == r[11..13][i - 11]; }
      else { assert r[i] == r[13..15][i - 13]; }
    }
  }

  /** A run of positions of a timestamp-shaped string that avoids index 8
      is all digits. */
  lemma FieldDigits(s: string, lo: nat, hi: nat)
    requires IsTimestampShape(s) && lo <= hi <= 15 && (hi <= 8 || 9 <= lo)
    ensures AllDigits(s[lo..hi])
  {
    forall j | 0 <= j < hi - lo ensures IsDigit(s[lo..hi][j]) {
      assert s[lo..hi][j] == s[lo + j];
    }
  }

  /** Digit fields of the right widths assemble into a timestamp-shaped string. */
  lemma AssembleShape(year: string, month: string, day: string,
                      hour: string, minute: string, second: string)
    requires |year| == 4 && |month| == 2 && |day| == 2
    requires |hour| == 2 && |minute| == 2 && |second| == 2
    requires AllDigits(year) && AllDigits(month) && AllDigits(day)
    requires AllDigits(hour) && AllDigits(minute) && AllDigits(second)
    ensures IsTimestampShape(Assemble(year, month, day, hour, minute, second))
  {
    var r := Assemble(year, month, day, hour, minute, second);
    AssembleSlices(year, month, day, hour, minute, second);
    forall i | 0 <= i < 15 && i != 8 ensures IsDigit(r[i]) {
      if i < 4 { assert r[i] == r[0..4][i]; }
      else if i < 6 { assert r[i] == r[4..6][i - 4]; }
      else if i < 8 { assert r[i] == r[6..8][i - 6]; }
      else if i < 11 { assert r[i] == r[9..11][i - 9]; }
      else if i < 13 { assert r[i] == r[11..13][i - 11]; }
      else { assert r[i] == r[13..15][i - 13]; }
    }
  }

  /** `strftime("%Y%m%d_%H%M%S")`. */
  function Format(t: DateTime): (r: string)
    requires Valid(t)
    ensures IsTimestampShape(r)
  {
    Pow10Widths();
    AssembleShape(Pad(t.year, 4), Pad(t.month, 2), Pad(t.day, 2),
                  Pad(t.hour, 2), Pad(t.minute, 2), Pad(t.second, 2));
    Assemble(Pad(t.year, 4), Pad(t.month, 2), Pad(t.day, 2),
             Pad(t.hour, 2), Pad(t.minute, 2), Pad(t.second, 2))
  }

  /** The six fields a `YYYYMMDD_HHMMSS` string spells, read position by position. */
  function Fields(s: string): DateTime
    requires IsTimestampShape(s)
  {
    FieldDigits(s, 0, 4);
    FieldDigits(s, 4, 6);
    FieldDigits(s, 6, 8);
    FieldDigits(s, 9, 11);
    FieldDigits(s, 11, 13);
    FieldDigits(s, 13, 15);
    DateTime(Value(s[0..4]), Value(s[4..6]), Value(s[6..8]),
             Value(s[9..11]), Value(s[11..13]), Value(s[13..15]))
  }

  /** Reads a `YYYYMMDD_HHMMSS` string back into the date and time it names;
      `None` when the string has another shape or names no valid time. */
  function Parse(s: string): (r: Option<DateTime>)
    ensures r.Some? ==> Valid(r.value) && IsTimestampShape(s)
  {
    if IsTimestampShape(s) && Valid(Fields(s)) then Some(Fields(s)) else None
  }

  /** Parsing undoes formatting. */
  lemma ParseFormat(t: DateTime)
    requires Valid(t)
    ensures Parse(Format(t)) == Some(t)
  {
    Pow10Widths();
    AssembleSlices(Pad(t.year, 4), Pad(t.month, 2), Pad(t.day, 2),
                   Pad(t.hour, 2), Pad(t.minute, 2), Pad(t.second, 2));
    assert Fields(Format(t)) == t;
  }

  /** A digit field of a timestamp-shaped string is the padding of its own value. */
  lemma FieldRoundTrip(s: string, lo: nat, hi: nat)
    requires IsTimestampShape(s) && lo <= hi <= 15 && (hi <= 8 || 9 <= lo)
    ensures AllDigits(s[lo..hi]) && Value(s[lo..hi]) < Pow10(hi - lo)
    ensures Pad(Value(s[lo..hi]), hi - lo) == s[lo..hi]
  {
    FieldDigits(s, lo, hi);
    PadValue(s[lo..hi]);
  }

  /** Formatting undoes parsing: a string that parses is exactly the
      rendering of the time it names. */
  lemma FormatParse(s: string)
    requires Parse(s).Some?
    ensures Format(Parse(s).value) == s
  {
    var t := Fields(s);
    assert Parse(s).value == t;
    Pow10Widths();
    FieldRoundTrip(s, 0, 4);
    FieldRoundTrip(s, 4, 6);
    FieldRoundTrip(s, 6, 8);
    FieldRoundTrip(s, 9, 11);
    FieldRoundTrip(s, 11, 13);
    FieldRoundTrip(s, 13, 15);
    assert Pad(t.year, 4) == s[0..4] && Pad(t.month, 2) == s[4..6] && Pad(t.day, 2) == s[6..8];
    assert Pad(t.hour, 2) == s[9..11] && Pad(t.minute, 2) == s[11..13] && Pad(t.second, 2) == s[13..15];
    SlicesAssemble(s);
    assert Format(t) == Assemble(Pad(t.year, 4), Pad(t.month, 2), Pad(t.day, 2),
                                 Pad(t.hour, 2), Pad(t.minute, 2), Pad(t.second, 2));
  }

  /** Two-digit padding spelled out: tens digit, then units digit. */
  lemma PadTwoDigits(n: nat)
    requires n < 100
    ensures Pad(n, 2) == [DigitChar(n / 10), DigitChar(n % 10)]
  {
    Pow10Widths();
    assert Pad(n / 10, 1) == Pad(n / 10 / 10, 0) + [DigitChar(n / 10 % 10)];
  }

  /** The digit characters the example below needs. */
  lemma DigitCharExamples()
    ensures DigitChar(0) == '0' && DigitChar(1) == '1' && DigitChar(2) == '2'
    ensures DigitChar(3) == '3' && DigitChar(4) == '4' && DigitChar(5) == '5'
  {
  }

  /** `%Y` of the year 2024. */
  lemma PadYearExample()
    ensures Pad(2024, 4) == "2024"
  {
    Pow10Widths();
    DigitCharExamples();
    PadTwoDigits(20);
    assert Pad(202, 3) == Pad(20, 2) + [DigitChar(2)];
  }

  /** The two-digit fields of 2024-03-01 10:00:05. */
  lemma PadFieldExamples()
    ensures Pad(3, 2) == "03" && Pad(1, 2) == "01" && Pad(10, 2) == "10"
    ensures Pad(0, 2) == "00" && Pad(5, 2) == "05"
  {
    DigitCharExamples();
    PadTwoDigits(3);
    PadTwoDigits(1);
    PadTwoDigits(10);
    PadTwoDigits(0);
    PadTwoDigits(5);
  }

  /** 2024-03-01 10:00:05 UTC renders as `20240301_100005`. */
  lemma FormatExample()
    ensures Format(DateTime(2024, 3, 1, 10, 0, 5)) == "20240301_100005"
  {
    var t := DateTime(2024, 3, 1, 10, 0, 5);
    assert Format(t) == Assemble(Pad(2024, 4), Pad(3, 2), Pad(1, 2), Pad(10, 2), Pad(0, 2), Pad(5, 2));
    PadYearExample();
    PadFieldExamples();
    AssembleExample();
  }

  /** The fields of the example laid out. */
  lemma AssembleExample()
    ensures Assemble("2024", "03", "01", "10", "00", "05") == "20240301_100005"
  {
  }

  /** Two instants that differ in any printed field get different
      timestamps, so object keys can only collide within one second. */
  lemma FormatInjective(t1: DateTime, t2: DateTime)
    requires Valid(t1) && Valid(t2)
    ensures Format(t1) == Format(t2) <==> t1 == t2
  {
    if Format(t1) == Format(t2) {
      ParseFormat(t1);
      ParseFormat(t2);
    }
  }
}
