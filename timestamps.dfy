/** Naive datetimes as Python's `datetime` holds them, the two text forms the
    parser meets (`%Y-%m-%d %H:%M:%S` for the window bounds, the same plus
    `.%f` with three digits for captured timestamps), and the ordering that
    `<` and `>` on datetimes use. */
module Timestamps {
  import opened Results
  import opened Text

  datatype DateTime = DateTime(year: int, month: int, day: int,
                               hour: int, minute: int, second: int, microsecond: int)

  /** Seconds-precision text, as `valid_datetime` reads and `strftime` writes it. */
  const SecondsShape: string := "DDDD-DD-DD DD:DD:DD"

  /** Millisecond-precision text, the timestamp group of a log line. */
  const StampShape: string := "DDDD-DD-DD DD:DD:DD.DDD"

  predicate IsLeapYear(y: int) {
    y % 4 == 0 && (y % 100 != 0 || y % 400 == 0)
  }

  function DaysInMonth(y: int, m: int): (n: int)
    requires 1 <= m <= 12
    ensures 28 <= n <= 31
  {
    if m == 2 then (if IsLeapYear(y) then 29 else 28)
    else if m == 4 || m == 6 || m == 9 || m == 11 then 30
    else 31
  }

  /** The values `datetime` accepts: years 1 to 9999, real calendar days,
      no leap seconds. */
  predicate IsValid(d: DateTime) {
    1 <= d.year <= 9999 && 1 <= d.month <= 12 && 1 <= d.day <= DaysInMonth(d.year, d.month) &&
    0 <= d.hour < 24 && 0 <= d.minute < 60 && 0 <= d.second < 60 &&
    0 <= d.microsecond < 1000000
  }

  /** Strict chronological order: field by field, most significant first. */
  predicate Before(a: DateTime, b: DateTime) {
    if a.year != b.year then a.year < b.year
    else if a.month != b.month then a.month < b.month
    else if a.day != b.day then a.day < b.day
    else if a.hour != b.hour then a.hour < b.hour
    else if a.minute != b.minute then a.minute < b.minute
    else if a.second != b.second then a.second < b.second
    else a.microsecond < b.microsecond
  }

  /** `Before` is a strict total order: never reflexive, transitive, and any two
      distinct datetimes are comparable. */
  lemma BeforeIsStrictTotalOrder(a: DateTime, b: DateTime, c: DateTime)
    ensures !Before(a, a)
    ensures Before(a, b) && Before(b, c) ==> Before(a, c)
    ensures a == b || Before(a, b) || Before(b, a)
    ensures !(Before(a, b) && Before(b, a))
  {
  }

  /** The value of the two digits at `i` and `i + 1`. */
  function Digits2(s: string, i: nat): nat
    requires i + 2 <= |s| && IsDigit(s[i]) && IsDigit(s[i + 1])
  {
    10 * DigitValue(s[i]) + DigitValue(s[i + 1])
  }

  /** The fields of a `DDDD-DD-DD DD:DD:DD` string, with no microseconds. */
  function SecondsFields(s: string): (d: DateTime)
    requires FitsShape(s, SecondsShape)
  {
    assert IsDigit(s[0]) && IsDigit(s[1]) && IsDigit(s[2]) && IsDigit(s[3]);
    assert IsDigit(s[5]) && IsDigit(s[6]) && IsDigit(s[8]) && IsDigit(s[9]);
    assert IsDigit(s[11]) && IsDigit(s[12]) && IsDigit(s[14]) && IsDigit(s[15]);
    assert IsDigit(s[17]) && IsDigit(s[18]);
    DateTime(100 * Digits2(s, 0) + Digits2(s, 2), Digits2(s, 5), Digits2(s, 8),
             Digits2(s, 11), Digits2(s, 14), Digits2(s, 17), 0)
  }

  /** `datetime.strptime(ts, '%Y-%m-%d %H:%M:%S.%f')` on a captured timestamp
      (parser.py:70), which always has the layout `StampShape`: None where it
      would raise, that is where the fields are not a real date and time. Text
      of any other layout is given None; only captured groups reach this
      parse. The three fraction digits are milliseconds, so they become
      thousands of microseconds. */
  function ParseStamp(ts: string): (r: Option<DateTime>)
    ensures r.Some? ==> IsValid(r.value) && r.value.microsecond % 1000 == 0
    ensures r.Some? ==> FitsShape(ts, StampShape)
  {
    if !FitsShape(ts, StampShape) then None
    else
      assert FitsShape(ts[..19], SecondsShape);
      assert IsDigit(ts[20]) && IsDigit(ts[21]) && IsDigit(ts[22]);
      var millis := 100 * DigitValue(ts[20]) + Digits2(ts, 21);
      var d := SecondsFields(ts[..19]).(microsecond := millis * 1000);
      if IsValid(d) then Some(d) else None
  }

  /** `dt.strftime('%Y-%m-%d %H:%M:%S')`, years written with four digits. */
  function FormatSeconds(d: DateTime): (s: string)
    requires IsValid(d)
    ensures FitsShape(s, SecondsShape)
  {
    DatePart(d) + " " + TimePart(d)
  }

  /** The `%Y-%m-%d` half of the format. */
  function DatePart(d: DateTime): (s: string)
    requires IsValid(d)
    ensures FitsShape(s, "DDDD-DD-DD")
  {
    var s := Pad(d.year, 4) + "-" + Pad(d.month, 2) + "-" + Pad(d.day, 2);
    assert forall i :: 0 <= i < 4 ==> s[i] == Pad(d.year, 4)[i];
    s
  }

  /** The `%H:%M:%S` half of the format. */
  function TimePart(d: DateTime): (s: string)
    requires IsValid(d)
    ensures FitsShape(s, "DD:DD:DD")
  {
    Pad(d.hour, 2) + ":" + Pad(d.minute, 2) + ":" + Pad(d.second, 2)
  }

  /** The date half reads back as the year, month and day. */
  lemma DatePartRoundTrip(d: DateTime)
    requires IsValid(d)
    ensures var s := DatePart(d);
      100 * Digits2(s, 0) + Digits2(s, 2) == d.year && Digits2(s, 5) == d.month && Digits2(s, 8) == d.day
  {
    var s := DatePart(d);
    FieldRoundTrip(s, 0, d.year, 4);
    FieldRoundTrip(s, 5, d.month, 2);
    FieldRoundTrip(s, 8, d.day, 2);
  }

  /** The time half reads back as the hour, minute and second. */
  lemma TimePartRoundTrip(d: DateTime)
    requires IsValid(d)
    ensures var s := TimePart(d);
      Digits2(s, 0) == d.hour && Digits2(s, 3) == d.minute && Digits2(s, 6) == d.second
  {
    var s := TimePart(d);
    FieldRoundTrip(s, 0, d.hour, 2);
    FieldRoundTrip(s, 3, d.minute, 2);
    FieldRoundTrip(s, 6, d.second, 2);
  }

  /** Formatting a second-precision datetime and reading the text back gives
      the same datetime. */
  lemma {:induction false} FormatSecondsRoundTrip(d: DateTime)
    requires IsValid(d) && d.microsecond == 0
    ensures SecondsFields(FormatSeconds(d)) == d
  {
    var s, date, time := FormatSeconds(d), DatePart(d), TimePart(d);
    DatePartRoundTrip(d);
    TimePartRoundTrip(d);
    assert forall k :: 0 <= k < 10 ==> s[k] == date[k];
    assert forall k :: 0 <= k < 8 ==> s[11 + k] == time[k];
  }

  /** A field written with `Pad` at offset `i` reads back digit by digit. */
  lemma FieldRoundTrip(s: string, i: nat, n: nat, w: nat)
    requires w == 2 || w == 4
    requires n < Pow10(w) && i + w <= |s| && s[i..i + w] == Pad(n, w)
    ensures IsDigit(s[i]) && IsDigit(s[i + 1])
    ensures w == 2 ==> Digits2(s, i) == n
    ensures w == 4 ==> IsDigit(s[i + 2]) && IsDigit(s[i + 3]) && 100 * Digits2(s, i) + Digits2(s, i + 2) == n
  {
    PadRoundTrip(n, w);
    NumberOfDigits(Pad(n, w));
    assert forall k :: 0 <= k < w ==> s[i + k] == Pad(n, w)[k];
  }

  /** A captured timestamp parses exactly when its fields form a real date and
      time, and then it is the datetime written in it. */
  lemma ParseStampSpec(d: DateTime, ms: nat)
    requires IsValid(d) && d.microsecond == 0 && ms < 1000
    ensures ParseStamp(FormatSeconds(d) + "." + Pad(ms, 3)) == Some(d.(microsecond := ms * 1000))
  {
    var ts := FormatSeconds(d) + "." + Pad(ms, 3);
    StampText(d, ms);
    FormatSecondsRoundTrip(d);
    PadRoundTrip(ms, 3);
    NumberOfDigits(Pad(ms, 3));
    assert 100 * DigitValue(ts[20]) + Digits2(ts, 21) == ms;
  }

  /** The text of a timestamp with milliseconds has the captured layout. */
  lemma StampText(d: DateTime, ms: nat)
    requires IsValid(d) && ms < 1000
    ensures var ts := FormatSeconds(d) + "." + Pad(ms, 3);
      FitsShape(ts, StampShape) && ts[..19] == FormatSeconds(d) &&
      ts[20] == Pad(ms, 3)[0] && ts[21] == Pad(ms, 3)[1] && ts[22] == Pad(ms, 3)[2]
  {
    var ts := FormatSeconds(d) + "." + Pad(ms, 3);
    assert ts[..19] == FormatSeconds(d);
    forall i | 0 <= i < 23
      ensures if StampShape[i] == 'D' then IsDigit(ts[i]) else ts[i] == StampShape[i]
    {
      if i < 19 {
        assert ts[i] == FormatSeconds(d)[i];
      } else if i > 19 {
        assert ts[i] == Pad(ms, 3)[i - 20];
      }
    }
  }

  /** Where `strptime` raises on a captured timestamp: a month past 12. */
  lemma MonthPastDecember()
    ensures ParseStamp("2023-13-01 10:00:00.000").None?
  {
    StampDigits("2023-13-01 10:00:00.000");
  }

  /** February 29th exists only in leap years: not in 2023, */
  lemma NoFebruary29In2023()
    ensures ParseStamp("2023-02-29 10:00:00.000").None?
  {
    StampDigits("2023-02-29 10:00:00.000");
  }

  /** nor in a century year not divisible by 400, */
  lemma NoFebruary29In1900()
    ensures ParseStamp("1900-02-29 10:00:00.000").None?
  {
    StampDigits("1900-02-29 10:00:00.000");
  }

  /** but in 2000. */
  lemma February29In2000()
    ensures ParseStamp("2000-02-29 10:00:00.000") == Some(DateTime(2000, 2, 29, 10, 0, 0, 0))
  {
    StampDigits("2000-02-29 10:00:00.000");
  }

  /** The clock stops at 23 hours, */
  lemma NoHour24()
    ensures ParseStamp("2023-01-01 24:00:00.000").None?
  {
    StampDigits("2023-01-01 24:00:00.000");
  }

  /** 59 seconds, */
  lemma NoLeapSecond()
    ensures ParseStamp("2023-01-01 10:00:60.000").None?
  {
    StampDigits("2023-01-01 10:00:60.000");
  }

  /** and the first year is 1. */
  lemma NoYearZero()
    ensures ParseStamp("0000-01-01 10:00:00.000").None?
  {
    StampDigits("0000-01-01 10:00:00.000");
  }

  /** Three fraction digits are milliseconds, held as microseconds. */
  lemma MillisecondsAsMicroseconds()
    ensures ParseStamp("2023-01-01 10:00:00.123") == Some(DateTime(2023, 1, 1, 10, 0, 0, 123000))
  {
    StampDigits("2023-01-01 10:00:00.123");
  }

  lemma MillisecondsPastTheSecond()
    ensures ParseStamp("2023-01-01 10:00:01.456") == Some(DateTime(2023, 1, 1, 10, 0, 1, 456000))
  {
    StampDigits("2023-01-01 10:00:01.456");
  }

  /** A well-formed captured timestamp parses to the datetime its digits
      spell, exactly when that is a real date and time. */
  lemma StampDigits(ts: string)
    requires FitsShape(ts, StampShape)
    ensures
      var d := DateTime(
        1000 * DigitValue(ts[0]) + 100 * DigitValue(ts[1]) + 10 * DigitValue(ts[2]) + DigitValue(ts[3]),
        10 * DigitValue(ts[5]) + DigitValue(ts[6]),
        10 * DigitValue(ts[8]) + DigitValue(ts[9]),
        10 * DigitValue(ts[11]) + DigitValue(ts[12]),
        10 * DigitValue(ts[14]) + DigitValue(ts[15]),
        10 * DigitValue(ts[17]) + DigitValue(ts[18]),
        1000 * (100 * DigitValue(ts[20]) + 10 * DigitValue(ts[21]) + DigitValue(ts[22])));
      ParseStamp(ts) == if IsValid(d) then Some(d) else None
  {
    assert IsDigit(ts[0]) && IsDigit(ts[1]) && IsDigit(ts[2]) && IsDigit(ts[3]);
  }
}
