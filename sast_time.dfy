/** The UTC to South Africa Standard Time conversion of `_convert_to_sast_str`:
    drop the last five characters, parse the rest as `%Y-%m-%dT%H:%M:%S`, add two
    hours and render the result zero-padded with a `+02:00` suffix. */
module SastTime {
  import opened Wrappers

  /** Why a conversion fails: `strptime` raises ValueError on text that is not a
      valid date-time, and adding the two hours raises OverflowError past the
      largest date Python's `datetime` can hold (9999-12-31T23:59:59). */
  datatype ConvertError = Malformed | OutOfRange

  datatype DateTime = DateTime(year: int, month: int, day: int, hour: int, minute: int, second: int)

  const MaxYear := 9999
  const SastOffset := "+02:00"
  /** Two hours, the fixed UTC offset of South Africa Standard Time, in seconds. */
  const ShiftSeconds := 7200

  predicate IsLeapYear(y: int) {
    y % 4 == 0 && (y % 100 != 0 || y % 400 == 0)
  }

  function DaysInMonth(y: int, m: int): (n: int)
    requires 1 <= m <= 12
    ensures 28 <= n <= 31
    ensures n == 29 <==> m == 2 && IsLeapYear(y)
  {
    if m == 2 then (if IsLeapYear(y) then 29 else 28)
    else if m == 4 || m == 6 || m == 9 || m == 11 then 30
    else 31
  }

  /** A date-time Python's `datetime` accepts: years 1 to 9999, real calendar days. */
  predicate Valid(t: DateTime) {
    && 1 <= t.year <= MaxYear
    && 1 <= t.month <= 12
    && 1 <= t.day <= DaysInMonth(t.year, t.month)
    && 0 <= t.hour < 24
    && 0 <= t.minute < 60
    && 0 <= t.second < 60
  }

  // ---------------------------------------------------------------------------
  // Reference time line: seconds since 0001-01-01T00:00:00 (proleptic Gregorian).
  // ---------------------------------------------------------------------------

  function DaysInYear(y: int): int {
    if IsLeapYear(y) then 366 else 365
  }

  function DaysBeforeYear(y: int): int
    decreases y
  {
    if y <= 1 then 0 else DaysBeforeYear(y - 1) + DaysInYear(y - 1)
  }

  function DaysBeforeMonth(y: int, m: int): int
    requires 1 <= m <= 12
  {
    [0, 31, 59, 90, 120, 151, 181, 212, 243, 273, 304, 334][m - 1]
      + (if m > 2 && IsLeapYear(y) then 1 else 0)
  }

  function Instant(t: DateTime): int
    requires Valid(t)
  {
    var days := DaysBeforeYear(t.year) + DaysBeforeMonth(t.year, t.month) + t.day - 1;
    (days * 24 + t.hour) * 3600 + t.minute * 60 + t.second
  }

  // ---------------------------------------------------------------------------
  // Adding two hours (`+ timedelta(hours=2)`)
  // ---------------------------------------------------------------------------

  /** The calendar day after `t` (time of day kept); may step into year 10000. */
  function NextDay(t: DateTime): DateTime
    requires Valid(t)
  {
    if t.day < DaysInMonth(t.year, t.month) then t.(day := t.day + 1)
    else if t.month < 12 then t.(month := t.month + 1, day := 1)
    else t.(year := t.year + 1, month := 1, day := 1)
  }

  lemma NextDayAdvancesOneDay(t: DateTime)
    requires Valid(t) && NextDay(t).year <= MaxYear
    ensures Valid(NextDay(t))
    ensures Instant(NextDay(t)) == Instant(t) + 24 * 3600
  {
    var u := NextDay(t);
    if t.day == DaysInMonth(t.year, t.month) {
      if t.month < 12 {
        assert DaysBeforeMonth(t.year, t.month + 1)
            == DaysBeforeMonth(t.year, t.month) + DaysInMonth(t.year, t.month);
      } else {
        assert DaysBeforeYear(t.year + 1) == DaysBeforeYear(t.year) + DaysInYear(t.year);
      }
    }
  }

  /** `t + timedelta(hours=2)`: the hour moves on by two, rolling over into the
      next day, month and year; Python raises OverflowError past year 9999. */
  function AddTwoHours(t: DateTime): (r: Result<DateTime, ConvertError>)
    requires Valid(t)
    ensures r.Err? <==> t.year == MaxYear && t.month == 12 && t.day == 31 && t.hour >= 22
    ensures r.Err? ==> r.error == OutOfRange
    ensures r.Ok? ==> Valid(r.value) && Instant(r.value) == Instant(t) + ShiftSeconds
    ensures r.Ok? ==> r.value.minute == t.minute && r.value.second == t.second
  {
    if t.hour < 22 then Ok(t.(hour := t.hour + 2))
    else
      var next := NextDay(t);
      if next.year > MaxYear then Err(OutOfRange)
      else
        NextDayAdvancesOneDay(t);
        Ok(next.(hour := t.hour - 22))
  }

  // ---------------------------------------------------------------------------
  // Fixed-width text form `YYYY-MM-DDTHH:MM:SS`
  // ---------------------------------------------------------------------------

  function Digit(c: char): Option<int> {
    if '0' <= c <= '9' then Some(c as int - '0' as int) else None
  }

  function DigitChar(d: int): (c: char)
    requires 0 <= d <= 9
    ensures Digit(c) == Some(d)
  {
    (d + '0' as int) as char
  }

  /** The two-digit number written at `s[i..i + 2]`, if both are digits. */
  function Two(s: string, i: nat): (r: Option<int>)
    requires i + 2 <= |s|
    ensures r.Some? ==> 0 <= r.value < 100
  {
    var high, low := Digit(s[i]), Digit(s[i + 1]);
    if high.Some? && low.Some? then Some(10 * high.value + low.value) else None
  }

  /** The four-digit number written at `s[i..i + 4]`, if all four are digits. */
  function Four(s: string, i: nat): (r: Option<int>)
    requires i + 4 <= |s|
    ensures r.Some? ==> 0 <= r.value < 10000
  {
    var high, low := Two(s, i), Two(s, i + 2);
    if high.Some? && low.Some? then Some(100 * high.value + low.value) else None
  }

  /** `strftime("%Y-%m-%dT%H:%M:%S")`, every field zero-padded. */
  function Render(t: DateTime): (r: string)
    requires Valid(t)
    ensures |r| == 19
  {
    var c, y, mo, d, h, mi, s := t.year / 100, t.year % 100, t.month, t.day, t.hour, t.minute, t.second;
    [ DigitChar(c / 10), DigitChar(c % 10), DigitChar(y / 10), DigitChar(y % 10), '-',
      DigitChar(mo / 10), DigitChar(mo % 10), '-',
      DigitChar(d / 10), DigitChar(d % 10), 'T',
      DigitChar(h / 10), DigitChar(h % 10), ':',
      DigitChar(mi / 10), DigitChar(mi % 10), ':',
      DigitChar(s / 10), DigitChar(s % 10) ]
  }

  /** `strptime(s, "%Y-%m-%dT%H:%M:%S")` restricted to the zero-padded layout:
      separators in place (the `T` in either case, as `strptime` ignores case),
      digits elsewhere, and values that form a valid date-time. */
  function ParseDateTime(s: string): (r: Result<DateTime, ConvertError>)
    ensures r.Ok? ==> Valid(r.value)
    ensures r.Err? ==> r.error == Malformed
  {
    if |s| != 19 || s[4] != '-' || s[7] != '-' || (s[10] != 'T' && s[10] != 't')
       || s[13] != ':' || s[16] != ':'
    then Err(Malformed)
    else
      var year, month, day := Four(s, 0), Two(s, 5), Two(s, 8);
      var hour, minute, second := Two(s, 11), Two(s, 14), Two(s, 17);
      if year.None? || month.None? || day.None? || hour.None? || minute.None? || second.None?
      then Err(Malformed)
      else
        var t := DateTime(year.value, month.value, day.value, hour.value, minute.value, second.value);
        if Valid(t) then Ok(t) else Err(Malformed)
  }

  lemma DigitCharOf(c: char)
    requires Digit(c).Some?
    ensures DigitChar(Digit(c).value) == c
  {
  }

  lemma SplitTwo(n: int)
    requires 0 <= n < 100
    ensures 10 * (n / 10) + n % 10 == n && 0 <= n / 10 < 10
  {
  }

  lemma SplitFour(n: int)
    requires 0 <= n < 10000
    ensures 100 * (n / 100) + n % 100 == n && 0 <= n / 100 < 100
  {
  }

  lemma JoinFour(high: int, low: int)
    requires 0 <= low < 100
    ensures (100 * high + low) / 100 == high && (100 * high + low) % 100 == low
  {
  }

  lemma TwoOfDigits(s: string, i: nat, n: int)
    requires i + 2 <= |s| && 0 <= n < 100
    requires s[i] == DigitChar(n / 10) && s[i + 1] == DigitChar(n % 10)
    ensures Two(s, i) == Some(n)
  {
    SplitTwo(n);
  }

  lemma ParseOf(s: string, t: DateTime)
    requires Valid(t) && |s| == 19
    requires s[4] == '-' && s[7] == '-' && s[10] == 'T' && s[13] == ':' && s[16] == ':'
    requires Four(s, 0) == Some(t.year) && Two(s, 5) == Some(t.month) && Two(s, 8) == Some(t.day)
    requires Two(s, 11) == Some(t.hour) && Two(s, 14) == Some(t.minute) && Two(s, 17) == Some(t.second)
    ensures ParseDateTime(s) == Ok(t)
  {
  }

  /** Rendering and parsing are inverse on valid date-times. */
  lemma {:induction false} ParseRender(t: DateTime)
    requires Valid(t)
    ensures ParseDateTime(Render(t)) == Ok(t)
  {
    RenderedYear(t);
    RenderedDate(t);
    RenderedTime(t);
    ParseOf(Render(t), t);
  }

  lemma RenderedYear(t: DateTime)
    requires Valid(t)
    ensures Four(Render(t), 0) == Some(t.year)
  {
    SplitFour(t.year);
    TwoOfDigits(Render(t), 0, t.year / 100);
    TwoOfDigits(Render(t), 2, t.year % 100);
  }

  lemma RenderedDate(t: DateTime)
    requires Valid(t)
    ensures Two(Render(t), 5) == Some(t.month) && Two(Render(t), 8) == Some(t.day)
  {
    TwoOfDigits(Render(t), 5, t.month);
    TwoOfDigits(Render(t), 8, t.day);
  }

  lemma RenderedTime(t: DateTime)
    requires Valid(t)
    ensures Two(Render(t), 11) == Some(t.hour) && Two(Render(t), 14) == Some(t.minute)
    ensures Two(Render(t), 17) == Some(t.second)
  {
    TwoOfDigits(Render(t), 11, t.hour);
    TwoOfDigits(Render(t), 14, t.minute);
    TwoOfDigits(Render(t), 17, t.second);
  }

  lemma DigitsOfTwo(s: string, i: nat)
    requires i + 2 <= |s| && Two(s, i).Some?
    ensures s[i] == DigitChar(Two(s, i).value / 10) && s[i + 1] == DigitChar(Two(s, i).value % 10)
  {
    DigitCharOf(s[i]);
    DigitCharOf(s[i + 1]);
  }

  lemma DigitsOfFour(s: string, i: nat)
    requires i + 4 <= |s| && Four(s, i).Some?
    ensures var v := Four(s, i).value;
      && s[i] == DigitChar(v / 100 / 10) && s[i + 1] == DigitChar(v / 100 % 10)
      && s[i + 2] == DigitChar(v % 100 / 10) && s[i + 3] == DigitChar(v % 100 % 10)
  {
    JoinFour(Two(s, i).value, Two(s, i + 2).value);
    DigitsOfTwo(s, i);
    DigitsOfTwo(s, i + 2);
  }

  lemma RenderOf(t: DateTime, e: string)
    requires Valid(t) && |e| == 19
    requires e[4] == '-' && e[7] == '-' && e[10] == 'T' && e[13] == ':' && e[16] == ':'
    requires e[0] == DigitChar(t.year / 100 / 10) && e[1] == DigitChar(t.year / 100 % 10)
    requires e[2] == DigitChar(t.year % 100 / 10) && e[3] == DigitChar(t.year % 100 % 10)
    requires e[5] == DigitChar(t.month / 10) && e[6] == DigitChar(t.month % 10)
    requires e[8] == DigitChar(t.day / 10) && e[9] == DigitChar(t.day % 10)
    requires e[11] == DigitChar(t.hour / 10) && e[12] == DigitChar(t.hour % 10)
    requires e[14] == DigitChar(t.minute / 10) && e[15] == DigitChar(t.minute % 10)
    requires e[17] == DigitChar(t.second / 10) && e[18] == DigitChar(t.second % 10)
    ensures Render(t) == e
  {
  }

  /** Conversely, a parsed text is the rendering of what it parses to, up to the
      case of its `T` separator. */
  lemma {:induction false} RenderParse(s: string)
    requires ParseDateTime(s).Ok?
    ensures Render(ParseDateTime(s).value) == s[..10] + "T" + s[11..]
  {
    var t := ParseDateTime(s).value;
    assert t == DateTime(Four(s, 0).value, Two(s, 5).value, Two(s, 8).value,
                         Two(s, 11).value, Two(s, 14).value, Two(s, 17).value);
    DigitsOfFour(s, 0);
    DigitsOfTwo(s, 5);
    DigitsOfTwo(s, 8);
    DigitsOfTwo(s, 11);
    DigitsOfTwo(s, 14);
    DigitsOfTwo(s, 17);
    RenderOf(t, s[..10] + "T" + s[11..]);
  }

  // ---------------------------------------------------------------------------
  // `_convert_to_sast_str`
  // ---------------------------------------------------------------------------

  /** `utc_str[:-5]`: everything but the last five characters, empty when there
      are fewer than five. */
  function DropSuffix(s: string): (p: string)
    ensures |s| >= 5 ==> |p| == |s| - 5 && s == p + s[|s| - 5..]
    ensures |s| < 5 ==> p == []
  {
    if |s| >= 5 then s[..|s| - 5] else []
  }

  function ConvertToSast(s: string): Result<string, ConvertError> {
    match ParseDateTime(DropSuffix(s))
    case Err(e) => Err(e)
    case Ok(t) =>
      match AddTwoHours(t)
      case Err(e) => Err(e)
      case Ok(u) => Ok(Render(u) + SastOffset)
  }

  /** The conversion succeeds exactly when the text without its last five
      characters is a date-time and is not within the last two hours of year
      9999; its result is the same instant two hours later, zero-padded, with
      `+02:00` appended, minutes and seconds unchanged. */
  lemma {:induction false} ConvertToSastShifts(s: string)
    ensures ConvertToSast(s).Ok? <==>
      && ParseDateTime(DropSuffix(s)).Ok?
      && var t := ParseDateTime(DropSuffix(s)).value;
         !(t.year == MaxYear && t.month == 12 && t.day == 31 && t.hour >= 22)
    ensures ConvertToSast(s).Err? && ParseDateTime(DropSuffix(s)).Err? ==> ConvertToSast(s).error == Malformed
    ensures ConvertToSast(s).Err? && ParseDateTime(DropSuffix(s)).Ok? ==> ConvertToSast(s).error == OutOfRange
    ensures ConvertToSast(s).Ok? ==>
      var r := ConvertToSast(s).value;
      var t := ParseDateTime(DropSuffix(s)).value;
      && |r| == 25 && r[19..] == SastOffset
      && ParseDateTime(r[..19]).Ok?
      && var u := ParseDateTime(r[..19]).value;
         && Instant(u) == Instant(t) + ShiftSeconds
         && u.minute == t.minute && u.second == t.second
  {
    if ConvertToSast(s).Ok? {
      var t := ParseDateTime(DropSuffix(s)).value;
      var u := AddTwoHours(t).value;
      var r := ConvertToSast(s).value;
      assert r == Render(u) + SastOffset;
      assert r[..19] == Render(u);
      ParseRender(u);
    }
  }

  /** The last five characters of the input never matter. */
  lemma ConvertIgnoresLastFive(p: string, x: string, y: string)
    requires |x| == 5 && |y| == 5
    ensures ConvertToSast(p + x) == ConvertToSast(p + y)
  {
    assert DropSuffix(p + x) == p == DropSuffix(p + y);
  }

  /** Converting a rendered date-time, whatever five characters follow it, is
      rendering the date-time two hours later with the SAST offset. */
  lemma {:induction false} ConvertRendered(t: DateTime, x: string)
    requires Valid(t) && |x| == 5
    ensures AddTwoHours(t).Ok? ==> ConvertToSast(Render(t) + x) == Ok(Render(AddTwoHours(t).value) + SastOffset)
    ensures AddTwoHours(t).Err? ==> ConvertToSast(Render(t) + x) == Err(OutOfRange)
  {
    assert DropSuffix(Render(t) + x) == Render(t);
    ParseRender(t);
  }

  /** Worked examples of the calendar roll-over: an evening time crossing
      midnight, February 28 in a leap year and in a common year, the turn of the
      year, and the end of the range. */
  lemma AddTwoHoursExamples()
    ensures AddTwoHours(DateTime(2023, 6, 15, 22, 30, 0)) == Ok(DateTime(2023, 6, 16, 0, 30, 0))
    ensures AddTwoHours(DateTime(2024, 2, 28, 23, 15, 9)) == Ok(DateTime(2024, 2, 29, 1, 15, 9))
    ensures AddTwoHours(DateTime(2023, 2, 28, 23, 15, 9)) == Ok(DateTime(2023, 3, 1, 1, 15, 9))
    ensures AddTwoHours(DateTime(1900, 2, 28, 22, 0, 0)) == Ok(DateTime(1900, 3, 1, 0, 0, 0))
    ensures AddTwoHours(DateTime(2000, 2, 28, 22, 0, 0)) == Ok(DateTime(2000, 2, 29, 0, 0, 0))
    ensures AddTwoHours(DateTime(2023, 12, 31, 22, 0, 0)) == Ok(DateTime(2024, 1, 1, 0, 0, 0))
    ensures AddTwoHours(DateTime(9999, 12, 31, 22, 0, 0)) == Err(OutOfRange)
  {
  }
}
