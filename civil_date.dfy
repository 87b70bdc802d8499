/**
 * `convert_date_to_timestamp` (`upload_function/yfinance.rs`): a calendar
 * date written `YYYY-MM-DD` becomes the Unix time, in seconds, of its
 * midnight UTC, rendered in decimal. Dates are proleptic Gregorian.
 */
module CivilDate {
  import opened Wrappers
  import opened Ascii

  const SecondsPerDay: int := 86400

  datatype Date = Date(year: int, month: int, day: int)

  predicate IsLeapYear(y: int)
  {
    y % 4 == 0 && (y % 100 != 0 || y % 400 == 0)
  }

  function DaysInMonth(y: int, m: int): (n: int)
    requires 1 <= m <= 12
    ensures 28 <= n <= 31
  {
    if m == 2 then (if IsLeapYear(y) then 29 else 28)
    else if m == 4 || m == 6 || m == 9 || m == 11 then 30
    else 31
  }

  predicate ValidDate(d: Date)
  {
    1 <= d.month <= 12 && 1 <= d.day <= DaysInMonth(d.year, d.month)
  }

  function YearLength(y: int): int
  {
    if IsLeapYear(y) then 366 else 365
  }

  /** Days from 1 January of year `y` to the first of month `m`. */
  function DaysBeforeMonth(y: int, m: int): (n: int)
    requires 1 <= m <= 12
    ensures n >= 0
    decreases m
  {
    if m == 1 then 0 else DaysBeforeMonth(y, m - 1) + DaysInMonth(y, m - 1)
  }

  /** Days from 0001-01-01 to 1 January of year `y` (negative before year 1). */
  function DaysBeforeYear(y: int): int
  {
    365 * (y - 1) + (y - 1) / 4 - (y - 1) / 100 + (y - 1) / 400
  }

  /** The day number of a date, counted from 1970-01-01. */
  function DaysSinceEpoch(d: Date): int
    requires ValidDate(d)
  {
    DaysBeforeYear(d.year) + DaysBeforeMonth(d.year, d.month) + d.day - 1 - DaysBeforeYear(1970)
  }

  /** The calendar day after `d`. */
  function NextDay(d: Date): (next: Date)
    requires ValidDate(d)
    ensures ValidDate(next)
  {
    if d.day < DaysInMonth(d.year, d.month) then Date(d.year, d.month, d.day + 1)
    else if d.month < 12 then Date(d.year, d.month + 1, 1)
    else Date(d.year + 1, 1, 1)
  }

  lemma DaysBeforeYearStep(y: int)
    ensures DaysBeforeYear(y + 1) == DaysBeforeYear(y) + YearLength(y)
  {
    assert y / 4 - (y - 1) / 4 == (if y % 4 == 0 then 1 else 0);
    assert y / 100 - (y - 1) / 100 == (if y % 100 == 0 then 1 else 0);
    assert y / 400 - (y - 1) / 400 == (if y % 400 == 0 then 1 else 0);
  }

  lemma DaysBeforeMonthYear(y: int)
    ensures DaysBeforeMonth(y, 12) + 31 == YearLength(y)
  {
  }

  /** The day numbering has no gaps and no repeats: the next day is numbered one more. */
  lemma DaysSinceEpochNext(d: Date)
    requires ValidDate(d)
    ensures DaysSinceEpoch(NextDay(d)) == DaysSinceEpoch(d) + 1
  {
    if d.day == DaysInMonth(d.year, d.month) && d.month == 12 {
      DaysBeforeYearStep(d.year);
      DaysBeforeMonthYear(d.year);
    }
  }

  lemma EpochIsDayZero()
    ensures DaysSinceEpoch(Date(1970, 1, 1)) == 0
  {
  }

  /** Dates in calendar order. */
  predicate Before(a: Date, b: Date)
  {
    a.year < b.year || (a.year == b.year && (a.month < b.month || (a.month == b.month && a.day < b.day)))
  }

  lemma {:induction false} DaysBeforeMonthBounds(y: int, m: int)
    requires 1 <= m <= 12
    ensures DaysBeforeMonth(y, m) + DaysInMonth(y, m) <= YearLength(y)
    decreases 12 - m
  {
    if m < 12 {
      DaysBeforeMonthBounds(y, m + 1);
    }
  }

  lemma {:induction false} DaysBeforeMonthIncreasing(y: int, m1: int, m2: int)
    requires 1 <= m1 < m2 <= 12
    ensures DaysBeforeMonth(y, m1) + DaysInMonth(y, m1) <= DaysBeforeMonth(y, m2)
    decreases m2 - m1
  {
    if m1 + 1 < m2 {
      DaysBeforeMonthIncreasing(y, m1, m2 - 1);
    }
  }

  lemma {:induction false} DaysBeforeYearIncreasing(y1: int, y2: int)
    requires y1 < y2
    ensures DaysBeforeYear(y1) + YearLength(y1) <= DaysBeforeYear(y2)
    decreases y2 - y1
  {
    DaysBeforeYearStep(y1);
    if y1 + 1 < y2 {
      DaysBeforeYearIncreasing(y1 + 1, y2);
    }
  }

  /** Later dates have larger day numbers. */
  lemma DaysSinceEpochMonotone(a: Date, b: Date)
    requires ValidDate(a) && ValidDate(b) && Before(a, b)
    ensures DaysSinceEpoch(a) < DaysSinceEpoch(b)
  {
    DaysBeforeMonthBounds(a.year, a.month);
    if a.year < b.year {
      DaysBeforeYearIncreasing(a.year, b.year);
    } else if a.month < b.month {
      DaysBeforeMonthIncreasing(a.year, a.month, b.month);
    }
  }

  // ---------------------------------------------------------------------------
  // Text

  /**
   * The `%Y-%m-%d` pattern, read strictly: four-digit year, two-digit month,
   * two-digit day, and a date that exists.
   */
  function ParseDate(s: string): (r: Option<Date>)
    ensures r.Some? ==> ValidDate(r.value) && 0 <= r.value.year <= 9999
  {
    if |s| != 10 || s[4] != '-' || s[7] != '-' then None
    else if !AllDigits(s[..4]) || !AllDigits(s[5..7]) || !AllDigits(s[8..]) then None
    else
      var d := Date(DigitsValue(s[..4]), DigitsValue(s[5..7]), DigitsValue(s[8..]));
      DigitsValueBound(s[..4]);
      if ValidDate(d) then Some(d) else None
  }

  /** The Unix time of a date's midnight UTC. */
  function EpochSeconds(d: Date): int
    requires ValidDate(d)
  {
    DaysSinceEpoch(d) * SecondsPerDay
  }

  /** `convert_date_to_timestamp`: `None` when the text is not a date. */
  function ConvertDateToTimestamp(s: string): (r: Option<string>)
    ensures r.Some? <==> ParseDate(s).Some?
    ensures r.Some? ==> r.value == IntToString(EpochSeconds(ParseDate(s).value))
  {
    match ParseDate(s)
    case None => None
    case Some(d) => Some(IntToString(EpochSeconds(d)))
  }

  /** Consecutive days are one day's seconds apart. */
  lemma EpochSecondsNext(d: Date)
    requires ValidDate(d)
    ensures EpochSeconds(NextDay(d)) == EpochSeconds(d) + SecondsPerDay
  {
    DaysSinceEpochNext(d);
  }

  lemma EpochSecondsMonotone(a: Date, b: Date)
    requires ValidDate(a) && ValidDate(b) && Before(a, b)
    ensures EpochSeconds(a) < EpochSeconds(b)
  {
    DaysSinceEpochMonotone(a, b);
  }

  /** Writes `n` as exactly `width` digits, keeping the low-order ones. */
  function Digits(n: nat, width: nat): (s: string)
    ensures |s| == width && AllDigits(s)
  {
    if width == 0 then "" else Digits(n / 10, width - 1) + [DigitChar(n % 10)]
  }

  lemma {:induction false} DigitsValueOfDigits(n: nat, width: nat)
    requires n < Pow10(width)
    ensures DigitsValue(Digits(n, width)) == n
    decreases width
  {
    if width > 0 {
      var s := Digits(n, width);
      assert s[..|s| - 1] == Digits(n / 10, width - 1);
      assert n / 10 < Pow10(width - 1);
      DigitsValueOfDigits(n / 10, width - 1);
    }
  }

  /** The `YYYY-MM-DD` text of a date whose year has at most four digits. */
  function FormatDate(d: Date): (s: string)
    requires 0 <= d.year <= 9999 && 1 <= d.month <= 12 && 1 <= d.day <= 31
    ensures |s| == 10
  {
    Digits(d.year, 4) + "-" + Digits(d.month, 2) + "-" + Digits(d.day, 2)
  }

  /** Round trip: every date of years 0 to 9999 is read back from its text. */
  lemma ParseFormatDate(d: Date)
    requires ValidDate(d) && 0 <= d.year <= 9999
    ensures ParseDate(FormatDate(d)) == Some(d)
  {
    var s := FormatDate(d);
    assert Pow10(2) == 100 && Pow10(4) == 10000;
    assert s[..4] == Digits(d.year, 4);
    assert s[5..7] == Digits(d.month, 2);
    assert s[8..] == Digits(d.day, 2);
    DigitsValueOfDigits(d.year, 4);
    DigitsValueOfDigits(d.month, 2);
    DigitsValueOfDigits(d.day, 2);
  }

  lemma ConvertEpochDate()
    ensures ConvertDateToTimestamp("1970-01-01") == Some("0")
  {
    var epoch := Date(1970, 1, 1);
    assert FormatDate(epoch) == "1970-01-01";
    ParseFormatDate(epoch);
    EpochIsDayZero();
    assert EpochSeconds(epoch) == 0;
    assert IntToString(0) == "0";
  }

  /** Only dates that exist are accepted: 29 February needs a leap year. */
  lemma LeapDayAccepted(y: int)
    ensures ValidDate(Date(y, 2, 29)) <==> IsLeapYear(y)
  {
  }
}
