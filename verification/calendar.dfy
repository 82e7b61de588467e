/**
 * Calendar dates as the date picker and the booking page handle them: a
 * JavaScript `Date` at local midnight, seen as a (year, month index, day)
 * triple with `getMonth()`'s 0-based month. Days in a month, the day of the
 * week and the order of two dates are defined from a day count since
 * 1970-01-01 on the proleptic Gregorian calendar.
 */
module Calendar {
  import opened Base
  import opened Text

  /** `getFullYear()`, `getMonth()` (0 = January) and `getDate()`. */
  datatype Date = Date(year: int, month: int, day: int)

  predicate IsLeap(y: int) {
    y % 4 == 0 && (y % 100 != 0 || y % 400 == 0)
  }

  /** `new Date(y, m + 1, 0).getDate()`: the length of month `m` of year `y`. */
  function DaysInMonth(y: int, m: int): (n: int)
    requires 0 <= m < 12
    ensures 28 <= n <= 31
    ensures m == 1 ==> (n == 29 <==> IsLeap(y))
  {
    if m == 1 then (if IsLeap(y) then 29 else 28)
    else if m == 3 || m == 5 || m == 8 || m == 10 then 30
    else 31
  }

  predicate Valid(d: Date) {
    0 <= d.month < 12 && 1 <= d.day <= DaysInMonth(d.year, d.month)
  }

  /** A `Date` always denotes an existing day. */
  type CalendarDate = d: Date | Valid(d) witness Date(1970, 0, 1)

  function YearLength(y: int): int {
    if IsLeap(y) then 366 else 365
  }

  /** Leap years among the years before `y` (counted from year 1, negative
      for years before it). */
  function LeapsBefore(y: int): int {
    (y - 1) / 4 - (y - 1) / 100 + (y - 1) / 400
  }

  /** Days from 1970-01-01 to the first of January of `y`. */
  function DaysBeforeYear(y: int): int {
    365 * (y - 1970) + LeapsBefore(y) - LeapsBefore(1970)
  }

  /** Days from the first of January to the first of month `m`. */
  function DaysBeforeMonth(y: int, m: int): (n: int)
    requires 0 <= m <= 12
    ensures 0 <= n
  {
    if m == 0 then 0 else DaysBeforeMonth(y, m - 1) + DaysInMonth(y, m - 1)
  }

  /** Days since 1970-01-01: what `getTime()` counts at midnight, in days. */
  function DayNumber(d: CalendarDate): int {
    DaysBeforeYear(d.year) + DaysBeforeMonth(d.year, d.month) + d.day - 1
  }

  /** `getDay()`: 0 for Sunday to 6 for Saturday (1970-01-01 was a Thursday). */
  function DayOfWeek(d: CalendarDate): (w: int)
    ensures 0 <= w < 7
  {
    (DayNumber(d) + 4) % 7
  }

  /** `a < b` on two dates at midnight: an earlier instant. */
  predicate Before(a: CalendarDate, b: CalendarDate) {
    DayNumber(a) < DayNumber(b)
  }

  /** Earlier year, or same year and earlier month, or same month and earlier day. */
  predicate EarlierTriple(a: Date, b: Date) {
    a.year < b.year || (a.year == b.year && (a.month < b.month || (a.month == b.month && a.day < b.day)))
  }

  lemma DivStep4(y: int)
    ensures y / 4 - (y - 1) / 4 == if y % 4 == 0 then 1 else 0
  {
  }

  lemma DivStep100(y: int)
    ensures y / 100 - (y - 1) / 100 == if y % 100 == 0 then 1 else 0
  {
  }

  lemma DivStep400(y: int)
    ensures y / 400 - (y - 1) / 400 == if y % 400 == 0 then 1 else 0
  {
  }

  /** A year is as long as the distance to the next first of January. */
  lemma YearStep(y: int)
    ensures DaysBeforeYear(y + 1) == DaysBeforeYear(y) + YearLength(y)
  {
    DivStep4(y);
    DivStep100(y);
    DivStep400(y);
  }

  /** The twelve months fill the year. */
  lemma MonthsFillYear(y: int)
    ensures DaysBeforeMonth(y, 12) == YearLength(y)
  {
    var feb := DaysInMonth(y, 1);
    assert DaysBeforeMonth(y, 1) == 31;
    assert DaysBeforeMonth(y, 2) == 31 + feb;
    assert DaysBeforeMonth(y, 3) == 62 + feb;
    assert DaysBeforeMonth(y, 4) == 92 + feb;
    assert DaysBeforeMonth(y, 5) == 123 + feb;
    assert DaysBeforeMonth(y, 6) == 153 + feb;
    assert DaysBeforeMonth(y, 7) == 184 + feb;
    assert DaysBeforeMonth(y, 8) == 215 + feb;
    assert DaysBeforeMonth(y, 9) == 245 + feb;
    assert DaysBeforeMonth(y, 10) == 276 + feb;
    assert DaysBeforeMonth(y, 11) == 306 + feb;
  }

  lemma {:induction false} DaysBeforeMonthMonotone(y: int, m1: int, m2: int)
    requires 0 <= m1 <= m2 <= 12
    ensures DaysBeforeMonth(y, m1) <= DaysBeforeMonth(y, m2)
    decreases m2 - m1
  {
    if m1 < m2 {
      DaysBeforeMonthMonotone(y, m1, m2 - 1);
    }
  }

  lemma {:induction false} DaysBeforeYearMonotone(y1: int, y2: int)
    requires y1 <= y2
    ensures DaysBeforeYear(y1) <= DaysBeforeYear(y2)
    decreases y2 - y1
  {
    if y1 < y2 {
      DaysBeforeYearMonotone(y1, y2 - 1);
      YearStep(y2 - 1);
    }
  }

  /** A date's day number stays below the next year's first day. */
  lemma WithinYear(d: CalendarDate)
    ensures DayNumber(d) < DaysBeforeYear(d.year + 1)
  {
    DaysBeforeMonthMonotone(d.year, d.month + 1, 12);
    MonthsFillYear(d.year);
    YearStep(d.year);
  }

  /** A date's day number stays below the next month's first day. */
  lemma WithinMonth(d: CalendarDate, m: int)
    requires d.month < m <= 12
    ensures DayNumber(d) < DaysBeforeYear(d.year) + DaysBeforeMonth(d.year, m)
  {
    DaysBeforeMonthMonotone(d.year, d.month + 1, m);
  }

  /** Comparing two dates as instants is comparing their triples
      lexicographically. */
  lemma BeforeIsEarlierTriple(a: CalendarDate, b: CalendarDate)
    ensures Before(a, b) <==> EarlierTriple(a, b)
  {
    if a.year < b.year {
      WithinYear(a);
      DaysBeforeYearMonotone(a.year + 1, b.year);
    } else if b.year < a.year {
      WithinYear(b);
      DaysBeforeYearMonotone(b.year + 1, a.year);
    } else if a.month < b.month {
      WithinMonth(a, b.month);
    } else if b.month < a.month {
      WithinMonth(b, a.month);
    }
  }

  /** A day `k` days after another falls `k` columns further, modulo a week. */
  lemma WeekdayAdvances(a: CalendarDate, b: CalendarDate, k: int)
    requires DayNumber(b) == DayNumber(a) + k
    ensures DayOfWeek(b) == (DayOfWeek(a) + k) % 7
  {
    var n := DayNumber(a) + 4;
    assert DayOfWeek(b) == (n + k) % 7;
    assert DayOfWeek(a) == n % 7;
    WeekShift(n, k);
  }

  lemma WeekShift(n: int, k: int)
    ensures (n + k) % 7 == (n % 7 + k) % 7
  {
    var q := n / 7;
    assert n + k == 7 * q + (n % 7 + k);
  }

  /** The day after `d`, rolling over the month and the year. */
  function NextDay(d: CalendarDate): CalendarDate {
    if d.day < DaysInMonth(d.year, d.month) then Date(d.year, d.month, d.day + 1)
    else if d.month < 11 then Date(d.year, d.month + 1, 1)
    else Date(d.year + 1, 0, 1)
  }

  /** Consecutive days have consecutive day numbers and weekdays, across month
      and year ends. */
  lemma NextDayFollows(d: CalendarDate)
    ensures DayNumber(NextDay(d)) == DayNumber(d) + 1
    ensures DayOfWeek(NextDay(d)) == (DayOfWeek(d) + 1) % 7
  {
    NextDayNumber(d);
    WeekdayAdvances(d, NextDay(d), 1);
  }

  lemma NextDayNumber(d: CalendarDate)
    ensures DayNumber(NextDay(d)) == DayNumber(d) + 1
  {
    if d.day == DaysInMonth(d.year, d.month) {
      if d.month == 11 {
        assert NextDay(d) == Date(d.year + 1, 0, 1);
        MonthsFillYear(d.year);
        YearStep(d.year);
      } else {
        assert NextDay(d) == Date(d.year, d.month + 1, 1);
      }
    }
  }

  /** A fixed point: the first of January 2000 was a Saturday. */
  lemma Y2KSaturday()
    ensures DayOfWeek(Date(2000, 0, 1)) == 6
  {
    assert LeapsBefore(2000) - LeapsBefore(1970) == 7;
  }

  /** `new Date(y, m, 1)` for any month number `m`: months beyond December or
      before January carry into the year. */
  function MonthStart(y: int, m: int): (d: CalendarDate)
    ensures d.day == 1
    ensures d.year * 12 + d.month == y * 12 + m
  {
    Date(y + m / 12, m % 12, 1)
  }

  /** Months since year 0: the position of a month on the month line. */
  function MonthIndex(d: Date): int {
    d.year * 12 + d.month
  }

  /** `goToNextMonth`. */
  function NextMonth(current: CalendarDate): (d: CalendarDate)
    ensures d.day == 1 && MonthIndex(d) == MonthIndex(current) + 1
  {
    MonthStart(current.year, current.month + 1)
  }

  /** `goToPreviousMonth`. */
  function PreviousMonth(current: CalendarDate): (d: CalendarDate)
    ensures d.day == 1 && MonthIndex(d) == MonthIndex(current) - 1
  {
    MonthStart(current.year, current.month - 1)
  }

  /** Stepping rolls over the year only at the ends: December goes to January
      of the next year and January to December of the previous one. */
  lemma MonthStepRollover(current: CalendarDate)
    ensures current.month == 11 ==> NextMonth(current) == Date(current.year + 1, 0, 1)
    ensures current.month < 11 ==> NextMonth(current) == Date(current.year, current.month + 1, 1)
    ensures current.month == 0 ==> PreviousMonth(current) == Date(current.year - 1, 11, 1)
    ensures current.month > 0 ==> PreviousMonth(current) == Date(current.year, current.month - 1, 1)
  {
  }

  /** Next then previous comes back to the first of the month. */
  lemma MonthStepInverse(current: CalendarDate)
    ensures PreviousMonth(NextMonth(current)) == Date(current.year, current.month, 1)
    ensures NextMonth(PreviousMonth(current)) == Date(current.year, current.month, 1)
  {
    MonthStepRollover(current);
    MonthStepRollover(NextMonth(current));
    MonthStepRollover(PreviousMonth(current));
  }

  /** `formatDateForInput`: `""` for no date, else the unpadded year, then the
      month number and the day padded to two digits, joined by `-`. */
  function FormatDateForInput(date: Option<CalendarDate>): (r: string)
    ensures date.None? <==> r == ""
  {
    match date
    case None => ""
    case Some(d) => IntToString(d.year) + "-" + Pad2(d.month + 1) + "-" + Pad2(d.day)
  }

  /** `new Date(value)` for the `YYYY-MM-DD` value of a date input, `None`
      standing for an invalid date (including the empty value). */
  function ParseDateInput(s: string): (r: Option<CalendarDate>)
    ensures r.Some? ==> |s| == 10
  {
    if |s| != 10 || s[4] != '-' || s[7] != '-' || !AllDigits(s[..4]) || !AllDigits(s[5..7]) || !AllDigits(s[8..])
    then None
    else
      var year, month, day := DigitsValue(s[..4]), DigitsValue(s[5..7]), DigitsValue(s[8..]);
      if 1 <= month <= 12 && 1 <= day <= DaysInMonth(year, month - 1) then Some(Date(year, month - 1, day))
      else None
  }

  /** A four-digit-year date survives formatting and reading back. */
  lemma FormatThenParse(d: CalendarDate)
    requires 1000 <= d.year <= 9999
    ensures ParseDateInput(FormatDateForInput(Some(d))) == Some(d)
  {
    FormattedLayout(d);
    var s := FormatDateForInput(Some(d));
    assert AllDigits(s[..4]) && AllDigits(s[5..7]) && AllDigits(s[8..]);
    assert DigitsValue(s[..4]) == d.year && DigitsValue(s[5..7]) == d.month + 1 && DigitsValue(s[8..]) == d.day;
  }

  /** Where the parts of a four-digit-year date sit in its formatted text. */
  lemma FormattedLayout(d: CalendarDate)
    requires 1000 <= d.year <= 9999
    ensures var s := FormatDateForInput(Some(d));
            && |s| == 10 && s[4] == '-' && s[7] == '-'
            && s[..4] == NatToString(d.year) && s[5..7] == Pad2(d.month + 1) && s[8..] == Pad2(d.day)
  {
    var y, m, dd := NatToString(d.year), Pad2(d.month + 1), Pad2(d.day);
    FourDigits(d.year);
    var s := y + "-" + m + "-" + dd;
    assert FormatDateForInput(Some(d)) == s;
    assert s[..4] == y && s[5..7] == m && s[8..] == dd;
  }

  /** A value read as a date is given back by formatting, when its year does
      not start with a zero. */
  lemma ParseThenFormat(s: string)
    requires ParseDateInput(s).Some? && s[0] != '0'
    ensures FormatDateForInput(ParseDateInput(s)) == s
  {
    NatToStringOfDigits(s[..4]);
    TwoDigitsPad(s[5..7]);
    TwoDigitsPad(s[8..]);
    assert s == s[..4] + "-" + s[5..7] + "-" + s[8..];
  }
}
