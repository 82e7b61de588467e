/**
 * The booking page's date picker (frontend/src/components/DatePicker.jsx):
 * the month grid its effect builds, the past-date rule shared by the day
 * buttons and the select handler, typed input, and month navigation. The
 * current day `today` (at midnight) is a parameter.
 */
module DatePicker {
  import opened Base
  import opened Calendar

  /** `firstDay.getDay()`: the column of the first of the month. */
  function FirstDayOfWeek(year: int, month: int): (w: int)
    requires 0 <= month < 12
    ensures 0 <= w < 7
  {
    DayOfWeek(Date(year, month, 1))
  }

  /** The grid of a month: `firstDayOfWeek` empty cells, then the days
      1..daysInMonth in order. */
  ghost predicate IsMonthGrid(dates: seq<Option<CalendarDate>>, year: int, month: int)
    requires 0 <= month < 12
  {
    var lead := FirstDayOfWeek(year, month);
    && |dates| == lead + DaysInMonth(year, month)
    && (forall i :: 0 <= i < lead ==> dates[i] == None)
    && (forall i :: lead <= i < |dates| ==> dates[i] == Some(Date(year, month, i - lead + 1)))
  }

  /** The effect keyed on `currentMonth`: two loops pushing onto `dates`. */
  method BuildGrid(current: CalendarDate) returns (dates: seq<Option<CalendarDate>>)
    ensures IsMonthGrid(dates, current.year, current.month)
  {
    var year, month := current.year, current.month;
    var firstDayOfWeek := FirstDayOfWeek(year, month);
    var lastDay := DaysInMonth(year, month);
    dates := [];
    for i := 0 to firstDayOfWeek
      invariant |dates| == i
      invariant forall k :: 0 <= k < i ==> dates[k] == None
    {
      dates := dates + [None];
    }
    for i := 1 to lastDay + 1
      invariant |dates| == firstDayOfWeek + i - 1
      invariant forall k :: 0 <= k < firstDayOfWeek ==> dates[k] == None
      invariant forall k :: firstDayOfWeek <= k < |dates| ==> dates[k] == Some(Date(year, month, k - firstDayOfWeek + 1))
    {
      dates := dates + [Some(Date(year, month, i))];
    }
  }

  /** Every cell of the grid sits under the header of its weekday: cell `i`
      lies in column `i % 7` of the Sun..Sat header, and that is its day of
      the week. */
  lemma GridColumnsAreWeekdays(dates: seq<Option<CalendarDate>>, year: int, month: int, i: int)
    requires 0 <= month < 12 && IsMonthGrid(dates, year, month)
    requires FirstDayOfWeek(year, month) <= i < |dates|
    ensures dates[i].Some? && DayOfWeek(dates[i].value) == i % 7
  {
    var lead := FirstDayOfWeek(year, month);
    var d := dates[i].value;
    assert d == Date(year, month, i - lead + 1);
    WeekdayAdvances(Date(year, month, 1), d, i - lead);
  }

  /** Every day of the month has its cell, at `firstDayOfWeek + day - 1`. */
  lemma GridHasEveryDay(dates: seq<Option<CalendarDate>>, d: CalendarDate)
    requires IsMonthGrid(dates, d.year, d.month)
    ensures var i := FirstDayOfWeek(d.year, d.month) + d.day - 1;
            0 <= i < |dates| && dates[i] == Some(d)
  {
  }

  /** `isPastDate`: a date strictly before today; no date is not past. */
  predicate IsPastDate(date: Option<CalendarDate>, today: CalendarDate) {
    date.Some? && Before(date.value, today)
  }

  /** A date is past exactly when its triple comes before today's, so today
      itself is selectable. */
  lemma PastIsEarlierDay(d: CalendarDate, today: CalendarDate)
    ensures IsPastDate(Some(d), today) <==> EarlierTriple(d, today)
    ensures !IsPastDate(Some(today), today)
  {
    BeforeIsEarlierTriple(d, today);
  }

  class Picker {
    var selectedDate: Option<CalendarDate>
    var currentMonth: CalendarDate
    var calendarDates: seq<Option<CalendarDate>>

    /** Mounting with the current date `now`. */
    constructor (now: CalendarDate)
      ensures selectedDate == None && currentMonth == now && calendarDates == []
    {
      selectedDate := None;
      currentMonth := now;
      calendarDates := [];
    }

    /** The grid effect, run after `currentMonth` changes. */
    method RefreshGrid()
      modifies this`calendarDates
      ensures IsMonthGrid(calendarDates, currentMonth.year, currentMonth.month)
    {
      calendarDates := BuildGrid(currentMonth);
    }

    /** `handleDateSelect`: no date, or a past one, is ignored; otherwise it is
        selected and returned as the date forwarded to `onSelectDate`. A day
        button is disabled by `isPastDate`, the very test that makes this
        handler ignore it. */
    method HandleDateSelect(date: Option<CalendarDate>, today: CalendarDate) returns (forwarded: Option<CalendarDate>)
      modifies this`selectedDate
      ensures forwarded.None? <==> date.None? || IsPastDate(date, today)
      ensures forwarded.Some? ==> forwarded == date && selectedDate == date
      ensures forwarded.None? ==> selectedDate == old(selectedDate)
    {
      forwarded := None;
      if date.None? {
        return;
      }
      if Before(date.value, today) {
        return;
      }
      selectedDate := date;
      forwarded := date;
    }

    /** `handleInputChange` on the input's `value`: an invalid or past date is
        ignored; otherwise it is selected, the grid moves to its month, and it
        is forwarded. */
    method HandleInputChange(value: string, today: CalendarDate) returns (forwarded: Option<CalendarDate>)
      modifies this`selectedDate, this`currentMonth
      ensures forwarded.None? <==> ParseDateInput(value).None? || IsPastDate(ParseDateInput(value), today)
      ensures forwarded.Some? ==> && forwarded == ParseDateInput(value) && selectedDate == forwarded
                                  && currentMonth == Date(forwarded.value.year, forwarded.value.month, 1)
      ensures forwarded.None? ==> selectedDate == old(selectedDate) && currentMonth == old(currentMonth)
    {
      forwarded := None;
      var inputDate := ParseDateInput(value);
      if inputDate.None? {
        return;
      }
      if Before(inputDate.value, today) {
        return;
      }
      selectedDate := inputDate;
      currentMonth := Date(inputDate.value.year, inputDate.value.month, 1);
      forwarded := inputDate;
    }

    /** `goToPreviousMonth`. */
    method GoToPreviousMonth()
      modifies this`currentMonth
      ensures currentMonth == PreviousMonth(old(currentMonth))
    {
      currentMonth := PreviousMonth(currentMonth);
    }

    /** `goToNextMonth`. */
    method GoToNextMonth()
      modifies this`currentMonth
      ensures currentMonth == NextMonth(old(currentMonth))
    {
      currentMonth := NextMonth(currentMonth);
    }
  }
}
