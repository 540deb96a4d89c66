/**
 * `setRange` of the reports page and of the pocket-expenses page (the two
 * copies are the same): the presets today, this week (Monday to Sunday),
 * this month and this year, written into the `dateFrom`/`dateTo` inputs.
 * The page's `Date` values are read in the host's local calendar; since
 * only their dates reach the inputs, each is modelled as the day number of
 * its local date.
 */
module DateRange {
  import opened Wrappers
  import opened Civil
  import opened CairoCalendar
  import opened Periods
  import opened DateInput

  // ---------------------------------------------------------------------------
  // The `Date` operations, on local day numbers

  /** `getFullYear`, `getMonth() + 1` and `getDate` together. */
  function LocalParts(n: int): (d: Date)
    ensures ValidDate(d)
  {
    CivilFromDays(n)
  }

  /** `getDay()`: 0 for Sunday up to 6 for Saturday. */
  function GetDay(n: int): (w: int)
    ensures 0 <= w < 7
  {
    WeekdayOfDay(n)
  }

  /** `setDate(date)`: the same year and month, the day set to `date`, rolling over. */
  function SetDate(n: int, date: int): int {
    var p := LocalParts(n);
    MakeDay(p.year, p.month - 1, date)
  }

  /** `new Date(year, monthIndex, date)` with a zero-based month that may roll over. */
  function NewLocalDate(year: int, monthIndex: int, date: int): int {
    MakeDay(year, monthIndex, date)
  }

  /** `d.setDate(d.getDate() + k)` moves `d` by exactly `k` days. */
  lemma SetDateShift(n: int, k: int)
    ensures SetDate(n, LocalParts(n).day + k) == n + k
  {
    var p := LocalParts(n);
    MakeDayShiftOf(p, n, k);
    assert SetDate(n, p.day + k) == MakeDay(p.year, p.month - 1, p.day + k);
  }

  // ---------------------------------------------------------------------------
  // The presets

  /** An inclusive range of local day numbers. */
  datatype Span = Span(from: int, to: int)

  /** The Monday on or before day `n`. */
  function MondayOf(n: int): int {
    n - DaysSinceMonday(GetDay(n))
  }

  /** The Monday-to-Sunday week holding day `n`. */
  function WeekSpan(n: int): Span {
    Span(MondayOf(n), MondayOf(n) + 6)
  }

  /** The month holding day `n`, from its first to its last day. */
  function MonthSpan(n: int): Span {
    var p := LocalParts(n);
    Span(DaysFromCivil(p.year, p.month, 1), DaysFromCivil(p.year, p.month, DaysInMonth(p.year, p.month)))
  }

  /** The year holding day `n`, from January 1 to December 31. */
  function YearSpan(n: int): Span {
    var p := LocalParts(n);
    Span(DaysFromCivil(p.year, 1, 1), DaysFromCivil(p.year, 12, 31))
  }

  /**
   * The range a preset names, in calendar terms: the day itself, the
   * Monday-to-Sunday week holding it, its month from the first to the last
   * day, its year from January 1 to December 31; any other name names
   * none.
   */
  function Preset(range: string, today: int): Option<Span> {
    if range == "today" then Some(Span(today, today))
    else if range == "week" then Some(WeekSpan(today))
    else if range == "month" then Some(MonthSpan(today))
    else if range == "year" then Some(YearSpan(today))
    else None
  }

  /** The four preset names, and no other, name a range, and every range holds `today`. */
  lemma PresetHoldsToday(range: string, today: int)
    ensures Preset(range, today).Some? <==> range == "today" || range == "week" || range == "month" || range == "year"
    ensures Preset(range, today).Some? ==> Preset(range, today).value.from <= today <= Preset(range, today).value.to
  {
    var p := LocalParts(today);
    if range == "month" {
      DaysFromCivilShift(p.year, p.month, 1, p.day - 1);
      DaysFromCivilShift(p.year, p.month, p.day, DaysInMonth(p.year, p.month) - p.day);
    } else if range == "year" {
      WithinYear(p);
    }
  }

  /** The week preset runs from a Monday to the Sunday six days later. */
  lemma WeekPreset(today: int)
    ensures var s := Preset("week", today).value;
            && GetDay(s.from) == 1 && GetDay(s.to) == 0 && s.to == s.from + 6
            && today - 6 <= s.from <= today
  {
    MondayWeekday(today);
    var m := MondayOf(today);
    assert (m + 6 + 4) % 7 == ((m + 4) % 7 + 6) % 7;
  }

  /** The month preset runs from the first to the last day of today's month. */
  lemma MonthPreset(today: int)
    ensures var s, p := Preset("month", today).value, LocalParts(today);
            && LocalParts(s.from) == Date(p.year, p.month, 1)
            && LocalParts(s.to) == Date(p.year, p.month, DaysInMonth(p.year, p.month))
            && LocalParts(s.to + 1).day == 1
  {
    var p := LocalParts(today);
    var s := Preset("month", today).value;
    MonthBounds(p, s.from, s.to);
  }

  lemma MonthBounds(p: Date, from: int, to: int)
    requires ValidDate(p)
    requires from == DaysFromCivil(p.year, p.month, 1)
    requires to == DaysFromCivil(p.year, p.month, DaysInMonth(p.year, p.month))
    ensures LocalParts(from) == Date(p.year, p.month, 1)
    ensures LocalParts(to) == Date(p.year, p.month, DaysInMonth(p.year, p.month))
    ensures LocalParts(to + 1).day == 1
  {
    CivilRoundTrip(Date(p.year, p.month, 1));
    LastDayRollsOver(Date(p.year, p.month, DaysInMonth(p.year, p.month)), to);
  }

  /** The day after the last of a month is the first of a month. */
  lemma LastDayRollsOver(last: Date, n: int)
    requires ValidDate(last) && last.day == DaysInMonth(last.year, last.month)
    requires n == DaysFromCivil(last.year, last.month, last.day)
    ensures CivilFromDays(n) == last && CivilFromDays(n + 1).day == 1
  {
    CivilRoundTrip(last);
    NextDayRollsOver(last);
  }

  /** The year preset runs from January 1 to December 31 of today's year. */
  lemma YearPreset(today: int)
    ensures var s, p := Preset("year", today).value, LocalParts(today);
            && LocalParts(s.from) == Date(p.year, 1, 1)
            && LocalParts(s.to) == Date(p.year, 12, 31)
  {
    var p := LocalParts(today);
    CivilRoundTrip(Date(p.year, 1, 1));
    CivilRoundTrip(Date(p.year, 12, 31));
  }

  /** A date lies from January 1 to December 31 of its year. */
  lemma WithinYear(d: Date)
    requires ValidDate(d)
    ensures DaysFromCivil(d.year, 1, 1) <= DaysFromCivil(d.year, d.month, d.day) <= DaysFromCivil(d.year, 12, 31)
  {
    DaysBeforeMonthStep(d.year, d.month);
    DaysBeforeMonthStep(d.year, 12);
    assert DaysBeforeMonth(d.year, d.month + 1) <= DaysBeforeMonth(d.year, 13);
  }

  // ---------------------------------------------------------------------------
  // The steps of each preset

  /** `start` moved back `(getDay() + 6) % 7` days with `setDate`, and `end` a copy moved on six days. */
  method WeekSteps(today: int) returns (start: int, end: int)
    ensures Span(start, end) == WeekSpan(today)
  {
    start := today;
    var dayIndex := (GetDay(start) + 6) % 7;
    start := MoveDays(start, -dayIndex);
    end := start;
    end := MoveDays(end, 6);
  }

  /** `d.setDate(d.getDate() + k)`. */
  method MoveDays(d: int, k: int) returns (r: int)
    ensures r == d + k
  {
    r := SetDate(d, LocalParts(d).day + k);
    SetDateShift(d, k);
  }

  /** `new Date(y, m, 1)` and `new Date(y, m + 1, 0)`, day 0 rolling back to the last of month `m`. */
  method MonthSteps(today: int) returns (start: int, end: int)
    ensures Span(start, end) == MonthSpan(today)
  {
    var p := LocalParts(today);
    MakeDayOfValidMonth(p.year, p.month, 1);
    DayZeroIsLastDayOfPreviousMonth(p.year, p.month);
    start := NewLocalDate(p.year, p.month - 1, 1);
    end := NewLocalDate(p.year, p.month, 0);
  }

  /** `new Date(y, 0, 1)` and `new Date(y, 11, 31)`. */
  method YearSteps(today: int) returns (start: int, end: int)
    ensures Span(start, end) == YearSpan(today)
  {
    var p := LocalParts(today);
    MakeDayOfValidMonth(p.year, 1, 1);
    MakeDayOfValidMonth(p.year, 12, 31);
    start := NewLocalDate(p.year, 0, 1);
    end := NewLocalDate(p.year, 11, 31);
  }

  // ---------------------------------------------------------------------------
  // The page's date inputs

  /** The `dateFrom` and `dateTo` inputs of a page with a date-range filter. */
  class RangeFilter {
    var dateFrom: string
    var dateTo: string

    /** Both inputs start empty. */
    constructor ()
      ensures dateFrom == "" && dateTo == ""
    {
      dateFrom, dateTo := "", "";
    }

    /**
     * `setRange(range)` on the local date `today`: a preset name writes the
     * first and the last day of its range into the inputs and asks for the
     * list to be reloaded; any other name changes nothing.
     */
    method SetRange(range: string, today: int) returns (reload: bool)
      modifies this
      ensures var span := Preset(range, today);
              && reload == span.Some?
              && (span.Some? ==> dateFrom == FormatDateInput(span.value.from) && dateTo == FormatDateInput(span.value.to))
              && (span.None? ==> dateFrom == old(dateFrom) && dateTo == old(dateTo))
    {
      var start: Option<int> := None;
      var end: Option<int> := None;

      if range == "today" {
        start, end := Some(today), Some(today);
      }

      if range == "week" {
        var s, e := WeekSteps(today);
        start, end := Some(s), Some(e);
      }

      if range == "month" {
        var s, e := MonthSteps(today);
        start, end := Some(s), Some(e);
      }

      if range == "year" {
        var s, e := YearSteps(today);
        start, end := Some(s), Some(e);
      }

      if start.None? || end.None? {
        return false;
      }
      dateFrom := FormatDateInput(start.value);
      dateTo := FormatDateInput(end.value);
      reload := true;
    }

    /** `resetRange`: both inputs emptied, and the list always reloaded. */
    method ResetRange() returns (reload: bool)
      modifies this
      ensures dateFrom == "" && dateTo == ""
      ensures reload
    {
      dateFrom, dateTo := "", "";
      reload := true;
    }
  }
}
