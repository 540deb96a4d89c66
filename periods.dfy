/**
 * The period boundaries the pages compute in `getPeriodStarts`: the
 * Monday-noon business week (every page), the profits page's midnight day
 * and month starts, and the dashboard's noon-to-06:00 business day with its
 * month and year starts. Each is computed as the pages do, through
 * UTC-midnight `Date` values moved with `setUTCDate` and turned back into
 * Cairo instants by `makeCairoDate`, and is proved equal to a boundary
 * stated in day numbers, whose properties are lemmas.
 */
module Periods {
  import opened Civil
  import opened CairoCalendar

  // ---------------------------------------------------------------------------
  // The `Date` steps, each read in day numbers

  /** `new Date(Date.UTC(p.year, p.month - 1, p.day))`: for valid parts, UTC midnight of their day. */
  method UtcMidnight(p: Date) returns (t: int)
    ensures ValidDate(p) ==> t == DaysFromCivil(p.year, p.month, p.day) * MsPerDay
  {
    t := DateUtc(p.year, p.month - 1, p.day, 0, 0, 0);
    if ValidDate(p) {
      MakeDayOfValidMonth(p.year, p.month, p.day);
    }
  }

  /** `t.setUTCDate(t.getUTCDate() + k)`: `k` whole days later (earlier for negative `k`). */
  method ShiftUtcDays(t: int, k: int) returns (r: int)
    ensures r == t + k * MsPerDay
  {
    r := SetUtcDate(t, UtcDate(t).day + k);
    SetUtcDateShift(t, k);
  }

  /** `{ year: t.getUTCFullYear(), month: t.getUTCMonth() + 1, day: t.getUTCDate() }`: the parts of the UTC day of `t`. */
  method UtcParts(t: int) returns (p: Date)
    ensures ValidDate(p)
    ensures DaysFromCivil(p.year, p.month, p.day) == t / MsPerDay
  {
    p := UtcDate(t);
  }

  /** `makeCairoDate(p.year, p.month, p.day, hour, 0, 0)`: for valid parts, `hour`:00 in the zone on their day. */
  method CairoDateAt(p: Date, hour: int, z: Zone) returns (t: int)
    ensures ValidDate(p) ==> t == InstantOnDay(DaysFromCivil(p.year, p.month, p.day), hour, z)
  {
    t := MakeCairoDate(p.year, p.month, p.day, hour, 0, 0, z);
    if ValidDate(p) {
      MakeDayOfValidMonth(p.year, p.month, p.day);
    }
  }

  // ---------------------------------------------------------------------------
  // The business week

  /**
   * The Monday, as a day number in the zone, whose noon opens the business
   * week holding `now`: this week's Monday, or the one before it when `now`
   * is a Monday before noon.
   */
  function WeekMonday(now: int, z: Zone): int {
    var today := LocalDay(now, z);
    var back := DaysSinceMonday(WeekdayOfDay(today));
    if back == 0 && MsOfDay(now, z) < 12 * MsPerHour then today - 7 else today - back
  }

  /** The start of the business week holding `now`: its Monday at 12:00 in the zone. */
  function WeekStart(now: int, z: Zone): int {
    InstantOnDay(WeekMonday(now, z), 12, z)
  }

  /** The end of the business week holding `now`: the next Monday at 06:00 in the zone. */
  function WeekEnd(now: int, z: Zone): int {
    InstantOnDay(WeekMonday(now, z) + 7, 6, z)
  }

  /** The week starts at or before `now` and less than seven days before it. */
  lemma WeekStartBracketsNow(now: int, z: Zone)
    ensures WeekStart(now, z) <= now < WeekStart(now, z) + 7 * MsPerDay
  {
    var monday := WeekMonday(now, z);
    var d, tod := LocalDay(now, z), MsOfDay(now, z);
    var back := DaysSinceMonday(WeekdayOfDay(d));
    WeekArithmetic(d, tod, back);
    assert now == InstantOnDay(d, 0, z) + tod;
    assert WeekStart(now, z) == InstantOnDay(d, 0, z) + (monday - d) * MsPerDay + 12 * MsPerHour;
  }

  /** The week starts on a Monday at 12:00 in the zone. */
  lemma WeekStartIsMondayNoon(now: int, z: Zone)
    ensures IsMondayAt(WeekStart(now, z), z, 12)
  {
    var monday := WeekMonday(now, z);
    assert WeekStart(now, z) == InstantOnDay(monday, 12, z);
    DayOnDay(monday, 12, z);
    MondayWeekday(LocalDay(now, z));
    assert WeekdayOfDay(monday) == 1;
  }

  /** The week's Monday is this week's exactly when `now` is not a Monday before noon. */
  lemma WeekStartSameWeekIff(now: int, z: Zone)
    ensures LocalDay(WeekStart(now, z), z) == LocalDay(now, z) - DaysSinceMonday(CairoWeekday(now, z))
            <==> !(CairoWeekday(now, z) == 1 && CairoHour(now, z) < 12)
  {
    var monday := WeekMonday(now, z);
    var d, tod := LocalDay(now, z), MsOfDay(now, z);
    var back := DaysSinceMonday(WeekdayOfDay(d));
    assert monday == (if back == 0 && tod < 12 * MsPerHour then d - 7 else d - back);
    WeekArithmetic(d, tod, back);
    assert WeekStart(now, z) == InstantOnDay(monday, 12, z);
    DayOnDay(monday, 12, z);
    assert CairoWeekday(now, z) == WeekdayOfDay(d);
    assert back == 0 <==> CairoWeekday(now, z) == 1;
    HourBefore(now, z, 12);
  }

  /** Stepping back the days since Monday, or back a whole week from a Monday, lands on a Monday. */
  lemma MondayWeekday(d: int)
    ensures var back := DaysSinceMonday(WeekdayOfDay(d));
            && WeekdayOfDay(d - back) == 1
            && (back == 0 ==> WeekdayOfDay(d - 7) == 1)
  {
    var q, w := (d + 4) / 7, (d + 4) % 7;
    assert d + 4 == 7 * q + w;
    if w == 0 {
      assert d - 6 + 4 == 7 * (q - 1) + 1;
    } else {
      assert d - (w - 1) + 4 == 7 * q + 1;
    }
  }

  /** The week ends six days and eighteen hours after it starts. */
  lemma WeekLength(now: int, z: Zone)
    ensures WeekEnd(now, z) == WeekStart(now, z) + 6 * MsPerDay + 18 * MsPerHour
  {
  }

  /** The week ends on a Monday at 06:00 in the zone. */
  lemma WeekEndIsMondayMorning(now: int, z: Zone)
    ensures IsMondayAt(WeekEnd(now, z), z, 6)
  {
    var monday := WeekMonday(now, z);
    assert WeekEnd(now, z) == InstantOnDay(monday + 7, 6, z);
    DayOnDay(monday + 7, 6, z);
    MondayWeekday(LocalDay(now, z));
    assert WeekdayOfDay(monday) == 1;
    assert WeekdayOfDay(monday + 7) == WeekdayOfDay(monday);
  }

  /**
   * `now` lies at or before the end of its week exactly when it is not a
   * Monday strictly between 06:00 and 12:00, the hours when the week that
   * has just ended is still the one chosen.
   */
  lemma WeekEndCoversNowIff(now: int, z: Zone)
    ensures now <= WeekEnd(now, z)
            <==> !(CairoWeekday(now, z) == 1 && 6 * MsPerHour < MsOfDay(now, z) < 12 * MsPerHour)
  {
    var d, tod := LocalDay(now, z), MsOfDay(now, z);
    var back := DaysSinceMonday(WeekdayOfDay(d));
    WeekArithmetic(d, tod, back);
    assert now == InstantOnDay(d, 0, z) + tod;
  }

  /** The week bounds in day numbers and milliseconds, with the zone's offset taken out. */
  lemma WeekArithmetic(d: int, tod: int, back: int)
    requires 0 <= tod < MsPerDay && 0 <= back < 7
    ensures var monday := if back == 0 && tod < 12 * MsPerHour then d - 7 else d - back;
            && monday * MsPerDay + 12 * MsPerHour <= d * MsPerDay + tod < (monday + 7) * MsPerDay + 12 * MsPerHour
            && (monday == d - back <==> !(back == 0 && tod < 12 * MsPerHour))
            && (d * MsPerDay + tod <= (monday + 7) * MsPerDay + 6 * MsPerHour
                <==> !(back == 0 && 6 * MsPerHour < tod < 12 * MsPerHour))
  {
  }

  /** On the clock, the week opens on the Monday's date at 12:00:00. */
  lemma WeekStartReading(now: int, z: Zone)
    ensures WallClock(WeekStart(now, z), z) == WallTime(CivilFromDays(WeekMonday(now, z)), 12, 0, 0)
  {
    ClockAt(WeekStart(now, z), WeekMonday(now, z), 12, z);
  }

  /** On the clock, the week closes on the date seven days after the Monday's, at 06:00:00. */
  lemma WeekEndReading(now: int, z: Zone)
    ensures WallClock(WeekEnd(now, z), z) == WallTime(CivilFromDays(WeekMonday(now, z) + 7), 6, 0, 0)
  {
    ClockAt(WeekEnd(now, z), WeekMonday(now, z) + 7, 6, z);
  }

  /**
   * `getPeriodStarts`, first half of the week part: Monday's date is found
   * by stepping a UTC-midnight `Date` back by the days since Monday, and
   * stepped back a further week when "now" is before that Monday's noon in
   * Cairo. Also returns Monday's parts, which the rest of the computation
   * reads.
   */
  method WeekStartSteps(now: int, z: Zone) returns (startOfWeek: int, mondayParts: Date)
    ensures startOfWeek == WeekStart(now, z)
    ensures ValidDate(mondayParts) && DaysFromCivil(mondayParts.year, mondayParts.month, mondayParts.day) == WeekMonday(now, z)
  {
    var todayParts := CairoDateParts(now, z);
    var dayIndex := CairoWeekdayIndex(now, z);
    var daysSinceMonday := DaysSinceMonday(dayIndex);

    var todayBase := UtcMidnight(todayParts);
    todayBase := ShiftUtcDays(todayBase, -daysSinceMonday);
    mondayParts := UtcParts(todayBase);
    DivideDay(todayBase, LocalDay(now, z) - daysSinceMonday, 0);
    startOfWeek := CairoDateAt(mondayParts, 12, z);

    if now < startOfWeek {
      todayBase := ShiftUtcDays(todayBase, -7);
      mondayParts := UtcParts(todayBase);
      DivideDay(todayBase, LocalDay(now, z) - daysSinceMonday - 7, 0);
      startOfWeek := CairoDateAt(mondayParts, 12, z);
    }
  }

  /**
   * `getPeriodStarts` of the cashier and pocket-expense pages: the week
   * start, then the end as Monday's date plus seven days at 06:00.
   */
  method GetWeekBounds(now: int, z: Zone) returns (startOfWeek: int, endOfWeek: int)
    ensures startOfWeek == WeekStart(now, z)
    ensures endOfWeek == WeekEnd(now, z)
  {
    var mondayParts;
    startOfWeek, mondayParts := WeekStartSteps(now, z);
    var endBase := UtcMidnight(mondayParts);
    endBase := ShiftUtcDays(endBase, 7);
    var endParts := UtcParts(endBase);
    DivideDay(endBase, WeekMonday(now, z) + 7, 0);
    endOfWeek := CairoDateAt(endParts, 6, z);
  }

  // ---------------------------------------------------------------------------
  // Midnight, month and year starts

  /** Midnight in the zone at the start of the zone's day holding `now`. */
  function TodayMidnight(now: int, z: Zone): int {
    InstantOnDay(LocalDay(now, z), 0, z)
  }

  /** Midnight in the zone on the first of the zone's month holding `now`. */
  function MonthStart(now: int, z: Zone): int {
    var p := CairoDateParts(now, z);
    InstantOnDay(DaysFromCivil(p.year, p.month, 1), 0, z)
  }

  /** Midnight in the zone on January 1 of the zone's year holding `now`. */
  function YearStart(now: int, z: Zone): int {
    var p := CairoDateParts(now, z);
    InstantOnDay(DaysFromCivil(p.year, 1, 1), 0, z)
  }

  /** The day starts at or before `now`, less than a day before it, and reads 00:00:00 on today's date. */
  lemma TodayMidnightProperties(now: int, z: Zone)
    ensures TodayMidnight(now, z) <= now < TodayMidnight(now, z) + MsPerDay
    ensures WallClock(TodayMidnight(now, z), z) == WallTime(CairoDateParts(now, z), 0, 0, 0)
  {
    ClockOnDay(LocalDay(now, z), 0, z);
  }

  /**
   * Year start, month start and midnight come in that order, all at or
   * before `now`, and read 00:00:00 on January 1 and on the first of the
   * month of today's date.
   */
  lemma MonthAndYearStartOrder(now: int, z: Zone)
    ensures YearStart(now, z) <= MonthStart(now, z) <= TodayMidnight(now, z) <= now
    ensures var p := CairoDateParts(now, z);
            && WallClock(MonthStart(now, z), z) == WallTime(Date(p.year, p.month, 1), 0, 0, 0)
            && WallClock(YearStart(now, z), z) == WallTime(Date(p.year, 1, 1), 0, 0, 0)
  {
    var p := CairoDateParts(now, z);
    ClockOnDay(DaysFromCivil(p.year, p.month, 1), 0, z);
    ClockOnDay(DaysFromCivil(p.year, 1, 1), 0, z);
    CivilRoundTrip(Date(p.year, p.month, 1));
    CivilRoundTrip(Date(p.year, 1, 1));
  }

  /**
   * `getPeriodStarts` of the cashier-profits page: the business week, plus
   * the start of today and of this month at midnight in the zone.
   */
  method ProfitsPeriodStarts(now: int, z: Zone) returns (startOfToday: int, startOfWeek: int, startOfMonth: int, endOfWeek: int)
    ensures startOfWeek == WeekStart(now, z) && endOfWeek == WeekEnd(now, z)
    ensures startOfToday == TodayMidnight(now, z)
    ensures startOfMonth == MonthStart(now, z)
  {
    startOfWeek, endOfWeek := GetWeekBounds(now, z);
    var todayParts := CairoDateParts(now, z);
    startOfToday := CairoDateAt(todayParts, 0, z);
    startOfMonth := CairoDateAt(Date(todayParts.year, todayParts.month, 1), 0, z);
  }

  // ---------------------------------------------------------------------------
  // The dashboard's business day

  /** The day number of the business day holding `now`: yesterday before noon in the zone, otherwise today. */
  function BusinessDay(now: int, z: Zone): int {
    if CairoHour(now, z) < 12 then LocalDay(now, z) - 1 else LocalDay(now, z)
  }

  /** The business day opens at 12:00 in the zone. */
  function BusinessDayStart(now: int, z: Zone): int {
    InstantOnDay(BusinessDay(now, z), 12, z)
  }

  /** The business day closes at 06:00 in the zone on the next date. */
  function BusinessDayEnd(now: int, z: Zone): int {
    InstantOnDay(BusinessDay(now, z) + 1, 6, z)
  }

  /**
   * The business day opened at or before `now`, less than a day before it,
   * and closes eighteen hours after it opens; `now` lies at or before the
   * close exactly when the time of day is not strictly between 06:00 and
   * 12:00, the hours when the day that closed at 06:00 is still chosen.
   */
  lemma BusinessDayProperties(now: int, z: Zone)
    ensures BusinessDayStart(now, z) <= now < BusinessDayStart(now, z) + MsPerDay
    ensures BusinessDayEnd(now, z) == BusinessDayStart(now, z) + 18 * MsPerHour
    ensures now <= BusinessDayEnd(now, z) <==> !(6 * MsPerHour < MsOfDay(now, z) < 12 * MsPerHour)
    ensures BusinessDay(now, z) == LocalDay(now, z) - 1 <==> MsOfDay(now, z) < 12 * MsPerHour
  {
    var d, tod := LocalDay(now, z), MsOfDay(now, z);
    assert now == InstantOnDay(d, 0, z) + tod;
    assert CairoHour(now, z) < 12 <==> tod < 12 * MsPerHour by {
      HourOfClock(now, z);
    }
  }

  /**
   * `getPeriodStarts` of the dashboard: the week start, the business day
   * (the UTC-midnight `Date` of today stepped back one day before noon,
   * opened at 12:00 and closed at 06:00 on the following date), and the
   * month and year starts at midnight.
   */
  method DashboardPeriodStarts(now: int, z: Zone)
    returns (startOfToday: int, endOfToday: int, startOfWeek: int, startOfMonth: int, startOfYear: int)
    ensures startOfToday == BusinessDayStart(now, z) && endOfToday == BusinessDayEnd(now, z)
    ensures startOfWeek == WeekStart(now, z)
    ensures startOfMonth == MonthStart(now, z) && startOfYear == YearStart(now, z)
  {
    var todayParts := CairoDateParts(now, z);
    var hour := CairoHour(now, z);
    var mondayParts;
    startOfWeek, mondayParts := WeekStartSteps(now, z);

    var startBase := UtcMidnight(todayParts);
    if hour < 12 {
      startBase := ShiftUtcDays(startBase, -1);
    }
    var startParts := UtcParts(startBase);
    DivideDay(startBase, BusinessDay(now, z), 0);
    startOfToday := CairoDateAt(startParts, 12, z);
    var endBase := UtcMidnight(startParts);
    endBase := ShiftUtcDays(endBase, 1);
    var endParts := UtcParts(endBase);
    DivideDay(endBase, BusinessDay(now, z) + 1, 0);
    endOfToday := CairoDateAt(endParts, 6, z);
    startOfMonth := CairoDateAt(Date(todayParts.year, todayParts.month, 1), 0, z);
    startOfYear := CairoDateAt(Date(todayParts.year, 1, 1), 0, z);
  }
}
