/**
 * The Cairo business calendar shared by the pages: reading an instant as
 * Cairo wall-clock fields, the offset computation, `makeCairoDate`, the
 * weekday lookup and the Monday-noon business week.
 *
 * The time zone is a fixed offset from UTC given as a parameter. Under a
 * fixed offset the single-pass offset correction of `makeCairoDate` is
 * exact.
 */
module CairoCalendar {
  import opened Civil

  /** A civil time zone with a fixed offset, in minutes east of UTC (Cairo: 120 or 180). */
  datatype Zone = Zone(offsetMinutes: int)

  /** The fields `Intl.DateTimeFormat` reports: date, hour (0..23), minute and second. */
  datatype WallTime = WallTime(date: Date, hour: int, minute: int, second: int)

  /** The instant read as if the zone's wall clock were UTC. */
  function LocalTime(t: int, z: Zone): int {
    t + z.offsetMinutes * MsPerMinute
  }

  /** The day number of the zone's calendar date at `t`. */
  function LocalDay(t: int, z: Zone): int {
    DayOf(LocalTime(t, z))
  }

  /** Milliseconds since the zone's midnight at `t`. */
  function MsOfDay(t: int, z: Zone): (ms: int)
    ensures 0 <= ms < MsPerDay
    ensures LocalTime(t, z) == LocalDay(t, z) * MsPerDay + ms
  {
    LocalTime(t, z) % MsPerDay
  }

  /** The zone's wall-clock reading of `t`, to the second. */
  function WallClock(t: int, z: Zone): (w: WallTime)
    ensures ValidDate(w.date) && 0 <= w.hour < 24 && 0 <= w.minute < 60 && 0 <= w.second < 60
    ensures w.date == CivilFromDays(LocalDay(t, z))
    ensures w.hour * MsPerHour + w.minute * MsPerMinute + w.second * MsPerSecond
            == MsOfDay(t, z) - MsOfDay(t, z) % MsPerSecond
  {
    var ms := MsOfDay(t, z);
    TimeOfDayFields(ms);
    WallTime(CivilFromDays(LocalDay(t, z)), ms / MsPerHour, ms % MsPerHour / MsPerMinute, ms % MsPerMinute / MsPerSecond)
  }

  lemma TimeOfDayFields(ms: int)
    requires 0 <= ms < MsPerDay
    ensures 0 <= ms / MsPerHour < 24 && 0 <= ms % MsPerHour / MsPerMinute < 60 && 0 <= ms % MsPerMinute / MsPerSecond < 60
    ensures (ms / MsPerHour) * MsPerHour + (ms % MsPerHour / MsPerMinute) * MsPerMinute
            + (ms % MsPerMinute / MsPerSecond) * MsPerSecond == ms - ms % MsPerSecond
  {
    var h, r := ms / 3_600_000, ms % 3_600_000;
    assert ms == h * 3_600_000 + r;
    var mi, r2 := r / 60_000, r % 60_000;
    assert r == mi * 60_000 + r2;
    assert r2 == ms % 60_000;
    var s, r3 := r2 / 1000, r2 % 1000;
    assert r2 == s * 1000 + r3;
    assert r3 == ms % 1000;
  }

  /** `getCairoDateParts`. */
  function CairoDateParts(t: int, z: Zone): (d: Date)
    ensures ValidDate(d)
    ensures DaysFromCivil(d.year, d.month, d.day) == LocalDay(t, z)
  {
    WallClock(t, z).date
  }

  /** `getCairoHour`. */
  function CairoHour(t: int, z: Zone): (h: int)
    ensures 0 <= h < 24
  {
    WallClock(t, z).hour
  }

  /** The weekday of the zone's calendar date at `t`: 0 is Sunday, 1 Monday. */
  function CairoWeekday(t: int, z: Zone): (w: int)
    ensures 0 <= w < 7
  {
    WeekdayOfDay(LocalDay(t, z))
  }

  const WeekdayNames: seq<string> := ["Sun", "Mon", "Tue", "Wed", "Thu", "Fri", "Sat"]

  /** The short English weekday name `Intl.DateTimeFormat` gives for `t` in the zone. */
  function CairoWeekdayName(t: int, z: Zone): string {
    WeekdayNames[CairoWeekday(t, z)]
  }

  /** The `map[weekday] ?? 0` lookup: a recognised short name gives its index, anything else 0 (Sunday). */
  function WeekdayIndex(name: string): (r: int)
    ensures 0 <= r < 7
    ensures name !in WeekdayNames ==> r == 0
    ensures forall k :: 0 <= k < 7 && name == WeekdayNames[k] ==> r == k
  {
    var m := map["Sun" := 0, "Mon" := 1, "Tue" := 2, "Wed" := 3, "Thu" := 4, "Fri" := 5, "Sat" := 6];
    if name in m then m[name] else 0
  }

  /** `getCairoWeekdayIndex`: the weekday, read through its printed name. */
  function CairoWeekdayIndex(t: int, z: Zone): (r: int)
    ensures r == CairoWeekday(t, z)
  {
    WeekdayIndex(CairoWeekdayName(t, z))
  }

  /** `(dayIndex + 6) % 7`: days since the last Monday. */
  function DaysSinceMonday(dayIndex: int): (r: int)
    ensures 0 <= r < 7
    ensures r == 0 <==> dayIndex % 7 == 1
  {
    (dayIndex + 6) % 7
  }

  /**
   * `getTimeZoneOffset`: the zone's wall clock at `t`, read as UTC, minus
   * `t`, in minutes. The wall clock drops milliseconds, so the offset is
   * exact only on whole seconds.
   */
  function TimeZoneOffset(t: int, z: Zone): (r: real)
    ensures r == z.offsetMinutes as real - (t % MsPerSecond) as real / 60000.0
    ensures t % MsPerSecond == 0 ==> r == z.offsetMinutes as real
  {
    var w := WallClock(t, z);
    var asUtc := DateUtc(w.date.year, w.date.month - 1, w.date.day, w.hour, w.minute, w.second);
    MakeDayOfValidMonth(w.date.year, w.date.month, w.date.day);
    assert asUtc == LocalTime(t, z) - MsOfDay(t, z) % MsPerSecond;
    LocalTimeSameMillis(t, z);
    (asUtc - t) as real / 60000.0
  }

  lemma LocalTimeSameMillis(t: int, z: Zone)
    ensures MsOfDay(t, z) % MsPerSecond == t % MsPerSecond
  {
    var l := LocalTime(t, z);
    assert l == t + 1000 * (z.offsetMinutes * 60);
    assert l % 1000 == t % 1000;
    assert l == (l / MsPerDay) * MsPerDay + MsOfDay(t, z);
    assert MsOfDay(t, z) % 1000 == l % 1000;
  }

  /**
   * `makeCairoDate`: the instant whose wall clock in the zone reads the
   * given fields (month 1-based; out-of-range fields roll over as in
   * `Date.UTC`).
   */
  function MakeCairoDate(year: int, month: int, day: int, hour: int, minute: int, second: int, z: Zone): (r: int)
    ensures r == DateUtc(year, month - 1, day, hour, minute, second) - z.offsetMinutes * MsPerMinute
  {
    var utc := DateUtc(year, month - 1, day, hour, minute, second);
    WholeSeconds(utc, MakeDay(year, month - 1, day) * 86_400 + hour * 3600 + minute * 60 + second);
    var offset := TimeZoneOffset(utc, z);
    assert offset * 60000.0 == (z.offsetMinutes * MsPerMinute) as real;
    utc - (offset * 60000.0).Floor
  }

  /** An instant made from valid fields reads back, in the zone, as exactly those fields. */
  lemma MakeCairoDateReadsBack(d: Date, hour: int, minute: int, second: int, z: Zone)
    requires ValidDate(d) && 0 <= hour < 24 && 0 <= minute < 60 && 0 <= second < 60
    ensures var t := MakeCairoDate(d.year, d.month, d.day, hour, minute, second, z);
            && LocalDay(t, z) == DaysFromCivil(d.year, d.month, d.day)
            && MsOfDay(t, z) == hour * MsPerHour + minute * MsPerMinute + second * MsPerSecond
            && WallClock(t, z) == WallTime(d, hour, minute, second)
  {
    var t := MakeCairoDate(d.year, d.month, d.day, hour, minute, second, z);
    var tod := hour * MsPerHour + minute * MsPerMinute + second * MsPerSecond;
    MakeDayOfValidMonth(d.year, d.month, d.day);
    var n := DaysFromCivil(d.year, d.month, d.day);
    assert LocalTime(t, z) == n * MsPerDay + tod;
    DivideDay(LocalTime(t, z), n, tod);
    CivilRoundTrip(d);
    TimeOfDayFields(tod);
    var w := WallClock(t, z);
    assert w.hour == hour && w.minute == minute && w.second == second by {
      ClockFields(hour, minute, second);
    }
  }

  lemma WholeSeconds(t: int, seconds: int)
    requires t == 1000 * seconds
    ensures t % MsPerSecond == 0
  {
  }

  lemma ClockFields(hour: int, minute: int, second: int)
    requires 0 <= hour < 24 && 0 <= minute < 60 && 0 <= second < 60
    ensures var tod := hour * MsPerHour + minute * MsPerMinute + second * MsPerSecond;
            && tod / MsPerHour == hour
            && tod % MsPerHour / MsPerMinute == minute
            && tod % MsPerMinute / MsPerSecond == second
  {
    var tod := hour * 3_600_000 + minute * 60_000 + second * 1000;
    var r := minute * 60_000 + second * 1000;
    assert 0 <= r < 3_600_000;
    assert tod / 3_600_000 == hour && tod % 3_600_000 == r;
    assert 0 <= second * 1000 < 60_000;
    assert r / 60_000 == minute && r % 60_000 == second * 1000;
    assert tod == (hour * 60 + minute) * 60_000 + second * 1000;
    assert tod % 60_000 == second * 1000;
  }

  lemma DivideDay(l: int, n: int, tod: int)
    requires 0 <= tod < MsPerDay && l == n * MsPerDay + tod
    ensures l / MsPerDay == n && l % MsPerDay == tod
  {
  }

  /** The calendar date `k` days after `d`. */
  function AddDays(d: Date, k: int): Date
    requires ValidDate(d)
  {
    CivilFromDays(DaysFromCivil(d.year, d.month, d.day) + k)
  }

  /** `t` reads, in the zone, as a Monday at exactly `hour`:00:00.000. */
  predicate IsMondayAt(t: int, z: Zone, hour: int) {
    CairoWeekday(t, z) == 1 && MsOfDay(t, z) == hour * MsPerHour
  }

  /** The instant `hour`:00:00.000 in the zone on day number `n`. */
  function InstantOnDay(n: int, hour: int, z: Zone): int {
    n * MsPerDay + hour * MsPerHour - z.offsetMinutes * MsPerMinute
  }

  /** The hour the wall clock shows is the whole hours of the time of day. */
  lemma HourOfClock(t: int, z: Zone)
    ensures CairoHour(t, z) * MsPerHour <= MsOfDay(t, z) < (CairoHour(t, z) + 1) * MsPerHour
  {
    var w := WallClock(t, z);
    assert 0 <= w.minute * MsPerMinute + w.second * MsPerSecond + MsOfDay(t, z) % MsPerSecond < MsPerHour;
  }

  /** The wall clock shows an hour before `h` exactly when less than `h` hours of the day have passed. */
  lemma HourBefore(t: int, z: Zone, h: int)
    ensures CairoHour(t, z) < h <==> MsOfDay(t, z) < h * MsPerHour
  {
    HourOfClock(t, z);
    var c := CairoHour(t, z);
    if c < h {
      assert (c + 1) * MsPerHour <= h * MsPerHour;
    } else {
      assert h * MsPerHour <= c * MsPerHour;
    }
  }

  /** The instant `hour`:00 on day `n` reads, in the zone, as day `n` at exactly `hour`:00:00. */
  lemma ClockOnDay(n: int, hour: int, z: Zone)
    requires 0 <= hour < 24
    ensures LocalDay(InstantOnDay(n, hour, z), z) == n
    ensures MsOfDay(InstantOnDay(n, hour, z), z) == hour * MsPerHour
    ensures WallClock(InstantOnDay(n, hour, z), z) == WallTime(CivilFromDays(n), hour, 0, 0)
  {
    DayOnDay(n, hour, z);
    ClockFields(hour, 0, 0);
  }

  /** An instant known to be `hour`:00 on day `n` reads as day `n`'s date at exactly `hour`:00:00. */
  lemma ClockAt(t: int, n: int, hour: int, z: Zone)
    requires 0 <= hour < 24 && t == InstantOnDay(n, hour, z)
    ensures WallClock(t, z) == WallTime(CivilFromDays(n), hour, 0, 0)
  {
    ClockOnDay(n, hour, z);
  }

  /** The instant `hour`:00 on day `n` falls on day `n`, `hour` hours after its midnight. */
  lemma DayOnDay(n: int, hour: int, z: Zone)
    requires 0 <= hour < 24
    ensures LocalDay(InstantOnDay(n, hour, z), z) == n
    ensures MsOfDay(InstantOnDay(n, hour, z), z) == hour * MsPerHour
  {
    var t := InstantOnDay(n, hour, z);
    assert LocalTime(t, z) == n * MsPerDay + hour * MsPerHour;
    DivideDay(LocalTime(t, z), n, hour * MsPerHour);
  }
}
