/**
 * Proleptic-Gregorian calendar arithmetic and the ECMAScript time-value
 * primitives the pages use through `Date.UTC`, `setUTCDate` and the
 * `getUTC*` readers.
 *
 * A time value is an integer number of milliseconds since
 * 1970-01-01T00:00:00Z; a day number counts days since that date.
 */
module Civil {

  /** A calendar date; `month` runs 1..12 as in the date-parts records of the pages. */
  datatype Date = Date(year: int, month: int, day: int)

  const MsPerSecond: int := 1000
  const MsPerMinute: int := 60_000
  const MsPerHour: int := 3_600_000
  const MsPerDay: int := 86_400_000

  /** Days in one 400-year Gregorian cycle. */
  const DaysPerEra: int := 146_097

  /** Day count from 0000-01-01 to 1970-01-01. */
  const EpochShift: int := 719_528

  predicate IsLeapYear(y: int) {
    y % 4 == 0 && (y % 100 != 0 || y % 400 == 0)
  }

  function DaysInYear(y: int): int {
    if IsLeapYear(y) then 366 else 365
  }

  function DaysInMonth(y: int, m: int): int
    requires 1 <= m <= 12
  {
    if m == 2 then (if IsLeapYear(y) then 29 else 28)
    else if m == 4 || m == 6 || m == 9 || m == 11 then 30
    else 31
  }

  predicate ValidDate(d: Date) {
    1 <= d.month <= 12 && 1 <= d.day <= DaysInMonth(d.year, d.month)
  }

  /** Days of year `y` before the first of month `m`; `m == 13` is the end of the year. */
  function DaysBeforeMonth(y: int, m: int): int
    requires 1 <= m <= 13
  {
    var leap := if IsLeapYear(y) then 1 else 0;
    if m == 1 then 0
    else if m == 2 then 31
    else [59, 90, 120, 151, 181, 212, 243, 273, 304, 334, 365][m - 3] + leap
  }

  /** Days from the start of a 400-year era to the start of its year `k`: the lengths of the years before it. */
  function DaysBeforeYearOfEra(k: int): int
    requires 0 <= k <= 400
  {
    if k == 0 then 0 else DaysBeforeYearOfEra(k - 1) + DaysInYear(k - 1)
  }

  /** The leap years among years `0 .. k - 1` of an era: every fourth, less every hundredth, plus every four hundredth. */
  function LeapYearsBefore(k: int): int {
    (k + 3) / 4 - (k + 99) / 100 + (k + 399) / 400
  }

  /** Year `j` adds one to the leap-year count exactly when it is a leap year. */
  lemma LeapYearsBeforeStep(j: int)
    requires 0 <= j
    ensures LeapYearsBefore(j + 1) == LeapYearsBefore(j) + (if IsLeapYear(j) then 1 else 0)
  {
    var a4, a100, a400 := (j + 3) / 4, (j + 99) / 100, (j + 399) / 400;
    var b4, b100, b400 := (j + 4) / 4, (j + 100) / 100, (j + 400) / 400;
    assert LeapYearsBefore(j) == a4 - a100 + a400;
    assert LeapYearsBefore(j + 1) == b4 - b100 + b400;
    CountStep4(j);
    CountStep100(j);
    CountStep400(j);
    Divides100Divides4(j);
    Divides400Divides100(j);
    LeapCountArith(a4, a100, a400, b4, b100, b400, j % 4 == 0, j % 100 == 0, j % 400 == 0);
  }

  /** The count step with the divisions taken as given numbers. */
  lemma LeapCountArith(a4: int, a100: int, a400: int, b4: int, b100: int, b400: int, m4: bool, m100: bool, m400: bool)
    requires b4 == a4 + (if m4 then 1 else 0)
    requires b100 == a100 + (if m100 then 1 else 0)
    requires b400 == a400 + (if m400 then 1 else 0)
    requires m100 ==> m4
    requires m400 ==> m100
    ensures b4 - b100 + b400 == a4 - a100 + a400 + (if m4 && (!m100 || m400) then 1 else 0)
  {
  }

  lemma Divides400Divides100(j: int)
    ensures j % 400 == 0 ==> j % 100 == 0
  {
    if j % 400 == 0 {
      var q := j / 400;
      assert j == 400 * q;
      DivMod100(j, 4 * q, 0);
    }
  }

  lemma Divides100Divides4(j: int)
    ensures j % 100 == 0 ==> j % 4 == 0
  {
    if j % 100 == 0 {
      var q := j / 100;
      assert j == 100 * q;
      DivMod4(j, 25 * q, 0);
    }
  }

  /** The days before year `k` of an era: 365 a year, plus one per leap year before it. */
  lemma {:induction false} DaysBeforeYearOfEraClosedForm(k: int)
    requires 0 <= k <= 400
    ensures DaysBeforeYearOfEra(k) == 365 * k + LeapYearsBefore(k)
  {
    if k > 0 {
      DaysBeforeYearOfEraClosedForm(k - 1);
      LeapYearsBeforeStep(k - 1);
    }
  }

  /** An era is 146097 days long. */
  lemma EraLength()
    ensures DaysBeforeYearOfEra(400) == DaysPerEra
  {
    DaysBeforeYearOfEraClosedForm(400);
  }

  /**
   * The day number of year `y`, month `m`, day `d`. The day may lie outside
   * the month: it then counts on from the first, which is how `Date.UTC`
   * and `setUTCDate` roll over.
   */
  function DaysFromCivil(y: int, m: int, d: int): int
    requires 1 <= m <= 12
  {
    DaysPerEra * (y / 400) + DaysBeforeYearOfEra(y % 400) + DaysBeforeMonth(y, m) + d - 1 - EpochShift
  }

  /** The calendar date of day number `z`. */
  function CivilFromDays(z: int): (date: Date)
    ensures ValidDate(date)
    ensures DaysFromCivil(date.year, date.month, date.day) == z
  {
    var n := z + EpochShift;
    DateInEra(n / DaysPerEra, n % DaysPerEra)
  }

  /** The calendar date of day `doe` of era `era`. */
  function DateInEra(era: int, doe: int): (date: Date)
    requires 0 <= doe < DaysPerEra
    ensures ValidDate(date)
    ensures DaysFromCivil(date.year, date.month, date.day) == DaysPerEra * era + doe - EpochShift
  {
    assert DaysBeforeYearOfEra(0) == 0;
    var yoe := YearOfEra(doe, 0);
    YearOfEraFacts(era, doe, yoe);
    var date := DateOfYear(400 * era + yoe, doe - DaysBeforeYearOfEra(yoe));
    DateInEraDay(era, doe, yoe, date);
    date
  }

  /** A date of year `yoe` of era `era` that is day `doe` of the era has day number `doe` past the era's first day. */
  lemma DateInEraDay(era: int, doe: int, yoe: int, date: Date)
    requires 0 <= yoe < 400 && 1 <= date.month <= 12 && date.year == 400 * era + yoe
    requires DaysBeforeMonth(date.year, date.month) + date.day - 1 == doe - DaysBeforeYearOfEra(yoe)
    ensures DaysFromCivil(date.year, date.month, date.day) == DaysPerEra * era + doe - EpochShift
  {
    DaysFromCivilOfEra(era, yoe, date.month, date.day);
    var before := DaysBeforeYearOfEra(yoe) + DaysBeforeMonth(date.year, date.month) + date.day - 1;
    assert before == doe;
  }

  /** The calendar date of day `doy` (from 0) of year `y`. */
  function DateOfYear(y: int, doy: int): (date: Date)
    requires 0 <= doy < DaysInYear(y)
    ensures ValidDate(date) && date.year == y
    ensures DaysBeforeMonth(y, date.month) + date.day - 1 == doy
  {
    assert DaysBeforeMonth(y, 1) == 0;
    var m := MonthOfYear(y, doy, 1);
    DaysBeforeMonthStep(y, m);
    Date(y, m, doy - DaysBeforeMonth(y, m) + 1)
  }

  /** Weekday of day number `z`: 0 is Sunday, 1 Monday, ..., 6 Saturday (1970-01-01 was a Thursday). */
  function WeekdayOfDay(z: int): (w: int)
    ensures 0 <= w < 7
  {
    (z + 4) % 7
  }

  /** The year of its era that holds day `doe` of the era, searched upwards from `k`. */
  function YearOfEra(doe: int, k: int): (r: int)
    requires 0 <= k <= 399
    requires DaysBeforeYearOfEra(k) <= doe < DaysPerEra
    ensures k <= r <= 399
    ensures DaysBeforeYearOfEra(r) <= doe < DaysBeforeYearOfEra(r + 1)
    decreases 399 - k
  {
    EraLength();
    if k == 399 || doe < DaysBeforeYearOfEra(k + 1) then k else YearOfEra(doe, k + 1)
  }

  /** The month of year `y` that holds day `doy` of the year, searched upwards from `m`. */
  function MonthOfYear(y: int, doy: int, m: int): (r: int)
    requires 1 <= m <= 12
    requires DaysBeforeMonth(y, m) <= doy < DaysInYear(y)
    ensures m <= r <= 12
    ensures DaysBeforeMonth(y, r) <= doy < DaysBeforeMonth(y, r + 1)
    decreases 12 - m
  {
    if m == 12 || doy < DaysBeforeMonth(y, m + 1) then m else MonthOfYear(y, doy, m + 1)
  }

  /** The year of the era found for a day of the era: the day's place in that year, and the year's era. */
  lemma YearOfEraFacts(era: int, doe: int, yoe: int)
    requires 0 <= yoe <= 399 && DaysBeforeYearOfEra(yoe) <= doe < DaysBeforeYearOfEra(yoe + 1)
    ensures 0 <= doe - DaysBeforeYearOfEra(yoe) < DaysInYear(400 * era + yoe)
    ensures (400 * era + yoe) / 400 == era && (400 * era + yoe) % 400 == yoe
  {
    YearOfEraStep(yoe);
    LeapYearPeriodic(era, yoe);
  }

  /** The day number of a date, written with the date's era and year of the era. */
  lemma DaysFromCivilOfEra(era: int, yoe: int, m: int, d: int)
    requires 0 <= yoe < 400 && 1 <= m <= 12
    ensures DaysFromCivil(400 * era + yoe, m, d)
            == DaysPerEra * era + DaysBeforeYearOfEra(yoe) + DaysBeforeMonth(400 * era + yoe, m) + d - 1 - EpochShift
  {
    LeapYearPeriodic(era, yoe);
  }

  lemma DaysBeforeMonthStep(y: int, m: int)
    requires 1 <= m <= 12
    ensures DaysBeforeMonth(y, m + 1) == DaysBeforeMonth(y, m) + DaysInMonth(y, m)
    ensures DaysBeforeMonth(y, 13) == DaysInYear(y)
  {
  }

  lemma YearOfEraStep(k: int)
    requires 0 <= k < 400
    ensures DaysBeforeYearOfEra(k + 1) == DaysBeforeYearOfEra(k) + DaysInYear(k)
  {
  }

  /** The count of multiples of 4 below `k` grows by one exactly past a multiple of 4. */
  lemma CountStep4(k: int)
    requires 0 <= k
    ensures (k + 4) / 4 == (k + 3) / 4 + (if k % 4 == 0 then 1 else 0)
  {
    var q, r := k / 4, k % 4;
    assert k == 4 * q + r;
    assert k + 3 == 4 * q + (r + 3);
    assert k + 4 == 4 * (q + 1) + r;
  }

  /** The count of multiples of 100 below `k` grows by one exactly past a multiple of 100. */
  lemma CountStep100(k: int)
    requires 0 <= k
    ensures (k + 100) / 100 == (k + 99) / 100 + (if k % 100 == 0 then 1 else 0)
  {
    var q, r := k / 100, k % 100;
    assert k == 100 * q + r;
    assert k + 100 == 100 * (q + 1) + r;
  }

  /** The count of multiples of 400 below `k` grows by one exactly past a multiple of 400. */
  lemma CountStep400(k: int)
    requires 0 <= k
    ensures (k + 400) / 400 == (k + 399) / 400 + (if k % 400 == 0 then 1 else 0)
  {
    var q, r := k / 400, k % 400;
    assert k == 400 * q + r;
    assert k + 400 == 400 * (q + 1) + r;
  }

  lemma LeapYearPeriodic(era: int, k: int)
    requires 0 <= k < 400
    ensures IsLeapYear(400 * era + k) == IsLeapYear(k)
    ensures (400 * era + k) / 400 == era && (400 * era + k) % 400 == k
  {
    var y := 400 * era + k;
    DivMod400(y, era, k);
    DivMod4(y, 100 * era + k / 4, k % 4);
    DivMod100(y, 4 * era + k / 100, k % 100);
  }

  /** Euclidean division by 4, 100 and 400, stated for known quotients and remainders. */
  lemma DivMod4(x: int, q: int, r: int)
    requires 0 <= r < 4 && x == 4 * q + r
    ensures x / 4 == q && x % 4 == r
  {
  }

  lemma DivMod100(x: int, q: int, r: int)
    requires 0 <= r < 100 && x == 100 * q + r
    ensures x / 100 == q && x % 100 == r
  {
  }

  lemma DivMod400(x: int, q: int, r: int)
    requires 0 <= r < 400 && x == 400 * q + r
    ensures x / 400 == q && x % 400 == r
  {
  }


  lemma {:induction false} YearOfEraBounds(a: int, b: int)
    requires 0 <= a <= b <= 400
    ensures DaysBeforeYearOfEra(a) + 365 * (b - a) <= DaysBeforeYearOfEra(b)
    decreases b - a
  {
    if a < b {
      YearOfEraStep(a);
      YearOfEraBounds(a + 1, b);
    }
  }

  /** `YearOfEra` finds the one year whose span holds the day. */
  lemma {:induction false} YearOfEraUnique(doe: int, k: int, r: int)
    requires 0 <= k <= r <= 399
    requires DaysBeforeYearOfEra(k) <= doe
    requires DaysBeforeYearOfEra(r) <= doe < DaysBeforeYearOfEra(r + 1)
    ensures doe < DaysPerEra && YearOfEra(doe, k) == r
    decreases r - k
  {
    DayWithinEra(doe, r);
    if k < r {
      YearOfEraBounds(k + 1, r);
      YearOfEraUnique(doe, k + 1, r);
    }
  }

  /** A day before the end of a year of the era lies inside the era. */
  lemma DayWithinEra(doe: int, r: int)
    requires 0 <= r <= 399 && doe < DaysBeforeYearOfEra(r + 1)
    ensures doe < DaysPerEra
  {
    YearOfEraBounds(r + 1, 400);
    EraLength();
  }

  /** `MonthOfYear` finds the one month whose span holds the day. */
  lemma {:induction false} MonthOfYearUnique(y: int, doy: int, m: int, r: int)
    requires 1 <= m <= r <= 12
    requires DaysBeforeMonth(y, m) <= doy
    requires DaysBeforeMonth(y, r) <= doy < DaysBeforeMonth(y, r + 1)
    ensures doy < DaysInYear(y) && MonthOfYear(y, doy, m) == r
    decreases r - m
  {
    if m < r {
      MonthOfYearUnique(y, doy, m + 1, r);
    }
  }

  /** Euclidean division by the era length, stated for a known quotient and remainder. */
  lemma EraSplit(n: int, q: int, r: int)
    requires 0 <= r < DaysPerEra && n == DaysPerEra * q + r
    ensures n / DaysPerEra == q && n % DaysPerEra == r
  {
  }

  /** Where a valid date sits: its era, its day of the era and its day of the year. */
  lemma DayOfEraOf(d: Date)
    requires ValidDate(d)
    ensures var doy := DaysBeforeMonth(d.year, d.month) + d.day - 1;
            var k := d.year % 400;
            var n := DaysFromCivil(d.year, d.month, d.day) + EpochShift;
            && 0 <= doy < DaysInYear(d.year)
            && DaysBeforeYearOfEra(k) <= DaysBeforeYearOfEra(k) + doy < DaysBeforeYearOfEra(k + 1)
            && n / DaysPerEra == d.year / 400
            && n % DaysPerEra == DaysBeforeYearOfEra(k) + doy
  {
    var y, k := d.year, d.year % 400;
    var doy := DaysBeforeMonth(y, d.month) + d.day - 1;
    DaysBeforeMonthStep(y, d.month);
    assert 0 <= doy < DaysInYear(y);
    assert y == 400 * (y / 400) + k;
    LeapYearPeriodic(y / 400, k);
    assert DaysInYear(y) == DaysInYear(k);
    YearOfEraStep(k);
    YearOfEraBounds(0, k);
    YearOfEraBounds(k + 1, 400);
    EraLength();
    EraSplit(DaysFromCivil(y, d.month, d.day) + EpochShift, y / 400, DaysBeforeYearOfEra(k) + doy);
  }

  lemma SameEraAndYearOfEra(x: int, y: int)
    requires x / 400 == y / 400 && x % 400 == y % 400
    ensures x == y
  {
  }

  /** Two valid dates with the same day number are the same date. */
  lemma DaysFromCivilInjective(d: Date, e: Date)
    requires ValidDate(d) && ValidDate(e)
    requires DaysFromCivil(d.year, d.month, d.day) == DaysFromCivil(e.year, e.month, e.day)
    ensures d == e
  {
    var kd, ke := d.year % 400, e.year % 400;
    var doyd := DaysBeforeMonth(d.year, d.month) + d.day - 1;
    var doye := DaysBeforeMonth(e.year, e.month) + e.day - 1;
    var doe := DaysBeforeYearOfEra(kd) + doyd;
    assert d.year / 400 == e.year / 400 && doe == DaysBeforeYearOfEra(ke) + doye
      && DaysBeforeYearOfEra(kd) <= doe < DaysBeforeYearOfEra(kd + 1)
      && DaysBeforeYearOfEra(ke) <= doe < DaysBeforeYearOfEra(ke + 1) by {
      DayOfEraOf(d);
      DayOfEraOf(e);
    }
    assert kd == ke by {
      YearOfEraBounds(0, kd);
      YearOfEraBounds(0, ke);
      YearOfEraUnique(doe, 0, kd);
      YearOfEraUnique(doe, 0, ke);
    }
    SameEraAndYearOfEra(d.year, e.year);
    assert d.month == e.month by {
      DaysBeforeMonthStep(d.year, d.month);
      DaysBeforeMonthStep(d.year, e.month);
      MonthOfYearUnique(d.year, doyd, 1, d.month);
      MonthOfYearUnique(d.year, doyd, 1, e.month);
    }
  }

  /** A valid date converted to its day number and back is unchanged. */
  lemma CivilRoundTrip(d: Date)
    requires ValidDate(d)
    ensures CivilFromDays(DaysFromCivil(d.year, d.month, d.day)) == d
  {
    DaysFromCivilInjective(CivilFromDays(DaysFromCivil(d.year, d.month, d.day)), d);
  }

  /** Calendar successor of a valid date, written out case by case. */
  function NextDate(d: Date): Date
    requires ValidDate(d)
  {
    if d.day < DaysInMonth(d.year, d.month) then Date(d.year, d.month, d.day + 1)
    else if d.month < 12 then Date(d.year, d.month + 1, 1)
    else Date(d.year + 1, 1, 1)
  }

  /** The first of January of the next year comes a whole year after this one's. */
  lemma NextYearStart(y: int)
    ensures DaysFromCivil(y + 1, 1, 1) == DaysFromCivil(y, 1, 1) + DaysInYear(y)
  {
    var k := y % 400;
    YearOfEraStep(k);
    LeapYearPeriodic(y / 400, k);
    if k == 399 {
      EraLength();
      assert (y + 1) / 400 == y / 400 + 1 && (y + 1) % 400 == 0;
    } else {
      assert (y + 1) / 400 == y / 400 && (y + 1) % 400 == k + 1;
    }
  }

  /**
   * Adding one day to a day number rolls over month and year ends exactly
   * as the calendar does.
   */
  lemma NextDayRollsOver(d: Date)
    requires ValidDate(d)
    ensures ValidDate(NextDate(d))
    ensures CivilFromDays(DaysFromCivil(d.year, d.month, d.day) + 1) == NextDate(d)
  {
    NextDateDayNumber(d);
    CivilRoundTrip(NextDate(d));
  }

  lemma NextDateDayNumber(d: Date)
    requires ValidDate(d)
    ensures ValidDate(NextDate(d))
    ensures var e := NextDate(d); DaysFromCivil(e.year, e.month, e.day) == DaysFromCivil(d.year, d.month, d.day) + 1
  {
    DaysBeforeMonthStep(d.year, d.month);
    if d.day == DaysInMonth(d.year, d.month) && d.month == 12 {
      NextYearStart(d.year);
    }
  }

  // ---------------------------------------------------------------------------
  // ECMAScript time-value primitives

  /**
   * `MakeDay(year, month, date)`: the month is zero-based and may lie outside
   * 0..11 (it carries into the year), and the date may lie outside the month
   * (it counts on from the first).
   */
  function MakeDay(year: int, month: int, date: int): int {
    DaysFromCivil(year + month / 12, month % 12 + 1, 1) + date - 1
  }

  function MakeTime(hour: int, minute: int, second: int, ms: int): int {
    hour * MsPerHour + minute * MsPerMinute + second * MsPerSecond + ms
  }

  /** `Date.UTC(year, month, day, hour, minute, second)` with a zero-based month. */
  function DateUtc(year: int, month: int, day: int, hour: int, minute: int, second: int): int {
    MakeDay(year, month, day) * MsPerDay + MakeTime(hour, minute, second, 0)
  }

  /** The day number of a time value. */
  function DayOf(t: int): int {
    t / MsPerDay
  }

  /** `getUTCFullYear`, `getUTCMonth() + 1` and `getUTCDate` together. */
  function UtcDate(t: int): (d: Date)
    ensures ValidDate(d)
  {
    CivilFromDays(DayOf(t))
  }

  /** `setUTCDate(date)`: keeps the year, month and time of day and sets the day, rolling over. */
  function SetUtcDate(t: int, date: int): int {
    var d := UtcDate(t);
    MakeDay(d.year, d.month - 1, date) * MsPerDay + t % MsPerDay
  }

  /** For a valid date, `MakeDay` with the zero-based month is its day number. */
  lemma MakeDayOfValidMonth(y: int, m: int, d: int)
    requires 1 <= m <= 12
    ensures MakeDay(y, m - 1, d) == DaysFromCivil(y, m, d)
  {
    assert (m - 1) / 12 == 0 && (m - 1) % 12 == m - 1;
  }

  /** `Date.UTC(y, m - 1, d)` of a valid date read back with the `getUTC*` readers. */
  lemma DateUtcReadsBack(d: Date)
    requires ValidDate(d)
    ensures DayOf(DateUtc(d.year, d.month - 1, d.day, 0, 0, 0)) == DaysFromCivil(d.year, d.month, d.day)
    ensures DateUtc(d.year, d.month - 1, d.day, 0, 0, 0) % MsPerDay == 0
    ensures UtcDate(DateUtc(d.year, d.month - 1, d.day, 0, 0, 0)) == d
  {
    MakeDayOfValidMonth(d.year, d.month, d.day);
    CivilRoundTrip(d);
  }

  /** `t.setUTCDate(t.getUTCDate() + k)` moves `t` by exactly `k` whole days. */
  lemma SetUtcDateShift(t: int, k: int)
    ensures SetUtcDate(t, UtcDate(t).day + k) == t + k * MsPerDay
  {
    MakeDayShift(t, k);
    ShiftArith(t, DayOf(t), t % MsPerDay, k, MakeDay(UtcDate(t).year, UtcDate(t).month - 1, UtcDate(t).day + k));
  }

  /** The day number of `t`'s year and month with the day of the month moved by `k` is `t`'s day number plus `k`. */
  lemma MakeDayShift(t: int, k: int)
    ensures MakeDay(UtcDate(t).year, UtcDate(t).month - 1, UtcDate(t).day + k) == DayOf(t) + k
  {
    MakeDayShiftOf(UtcDate(t), DayOf(t), k);
  }

  lemma MakeDayShiftOf(d: Date, day: int, k: int)
    requires 1 <= d.month <= 12 && DaysFromCivil(d.year, d.month, d.day) == day
    ensures MakeDay(d.year, d.month - 1, d.day + k) == day + k
  {
    MakeDayOfValidMonth(d.year, d.month, d.day + k);
    DaysFromCivilShift(d.year, d.month, d.day, k);
  }

  lemma ShiftArith(t: int, day: int, tod: int, k: int, shifted: int)
    requires day == t / MsPerDay && tod == t % MsPerDay && shifted == day + k
    ensures shifted * MsPerDay + tod == t + k * MsPerDay
  {
  }

  /** Moving the day of the month by `k` moves the day number by `k`. */
  lemma DaysFromCivilShift(y: int, m: int, d: int, k: int)
    requires 1 <= m <= 12
    ensures DaysFromCivil(y, m, d + k) == DaysFromCivil(y, m, d) + k
  {
  }

  /** `new Date(y, m, 0)` style rollover: day 0 of the next month is the last day of this one. */
  lemma DayZeroIsLastDayOfPreviousMonth(y: int, m: int)
    requires 1 <= m <= 12
    ensures MakeDay(y, m, 0) == DaysFromCivil(y, m, DaysInMonth(y, m))
  {
    DaysBeforeMonthStep(y, m);
    if m == 12 {
      NextYearStart(y);
      assert m / 12 == 1 && m % 12 == 0;
    } else {
      assert m / 12 == 0 && m % 12 == m;
    }
  }
}
