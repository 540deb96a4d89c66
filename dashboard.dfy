/**
 * The admin dashboard: the four window totals (business day, week, month,
 * year) of takings minus pocket expenses that `calculateTotals` writes
 * into the page's fields.
 */
module Dashboard {
  import opened Wrappers
  import opened Civil
  import opened Folds
  import opened Records
  import opened CairoCalendar
  import opened Periods

  // ---------------------------------------------------------------------------
  // The windows

  /** The bounds `getPeriodStarts` hands to `calculateTotals`. */
  datatype PeriodStarts = PeriodStarts(startOfToday: int, endOfToday: int, startOfWeek: int, startOfMonth: int, startOfYear: int)

  /** The dashboard's bounds at `now`. */
  function StartsAt(now: int, z: Zone): PeriodStarts {
    PeriodStarts(BusinessDayStart(now, z), BusinessDayEnd(now, z), WeekStart(now, z), MonthStart(now, z), YearStart(now, z))
  }

  /** `getPeriodStarts` of the dashboard, bundled. */
  method GetPeriodStarts(now: int, z: Zone) returns (p: PeriodStarts)
    ensures p == StartsAt(now, z)
  {
    var startOfToday, endOfToday, startOfWeek, startOfMonth, startOfYear := DashboardPeriodStarts(now, z);
    p := PeriodStarts(startOfToday, endOfToday, startOfWeek, startOfMonth, startOfYear);
  }

  /** A bill of the business day: created at or after its start and at or before its end. */
  function BillInDay(p: PeriodStarts): Bill -> bool {
    (b: Bill) => Within(b.createdAt, p.startOfToday, p.endOfToday)
  }

  /** A bill created at or after `start`. */
  function BillSince(start: int): Bill -> bool {
    (b: Bill) => AtOrAfter(b.createdAt, start)
  }

  /** A pocket expense of the business day. */
  function RowInDay(p: PeriodStarts): PocketExpense -> bool {
    (row: PocketExpense) => Within(row.createdAt, p.startOfToday, p.endOfToday)
  }

  /** A pocket expense created at or after `start`. */
  function RowSince(start: int): PocketExpense -> bool {
    (row: PocketExpense) => AtOrAfter(row.createdAt, start)
  }

  /** `sumTotals(bills in the window) - pocketSum(rows in the window)`. */
  function WindowNet(bills: seq<Bill>, rows: seq<PocketExpense>, inBill: Bill -> bool, inRow: PocketExpense -> bool): real {
    SumTotals(Filter(bills, inBill)) - PocketSum(Filter(rows, inRow))
  }

  /** A bill's total if it lies in the window, else 0. */
  function TotalIf(inBill: Bill -> bool): Bill -> real {
    (b: Bill) => if inBill(b) then TotalOf(b) else 0.0
  }

  /** A pocket expense's amount if it lies in the window, else 0. */
  function AmountIf(inRow: PocketExpense -> bool): PocketExpense -> real {
    (row: PocketExpense) => if inRow(row) then AmountOf(row) else 0.0
  }

  /**
   * A window's net is every bill's total counted where it lies in the
   * window, minus every pocket expense's amount counted where it lies in
   * the window: records outside the window, and records whose date does
   * not parse, count 0.
   */
  lemma WindowNetMeaning(bills: seq<Bill>, rows: seq<PocketExpense>, inBill: Bill -> bool, inRow: PocketExpense -> bool)
    ensures WindowNet(bills, rows, inBill, inRow) == SumOf(bills, TotalIf(inBill)) - SumOf(rows, AmountIf(inRow))
  {
    SumOfFilter(bills, inBill, TotalOf, TotalIf(inBill));
    SumOfFilter(rows, inRow, AmountOf, AmountIf(inRow));
  }

  /** `pocketSum` of no rows is 0, rows without a numeric amount add 0, and it is additive over concatenation. */
  lemma PocketSumProperties(a: seq<PocketExpense>, b: seq<PocketExpense>)
    ensures PocketSum([]) == 0.0
    ensures (forall x :: x in b ==> x.amount.None?) ==> PocketSum(a + b) == PocketSum(a)
    ensures PocketSum(a + b) == PocketSum(a) + PocketSum(b)
  {
    SumOfAppend(a, b, AmountOf);
    if forall x :: x in b ==> x.amount.None? {
      SumOfZero(b, AmountOf);
    }
  }

  /** The four nets of the page. */
  datatype Totals = Totals(today: real, week: real, month: real, year: real)

  /** `calculateTotals` on the bounds `p`: the business day closed at both ends, the other windows open above. */
  function TotalsFor(bills: seq<Bill>, rows: seq<PocketExpense>, p: PeriodStarts): Totals {
    Totals(
      WindowNet(bills, rows, BillInDay(p), RowInDay(p)),
      WindowNet(bills, rows, BillSince(p.startOfWeek), RowSince(p.startOfWeek)),
      WindowNet(bills, rows, BillSince(p.startOfMonth), RowSince(p.startOfMonth)),
      WindowNet(bills, rows, BillSince(p.startOfYear), RowSince(p.startOfYear)))
  }

  /**
   * The business-day window holds exactly the records dated from the
   * opening to the close, both ends included; the other windows hold
   * every record dated at or after their start, however late.
   */
  lemma WindowBounds(p: PeriodStarts, b: Bill, row: PocketExpense)
    ensures BillInDay(p)(b) <==> b.createdAt.Some? && p.startOfToday <= b.createdAt.value <= p.endOfToday
    ensures RowInDay(p)(row) <==> row.createdAt.Some? && p.startOfToday <= row.createdAt.value <= p.endOfToday
    ensures BillSince(p.startOfWeek)(b) <==> b.createdAt.Some? && p.startOfWeek <= b.createdAt.value
    ensures RowSince(p.startOfYear)(row) <==> row.createdAt.Some? && p.startOfYear <= row.createdAt.value
  {
  }

  /**
   * The month window lies inside the year window, so the year's net is
   * the month's net plus the net of the records dated from January 1 up
   * to the first of this month.
   */
  lemma MonthWithinYear(now: int, z: Zone, bills: seq<Bill>, rows: seq<PocketExpense>)
    ensures var p := StartsAt(now, z);
            && (forall b :: b in Filter(bills, BillSince(p.startOfMonth)) ==> b in Filter(bills, BillSince(p.startOfYear)))
            && (forall r :: r in Filter(rows, RowSince(p.startOfMonth)) ==> r in Filter(rows, RowSince(p.startOfYear)))
    ensures var p := StartsAt(now, z);
            TotalsFor(bills, rows, p).year
            == TotalsFor(bills, rows, p).month
               + WindowNet(bills, rows, Without(BillSince(p.startOfYear), BillSince(p.startOfMonth)),
                           Without(RowSince(p.startOfYear), RowSince(p.startOfMonth)))
  {
    var p := StartsAt(now, z);
    MonthAndYearStartOrder(now, z);
    var bm, bq := BillSince(p.startOfMonth), BillSince(p.startOfYear);
    var rm, ry := RowSince(p.startOfMonth), RowSince(p.startOfYear);
    assert forall b :: b in bills ==> bm(b) ==> bq(b);
    assert forall r :: r in rows ==> rm(r) ==> ry(r);
    SumOfNestedFilter(bills, bm, bq, TotalOf);
    SumOfNestedFilter(rows, rm, ry, AmountOf);
  }

  /** A record whose date does not parse lies in no window, so it changes none of the four nets. */
  lemma UndatedCountsNowhere(bills: seq<Bill>, rows: seq<PocketExpense>, p: PeriodStarts, b: Bill, row: PocketExpense)
    requires b.createdAt.None? && row.createdAt.None?
    ensures TotalsFor(bills + [b], rows + [row], p) == TotalsFor(bills, rows, p)
  {
    UndatedBillNowhere(bills, rows + [row], p, b);
    UndatedRowNowhere(bills, rows, p, row);
  }

  /** An undated bill is in no window. */
  lemma UndatedBillNowhere(bills: seq<Bill>, rows: seq<PocketExpense>, p: PeriodStarts, b: Bill)
    requires b.createdAt.None?
    ensures TotalsFor(bills + [b], rows, p) == TotalsFor(bills, rows, p)
  {
    UndatedBillInDay(bills, b, p);
    UndatedBillSince(bills, b, p.startOfWeek);
    UndatedBillSince(bills, b, p.startOfMonth);
    UndatedBillSince(bills, b, p.startOfYear);
  }

  /** An undated pocket expense is in no window. */
  lemma UndatedRowNowhere(bills: seq<Bill>, rows: seq<PocketExpense>, p: PeriodStarts, row: PocketExpense)
    requires row.createdAt.None?
    ensures TotalsFor(bills, rows + [row], p) == TotalsFor(bills, rows, p)
  {
    UndatedRowInDay(rows, row, p);
    UndatedRowSince(rows, row, p.startOfWeek);
    UndatedRowSince(rows, row, p.startOfMonth);
    UndatedRowSince(rows, row, p.startOfYear);
  }

  lemma UndatedBillInDay(bills: seq<Bill>, b: Bill, p: PeriodStarts)
    requires b.createdAt.None?
    ensures Filter(bills + [b], BillInDay(p)) == Filter(bills, BillInDay(p))
  {
    FilterSnoc(bills, b, BillInDay(p));
  }

  lemma UndatedBillSince(bills: seq<Bill>, b: Bill, start: int)
    requires b.createdAt.None?
    ensures Filter(bills + [b], BillSince(start)) == Filter(bills, BillSince(start))
  {
    FilterSnoc(bills, b, BillSince(start));
  }

  lemma UndatedRowInDay(rows: seq<PocketExpense>, row: PocketExpense, p: PeriodStarts)
    requires row.createdAt.None?
    ensures Filter(rows + [row], RowInDay(p)) == Filter(rows, RowInDay(p))
  {
    FilterSnoc(rows, row, RowInDay(p));
  }

  lemma UndatedRowSince(rows: seq<PocketExpense>, row: PocketExpense, start: int)
    requires row.createdAt.None?
    ensures Filter(rows + [row], RowSince(start)) == Filter(rows, RowSince(start))
  {
    FilterSnoc(rows, row, RowSince(start));
  }

  /**
   * A bill dated now adds its total to the business day's net and to the
   * month's and the year's: those windows start at or before now, and the
   * business day has not closed unless the time of day lies strictly
   * between 06:00 and 12:00.
   */
  lemma BillNowCounts(now: int, z: Zone, bills: seq<Bill>, rows: seq<PocketExpense>, b: Bill)
    requires b.createdAt == Some(now)
    ensures var p := StartsAt(now, z);
            && TotalsFor(bills + [b], rows, p).month == TotalsFor(bills, rows, p).month + TotalOf(b)
            && TotalsFor(bills + [b], rows, p).year == TotalsFor(bills, rows, p).year + TotalOf(b)
    ensures var p := StartsAt(now, z);
            !(6 * MsPerHour < MsOfDay(now, z) < 12 * MsPerHour)
            ==> TotalsFor(bills + [b], rows, p).today == TotalsFor(bills, rows, p).today + TotalOf(b)
  {
    var p := StartsAt(now, z);
    MonthAndYearStartOrder(now, z);
    BusinessDayProperties(now, z);
    FilterSnoc(bills, b, BillInDay(p));
    FilterSnoc(bills, b, BillSince(p.startOfMonth));
    FilterSnoc(bills, b, BillSince(p.startOfYear));
    SumOfSnoc(Filter(bills, BillSince(p.startOfMonth)), b, TotalOf);
    SumOfSnoc(Filter(bills, BillSince(p.startOfYear)), b, TotalOf);
    if !(6 * MsPerHour < MsOfDay(now, z) < 12 * MsPerHour) {
      SumOfSnoc(Filter(bills, BillInDay(p)), b, TotalOf);
    }
  }

  /** The pocket sums of the four windows. */
  function PocketsFor(rows: seq<PocketExpense>, p: PeriodStarts): Totals {
    Totals(
      PocketSum(Filter(rows, RowInDay(p))),
      PocketSum(Filter(rows, RowSince(p.startOfWeek))),
      PocketSum(Filter(rows, RowSince(p.startOfMonth))),
      PocketSum(Filter(rows, RowSince(p.startOfYear))))
  }

  /**
   * The filters and reduces of `calculateTotals` on the bounds `p`: the
   * pocket sums of the four windows, and each window's takings less its
   * pocket sum.
   */
  method WindowTotals(bills: seq<Bill>, rows: seq<PocketExpense>, p: PeriodStarts) returns (pockets: Totals, totals: Totals)
    ensures pockets == PocketsFor(rows, p)
    ensures totals == TotalsFor(bills, rows, p)
  {
    var today := Filter(bills, BillInDay(p));
    var month := Filter(bills, BillSince(p.startOfMonth));
    var week := Filter(bills, BillSince(p.startOfWeek));
    var year := Filter(bills, BillSince(p.startOfYear));

    var pocketToday := Filter(rows, RowInDay(p));
    var pocketWeek := Filter(rows, RowSince(p.startOfWeek));
    var pocketMonth := Filter(rows, RowSince(p.startOfMonth));
    var pocketYear := Filter(rows, RowSince(p.startOfYear));

    pockets := Totals(PocketSum(pocketToday), PocketSum(pocketWeek), PocketSum(pocketMonth), PocketSum(pocketYear));
    totals := Totals(
      SumTotals(today) - pockets.today,
      SumTotals(week) - pockets.week,
      SumTotals(month) - pockets.month,
      SumTotals(year) - pockets.year);
  }

  // ---------------------------------------------------------------------------
  // The page

  /** The dashboard's loaded records and the totals it shows. */
  class DashboardPage {
    var bills: seq<Bill>
    var pocketExpenses: seq<PocketExpense>
    var cashierSharePct: Option<real>
    var pocketTodayTotal: real
    var pocketWeekTotal: real
    var pocketMonthTotal: real
    var pocketYearTotal: real
    var todayTotal: real
    var weekTotal: real
    var monthTotal: real
    var yearTotal: real

    /** The page as `data()` sets it up: nothing loaded, every total 0. */
    constructor ()
      ensures bills == [] && pocketExpenses == [] && cashierSharePct == Some(0.0)
      ensures pocketTodayTotal == pocketWeekTotal == pocketMonthTotal == pocketYearTotal == 0.0
      ensures todayTotal == weekTotal == monthTotal == yearTotal == 0.0
    {
      bills, pocketExpenses, cashierSharePct := [], [], Some(0.0);
      pocketTodayTotal, pocketWeekTotal, pocketMonthTotal, pocketYearTotal := 0.0, 0.0, 0.0, 0.0;
      todayTotal, weekTotal, monthTotal, yearTotal := 0.0, 0.0, 0.0, 0.0;
    }

    /** The four pocket sums the page shows. */
    function Pockets(): Totals
      reads this
    {
      Totals(pocketTodayTotal, pocketWeekTotal, pocketMonthTotal, pocketYearTotal)
    }

    /** The four nets the page shows. */
    function Shown(): Totals
      reads this
    {
      Totals(todayTotal, weekTotal, monthTotal, yearTotal)
    }

    /**
     * `calculateTotals` at `now`: each pocket field holds the amounts
     * dated in its window and each total the bills' takings in that window
     * less those amounts; the records themselves are unchanged.
     */
    method CalculateTotals(now: int, z: Zone)
      modifies this
      ensures bills == old(bills) && pocketExpenses == old(pocketExpenses) && cashierSharePct == old(cashierSharePct)
      ensures Pockets() == PocketsFor(pocketExpenses, StartsAt(now, z))
      ensures Shown() == TotalsFor(bills, pocketExpenses, StartsAt(now, z))
    {
      var p := GetPeriodStarts(now, z);
      var pockets, totals := WindowTotals(bills, pocketExpenses, p);
      Show(pockets, totals);
    }

    /** The field assignments that end `calculateTotals`. */
    method Show(pockets: Totals, totals: Totals)
      modifies this
      ensures bills == old(bills) && pocketExpenses == old(pocketExpenses) && cashierSharePct == old(cashierSharePct)
      ensures Pockets() == pockets && Shown() == totals
    {
      pocketTodayTotal, pocketWeekTotal, pocketMonthTotal, pocketYearTotal,
        todayTotal, weekTotal, monthTotal, yearTotal :=
        pockets.today, pockets.week, pockets.month, pockets.year,
        totals.today, totals.week, totals.month, totals.year;
    }
  }
}
