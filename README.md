# BarberShopCashier in Dafny

A model of the browser-side logic of BarberShopCashier, a point-of-sale
and back office for a barber shop in Cairo. Sales are *bills* made of
item and service *lines*, and cashiers take *pocket expenses* against
their profit. The model covers these parts:

- **Cashier page** (`CashierPage`): the bill editor (add a line, change a
  quantity, remove a line), the subtotal, discount and total, the checks
  and rows of `completeBill`, and the cashier's week statistics of
  `loadWeekStats`.
- **Cashier-profits page** (`CashierProfits`): the bills of the business
  week, bill lines grouped by bill, and the per-cashier gross and net
  since the start of today, the week and the month (`calculateStats`).
- **Pocket-expenses page** (`PocketExpenses`): each user's share of the
  week's profit less their pocket expenses (`calculateWeekProfits`), and
  the checks of `addPocketExpense`.
- **Dashboard** (`Dashboard`): the nets of the business day, week, month
  and year (`calculateTotals`).
- **Reports page** (`Reports`, `DateRange`, `DateInput`): the clamped
  cashier share of `saveSettings`, the guard of `toggleUserActive`, and
  the date presets of `setRange` with the `YYYY-MM-DD` strings they write.
- **Authentication** (`Auth`): the Cairo operating hours, the
  cashier-active check, sign-in by username, and the role guards.

Shared pieces are defined once:

- `Civil`: the Gregorian calendar of ECMAScript's `Date.UTC`, `MakeDay`
  and `setUTCDate`, with rollover.
- `CairoCalendar`: the wall clock of a fixed-offset zone, together with
  `getCairoDateParts`, `getCairoHour`, `getCairoWeekdayIndex`,
  `getTimeZoneOffset` and `makeCairoDate`.
- `Periods`: the `getPeriodStarts` functions of the pages. The business
  week runs from Monday 12:00 to the next Monday 06:00, and the business
  day from 12:00 to 06:00.
- `Records`: the database rows, the per-bill cost fold, the share
  percentage rule, `sumTotals` and `formatMoney`'s coercion.
- `Folds`: `reduce` and `filter` over sequences, with their lemmas.

Instants are integer milliseconds, as ECMAScript time values are.
Amounts are exact reals. A value read through `Number(x) || 0` is an
`Option<real>` that reads as 0 when absent.

The loops over bills, lines and expenses are methods. Each is proved
against a function that states the final map or sum (`Costs`, `Grouped`,
`Entries`, `WeekNets`, `PocketTotals`), and lemmas state what those
functions mean. The pages whose fields change in place are classes:
`BillEditor`, `PocketExpensePage`, `DashboardPage`, `SettingsForm` and
`RangeFilter`.

Behaviour of the code worth knowing:

- **Stored line cost.** A stored line cost is used whenever it is
  nonzero, not only when it is positive (`Records.UnitCost`).
- **End of the week.** The current week is not always open at `now`. On
  Monday between 06:00 and 12:00 the week chosen is the one that has just
  ended, so `now` lies after its end. `Periods.WeekEndCoversNowIff`
  states exactly when `now` is covered.
- **Dashboard business day.** The business day includes its 06:00 end:
  the dashboard filters with `<=`. Between 06:00 and 12:00 it still
  shows the day that closed at 06:00 (`Periods.BusinessDayProperties`).

## Model

| member | source | states |
|---|---|---|
| Folds.Filter | assets/js/adminDashboard.js:273-277 | the filtered list keeps exactly the elements of the list that pass the predicate, and is no longer than the list |
| Folds.SumOfNestedFilter | assets/js/adminDashboard.js:278-286 | when one window lies inside another, the wider window's sum is the narrower one's plus the sum over the difference |
| Folds.SumOfCommonPercent | assets/js/cashier.js:263-268 | when every bill has the same share p, the sum of the per-bill shares is p percent of the summed base |
| Civil.CivilFromDays | assets/js/adminCashierProfits.js:126-130 | the `getUTC*` date of a day number is a valid date whose day number is that day |
| Civil.CivilRoundTrip | assets/js/adminCashierProfits.js:122-130 | a valid date turned into its day number and read back is the same date |
| Civil.DaysFromCivilInjective | assets/js/adminCashierProfits.js:126-130 | two valid dates with the same day number are equal |
| Civil.MakeDayOfValidMonth | assets/js/adminCashierProfits.js:122-124 | `Date.UTC(y, m - 1, d)` of a valid date lands on that date's day |
| Civil.DateUtcReadsBack | assets/js/adminCashierProfits.js:122-130 | UTC midnight of a valid date is a whole day and reads back through `getUTCFullYear`/`getUTCMonth`/`getUTCDate` as that date |
| Civil.SetUtcDateShift | assets/js/adminCashierProfits.js:125 | `setUTCDate(getUTCDate() + k)` moves an instant by exactly k days, across month and year ends |
| Civil.MakeDayShift | assets/js/adminCashierProfits.js:125 | moving the day of the month by k moves the day number by k |
| Civil.DaysFromCivilShift | assets/js/adminReports.js:54 | the day number is linear in the day of the month: day d + k is k days after day d |
| Civil.NextDayRollsOver | assets/js/adminDashboard.js:166-174 | the day after a valid date is its calendar successor, across month and year ends |
| Civil.DayZeroIsLastDayOfPreviousMonth | assets/js/adminReports.js:61 | day 0 of the next month is the last day of this month |
| CairoCalendar.WallClock | assets/js/adminCashierProfits.js:86-99 | the zone's wall clock shows a valid date and in-range hour, minute and second, and these make up the time of day |
| CairoCalendar.CairoDateParts | assets/js/adminCashierProfits.js:60-76 | the date parts are a valid date whose day number is the zone's local day |
| CairoCalendar.CairoHour | assets/js/cashier.js:67-74 | the hour the zone's clock shows lies in 0..23 |
| CairoCalendar.WeekdayIndex | assets/js/adminCashierProfits.js:82-83 | a short weekday name maps to its index, and any other string maps to 0 |
| CairoCalendar.CairoWeekdayIndex | assets/js/adminCashierProfits.js:77-84 | the weekday read through its printed name is the weekday of the local date |
| CairoCalendar.DaysSinceMonday | assets/js/adminCashierProfits.js:120 | `(dayIndex + 6) % 7` lies in 0..6 and is 0 exactly on a Monday |
| CairoCalendar.TimeZoneOffset | assets/js/adminCashierProfits.js:85-109 | the computed offset is the zone's offset less the dropped milliseconds, and exactly the zone's offset on a whole second |
| CairoCalendar.LocalTimeSameMillis | assets/js/adminCashierProfits.js:100-108 | the wall clock keeps the instant's milliseconds within the second |
| CairoCalendar.MakeCairoDate | assets/js/adminCashierProfits.js:110-114 | `makeCairoDate` is `Date.UTC` of the fields less the zone's offset |
| CairoCalendar.MakeCairoDateReadsBack | assets/js/adminCashierProfits.js:110-114 | an instant made from valid fields reads back in the zone as exactly those fields |
| CairoCalendar.HourOfClock | assets/js/cashier.js:67-74 | the hour shown is the whole hours elapsed since local midnight |
| CairoCalendar.HourBefore | assets/js/adminDashboard.js:149-151 | the clock shows an hour before h exactly when fewer than h hours of the day have passed |
| CairoCalendar.ClockOnDay | assets/js/adminCashierProfits.js:132-140 | `hour`:00 made on day n lies on day n and reads n's date at `hour`:00:00 |
| Periods.UtcMidnight | assets/js/adminCashierProfits.js:122-124 | for valid parts, the instant is UTC midnight of their day |
| Periods.ShiftUtcDays | assets/js/adminCashierProfits.js:125 | the `setUTCDate` step moves the instant by exactly k days |
| Periods.UtcParts | assets/js/adminCashierProfits.js:126-130 | the parts read back are a valid date of the instant's UTC day |
| Periods.CairoDateAt | assets/js/adminCashierProfits.js:132-140 | `makeCairoDate` of valid parts at `hour`:00 is that hour in the zone on their day |
| Periods.WeekStartSteps | assets/js/adminCashierProfits.js:118-156 | the step-by-step start of the week, with its step back a week when `now` is before it, is the specified week start, and the Monday parts are its date |
| Periods.GetWeekBounds | assets/js/cashier.js:113-177 | `getPeriodStarts` returns the specified week start and week end |
| Periods.WeekStartBracketsNow | assets/js/adminCashierProfits.js:132-156 | the week starts at or before `now` and less than seven days before it |
| Periods.WeekStartIsMondayNoon | assets/js/adminCashierProfits.js:132-156 | the week starts on a Monday at 12:00 in the zone |
| Periods.WeekStartSameWeekIff | assets/js/adminCashierProfits.js:142-156 | the week's Monday is the Monday of `now`'s calendar week exactly when `now` is not a Monday before 12:00 |
| Periods.MondayWeekday | assets/js/adminCashierProfits.js:119-125 | stepping back the days since Monday, or a further seven days, lands on a Monday |
| Periods.WeekLength | assets/js/adminCashierProfits.js:158-176 | the week ends six days and eighteen hours after it starts |
| Periods.WeekEndIsMondayMorning | assets/js/adminCashierProfits.js:158-176 | the week ends on a Monday at 06:00 in the zone |
| Periods.WeekEndCoversNowIff | assets/js/adminCashierProfits.js:158-176 | `now` is at or before the week's end exactly when it is not a Monday strictly between 06:00 and 12:00 |
| Periods.WeekStartReading | assets/js/adminCashierProfits.js:132-156 | the week start reads as the Monday's date at 12:00:00 |
| Periods.WeekEndReading | assets/js/adminCashierProfits.js:158-176 | the week end reads as the date seven days after the Monday's, at 06:00:00 |
| Periods.TodayMidnightProperties | assets/js/adminCashierProfits.js:178-186 | the start of today is at or before `now`, less than a day before it, and reads 00:00:00 on today's date |
| Periods.MonthAndYearStartOrder | assets/js/adminDashboard.js:184-201 | the year start, month start and midnight come in that order at or before `now`, and read 00:00:00 on January 1 and on the first of the month |
| Periods.ProfitsPeriodStarts | assets/js/adminCashierProfits.js:115-198 | the profits page's bounds are the specified start of today, week start, month start and week end |
| Periods.BusinessDayProperties | assets/js/adminDashboard.js:146-183 | the business day opens at or before `now`, less than a day before it, and closes 18 hours later; `now` is before the close unless the time is strictly between 06:00 and 12:00; before 12:00 it is yesterday's |
| Periods.DashboardPeriodStarts | assets/js/adminDashboard.js:102-204 | the dashboard's bounds are the business day, the week start, the month start and the year start |
| Records.NotOutside | assets/js/adminPocketExpenses.js:298 | the rejection test keeps exactly the records dated within the week, plus those whose date does not parse |
| Records.BillCostOverItemLines | assets/js/adminCashierProfits.js:262-269 | a bill's cost is the sum of the costs of its item lines |
| Records.BillCostStep | assets/js/adminCashierProfits.js:262-269 | one more line changes only its own bill's cost, and only by its own cost when it is an item line |
| Records.CostOfCosts | assets/js/adminCashierProfits.js:292 | `costPerBill.get(id) \|\| 0` is the cost of bill `id` |
| Records.CostsMeaning | assets/js/adminCashierProfits.js:261-269 | the cost map has a key exactly for the bills with an item line, and reading it gives each bill's cost |
| Records.CostsStep | assets/js/adminCashierProfits.js:262-268 | one more line adds its cost to its bill's entry when it is an item line and changes nothing else |
| Records.AddLineCost | assets/js/adminCashierProfits.js:263-268 | the loop body applies exactly one line's update to the cost map |
| Records.CostPerBill | assets/js/adminCashierProfits.js:261-269 | the loop builds the specified cost map |
| Records.Round2Properties | assets/js/cashier.js:48 | rounding to the hundredth moves a value by at most half a hundredth, and leaves a whole number of hundredths unchanged |
| Records.Round2Idempotent | assets/js/cashier.js:48 | rounding twice is rounding once |
| Records.Round2Bounds | assets/js/cashier.js:48 | rounding keeps a percentage inside [0, 100] |
| Records.SharePctRule | assets/js/adminPocketExpenses.js:276-281 | a positive stored share is used as is; otherwise an admin role gives 100, and any other role gives the configured share to within half a hundredth |
| Records.SharePctBounds | assets/js/adminPocketExpenses.js:276-281 | with a stored share of at most 100 and a configured share in [0, 100], the share is a percentage |
| Records.JoinedProfileSharePctRule | assets/js/adminDashboard.js:32-38 | the dashboard and reports rule reads the role from the bill's joined profile only |
| Records.SumTotalsProperties | assets/js/utils.js:28-30 | `sumTotals` of nothing is 0, bills without a numeric total add 0, and it is additive over concatenation |
| Records.SafeMoney | assets/js/utils.js:8-11 | a finite value is shown as itself and any other value as 0 |
| CashierProfits.WeekBills | assets/js/adminCashierProfits.js:22-28 | the week's bills are exactly the bills dated within the week, both ends included |
| CashierProfits.GroupedMeaning | assets/js/adminCashierProfits.js:29-36 | the grouping has a key exactly for the bills with lines, each holding that bill's lines in order, never empty |
| CashierProfits.GroupedStep | assets/js/adminCashierProfits.js:31-34 | one more line is appended to its own bill's list and changes no other list |
| CashierProfits.AddToGroup | assets/js/adminCashierProfits.js:32-33 | the loop body appends exactly one line to its bill's list |
| CashierProfits.BillLinesByBillId | assets/js/adminCashierProfits.js:29-36 | the loop builds the specified grouping |
| CashierProfits.HasLinesFiltered | assets/js/adminCashierProfits.js:29-36 | a bill has lines exactly when filtering for it keeps some |
| CashierProfits.ListedIds | assets/js/adminCashierProfits.js:271-285 | the stats keys are exactly the listed cashier ids, each once |
| CashierProfits.LastWith | assets/js/adminCashierProfits.js:271-285 | the entry kept for an id belongs to a listed cashier with that id |
| CashierProfits.EntryOfNoBills | assets/js/adminCashierProfits.js:274-283 | before any bill, a cashier's entry is the fresh one, with every window at 0 |
| CashierProfits.EntryStep | assets/js/adminCashierProfits.js:287-308 | one more bill credits a cashier's entry when the bill is theirs and leaves it unchanged otherwise |
| CashierProfits.SeedStep | assets/js/adminCashierProfits.js:271-285 | a later cashier with a known id replaces the earlier entry but keeps its place |
| CashierProfits.EntriesNoBills | assets/js/adminCashierProfits.js:271-285 | with no bills every entry is fresh |
| CashierProfits.EntriesStep | assets/js/adminCashierProfits.js:287-308 | one more bill credits its owner's entry when the owner is listed and changes nothing otherwise |
| CashierProfits.EntriesStepAt | assets/js/adminCashierProfits.js:287-308 | the same step, for one listed cashier |
| CashierProfits.AddToWindows | assets/js/adminCashierProfits.js:296-307 | the three window updates credit exactly the windows whose start the bill's date reaches |
| CashierProfits.VisitBill | assets/js/adminCashierProfits.js:288-307 | the loop body credits the bill's listed owner with its total and its total less its cost |
| CashierProfits.VisitNextBill | assets/js/adminCashierProfits.js:287-308 | one turn of the loop turns the entries after bills `..j` into those after `..j + 1` |
| CashierProfits.CreditBills | assets/js/adminCashierProfits.js:287-308 | the loop ends with the specified entries |
| CashierProfits.CalculateStats | assets/js/adminCashierProfits.js:255-311 | there is one entry per listed cashier, in order; each holds the gross and net of that cashier's bills since each window's start |
| CashierProfits.NetIsGrossMinusCost | assets/js/adminCashierProfits.js:291-293 | each window's net is its gross less the cost of the same bills |
| CashierProfits.UnlistedBillChangesNothing | assets/js/adminCashierProfits.js:288-289 | a bill without a listed owner changes no entry |
| CashierPage.FindLine | assets/js/cashier.js:309-311 | `find` gives the first line for the record, or none when no line is for it |
| CashierPage.AddLineRefusals | assets/js/cashier.js:304-323 | `addLine` refuses exactly an item with stock at most 0, and an item on the bill whose units would pass its stock; services are never refused |
| CashierPage.AddLineAddsOneUnit | assets/js/cashier.js:304-333 | a successful `addLine` adds exactly one unit of the record and no unit of any other |
| CashierPage.AddLineShape | assets/js/cashier.js:309-332 | a successful `addLine` bumps the record's line in place, or appends a new line when there is none |
| CashierPage.AddLineKeepsValid | assets/js/cashier.js:304-333 | a successful `addLine` keeps one line per record, with positive quantities and correct totals |
| CashierPage.QtyOfUniqueLine | assets/js/cashier.js:314-315 | on valid lines, the record's units are its one line's quantity |
| CashierPage.SafeQty | assets/js/cashier.js:335-336 | the kept quantity is positive: a positive input as typed, anything else 1 |
| CashierPage.UpdateQtyKeepsValid | assets/js/cashier.js:334-338 | `updateQty` keeps the lines valid, their number, and the item or service each line is for |
| CashierPage.SpliceStart | assets/js/cashier.js:339-341 | `splice` starts at an in-range index, or counts a negative index from the end |
| CashierPage.RemoveLineExact | assets/js/cashier.js:339-341 | removing an in-range index deletes exactly that line and keeps the rest in order; an index past the end changes nothing |
| CashierPage.RemoveLineKeepsValid | assets/js/cashier.js:339-341 | removing a line keeps the lines valid |
| CashierPage.DiscountValue | assets/js/cashier.js:32-35 | the discount is clamped into [0, subtotal], and a discount already in range is kept |
| CashierPage.BillTotalBounds | assets/js/cashier.js:29-38 | the total lies in [0, subtotal], and an in-range discount comes straight off |
| CashierPage.SubtotalNonNegative | assets/js/cashier.js:29-31 | valid lines at non-negative prices give a non-negative subtotal |
| CashierPage.ShortOfStock | assets/js/cashier.js:358-361 | `some` holds exactly when some item line asks for more than its fetched stock |
| CashierPage.PreSaveCheckMeaning | assets/js/cashier.js:343-367 | a bill passes the checks exactly when it has a line and every item line is covered by its stock |
| CashierPage.SavedShareReadsBack | assets/js/cashier.js:374 | a positive saved share is read back unchanged by every page's share rule |
| CashierPage.LinesPayload | assets/js/cashier.js:385-394 | there is one row per line, in order |
| CashierPage.SavedRows | assets/js/cashier.js:385-394 | the saved rows, as the other pages read them, match the lines one to one |
| CashierPage.SavedLinesCost | assets/js/cashier.js:385-394 | saved service lines cost 0, and the saved bill costs what its item lines cost |
| CashierPage.SavedLinesCostInduction | assets/js/cashier.js:385-394 | the cost of the saved rows is the sum of the lines' saved costs |
| CashierPage.BillEditor.constructor | assets/js/cashier.js:9-26 | the editor starts with no lines, discount 0, no error and not saving |
| CashierPage.BillEditor.AddLine | assets/js/cashier.js:304-333 | the lines become `AddLineResult`'s, or stay and the error is set to its message; validity is kept |
| CashierPage.BillEditor.UpdateQty | assets/js/cashier.js:334-338 | only line i changes, to the safe quantity and its total; validity is kept |
| CashierPage.BillEditor.RemoveLine | assets/js/cashier.js:339-341 | the lines become the spliced lines; validity is kept |
| CashierPage.BillEditor.CompleteBill | assets/js/cashier.js:342-394 | the lines and discount are unchanged; a failed check sends nothing and sets its message; a pass clears the error, sets saving and sends the bill row (total, clamped discount, saved share) and one row per line |
| CashierPage.BillEditor.ResetAfterSave | assets/js/cashier.js:423-425 | after a save, the lines are emptied and the discount and saving flag reset |
| CashierPage.BillEditor.FinishSave | assets/js/cashier.js:379-425 | a failed bill insert or line insert keeps the lines and discount, ends saving and sets its own message; otherwise the page resets, with the stock-update message exactly when the stock update fails for a bill with item lines |
| CashierPage.MinOf | assets/js/cashier.js:278 | the minimum is a share of the week and no share is lower |
| CashierPage.MaxOf | assets/js/cashier.js:279 | the maximum is a share of the week and no share is higher |
| CashierPage.ShareValues | assets/js/cashier.js:275-277 | each bill's share is its share by the cashier page's rule |
| CashierPage.LoadWeekStats | assets/js/cashier.js:223-303 | the page shows the week's gross, its pocket total, the sum of the per-bill shares less the pockets, the base net and the share label |
| CashierPage.TermsFromCosts | assets/js/cashier.js:247-273 | folding through the cost map gives the same sums as costing each bill from its lines |
| CashierPage.NetBaseIsGrossMinusCost | assets/js/cashier.js:257-273 | the base net is the gross less the cost of the same bills |
| CashierPage.SingleShareMeansOneShare | assets/js/cashier.js:275-282 | a single-value label means every bill of the week has that share |
| CashierPage.CommonShareWeekNet | assets/js/cashier.js:263-268 | with one common share p, the share net is p percent of the base net |
| PocketExpenses.RoleByUserIdKeys | assets/js/adminPocketExpenses.js:230-233 | the role map has a key exactly for the listed ids |
| PocketExpenses.RoleByUserIdLast | assets/js/adminPocketExpenses.js:230-233 | each id maps to the role of the last row with that id |
| PocketExpenses.WeekNetOfNonCreator | assets/js/adminPocketExpenses.js:294-306 | a user with no counted bill has a week net of 0 |
| PocketExpenses.WeekNetsStep | assets/js/adminPocketExpenses.js:295-306 | one more bill adds its net to its creator's total when it counts and changes nothing else |
| PocketExpenses.BillUsersSnoc | assets/js/adminPocketExpenses.js:296-298 | one more bill adds its creator to the users exactly when it counts |
| PocketExpenses.WeekNetsStepAt | assets/js/adminPocketExpenses.js:295-306 | the same step, for one user |
| PocketExpenses.AddBillNet | assets/js/adminPocketExpenses.js:296-305 | the loop body applies exactly one bill's update |
| PocketExpenses.VisitNextBill | assets/js/adminPocketExpenses.js:295-306 | one turn of the bill loop turns the nets after bills `..j` into those after `..j + 1` |
| PocketExpenses.SumBillNets | assets/js/adminPocketExpenses.js:294-306 | the bill loop ends with the specified nets |
| PocketExpenses.PocketOfNonUser | assets/js/adminPocketExpenses.js:308-315 | a user with no counted expense has a pocket total of 0 |
| PocketExpenses.PocketTotalsStep | assets/js/adminPocketExpenses.js:309-315 | one more expense adds its amount to its user's total when it counts and changes nothing else |
| PocketExpenses.PocketUsersSnoc | assets/js/adminPocketExpenses.js:309-315 | one more expense adds its user exactly when it counts |
| PocketExpenses.PocketTotalsStepAt | assets/js/adminPocketExpenses.js:309-315 | the same step, for one user |
| PocketExpenses.AddRowAmount | assets/js/adminPocketExpenses.js:310-314 | the loop body applies exactly one expense's update |
| PocketExpenses.SumPockets | assets/js/adminPocketExpenses.js:308-315 | the expense loop ends with the specified pocket totals |
| PocketExpenses.DeductedNone | assets/js/adminPocketExpenses.js:317-319 | before any deduction, the totals are the nets |
| PocketExpenses.DeductedStep | assets/js/adminPocketExpenses.js:317-319 | deducting one more user changes only that user's total, by their pocket total |
| PocketExpenses.DeductOne | assets/js/adminPocketExpenses.js:318 | the loop body deducts exactly one user's pocket total |
| PocketExpenses.DeductPockets | assets/js/adminPocketExpenses.js:317-319 | visiting the keys in any order deducts every user's pocket total |
| PocketExpenses.CalculateWeekProfits | assets/js/adminPocketExpenses.js:282-323 | the page stores the week's pocket totals and each user's net less their pockets, over the business week |
| PocketExpenses.WeekProfitsMeaning | assets/js/adminPocketExpenses.js:294-322 | a user has a week profit exactly when they created a counted bill or have a counted expense, and it is their share net less their pockets |
| PocketExpenses.ExpensesWithoutBillsGoNegative | assets/js/adminPocketExpenses.js:317-319 | a user with positive expenses and no bill ends the week below 0 |
| PocketExpenses.UncountedBillChangesNothing | assets/js/adminPocketExpenses.js:296-298 | a bill without a creator, or dated outside the week, changes no net |
| PocketExpenses.UncountedRowChangesNothing | assets/js/adminPocketExpenses.js:311-312 | an expense without a user, or dated outside the week, changes no pocket total |
| PocketExpenses.CreatorShareRule | assets/js/adminPocketExpenses.js:276-281 | a stored positive share is used; otherwise a creator the role map says is admin gives 100, and an unknown creator gives the configured share rounded |
| PocketExpenses.CheckPocketExpenseRules | assets/js/adminPocketExpenses.js:375-399 | an expense is refused for no user, a non-positive amount, or more than a non-admin's week net; otherwise the row carries the user, the amount, the note (null when empty) and the forced reason exactly for an admin's overdraft |
| PocketExpenses.PocketExpensePage.constructor | assets/js/adminPocketExpenses.js:21-28 | the form starts with no user, no amount and the default reason |
| PocketExpenses.PocketExpensePage.AddPocketExpense | assets/js/adminPocketExpenses.js:375-410 | a refused expense sends nothing and only sets the error; a sent one clears saving, then records the save error or clears the error and resets the form |
| Dashboard.GetPeriodStarts | assets/js/adminDashboard.js:102-204 | the bounds are the specified business day, week, month and year starts |
| Dashboard.WindowNetMeaning | assets/js/adminDashboard.js:273-313 | a window's net sums every bill's total and every expense's amount in the window, the others counting 0 |
| Dashboard.PocketSumProperties | assets/js/adminDashboard.js:302-303 | `pocketSum` of nothing is 0, rows without a numeric amount add 0, and it is additive over concatenation |
| Dashboard.WindowBounds | assets/js/adminDashboard.js:273-300 | the business day includes both ends, and the other windows have no upper bound |
| Dashboard.MonthWithinYear | assets/js/adminDashboard.js:278-313 | the month's records are in the year's, and the year's net is the month's plus that of the records from January 1 to the month's start |
| Dashboard.UndatedCountsNowhere | assets/js/adminDashboard.js:273-313 | a bill and an expense whose dates do not parse change none of the four nets |
| Dashboard.UndatedBillNowhere | assets/js/adminDashboard.js:273-286 | an undated bill changes none of the four nets |
| Dashboard.UndatedRowNowhere | assets/js/adminDashboard.js:288-300 | an undated expense changes none of the four nets |
| Dashboard.UndatedBillInDay | assets/js/adminDashboard.js:273-277 | an undated bill is not in the business day |
| Dashboard.UndatedBillSince | assets/js/adminDashboard.js:278-286 | an undated bill is in no open window |
| Dashboard.UndatedRowInDay | assets/js/adminDashboard.js:288-291 | an undated expense is not in the business day |
| Dashboard.UndatedRowSince | assets/js/adminDashboard.js:292-300 | an undated expense is in no open window |
| Dashboard.BillNowCounts | assets/js/adminDashboard.js:269-313 | a bill dated now adds its total to the month and the year, and to the business day unless the time is strictly between 06:00 and 12:00 |
| Dashboard.WindowTotals | assets/js/adminDashboard.js:273-313 | the pocket sums and nets are the specified ones for the bounds |
| Dashboard.DashboardPage.constructor | assets/js/adminDashboard.js:7-27 | the page starts with nothing loaded and every total 0 |
| Dashboard.DashboardPage.CalculateTotals | assets/js/adminDashboard.js:269-314 | the loaded records are unchanged, and the page shows the specified pocket sums and nets at `now` |
| Dashboard.DashboardPage.Show | assets/js/adminDashboard.js:305-313 | the eight fields take the given sums and nets, and nothing else changes |
| DateInput.NatToString | assets/js/adminReports.js:37-38 | `String(n)` is at least one character long and all digits |
| DateInput.PadStart2 | assets/js/adminReports.js:37-38 | `padStart(2, "0")` keeps a string of two or more characters, and otherwise adds zeros in front to length 2 |
| DateInput.DigitsRoundTrip | assets/js/adminReports.js:35-40 | the digits `String` writes read back as the number |
| DateInput.NatToStringLength | assets/js/adminReports.js:36 | a number in [10^(k-1), 10^k) is written with exactly k digits |
| DateInput.PadKeepsValue | assets/js/adminReports.js:37-38 | padding keeps a digit string's value |
| DateInput.FormatDateRoundTrip | assets/js/adminReports.js:35-40 | the written date reads back as the date, and a four-digit year gives exactly `YYYY-MM-DD` |
| DateInput.TwoDigits | assets/js/adminReports.js:37-38 | a month or day below 100 is padded to two digits worth the number |
| DateInput.FormatDateInjective | assets/js/adminReports.js:35-40 | two dates written alike are the same date |
| DateRange.LocalParts | assets/js/adminReports.js:36-38 | the local date of a day is a valid date |
| DateRange.GetDay | assets/js/adminReports.js:53 | `getDay()` lies in 0..6 |
| DateRange.SetDateShift | assets/js/adminReports.js:54 | `setDate(getDate() + k)` moves a date by exactly k days |
| DateRange.PresetHoldsToday | assets/js/adminReports.js:41-69 | exactly the four preset names give a range, and every range holds today |
| DateRange.WeekPreset | assets/js/adminReports.js:51-57 | the week preset runs from the Monday on or before today to the Sunday six days later |
| DateRange.MonthPreset | assets/js/adminReports.js:59-62 | the month preset runs from the first to the last day of today's month |
| DateRange.MonthBounds | assets/js/adminReports.js:59-62 | the month's first and last day read back as such, and the next day is a first |
| DateRange.LastDayRollsOver | assets/js/adminReports.js:61 | the day after the last of a month is the first of a month |
| DateRange.YearPreset | assets/js/adminReports.js:64-67 | the year preset runs from January 1 to December 31 of today's year |
| DateRange.WithinYear | assets/js/adminReports.js:64-67 | every date lies between January 1 and December 31 of its year |
| DateRange.WeekSteps | assets/js/adminReports.js:51-57 | the steps of the week branch give the week span |
| DateRange.MoveDays | assets/js/adminReports.js:54 | the `setDate` step moves by exactly k days |
| DateRange.MonthSteps | assets/js/adminReports.js:59-62 | the steps of the month branch give the month span |
| DateRange.YearSteps | assets/js/adminReports.js:64-67 | the steps of the year branch give the year span |
| DateRange.RangeFilter.constructor | assets/js/adminReports.js:13-14 | both inputs start empty |
| DateRange.RangeFilter.SetRange | assets/js/adminReports.js:41-73 | a preset writes its first and last day as `YYYY-MM-DD` and asks for a reload; any other name changes nothing |
| DateRange.RangeFilter.ResetRange | assets/js/adminReports.js:162-166 | both inputs are emptied and a reload is always asked for |
| Auth.OperatingHoursOnTheClock | assets/js/auth.js:25-29 | the clock is within the hours exactly when the hour is 12 or later, or before 6; 06:00 and 11:59 are out, 12:00 and 05:59 are in |
| Auth.OperatingHoursOfDay | assets/js/auth.js:6-29 | `isWithinOperatingHours` holds exactly when less than 6 hours or at least 12 hours of the local day have passed |
| Auth.OperatingHoursInBusinessDay | assets/js/auth.js:25-29 | every moment inside the hours lies in the dashboard's business day |
| Auth.EnforceCashierRules | assets/js/auth.js:31-43 | only cashiers are checked; an inactive cashier fails with the inactive message first, then one outside the hours with the hours message |
| Auth.TextStart | assets/js/auth.js:49 | the text starts at the first character that is not white space |
| Auth.TextEnd | assets/js/auth.js:49 | the text ends just after the last character that is not white space |
| Auth.TrimMeaning | assets/js/auth.js:49-52 | `trim` keeps the part of the input between leading and trailing white space, and is empty exactly for an all-white-space input |
| Auth.LowerChar | assets/js/auth.js:54 | a capital A to Z becomes its own small letter (32 code points on), and every other character is kept |
| Auth.ToLower | assets/js/auth.js:54 | lowering keeps the length |
| Auth.ToLowerMeaning | assets/js/auth.js:54 | lowering turns each capital A to Z into its own small letter, leaves no capital, changes nothing else, and is idempotent |
| Auth.LoginEmailMeaning | assets/js/auth.js:54 | the address is the lowered, trimmed username followed by `@barbershop.local`; surrounding white space does not change it |
| Auth.SignInRules | assets/js/auth.js:48-88 | a blank username fails before the backend is asked; a signed-in user is the profile of the id the address lets in, and a cashier is active or unmarked and inside the hours |
| Auth.RequireRoleRules | assets/js/auth.js:90-127 | a role-guarded page admits exactly the session's profile when its role is the required one and the cashier checks pass |
| Auth.RequireAnyRoleRules | assets/js/auth.js:129-166 | a page guarded by a role list admits exactly a profile whose role is listed and passes the cashier checks; a listed admin always passes |
| Reports.ClampShare | assets/js/adminReports.js:114-116 | the saved share lies in [0, 100]: a non-finite value gives 0, values below and above are clamped, and a value in range is kept |
| Reports.ClampShareIdempotent | assets/js/adminReports.js:114-116 | saving a saved value saves it unchanged |
| Reports.SavedShareIsPercentage | assets/js/adminReports.js:28-34 | with a saved configured share, every bill whose stored share is at most 100 gets a percentage on the reports page |
| Reports.SettingsForm.constructor | assets/js/adminReports.js:20-22 | the form starts at 0, not saving, with no error |
| Reports.SettingsForm.SaveSettings | assets/js/adminReports.js:113-131 | the clamped value is sent and written back into the form; saving ends; the error is set exactly when the upsert fails |
| Reports.ToggleRequest | assets/js/adminReports.js:132-142 | only a cashier gets an update, and it sets `active` to the negation of its truthiness |
| Reports.ToggleTwice | assets/js/adminReports.js:132-142 | toggling a cashier twice restores a set flag, and a cashier without a flag becomes active |

## Left out

- Network and database I/O are parameters or left out. This covers the Supabase queries, inserts, upserts and RPCs, `signOut`, the redirects and the realtime subscriptions. The data they fetch and the answers they give (insert failed, stock fetched, new bill id, user authenticated) are given as parameters.
- The clock is a parameter. `new Date()` is the `now` (or `today`) argument.
- Time zones use a fixed offset. Cairo's daylight-saving transitions are not modelled: `Intl.DateTimeFormat` is a wall clock at a fixed UTC offset.
- Intl's hour "24" at midnight is not modelled; the hour is 0..23.
- Floating point is not modelled. Amounts are exact reals, and `Math.round(x * 100) / 100` is exact rounding half up.
- Dates are not clipped to ECMAScript's ±8.64e15 ms range. The two-digit-year rule of `Date.UTC` and `new Date(y, m, d)` is not applied (years 0..99 are taken as written).
- DateRange.RangeFilter.SetRange: the local `Date` objects are day numbers of the browser's calendar, and the browser's own zone offset is not modelled.
- DateInput.FormatDateRoundTrip: only years from 0 on read back; the reader does not parse a leading minus sign.
- Auth.ToLower: only A to Z are lowered. Full Unicode case mapping is not modelled.
- Auth.IsJsSpace: covers ECMAScript's white space and line terminators by code point. Other Unicode space separators not in that list are not covered.
- These are not part of this model: the UI text, the labels (`weekLabel`, the printed share label text), `formatDateTime`, `formatDate`, `openPrintView`'s HTML, the sold-out banner and its timer, and `showZeroProfitWarning`.
- `loadBills` and `loadPocketExpenses` build their date filters with `new Date(dateFrom)` and a `23:59:59.999` end. Those filters are server-side queries and are not modelled.
- `startOfTodayIso` of `utils.js` is not part of this model.
- `businessDayRangeIso` is imported by `cashier.js` and `adminDashboard.js` but is defined nowhere in the repository. It is not part of this model; the business day used throughout is the dashboard's own rule (`adminDashboard.js:146-183`).
- `adminItems.js` (catalog editing) is not part of this model.
- `loadSettings` and `loadCashiers` are reads. Their results (the configured share, the profile list and role map) are inputs of the operations that use them.
- CashierPage.BillEditor: lines are values in a sequence, so `existing.qty += 1` on a shared line object is an update at its index. Aliasing of line objects is not modelled.
- CashierPage.BillEditor.CompleteBill: stops at the request it sends. The outcomes of the inserts are `FinishSave`, whose three failure answers are parameters. The reloads of today's bills and the week statistics that follow are I/O.
- PocketExpenses.DeductPockets: `Object.keys` order is free. The result is proved the same for any order.
- CashierProfits.CalculateStats: takes the window starts as a parameter. `Periods.ProfitsPeriodStarts` computes them separately.
- The `forEach` loops are split into a step method and a loop method each. This keeps every proof small, and the combined behaviour is the loop method's contract.
