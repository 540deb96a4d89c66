/**
 * The pocket-expenses page: each user's share of the business week's
 * profit less the pocket expenses they took in that week
 * (`calculateWeekProfits`), the role map it reads, and the checks
 * `addPocketExpense` makes before it records a new expense.
 */
module PocketExpenses {
  import opened Wrappers
  import opened Folds
  import opened Records
  import opened CairoCalendar
  import opened Periods

  const DefaultReason: string := "مصروف عادي"
  const ForcedReason: string := "بضاعة محل او امور اخرى"
  const NoUserMessage: string := "اختر الموظف اولا."
  const BadAmountMessage: string := "ادخل مبلغ صحيح."
  const OverdraftMessage: string := "لا يمكن ان يتجاوز المصروف صافي ربح الاسبوع."
  const SaveFailedMessage: string := "تعذر حفظ مصروف الجيب."

  // ---------------------------------------------------------------------------
  // roleByUserId

  /** A `profiles` row as `loadCashiers` reads it. */
  datatype Profile = Profile(id: Id, role: Option<string>)

  /** `roleByUserId`: each row writes its role under its id, so a later row overwrites an earlier one. */
  function RoleByUserId(rows: seq<Profile>): map<Id, Option<string>>
    decreases |rows|
  {
    if |rows| == 0 then map[]
    else
      var last := rows[|rows| - 1];
      RoleByUserId(rows[..|rows| - 1])[last.id := last.role]
  }

  /** The role map has a key exactly for the listed ids. */
  lemma {:induction false} RoleByUserIdKeys(rows: seq<Profile>, id: Id)
    ensures id in RoleByUserId(rows) <==> exists k :: 0 <= k < |rows| && rows[k].id == id
    decreases |rows|
  {
    if |rows| > 0 {
      var n := |rows| - 1;
      RoleByUserIdKeys(rows[..n], id);
      if exists k :: 0 <= k < |rows| && rows[k].id == id {
        var k :| 0 <= k < |rows| && rows[k].id == id;
        if k < n {
          assert rows[..n][k].id == id;
        }
      }
      if exists k :: 0 <= k < n && rows[..n][k].id == id {
        var k :| 0 <= k < n && rows[..n][k].id == id;
        assert rows[k].id == id;
      }
    }
  }

  /** Under each id the role map holds the role of the last row listed with that id. */
  lemma {:induction false} RoleByUserIdLast(rows: seq<Profile>, k: int)
    requires 0 <= k < |rows|
    requires forall j :: k < j < |rows| ==> rows[j].id != rows[k].id
    ensures rows[k].id in RoleByUserId(rows) && RoleByUserId(rows)[rows[k].id] == rows[k].role
    decreases |rows|
  {
    var n := |rows| - 1;
    if k < n {
      RoleByUserIdLast(rows[..n], k);
    }
  }

  /** `roleByUserId[id]`: `None` for an id the map does not hold. */
  function RoleOf(roles: map<Id, Option<string>>, id: Id): Option<string> {
    if id in roles then roles[id] else None
  }

  // ---------------------------------------------------------------------------
  // The week's net per user

  /** The business week: both ends belong to it. */
  datatype Week = Week(start: int, end: int)

  /** What the page has fetched besides the bills and the pocket expenses. */
  datatype PageData = PageData(
    billLines: seq<BillLine>,
    itemCosts: map<Id, real>,
    roleByUserId: map<Id, Option<string>>,
    cashierSharePct: Option<real>)

  /** The bills `calculateWeekProfits` counts: those with a creator and not dated before the week or after it. */
  predicate CountedBill(b: Bill, w: Week) {
    Present(b.createdBy) && !Outside(b.createdAt, w.start, w.end)
  }

  /** The role `roleByUserId` holds for the bill's creator. */
  function CreatorRole(b: Bill, d: PageData): Option<string> {
    if b.createdBy.Some? then RoleOf(d.roleByUserId, b.createdBy.value) else None
  }

  /** `(gross - cost) * getBillSharePct(bill, role) / 100` for one bill. */
  function BillNet(b: Bill, d: PageData): real {
    ShareNet(b, BillCost(d.billLines, d.itemCosts, b.id), SharePct(b.sharePct, CreatorRole(b, d), d.cashierSharePct))
  }

  /** What bill `b` adds to user `u`'s week net. */
  function NetTermFor(u: Id, d: PageData, w: Week): Bill -> real {
    (b: Bill) => if CountedBill(b, w) && b.createdBy.value == u then BillNet(b, d) else 0.0
  }

  /** User `u`'s share of the week's profit over `bills`. */
  function WeekNetOf(bills: seq<Bill>, d: PageData, w: Week, u: Id): real {
    SumOf(bills, NetTermFor(u, d, w))
  }

  /** The creators of the counted bills. */
  function BillUsers(bills: seq<Bill>, w: Week): set<Id> {
    set b | b in bills && CountedBill(b, w) :: b.createdBy.value
  }

  /** `weekTotals` after the bill loop: a key per creator of a counted bill. */
  function WeekNets(bills: seq<Bill>, d: PageData, w: Week): map<Id, real> {
    map u | u in BillUsers(bills, w) :: WeekNetOf(bills, d, w, u)
  }

  /** A user who created no counted bill has a week net of 0. */
  lemma WeekNetOfNonCreator(bills: seq<Bill>, d: PageData, w: Week, u: Id)
    requires u !in BillUsers(bills, w)
    ensures WeekNetOf(bills, d, w, u) == 0.0
  {
    forall b | b in bills
      ensures NetTermFor(u, d, w)(b) == 0.0
    {
      assert CountedBill(b, w) ==> b.createdBy.value in BillUsers(bills, w);
    }
    SumOfZero(bills, NetTermFor(u, d, w));
  }

  /** One bill's update of `weekTotals`: its net added to its creator's total, when it counts. */
  function WithBillNet(totals: map<Id, real>, b: Bill, net: real, w: Week): map<Id, real> {
    if CountedBill(b, w) then totals[b.createdBy.value := OrZero(totals, b.createdBy.value) + net] else totals
  }

  /** One more bill adds its net to its creator's total when it counts, and changes nothing else. */
  lemma WeekNetsStep(bills: seq<Bill>, b: Bill, d: PageData, w: Week)
    ensures WeekNets(bills + [b], d, w) == WithBillNet(WeekNets(bills, d, w), b, BillNet(b, d), w)
  {
    var before, after := WeekNets(bills, d, w), WeekNets(bills + [b], d, w);
    var target := WithBillNet(before, b, BillNet(b, d), w);
    BillUsersSnoc(bills, b, w);
    assert after.Keys == target.Keys;
    forall u | u in after
      ensures after[u] == target[u]
    {
      WeekNetsStepAt(bills, b, d, w, u);
    }
  }

  lemma BillUsersSnoc(bills: seq<Bill>, b: Bill, w: Week)
    ensures BillUsers(bills + [b], w) == BillUsers(bills, w) + (if CountedBill(b, w) then {b.createdBy.value} else {})
  {
    assert forall x :: x in bills + [b] <==> x in bills || x == b;
  }

  lemma WeekNetsStepAt(bills: seq<Bill>, b: Bill, d: PageData, w: Week, u: Id)
    requires u in BillUsers(bills + [b], w)
    ensures WeekNetOf(bills + [b], d, w, u) == WithBillNet(WeekNets(bills, d, w), b, BillNet(b, d), w)[u]
  {
    SumOfSnoc(bills, b, NetTermFor(u, d, w));
    if u !in BillUsers(bills, w) {
      WeekNetOfNonCreator(bills, d, w, u);
    }
  }

  /** The body of the bill loop. */
  method AddBillNet(weekTotals: map<Id, real>, bill: Bill, costPerBill: map<Id, real>, d: PageData, w: Week)
    returns (r: map<Id, real>)
    requires costPerBill == Costs(d.billLines, d.itemCosts)
    ensures r == WithBillNet(weekTotals, bill, BillNet(bill, d), w)
  {
    r := weekTotals;
    if !Present(bill.createdBy) {
      return;
    }
    var billDate := bill.createdAt;
    if Outside(billDate, w.start, w.end) {
      return;
    }
    var gross := Num(bill.total);
    var role := RoleOf(d.roleByUserId, bill.createdBy.value);
    CostOfCosts(d.billLines, d.itemCosts, bill.id);
    var cost := OrZero(costPerBill, bill.id);
    var baseNet := gross - cost;
    var sharePct := SharePct(bill.sharePct, role, d.cashierSharePct);
    var net := (baseNet * sharePct) / 100.0;
    assert net == BillNet(bill, d);
    r := r[bill.createdBy.value := OrZero(r, bill.createdBy.value) + net];
  }

  /** One turn of the bill loop. */
  method VisitNextBill(weekTotals: map<Id, real>, costPerBill: map<Id, real>, bills: seq<Bill>, j: int, d: PageData, w: Week)
    returns (r: map<Id, real>)
    requires 0 <= j < |bills|
    requires costPerBill == Costs(d.billLines, d.itemCosts)
    requires weekTotals == WeekNets(bills[..j], d, w)
    ensures r == WeekNets(bills[..j + 1], d, w)
  {
    var bill := bills[j];
    assert bills[..j + 1] == bills[..j] + [bill];
    WeekNetsStep(bills[..j], bill, d, w);
    r := AddBillNet(weekTotals, bill, costPerBill, d, w);
  }

  /** The `bills.forEach` of `calculateWeekProfits`. */
  method SumBillNets(costPerBill: map<Id, real>, bills: seq<Bill>, d: PageData, w: Week) returns (weekTotals: map<Id, real>)
    requires costPerBill == Costs(d.billLines, d.itemCosts)
    ensures weekTotals == WeekNets(bills, d, w)
  {
    weekTotals := map[];
    var j := 0;
    while j < |bills|
      invariant 0 <= j <= |bills|
      invariant weekTotals == WeekNets(bills[..j], d, w)
    {
      weekTotals := VisitNextBill(weekTotals, costPerBill, bills, j, d, w);
      j := j + 1;
    }
    assert bills[..j] == bills;
  }

  // ---------------------------------------------------------------------------
  // The week's pocket expenses per user

  /** The expenses `calculateWeekProfits` counts: not dated before the week or after it, and with a user. */
  predicate CountedRow(row: PocketExpense, w: Week) {
    !Outside(row.createdAt, w.start, w.end) && Present(row.userId)
  }

  /** What expense `row` adds to user `u`'s pocket total. */
  function AmountTermFor(u: Id, w: Week): PocketExpense -> real {
    (row: PocketExpense) => if CountedRow(row, w) && row.userId.value == u then AmountOf(row) else 0.0
  }

  /** User `u`'s pocket expenses in the week. */
  function PocketOf(rows: seq<PocketExpense>, w: Week, u: Id): real {
    SumOf(rows, AmountTermFor(u, w))
  }

  /** The users of the counted expenses. */
  function PocketUsers(rows: seq<PocketExpense>, w: Week): set<Id> {
    set row | row in rows && CountedRow(row, w) :: row.userId.value
  }

  /** `pocketTotals` after the expense loop: a key per user of a counted expense. */
  function PocketTotals(rows: seq<PocketExpense>, w: Week): map<Id, real> {
    map u | u in PocketUsers(rows, w) :: PocketOf(rows, w, u)
  }

  /** A user with no counted expense has a pocket total of 0. */
  lemma PocketOfNonUser(rows: seq<PocketExpense>, w: Week, u: Id)
    requires u !in PocketUsers(rows, w)
    ensures PocketOf(rows, w, u) == 0.0
  {
    forall row | row in rows
      ensures AmountTermFor(u, w)(row) == 0.0
    {
      assert CountedRow(row, w) ==> row.userId.value in PocketUsers(rows, w);
    }
    SumOfZero(rows, AmountTermFor(u, w));
  }

  /** One expense's update of `pocketTotals`: its amount added to its user's total, when it counts. */
  function WithRow(totals: map<Id, real>, row: PocketExpense, w: Week): map<Id, real> {
    if CountedRow(row, w) then totals[row.userId.value := OrZero(totals, row.userId.value) + AmountOf(row)] else totals
  }

  /** One more expense adds its amount to its user's total when it counts, and changes nothing else. */
  lemma PocketTotalsStep(rows: seq<PocketExpense>, row: PocketExpense, w: Week)
    ensures PocketTotals(rows + [row], w) == WithRow(PocketTotals(rows, w), row, w)
  {
    var before, after := PocketTotals(rows, w), PocketTotals(rows + [row], w);
    var target := WithRow(before, row, w);
    PocketUsersSnoc(rows, row, w);
    assert after.Keys == target.Keys;
    forall u | u in after
      ensures after[u] == target[u]
    {
      PocketTotalsStepAt(rows, row, w, u);
    }
  }

  lemma PocketUsersSnoc(rows: seq<PocketExpense>, row: PocketExpense, w: Week)
    ensures PocketUsers(rows + [row], w) == PocketUsers(rows, w) + (if CountedRow(row, w) then {row.userId.value} else {})
  {
    assert forall x :: x in rows + [row] <==> x in rows || x == row;
  }

  lemma PocketTotalsStepAt(rows: seq<PocketExpense>, row: PocketExpense, w: Week, u: Id)
    requires u in PocketUsers(rows + [row], w)
    ensures PocketOf(rows + [row], w, u) == WithRow(PocketTotals(rows, w), row, w)[u]
  {
    SumOfSnoc(rows, row, AmountTermFor(u, w));
    if u !in PocketUsers(rows, w) {
      PocketOfNonUser(rows, w, u);
    }
  }

  /** The body of the expense loop. */
  method AddRowAmount(pocketTotals: map<Id, real>, row: PocketExpense, w: Week) returns (r: map<Id, real>)
    ensures r == WithRow(pocketTotals, row, w)
  {
    r := pocketTotals;
    var rowDate := row.createdAt;
    if Outside(rowDate, w.start, w.end) {
      return;
    }
    if !Present(row.userId) {
      return;
    }
    var amount := Num(row.amount);
    r := r[row.userId.value := OrZero(r, row.userId.value) + amount];
  }

  /** The `pocketExpenses.forEach` of `calculateWeekProfits`. */
  method SumPockets(rows: seq<PocketExpense>, w: Week) returns (pocketTotals: map<Id, real>)
    ensures pocketTotals == PocketTotals(rows, w)
  {
    pocketTotals := map[];
    var j := 0;
    while j < |rows|
      invariant 0 <= j <= |rows|
      invariant pocketTotals == PocketTotals(rows[..j], w)
    {
      var row := rows[j];
      assert rows[..j + 1] == rows[..j] + [row];
      PocketTotalsStep(rows[..j], row, w);
      pocketTotals := AddRowAmount(pocketTotals, row, w);
      j := j + 1;
    }
    assert rows[..j] == rows;
  }

  // ---------------------------------------------------------------------------
  // The deduction

  /** `weekTotals` once the users in `done` have had their pocket totals taken off. */
  function Deducted(nets: map<Id, real>, pockets: map<Id, real>, done: set<Id>): map<Id, real> {
    map u | u in nets.Keys + done :: OrZero(nets, u) - (if u in done then OrZero(pockets, u) else 0.0)
  }

  /** Before any deduction the totals are the nets. */
  lemma DeductedNone(nets: map<Id, real>, pockets: map<Id, real>)
    ensures Deducted(nets, pockets, {}) == nets
  {
    var r := Deducted(nets, pockets, {});
    assert r.Keys == nets.Keys;
  }

  /** Taking one more user's pocket total off. */
  lemma DeductedStep(nets: map<Id, real>, pockets: map<Id, real>, done: set<Id>, u: Id)
    requires u !in done
    ensures Deducted(nets, pockets, done + {u})
            == Deducted(nets, pockets, done)[u := OrZero(Deducted(nets, pockets, done), u) - OrZero(pockets, u)]
  {
    var before, after := Deducted(nets, pockets, done), Deducted(nets, pockets, done + {u});
    var target := before[u := OrZero(before, u) - OrZero(pockets, u)];
    assert OrZero(before, u) == OrZero(nets, u);
    assert after.Keys == target.Keys;
  }

  /** The body of the key loop: `weekTotals[userId] = (weekTotals[userId] || 0) - pocketTotals[userId]`. */
  method DeductOne(weekTotals: map<Id, real>, ghost nets: map<Id, real>, pockets: map<Id, real>, ghost done: set<Id>, userId: Id)
    returns (r: map<Id, real>)
    requires userId in pockets && userId !in done
    requires weekTotals == Deducted(nets, pockets, done)
    ensures r == Deducted(nets, pockets, done + {userId})
  {
    DeductedStep(nets, pockets, done, userId);
    r := weekTotals[userId := OrZero(weekTotals, userId) - pockets[userId]];
  }

  /** The `Object.keys(pocketTotals).forEach` of `calculateWeekProfits`, in whatever order the keys come. */
  method DeductPockets(nets: map<Id, real>, pockets: map<Id, real>) returns (weekTotals: map<Id, real>)
    ensures weekTotals == Deducted(nets, pockets, pockets.Keys)
  {
    weekTotals := nets;
    var keys := pockets.Keys;
    ghost var done: set<Id> := {};
    DeductedNone(nets, pockets);
    while keys != {}
      invariant keys + done == pockets.Keys && keys !! done
      invariant weekTotals == Deducted(nets, pockets, done)
      decreases |keys|
    {
      var userId :| userId in keys;
      weekTotals := DeductOne(weekTotals, nets, pockets, done, userId);
      MoveKey(keys, done, pockets.Keys, userId);
      keys := keys - {userId};
      done := done + {userId};
    }
    assert done == pockets.Keys;
  }

  /** Moving one key from the keys still to visit to the keys visited. */
  lemma MoveKey(keys: set<Id>, done: set<Id>, all: set<Id>, u: Id)
    requires keys + done == all && keys !! done && u in keys
    ensures (keys - {u}) + (done + {u}) == all && (keys - {u}) !! (done + {u})
    ensures |keys - {u}| < |keys|
  {
  }

  /** `weekNetByUser` as `calculateWeekProfits` leaves it. */
  function WeekProfits(bills: seq<Bill>, rows: seq<PocketExpense>, d: PageData, w: Week): map<Id, real> {
    Deducted(WeekNets(bills, d, w), PocketTotals(rows, w), PocketTotals(rows, w).Keys)
  }

  /**
   * `calculateWeekProfits`: the week is `getPeriodStarts`' business week;
   * the per-bill costs, then the nets of the counted bills, then the
   * counted pocket expenses per user, then each user's pocket total taken
   * off their net.
   */
  method CalculateWeekProfits(now: int, z: Zone, bills: seq<Bill>, pocketExpenses: seq<PocketExpense>, d: PageData)
    returns (weekNetByUser: map<Id, real>, weekPocketByUser: map<Id, real>)
    ensures var w := Week(WeekStart(now, z), WeekEnd(now, z));
            && weekPocketByUser == PocketTotals(pocketExpenses, w)
            && weekNetByUser == WeekProfits(bills, pocketExpenses, d, w)
  {
    var startOfWeek, endOfWeek := GetWeekBounds(now, z);
    var w := Week(startOfWeek, endOfWeek);
    var costPerBill := CostPerBill(d.billLines, d.itemCosts);
    var weekTotals := SumBillNets(costPerBill, bills, d, w);
    var pocketTotals := SumPockets(pocketExpenses, w);
    weekTotals := DeductPockets(weekTotals, pocketTotals);
    weekPocketByUser := pocketTotals;
    weekNetByUser := weekTotals;
  }

  /**
   * The result has a key exactly for the users with a counted bill or a
   * counted expense, and holds for each their share of the week's profit
   * less the sum of their expenses in the week.
   */
  lemma WeekProfitsMeaning(bills: seq<Bill>, rows: seq<PocketExpense>, d: PageData, w: Week, u: Id)
    ensures u in WeekProfits(bills, rows, d, w) <==> u in BillUsers(bills, w) || u in PocketUsers(rows, w)
    ensures u in WeekProfits(bills, rows, d, w) ==> WeekProfits(bills, rows, d, w)[u] == WeekNetOf(bills, d, w, u) - PocketOf(rows, w, u)
  {
    if u !in BillUsers(bills, w) {
      WeekNetOfNonCreator(bills, d, w, u);
    }
    if u !in PocketUsers(rows, w) {
      PocketOfNonUser(rows, w, u);
    }
  }

  /** A user with counted expenses of positive sum and no counted bill ends the week below 0. */
  lemma ExpensesWithoutBillsGoNegative(bills: seq<Bill>, rows: seq<PocketExpense>, d: PageData, w: Week, u: Id)
    requires u !in BillUsers(bills, w) && u in PocketUsers(rows, w)
    requires PocketOf(rows, w, u) > 0.0
    ensures u in WeekProfits(bills, rows, d, w) && WeekProfits(bills, rows, d, w)[u] < 0.0
  {
    WeekProfitsMeaning(bills, rows, d, w, u);
    WeekNetOfNonCreator(bills, d, w, u);
  }

  /** A bill without a creator, or dated outside the week, changes no user's net. */
  lemma UncountedBillChangesNothing(bills: seq<Bill>, b: Bill, d: PageData, w: Week)
    requires !Present(b.createdBy) || (b.createdAt.Some? && (b.createdAt.value < w.start || b.createdAt.value > w.end))
    ensures WeekNets(bills + [b], d, w) == WeekNets(bills, d, w)
  {
    WeekNetsStep(bills, b, d, w);
  }

  /** An expense without a user, or dated outside the week, changes no user's pocket total. */
  lemma UncountedRowChangesNothing(rows: seq<PocketExpense>, row: PocketExpense, w: Week)
    requires !Present(row.userId) || (row.createdAt.Some? && (row.createdAt.value < w.start || row.createdAt.value > w.end))
    ensures PocketTotals(rows + [row], w) == PocketTotals(rows, w)
  {
    PocketTotalsStep(rows, row, w);
  }

  /**
   * The share used for a bill: a stored positive share as it is; otherwise
   * 100 when `roleByUserId` says its creator is an admin, and the
   * configured share to the hundredth when it says anything else or nothing.
   */
  lemma CreatorShareRule(b: Bill, d: PageData)
    ensures b.sharePct.Some? && b.sharePct.value > 0.0
            ==> SharePct(b.sharePct, CreatorRole(b, d), d.cashierSharePct) == b.sharePct.value
    ensures !(b.sharePct.Some? && b.sharePct.value > 0.0) && b.createdBy.Some?
            && b.createdBy.value in d.roleByUserId && d.roleByUserId[b.createdBy.value] == Some(AdminRole)
            ==> SharePct(b.sharePct, CreatorRole(b, d), d.cashierSharePct) == 100.0
    ensures !(b.sharePct.Some? && b.sharePct.value > 0.0)
            && (b.createdBy.None? || b.createdBy.value !in d.roleByUserId)
            ==> SharePct(b.sharePct, CreatorRole(b, d), d.cashierSharePct) == Round2(Num(d.cashierSharePct))
  {
    SharePctRule(b.sharePct, CreatorRole(b, d), d.cashierSharePct);
    Round2Properties(100.0, 10000);
  }

  // ---------------------------------------------------------------------------
  // addPocketExpense

  /** The pocket-expense form: the chosen user ("" for none), the typed amount, the reason and the note. */
  datatype PocketForm = PocketForm(userId: Id, amount: Option<real>, reason: string, note: string)

  /** The form as the page starts and as a successful save leaves it. */
  const DefaultForm: PocketForm := PocketForm("", None, DefaultReason, "")

  /** What `addPocketExpense` inserts. */
  datatype PocketPayload = PocketPayload(userId: Id, amount: real, reason: string, note: Option<string>)

  /** The computed `selectedWeekProfit`. */
  function SelectedWeekProfit(form: PocketForm, weekNetByUser: map<Id, real>): real {
    if form.userId == "" then 0.0 else OrZero(weekNetByUser, form.userId)
  }

  /** The computed `isAdminTarget`. */
  predicate IsAdminTarget(form: PocketForm, roleByUserId: map<Id, Option<string>>) {
    form.userId != "" && RoleOf(roleByUserId, form.userId) == Some(AdminRole)
  }

  /** The computed `exceedsWeekProfit`. */
  predicate ExceedsWeekProfit(form: PocketForm, weekNetByUser: map<Id, real>) {
    form.userId != "" && Num(form.amount) > SelectedWeekProfit(form, weekNetByUser)
  }

  /** The checks of `addPocketExpense` and the row it builds when they pass. */
  function CheckPocketExpense(form: PocketForm, weekNetByUser: map<Id, real>, roleByUserId: map<Id, Option<string>>)
    : Result<PocketPayload, string>
  {
    if form.userId == "" then Failure(NoUserMessage)
    else
      var amount := Num(form.amount);
      if amount <= 0.0 then Failure(BadAmountMessage)
      else if ExceedsWeekProfit(form, weekNetByUser) && !IsAdminTarget(form, roleByUserId) then Failure(OverdraftMessage)
      else
        var reason := if ExceedsWeekProfit(form, weekNetByUser) && IsAdminTarget(form, roleByUserId) then ForcedReason else form.reason;
        Success(PocketPayload(form.userId, amount, reason, if form.note == "" then None else Some(form.note)))
  }

  /**
   * An expense is refused, with the first failing check's message, when no
   * user is chosen, when the amount is not a positive number, or when it is
   * more than the user's week net and the user is not an admin. Otherwise
   * the row holds the user, the amount and the note (`null` when empty),
   * and the reason is forced to a fixed text exactly when an admin's
   * expense is more than their week net.
   */
  lemma CheckPocketExpenseRules(form: PocketForm, weekNetByUser: map<Id, real>, roleByUserId: map<Id, Option<string>>)
    ensures var r := CheckPocketExpense(form, weekNetByUser, roleByUserId);
            var amount, profit := Num(form.amount), OrZero(weekNetByUser, form.userId);
            var admin := RoleOf(roleByUserId, form.userId) == Some(AdminRole);
            && (form.userId == "" ==> r == Failure(NoUserMessage))
            && (form.userId != "" && amount <= 0.0 ==> r == Failure(BadAmountMessage))
            && (form.userId != "" && amount > 0.0 && amount > profit && !admin ==> r == Failure(OverdraftMessage))
            && (r.Success? <==> form.userId != "" && amount > 0.0 && (amount <= profit || admin))
            && (r.Success? ==>
                  && r.value.userId == form.userId && r.value.amount == amount > 0.0
                  && r.value.reason == (if amount > profit then ForcedReason else form.reason)
                  && (r.value.note.None? <==> form.note == "")
                  && (r.value.note.Some? ==> r.value.note.value == form.note))
  {
  }

  /** The state `addPocketExpense` works on. */
  class PocketExpensePage {
    var pocketForm: PocketForm
    var pocketError: string
    var pocketSaving: bool

    /** The page's initial form, with no error. */
    constructor ()
      ensures pocketForm == DefaultForm && pocketError == "" && !pocketSaving
    {
      pocketForm := DefaultForm;
      pocketError := "";
      pocketSaving := false;
    }

    /**
     * `addPocketExpense`, with `insertFails` standing for the insert's
     * answer. A refused expense sends nothing and only sets the error; a
     * sent one clears the saving flag and either records the save error or
     * clears the error and resets the form.
     */
    method AddPocketExpense(weekNetByUser: map<Id, real>, roleByUserId: map<Id, Option<string>>, insertFails: bool)
      returns (sent: Option<PocketPayload>)
      modifies this
      ensures match CheckPocketExpense(old(pocketForm), weekNetByUser, roleByUserId)
              case Failure(message) =>
                sent == None && pocketError == message && pocketForm == old(pocketForm) && pocketSaving == old(pocketSaving)
              case Success(payload) =>
                && sent == Some(payload) && !pocketSaving
                && (insertFails ==> pocketError == SaveFailedMessage && pocketForm == old(pocketForm))
                && (!insertFails ==> pocketError == "" && pocketForm == DefaultForm)
    {
      if pocketForm.userId == "" {
        pocketError := NoUserMessage;
        return None;
      }
      var amount := Num(pocketForm.amount);
      if amount <= 0.0 {
        pocketError := BadAmountMessage;
        return None;
      }
      var exceeds := ExceedsWeekProfit(pocketForm, weekNetByUser);
      var admin := IsAdminTarget(pocketForm, roleByUserId);
      if exceeds && !admin {
        pocketError := OverdraftMessage;
        return None;
      }
      var reason := if exceeds && admin then ForcedReason else pocketForm.reason;
      pocketError := "";
      pocketSaving := true;
      var payload := PocketPayload(pocketForm.userId, amount, reason, if pocketForm.note == "" then None else Some(pocketForm.note));
      sent := Some(payload);
      pocketSaving := false;
      if insertFails {
        pocketError := SaveFailedMessage;
        return;
      }
      pocketForm := DefaultForm;
    }
  }
}
