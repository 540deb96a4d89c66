/**
 * The records the pages fetch and the rules they share: the `Number(x) || 0`
 * reading of numeric columns, the per-bill cost fold over bill lines, the
 * share percentage of a bill, and the `sumTotals` helper.
 *
 * A numeric column is an `Option<real>`: `None` is a value that `Number`
 * turns into `NaN` (a missing or non-numeric column), which `|| 0` turns
 * into 0. A timestamp is an `Option<int>` of milliseconds: `None` is a
 * string `new Date` cannot parse, whose comparisons are all false.
 */
module Records {
  import opened Wrappers
  import opened Folds

  /** Row identifiers (uuids and keys), compared as strings. */
  type Id = string

  const AdminRole: string := "admin"
  const CashierRole: string := "cashier"

  /** `Number(x) || 0`. */
  function Num(x: Option<real>): real {
    x.GetOr(0.0)
  }

  /** A JavaScript number as `Number.isFinite` sees it. */
  datatype JsNumber = Finite(value: real) | NonFinite

  /** The truthiness of an id or role string: present and not empty. */
  predicate Present(s: Option<string>) {
    s.Some? && s.value != ""
  }

  /** `a || b` on optional strings. */
  function OrElse(a: Option<string>, b: Option<string>): Option<string> {
    if Present(a) then a else b
  }

  // ---------------------------------------------------------------------------
  // Records

  datatype LineType = Item | Service

  /** A saved `bill_lines` row. */
  datatype BillLine = BillLine(billId: Id, refId: Id, lineType: LineType, qty: Option<real>, costPrice: Option<real>)

  /** The joined `profiles` row of a bill. */
  datatype ProfileRef = ProfileRef(id: Option<Id>, role: Option<string>)

  /** A saved `bills` row. */
  datatype Bill = Bill(
    id: Id,
    total: Option<real>,
    sharePct: Option<real>,
    createdAt: Option<int>,
    createdBy: Option<Id>,
    profile: Option<ProfileRef>)

  /** A saved `pocket_expenses` row. */
  datatype PocketExpense = PocketExpense(userId: Option<Id>, amount: Option<real>, createdAt: Option<int>)

  /** `bill.profiles?.role`. */
  function ProfileRole(b: Bill): Option<string> {
    if b.profile.Some? then b.profile.value.role else None
  }

  /** `bill.profiles?.id`. */
  function ProfileId(b: Bill): Option<Id> {
    if b.profile.Some? then b.profile.value.id else None
  }

  // ---------------------------------------------------------------------------
  // Time windows, with an unparsable date failing every comparison

  /** `new Date(t) >= start`. */
  predicate AtOrAfter(t: Option<int>, start: int) {
    t.Some? && t.value >= start
  }

  /** `new Date(t) >= start && new Date(t) <= end`. */
  predicate Within(t: Option<int>, start: int, end: int) {
    t.Some? && start <= t.value <= end
  }

  /** `new Date(t) < start || new Date(t) > end`: the rejection test of the pocket-expense page. */
  predicate Outside(t: Option<int>, start: int, end: int) {
    t.Some? && (t.value < start || t.value > end)
  }

  /** Rejecting what lies outside keeps exactly what lies within, plus the unparsable dates. */
  lemma NotOutside(t: Option<int>, start: int, end: int)
    ensures !Outside(t, start, end) <==> Within(t, start, end) || t.None?
  {
  }

  // ---------------------------------------------------------------------------
  // The per-bill cost fold

  /** `itemCosts.get(id) || 0`: the catalog cost of an item. */
  function CatalogCost(catalog: map<Id, real>, refId: Id): real {
    if refId in catalog then catalog[refId] else 0.0
  }

  /** The unit cost of a line: its stored cost when that is nonzero, else the catalog cost. */
  function UnitCost(line: BillLine, catalog: map<Id, real>): real {
    var lineCost := Num(line.costPrice);
    if lineCost != 0.0 then lineCost else CatalogCost(catalog, line.refId)
  }

  /** Quantity times unit cost: what one item line costs. */
  function ItemCost(line: BillLine, catalog: map<Id, real>): real {
    UnitCost(line, catalog) * Num(line.qty)
  }

  /** What one line adds to the cost of bill `billId`: only item lines of that bill count. */
  function CostTerm(catalog: map<Id, real>, billId: Id): BillLine -> real {
    (line: BillLine) => if line.lineType == Item && line.billId == billId then ItemCost(line, catalog) else 0.0
  }

  /** The cost of bill `billId`, summed over the lines in order. */
  function BillCost(lines: seq<BillLine>, catalog: map<Id, real>, billId: Id): real {
    SumOf(lines, CostTerm(catalog, billId))
  }

  /** The item lines of bill `billId`. */
  function ItemLinesOf(billId: Id): BillLine -> bool {
    (line: BillLine) => line.lineType == Item && line.billId == billId
  }

  /** The cost of a line taken on its own, whatever its type. */
  function LineCost(catalog: map<Id, real>): BillLine -> real {
    (line: BillLine) => ItemCost(line, catalog)
  }

  /** `m.get(key) || 0` and `m[key] || 0`: the value under `key`, 0 when there is none. */
  function OrZero(m: map<Id, real>, key: Id): real {
    if key in m then m[key] else 0.0
  }

  /**
   * A bill's cost is the sum, over its item lines only, of quantity times
   * unit cost: service lines and other bills' lines add nothing.
   */
  lemma BillCostOverItemLines(lines: seq<BillLine>, catalog: map<Id, real>, billId: Id)
    ensures BillCost(lines, catalog, billId) == SumOf(Filter(lines, ItemLinesOf(billId)), LineCost(catalog))
  {
    SumOfFilter(lines, ItemLinesOf(billId), LineCost(catalog), CostTerm(catalog, billId));
  }

  /** One more line changes the cost of its own bill by its own cost, if it is an item line, and of no other bill. */
  lemma BillCostStep(lines: seq<BillLine>, line: BillLine, catalog: map<Id, real>, billId: Id)
    ensures BillCost(lines + [line], catalog, billId)
            == BillCost(lines, catalog, billId)
               + (if line.lineType == Item && line.billId == billId then ItemCost(line, catalog) else 0.0)
  {
    SumOfSnoc(lines, line, CostTerm(catalog, billId));
  }

  /** The bills with at least one item line. */
  function ItemBillIds(lines: seq<BillLine>): set<Id> {
    set line | line in lines && line.lineType == Item :: line.billId
  }

  /** The map `costPerBill` ends as: each bill with an item line, mapped to its cost. */
  function Costs(lines: seq<BillLine>, catalog: map<Id, real>): map<Id, real> {
    map billId | billId in ItemBillIds(lines) :: BillCost(lines, catalog, billId)
  }

  /** The cost map's entry for one bill, read through `get(id) || 0`, is that bill's cost. */
  lemma CostOfCosts(lines: seq<BillLine>, catalog: map<Id, real>, billId: Id)
    ensures OrZero(Costs(lines, catalog), billId) == BillCost(lines, catalog, billId)
  {
    if billId !in Costs(lines, catalog) {
      SumOfZero(lines, CostTerm(catalog, billId));
    }
  }

  /**
   * `costPerBill` has a key exactly for the bills with an item line, and
   * through `get(id) || 0` it reads every bill's cost, 0 for a bill without
   * item lines.
   */
  lemma CostsMeaning(lines: seq<BillLine>, catalog: map<Id, real>)
    ensures forall billId :: billId in Costs(lines, catalog) <==> exists line :: line in lines && line.lineType == Item && line.billId == billId
    ensures forall billId :: OrZero(Costs(lines, catalog), billId) == BillCost(lines, catalog, billId)
  {
    forall billId | billId !in Costs(lines, catalog)
      ensures BillCost(lines, catalog, billId) == 0.0
    {
      SumOfZero(lines, CostTerm(catalog, billId));
    }
  }

  /** What one line does to the cost map: adds its cost to its bill's entry when it is an item line. */
  function WithLineCost(costs: map<Id, real>, line: BillLine, catalog: map<Id, real>): map<Id, real> {
    if line.lineType == Item
    then costs[line.billId := OrZero(costs, line.billId) + ItemCost(line, catalog)]
    else costs
  }

  /** One more line adds its cost to its bill's entry when it is an item line, and changes nothing else. */
  lemma CostsStep(lines: seq<BillLine>, line: BillLine, catalog: map<Id, real>)
    ensures Costs(lines + [line], catalog)
            == WithLineCost(Costs(lines, catalog), line, catalog)
  {
    var before, after := Costs(lines, catalog), Costs(lines + [line], catalog);
    var target := WithLineCost(before, line, catalog);
    assert ItemBillIds(lines + [line]) == ItemBillIds(lines) + (if line.lineType == Item then {line.billId} else {}) by {
      assert forall x :: x in lines + [line] <==> x in lines || x == line;
    }
    assert after.Keys == target.Keys;
    forall billId | billId in after
      ensures after[billId] == target[billId]
    {
      CostOfCosts(lines, catalog, billId);
      BillCostStep(lines, line, catalog, billId);
    }
  }

  /** The body of the `costPerBill` loop for one line. */
  method AddLineCost(costs: map<Id, real>, line: BillLine, catalog: map<Id, real>) returns (r: map<Id, real>)
    ensures r == WithLineCost(costs, line, catalog)
  {
    r := costs;
    if line.lineType != Item {
      return;
    }
    var qty := Num(line.qty);
    var lineCost := Num(line.costPrice);
    var fallbackCost := CatalogCost(catalog, line.refId);
    var cost := (if lineCost != 0.0 then lineCost else fallbackCost) * qty;
    assert cost == ItemCost(line, catalog);
    r := r[line.billId := OrZero(r, line.billId) + cost];
  }

  /**
   * The `costPerBill` loop: for every bill, the map reads (through
   * `get(id) || 0`) the bill's cost, and it has a key exactly for the bills
   * with an item line.
   */
  method CostPerBill(lines: seq<BillLine>, catalog: map<Id, real>) returns (costs: map<Id, real>)
    ensures costs == Costs(lines, catalog)
  {
    costs := map[];
    var i := 0;
    while i < |lines|
      invariant 0 <= i <= |lines|
      invariant costs == Costs(lines[..i], catalog)
    {
      var line := lines[i];
      assert Costs(lines[..i + 1], catalog) == WithLineCost(costs, line, catalog) by {
        assert lines[..i + 1] == lines[..i] + [line];
        CostsStep(lines[..i], line, catalog);
      }
      costs := AddLineCost(costs, line, catalog);
      i := i + 1;
    }
    assert lines[..i] == lines;
  }

  // ---------------------------------------------------------------------------
  // The share percentage of a bill

  /** `Math.round(x * 100) / 100`, with `Math.round(y)` as `floor(y + 0.5)`, in exact arithmetic. */
  function Round2(x: real): real {
    (x * 100.0 + 0.5).Floor as real / 100.0
  }

  /** Rounding moves a value by at most half a hundredth and leaves hundredths unchanged. */
  lemma Round2Properties(x: real, k: int)
    ensures x - 0.005 < Round2(x) <= x + 0.005
    ensures Round2(k as real / 100.0) == k as real / 100.0
  {
    var y := k as real / 100.0;
    assert y * 100.0 + 0.5 == k as real + 0.5;
    assert (y * 100.0 + 0.5).Floor == k;
  }

  /** Rounding twice rounds once. */
  lemma Round2Idempotent(x: real)
    ensures Round2(Round2(x)) == Round2(x)
  {
    Round2Properties(x, (x * 100.0 + 0.5).Floor);
  }

  /** Rounding keeps a value inside [0, 100]. */
  lemma Round2Bounds(x: real)
    requires 0.0 <= x <= 100.0
    ensures 0.0 <= Round2(x) <= 100.0
  {
    var n := (x * 100.0 + 0.5).Floor;
    assert 0 <= n <= 10000 by {
      assert n as real <= x * 100.0 + 0.5 < n as real + 1.0;
    }
  }

  /**
   * `getBillSharePct` given the role the page picks: a stored finite
   * positive share as it is; otherwise 100 for an admin and the configured
   * share (`Number(x) || 0`) for anyone else, rounded to hundredths.
   */
  function SharePct(stored: Option<real>, role: Option<string>, configured: Option<real>): real {
    if stored.Some? && stored.value > 0.0 then stored.value
    else
      var fallback := if role == Some(AdminRole) then 100.0 else Num(configured);
      Round2(fallback)
  }

  /**
   * The share rule case by case: a stored positive share wins; without
   * one, an admin's bill is 100% and anyone else's is the configured
   * share to the hundredth.
   */
  lemma SharePctRule(stored: Option<real>, role: Option<string>, configured: Option<real>)
    ensures stored.Some? && stored.value > 0.0 ==> SharePct(stored, role, configured) == stored.value
    ensures !(stored.Some? && stored.value > 0.0) && role == Some(AdminRole) ==> SharePct(stored, role, configured) == 100.0
    ensures !(stored.Some? && stored.value > 0.0) && role != Some(AdminRole)
            ==> Num(configured) - 0.005 < SharePct(stored, role, configured) <= Num(configured) + 0.005
  {
    Round2Properties(100.0, 10000);
    Round2Properties(Num(configured), 0);
  }

  /** With a stored share of at most 100 (or none) and a configured share in [0, 100], the share is a percentage. */
  lemma SharePctBounds(stored: Option<real>, role: Option<string>, configured: Option<real>)
    requires stored.Some? ==> stored.value <= 100.0
    requires 0.0 <= Num(configured) <= 100.0
    ensures 0.0 <= SharePct(stored, role, configured) <= 100.0
  {
    Round2Bounds(100.0);
    Round2Bounds(Num(configured));
  }

  // ---------------------------------------------------------------------------
  // getBillSharePct of the dashboard and the reports page

  /** `getBillSharePct` of the dashboard and of the reports page: the role is taken from the bill's joined profile only. */
  function JoinedProfileSharePct(b: Bill, cashierSharePct: Option<real>): real {
    SharePct(b.sharePct, ProfileRole(b), cashierSharePct)
  }

  /**
   * A stored positive share wins; otherwise a bill whose joined profile is
   * an admin's is 100%, and any other bill, one without a profile
   * included, gets the configured share to the hundredth.
   */
  lemma JoinedProfileSharePctRule(b: Bill, cashierSharePct: Option<real>)
    ensures b.sharePct.Some? && b.sharePct.value > 0.0 ==> JoinedProfileSharePct(b, cashierSharePct) == b.sharePct.value
    ensures !(b.sharePct.Some? && b.sharePct.value > 0.0) && b.profile.Some? && b.profile.value.role == Some(AdminRole)
            ==> JoinedProfileSharePct(b, cashierSharePct) == 100.0
    ensures !(b.sharePct.Some? && b.sharePct.value > 0.0) && b.profile.None?
            ==> JoinedProfileSharePct(b, cashierSharePct) == Round2(Num(cashierSharePct))
  {
    SharePctRule(b.sharePct, ProfileRole(b), cashierSharePct);
    Round2Properties(100.0, 10000);
  }

  /** A bill's share of its profit: `(total - cost) * pct / 100`. */
  function ShareNet(b: Bill, cost: real, pct: real): real {
    (Num(b.total) - cost) * pct / 100.0
  }

  // ---------------------------------------------------------------------------
  // utils.js

  /** The `Number(item.total) || 0` of one bill. */
  function TotalOf(b: Bill): real {
    Num(b.total)
  }

  /** `sumTotals(list)`. */
  function SumTotals(bills: seq<Bill>): real {
    SumOf(bills, TotalOf)
  }

  /** `sumTotals` of no bills is 0, bills without a numeric total add 0, and it is additive over concatenation. */
  lemma SumTotalsProperties(a: seq<Bill>, b: seq<Bill>)
    ensures SumTotals([]) == 0.0
    ensures (forall x :: x in b ==> x.total.None?) ==> SumTotals(a + b) == SumTotals(a)
    ensures SumTotals(a + b) == SumTotals(a) + SumTotals(b)
  {
    SumOfAppend(a, b, TotalOf);
    if forall x :: x in b ==> x.total.None? {
      SumOfZero(b, TotalOf);
    }
  }

  /** The `Number(row.amount) || 0` of one pocket expense. */
  function AmountOf(row: PocketExpense): real {
    Num(row.amount)
  }

  /** `list.reduce((total, row) => total + (Number(row.amount) || 0), 0)`. */
  function PocketSum(rows: seq<PocketExpense>): real {
    SumOf(rows, AmountOf)
  }

  /** `formatMoney`'s coercion: a value that is not a finite number is shown as 0. */
  function SafeMoney(value: JsNumber): (r: real)
    ensures value.Finite? ==> r == value.value
    ensures value.NonFinite? ==> r == 0.0
  {
    if value.Finite? then value.value else 0.0
  }
}
