/**
 * The cashier page: the bill being edited (`billLines`, `discount`,
 * `error`, `saving`) and its editing operations, the computed subtotal,
 * discount and total, the checks and payloads of `completeBill`, the
 * page's share rule and the folds of `loadWeekStats`.
 */
module CashierPage {
  import opened Wrappers
  import opened Folds
  import opened Records

  const OutOfStockMessage: string := "المنتج غير متوفر حاليا."
  const StockCapMessage: string := "لا يمكن تجاوز كمية المخزون."
  const EmptyBillMessage: string := "اضف صنفا او خدمة واحدة على الاقل."
  const ShortStockMessage: string := "المخزون غير كاف لبعض الاصناف."
  const BillSaveFailedMessage: string := "تعذر حفظ الفاتورة."
  const LinesSaveFailedMessage: string := "تم حفظ الفاتورة لكن تفاصيلها لم تحفظ."
  const StockUpdateFailedMessage: string := "تم حفظ الفاتورة لكن تحديث المخزون فشل."

  /**
   * An item or service offered to the editor. `stockQty` is
   * `Number(record.stock_qty)`, `None` when that is NaN; `costPrice` is
   * the raw `cost_price`, `None` when absent.
   */
  datatype CatalogRecord = CatalogRecord(id: Id, name: string, price: real, costPrice: Option<real>, stockQty: Option<real>)

  /** One entry of `billLines`. */
  datatype EditorLine = EditorLine(
    lineType: LineType,
    refId: Id,
    name: string,
    qty: real,
    unitPrice: real,
    costPrice: Option<real>,
    total: real)

  // ---------------------------------------------------------------------------
  // The lines of the bill

  /** What `find` matches a line on: its type and its `ref_id`. */
  function Key(line: EditorLine): (LineType, Id) {
    (line.lineType, line.refId)
  }

  /** The line is for the record `refId` of type `lineType`. */
  predicate SameKey(line: EditorLine, lineType: LineType, refId: Id) {
    Key(line) == (lineType, refId)
  }

  /** A positive quantity, and a total of quantity times unit price. */
  predicate WellFormed(line: EditorLine) {
    line.qty > 0.0 && line.total == line.qty * line.unitPrice
  }

  /** The lines the editor keeps: one per (type, ref_id), each well formed. */
  predicate ValidLines(lines: seq<EditorLine>) {
    && (forall i, j :: 0 <= i < j < |lines| ==> Key(lines[i]) != Key(lines[j]))
    && (forall i :: 0 <= i < |lines| ==> WellFormed(lines[i]))
  }

  /** `billLines.find(...)`, as a position: the first line for that record. */
  function FindLine(lines: seq<EditorLine>, lineType: LineType, refId: Id): (r: Option<nat>)
    ensures r.Some? ==> r.value < |lines| && SameKey(lines[r.value], lineType, refId)
    ensures r.Some? ==> forall j :: 0 <= j < r.value ==> !SameKey(lines[j], lineType, refId)
    ensures r.None? ==> forall j :: 0 <= j < |lines| ==> !SameKey(lines[j], lineType, refId)
    decreases |lines|
  {
    if |lines| == 0 then None
    else if SameKey(lines[0], lineType, refId) then Some(0)
    else match FindLine(lines[1..], lineType, refId)
      case None => None
      case Some(k) => Some(k + 1)
  }

  /** The units of record `refId` on the bill: the sum of the quantities of its lines. */
  function QtyOf(lines: seq<EditorLine>, lineType: LineType, refId: Id): real {
    SumOf(lines, QtyTerm(lineType, refId))
  }

  function QtyTerm(lineType: LineType, refId: Id): EditorLine -> real {
    (line: EditorLine) => if SameKey(line, lineType, refId) then line.qty else 0.0
  }

  /** The line a first `addLine` of the record appends. */
  function NewLine(lineType: LineType, record: CatalogRecord): EditorLine {
    EditorLine(lineType, record.id, record.name, 1.0, record.price, if lineType == Item then record.costPrice else Some(0.0), record.price)
  }

  /** The line one more unit turns `line` into. */
  function Bumped(line: EditorLine): EditorLine {
    line.(qty := line.qty + 1.0, total := (line.qty + 1.0) * line.unitPrice)
  }

  /**
   * `addLine(type, record)`: the new lines, or the error it reports with
   * the lines left as they were.
   */
  function AddLineResult(lines: seq<EditorLine>, lineType: LineType, record: CatalogRecord): Result<seq<EditorLine>, string> {
    if lineType == Item && record.stockQty.Some? && record.stockQty.value <= 0.0 then Failure(OutOfStockMessage)
    else match FindLine(lines, lineType, record.id)
      case Some(k) =>
        if lineType == Item && lines[k].qty + 1.0 > Num(record.stockQty) then Failure(StockCapMessage)
        else Success(lines[k := Bumped(lines[k])])
      case None => Success(lines + [NewLine(lineType, record)])
  }

  /** Some line of the bill is for record `refId` of type `lineType`. */
  predicate OnBill(lines: seq<EditorLine>, lineType: LineType, refId: Id) {
    exists k :: 0 <= k < |lines| && SameKey(lines[k], lineType, refId)
  }

  /**
   * On valid lines, `addLine` refuses exactly an item whose stock is a
   * number at most 0 (out of stock), and an item already on the bill
   * whose units would pass its stock, a stock that is not a number
   * counting as 0 (stock cap). Services are never refused.
   */
  lemma AddLineRefusals(lines: seq<EditorLine>, lineType: LineType, record: CatalogRecord)
    requires ValidLines(lines)
    ensures AddLineResult(lines, lineType, record) == Failure(OutOfStockMessage)
            <==> lineType == Item && record.stockQty.Some? && record.stockQty.value <= 0.0
    ensures AddLineResult(lines, lineType, record) == Failure(StockCapMessage)
            <==> && lineType == Item && !(record.stockQty.Some? && record.stockQty.value <= 0.0)
                 && OnBill(lines, Item, record.id) && QtyOf(lines, Item, record.id) + 1.0 > Num(record.stockQty)
    ensures AddLineResult(lines, lineType, record).Failure? ==> lineType == Item
  {
    assert OutOfStockMessage != StockCapMessage by {
      assert OutOfStockMessage[0] != StockCapMessage[0];
    }
    var found := FindLine(lines, lineType, record.id);
    if found.Some? {
      QtyOfUniqueLine(lines, found.value);
    }
  }

  /**
   * A successful `addLine` adds exactly one unit of the record and leaves
   * every other record's units as they were.
   */
  lemma AddLineAddsOneUnit(lines: seq<EditorLine>, lineType: LineType, record: CatalogRecord, otherType: LineType, otherId: Id)
    requires AddLineResult(lines, lineType, record).Success?
    ensures var r := AddLineResult(lines, lineType, record).value;
            && QtyOf(r, lineType, record.id) == QtyOf(lines, lineType, record.id) + 1.0
            && (otherType != lineType || otherId != record.id ==> QtyOf(r, otherType, otherId) == QtyOf(lines, otherType, otherId))
  {
    var r := AddLineResult(lines, lineType, record).value;
    match FindLine(lines, lineType, record.id)
    case Some(k) =>
      SumOfUpdate(lines, k, Bumped(lines[k]), QtyTerm(lineType, record.id));
      SumOfUpdate(lines, k, Bumped(lines[k]), QtyTerm(otherType, otherId));
    case None =>
      SumOfSnoc(lines, NewLine(lineType, record), QtyTerm(lineType, record.id));
      SumOfSnoc(lines, NewLine(lineType, record), QtyTerm(otherType, otherId));
  }

  /** A successful `addLine` either bumps the record's one line in place or appends it at the end. */
  lemma AddLineShape(lines: seq<EditorLine>, lineType: LineType, record: CatalogRecord)
    requires AddLineResult(lines, lineType, record).Success?
    ensures var r := AddLineResult(lines, lineType, record).value;
            || (exists k :: 0 <= k < |lines| && SameKey(lines[k], lineType, record.id) && r == lines[k := Bumped(lines[k])])
            || ((forall k :: 0 <= k < |lines| ==> !SameKey(lines[k], lineType, record.id)) && r == lines + [NewLine(lineType, record)])
  {
    var found := FindLine(lines, lineType, record.id);
    if found.Some? {
      var k := found.value;
      assert SameKey(lines[k], lineType, record.id);
    }
  }

  /** A successful `addLine` keeps the lines one per record, positive and correctly totalled. */
  lemma AddLineKeepsValid(lines: seq<EditorLine>, lineType: LineType, record: CatalogRecord)
    requires ValidLines(lines)
    requires AddLineResult(lines, lineType, record).Success?
    ensures ValidLines(AddLineResult(lines, lineType, record).value)
  {
    var r := AddLineResult(lines, lineType, record).value;
    match FindLine(lines, lineType, record.id)
    case Some(k) =>
      assert r == lines[k := Bumped(lines[k])];
      assert forall i :: 0 <= i < |r| ==> Key(r[i]) == Key(lines[i]);
      assert WellFormed(Bumped(lines[k]));
    case None =>
      assert r == lines + [NewLine(lineType, record)];
      assert forall i :: 0 <= i < |lines| ==> Key(r[i]) != (lineType, record.id);
      assert WellFormed(NewLine(lineType, record));
  }

  /** On a bill of valid lines, the record's units are the quantity of its one line. */
  lemma QtyOfUniqueLine(lines: seq<EditorLine>, k: int)
    requires ValidLines(lines)
    requires 0 <= k < |lines|
    ensures QtyOf(lines, lines[k].lineType, lines[k].refId) == lines[k].qty
  {
    var t, id := lines[k].lineType, lines[k].refId;
    var zeroed := lines[k := lines[k].(qty := 0.0)];
    SumOfUpdate(lines, k, zeroed[k], QtyTerm(t, id));
    assert forall x :: x in zeroed ==> QtyTerm(t, id)(x) == 0.0 by {
      forall x | x in zeroed
        ensures QtyTerm(t, id)(x) == 0.0
      {
        var i :| 0 <= i < |zeroed| && zeroed[i] == x;
        if i != k {
          assert !SameKey(lines[i], t, id) by {
            if i < k {
              assert Key(lines[i]) != Key(lines[k]);
            }
          }
        }
      }
    }
    SumOfZero(zeroed, QtyTerm(t, id));
  }

  /** `Number(line.qty) || 1`, then 1 again for a non-positive value: the quantity `updateQty` keeps. */
  function SafeQty(typed: Option<real>): (q: real)
    ensures q > 0.0
    ensures typed.Some? && typed.value > 0.0 ==> q == typed.value
    ensures !(typed.Some? && typed.value > 0.0) ==> q == 1.0
  {
    var safeQty := if typed.Some? && typed.value != 0.0 then typed.value else 1.0;
    if safeQty <= 0.0 then 1.0 else safeQty
  }

  /** The lines after `updateQty` of line `i` with `typed` in its quantity field. */
  function WithQty(lines: seq<EditorLine>, i: int, typed: Option<real>): seq<EditorLine>
    requires 0 <= i < |lines|
  {
    var q := SafeQty(typed);
    lines[i := lines[i].(qty := q, total := q * lines[i].unitPrice)]
  }

  /** `updateQty` keeps the lines valid and changes nothing but the quantity and total of its line. */
  lemma UpdateQtyKeepsValid(lines: seq<EditorLine>, i: int, typed: Option<real>)
    requires ValidLines(lines)
    requires 0 <= i < |lines|
    ensures ValidLines(WithQty(lines, i, typed))
    ensures |WithQty(lines, i, typed)| == |lines|
    ensures forall k :: 0 <= k < |lines| ==> Key(WithQty(lines, i, typed)[k]) == Key(lines[k])
  {
    var r := WithQty(lines, i, typed);
    assert forall k :: 0 <= k < |r| ==> Key(r[k]) == Key(lines[k]);
    assert WellFormed(r[i]);
  }

  /** The start position of `splice(index, 1)`: a negative index counts from the end. */
  function SpliceStart(n: nat, index: int): (s: nat)
    ensures s <= n
    ensures 0 <= index < n ==> s == index
    ensures -(n as int) <= index < 0 ==> s as int == n as int + index
  {
    if index < 0 then (if n + index < 0 then 0 else n + index)
    else if index > n then n else index
  }

  /** The lines after `removeLine(index)`. */
  function RemovedAt(lines: seq<EditorLine>, index: int): seq<EditorLine> {
    var s := SpliceStart(|lines|, index);
    if s < |lines| then lines[..s] + lines[s + 1..] else lines
  }

  /**
   * `removeLine(index)` for an index in range deletes exactly that line
   * and keeps the others in order; an index at or past the end changes
   * nothing.
   */
  lemma RemoveLineExact(lines: seq<EditorLine>, index: int)
    ensures 0 <= index < |lines| ==>
              var r := RemovedAt(lines, index);
              && |r| == |lines| - 1
              && (forall k :: 0 <= k < index ==> r[k] == lines[k])
              && (forall k :: index <= k < |r| ==> r[k] == lines[k + 1])
              && multiset(r) + multiset{lines[index]} == multiset(lines)
    ensures index >= |lines| ==> RemovedAt(lines, index) == lines
  {
    if 0 <= index < |lines| {
      assert lines == lines[..index] + [lines[index]] + lines[index + 1..];
    }
  }

  /** Removing a line keeps the lines valid. */
  lemma RemoveLineKeepsValid(lines: seq<EditorLine>, index: int)
    requires ValidLines(lines)
    ensures ValidLines(RemovedAt(lines, index))
  {
    var s := SpliceStart(|lines|, index);
    if s < |lines| {
      var r := RemovedAt(lines, index);
      assert |r| == |lines| - 1;
      assert forall k :: 0 <= k < s ==> r[k] == lines[k];
      assert forall k :: s <= k < |r| ==> r[k] == lines[k + 1];
      forall a, b | 0 <= a < b < |r|
        ensures Key(r[a]) != Key(r[b])
      {
        var a', b' := if a < s then a else a + 1, if b < s then b else b + 1;
        assert r[a] == lines[a'] && r[b] == lines[b'] && a' < b';
      }
      forall a | 0 <= a < |r|
        ensures WellFormed(r[a])
      {
        assert r[a] == lines[if a < s then a else a + 1];
      }
    }
  }

  // ---------------------------------------------------------------------------
  // Subtotal, discount, total

  function LineTotal(line: EditorLine): real {
    line.total
  }

  /** `billSubtotal`: the sum of the line totals. */
  function BillSubtotal(lines: seq<EditorLine>): real {
    SumOf(lines, LineTotal)
  }

  /** `discountValue`: the typed discount (`Number(x) || 0`) clamped into [0, subtotal]. */
  function DiscountValue(discount: Option<real>, subtotal: real): (d: real)
    ensures d >= 0.0
    ensures subtotal >= 0.0 ==> d <= subtotal
    ensures 0.0 <= Num(discount) <= subtotal ==> d == Num(discount)
  {
    var raw := Num(discount);
    var capped := if raw < subtotal then raw else subtotal;
    if 0.0 > capped then 0.0 else capped
  }

  /** `billTotal`. */
  function BillTotal(lines: seq<EditorLine>, discount: Option<real>): real {
    BillSubtotal(lines) - DiscountValue(discount, BillSubtotal(lines))
  }

  /** With a non-negative subtotal, the total lies in [0, subtotal]; a discount in range comes straight off. */
  lemma BillTotalBounds(lines: seq<EditorLine>, discount: Option<real>)
    requires BillSubtotal(lines) >= 0.0
    ensures 0.0 <= BillTotal(lines, discount) <= BillSubtotal(lines)
    ensures 0.0 <= Num(discount) <= BillSubtotal(lines) ==> BillTotal(lines, discount) == BillSubtotal(lines) - Num(discount)
  {
  }

  /** Valid lines at non-negative prices have a non-negative subtotal, so their total lies in [0, subtotal]. */
  lemma SubtotalNonNegative(lines: seq<EditorLine>, discount: Option<real>)
    requires ValidLines(lines)
    requires forall line :: line in lines ==> line.unitPrice >= 0.0
    ensures BillSubtotal(lines) >= 0.0
    ensures 0.0 <= BillTotal(lines, discount) <= BillSubtotal(lines)
  {
    forall line | line in lines
      ensures LineTotal(line) >= 0.0
    {
      var k :| 0 <= k < |lines| && lines[k] == line;
    }
    SumOfNonNegative(lines, LineTotal);
    BillTotalBounds(lines, discount);
  }

  // ---------------------------------------------------------------------------
  // completeBill

  /** `Number(stockMap.get(ref)) || 0`: fetched stock, with a missing or non-numeric one counting as 0. */
  function Available(stock: map<Id, Option<real>>, refId: Id): real {
    if refId in stock then Num(stock[refId]) else 0.0
  }

  /** The item line asks for more than the fetched stock. */
  predicate ShortLine(line: EditorLine, stock: map<Id, Option<real>>) {
    line.lineType == Item && Available(stock, line.refId) < line.qty
  }

  /** `itemLines.some(...)`: some item line asks for more than its fetched stock. */
  function ShortOfStock(lines: seq<EditorLine>, stock: map<Id, Option<real>>): (r: bool)
    ensures r <==> exists k :: 0 <= k < |lines| && ShortLine(lines[k], stock)
    decreases |lines|
  {
    if |lines| == 0 then false
    else
      var rest := ShortOfStock(lines[..|lines| - 1], stock);
      assert forall k :: 0 <= k < |lines| - 1 ==> lines[..|lines| - 1][k] == lines[k];
      rest || ShortLine(lines[|lines| - 1], stock)
  }

  function IsItemLine(line: EditorLine): bool {
    line.lineType == Item
  }

  /** The checks `completeBill` makes before inserting anything. */
  function PreSaveCheck(lines: seq<EditorLine>, stock: map<Id, Option<real>>): Outcome<string> {
    if |lines| == 0 then Fail(EmptyBillMessage)
    else if ShortOfStock(Filter(lines, IsItemLine), stock) then Fail(ShortStockMessage)
    else Pass
  }

  /**
   * A bill passes the checks exactly when it has a line and every item
   * line's quantity is covered by its fetched stock; service lines are
   * never checked.
   */
  lemma PreSaveCheckMeaning(lines: seq<EditorLine>, stock: map<Id, Option<real>>)
    ensures PreSaveCheck(lines, stock) == Pass
            <==> |lines| > 0 && forall k :: 0 <= k < |lines| && lines[k].lineType == Item ==> lines[k].qty <= Available(stock, lines[k].refId)
  {
    var items := Filter(lines, IsItemLine);
    if ShortOfStock(items, stock) {
      var k :| 0 <= k < |items| && ShortLine(items[k], stock);
      assert items[k] in items;
      var j :| 0 <= j < |lines| && lines[j] == items[k];
      assert lines[j].lineType == Item && lines[j].qty > Available(stock, lines[j].refId);
    } else {
      forall k | 0 <= k < |lines| && lines[k].lineType == Item
        ensures lines[k].qty <= Available(stock, lines[k].refId)
      {
        assert lines[k] in items;
        var j :| 0 <= j < |items| && items[j] == lines[k];
        assert !ShortLine(items[j], stock);
      }
    }
  }

  /** The `bills` row `completeBill` inserts. */
  datatype BillPayload = BillPayload(createdBy: Id, total: real, discount: real, sharePct: real)

  /** One `bill_lines` row `completeBill` inserts. */
  datatype LinePayload = LinePayload(
    billId: Id,
    lineType: LineType,
    refId: Id,
    name: string,
    qty: real,
    unitPrice: real,
    costPrice: real,
    total: real)

  /** The share saved on a new bill: 100 for an admin, the configured share otherwise. */
  function SavedShare(role: Option<string>, cashierSharePct: real): real {
    if role == Some(AdminRole) then 100.0 else cashierSharePct
  }

  /** A positive saved share is read back unchanged by every page's share rule. */
  lemma SavedShareReadsBack(role: Option<string>, cashierSharePct: real, anyRole: Option<string>, anyConfigured: Option<real>)
    requires role == Some(AdminRole) || cashierSharePct > 0.0
    ensures SharePct(Some(SavedShare(role, cashierSharePct)), anyRole, anyConfigured) == SavedShare(role, cashierSharePct)
  {
  }

  /** The saved cost of a line: `Number(cost_price) || 0` for an item, 0 for a service. */
  function SavedCost(line: EditorLine): real {
    if line.lineType == Item then Num(line.costPrice) else 0.0
  }

  function LinePayloadOf(billId: Id, line: EditorLine): LinePayload {
    LinePayload(billId, line.lineType, line.refId, line.name, line.qty, line.unitPrice, SavedCost(line), line.total)
  }

  /** `linesPayload`: one row per line, in order. */
  function LinesPayload(billId: Id, lines: seq<EditorLine>): (r: seq<LinePayload>)
    ensures |r| == |lines|
    ensures forall k :: 0 <= k < |lines| ==> r[k] == LinePayloadOf(billId, lines[k])
  {
    seq(|lines|, k requires 0 <= k < |lines| => LinePayloadOf(billId, lines[k]))
  }

  /** The saved row as the other pages read it back. */
  function AsBillLine(row: LinePayload): BillLine {
    BillLine(row.billId, row.refId, row.lineType, Some(row.qty), Some(row.costPrice))
  }

  /** The saved rows as the other pages read them back. */
  function SavedRows(billId: Id, lines: seq<EditorLine>): (r: seq<BillLine>)
    ensures |r| == |lines|
    ensures forall k :: 0 <= k < |lines| ==> r[k] == AsBillLine(LinePayloadOf(billId, lines[k]))
  {
    seq(|lines|, k requires 0 <= k < |lines| => AsBillLine(LinePayloadOf(billId, lines[k])))
  }

  /**
   * The saved lines, read back, cost the bill what its item lines cost:
   * the saved cost, or the catalog cost where that is 0, times the
   * quantity; the saved service lines cost nothing.
   */
  lemma SavedLinesCost(billId: Id, lines: seq<EditorLine>, catalog: map<Id, real>)
    ensures forall k :: 0 <= k < |lines| && lines[k].lineType == Service ==> LinesPayload(billId, lines)[k].costPrice == 0.0
    ensures BillCost(SavedRows(billId, lines), catalog, billId) == SumOf(lines, SavedLineCost(catalog))
  {
    SavedLinesCostInduction(billId, lines, catalog);
  }

  function SavedLineCost(catalog: map<Id, real>): EditorLine -> real {
    (line: EditorLine) =>
      if line.lineType == Item then (if SavedCost(line) != 0.0 then SavedCost(line) else CatalogCost(catalog, line.refId)) * line.qty else 0.0
  }

  lemma {:induction false} SavedLinesCostInduction(billId: Id, lines: seq<EditorLine>, catalog: map<Id, real>)
    ensures BillCost(SavedRows(billId, lines), catalog, billId) == SumOf(lines, SavedLineCost(catalog))
    decreases |lines|
  {
    if |lines| > 0 {
      var n := |lines| - 1;
      var front := lines[..n];
      var rows := SavedRows(billId, lines);
      assert rows[..n] == SavedRows(billId, front);
      SavedLinesCostInduction(billId, front, catalog);
      assert CostTerm(catalog, billId)(rows[n]) == SavedLineCost(catalog)(lines[n]);
    }
  }

  /** What `completeBill` sends once its checks pass. */
  datatype SaveRequest = SaveRequest(bill: BillPayload, lines: seq<LinePayload>)

  // ---------------------------------------------------------------------------
  // The editor

  class BillEditor {
    var billLines: seq<EditorLine>
    var discount: Option<real>
    var error: string
    var saving: bool

    ghost predicate Valid()
      reads this
    {
      ValidLines(billLines)
    }

    /** The page's initial state: no lines, discount 0, no error. */
    constructor ()
      ensures billLines == [] && discount == Some(0.0) && error == "" && !saving
      ensures Valid()
    {
      billLines := [];
      discount := Some(0.0);
      error := "";
      saving := false;
    }

    /** `addLine(type, record)`. A success leaves `error` as it was. */
    method AddLine(lineType: LineType, record: CatalogRecord)
      modifies this
      ensures match AddLineResult(old(billLines), lineType, record)
              case Success(lines) => billLines == lines && error == old(error)
              case Failure(message) => billLines == old(billLines) && error == message
      ensures discount == old(discount) && saving == old(saving)
      ensures old(Valid()) ==> Valid()
    {
      if lineType == Item && record.stockQty.Some? && record.stockQty.value <= 0.0 {
        error := OutOfStockMessage;
        return;
      }
      var existing := FindLine(billLines, lineType, record.id);
      if existing.Some? {
        var k := existing.value;
        if lineType == Item {
          var maxQty := Num(record.stockQty);
          if billLines[k].qty + 1.0 > maxQty {
            error := StockCapMessage;
            return;
          }
        }
        var line := billLines[k];
        line := line.(qty := line.qty + 1.0);
        line := line.(total := line.qty * line.unitPrice);
        assert line == Bumped(old(billLines)[k]);
        if old(Valid()) {
          AddLineKeepsValid(old(billLines), lineType, record);
        }
        billLines := billLines[k := line];
        return;
      }
      if old(Valid()) {
        AddLineKeepsValid(old(billLines), lineType, record);
      }
      billLines := billLines + [NewLine(lineType, record)];
    }

    /** `updateQty(line)` for the line at `i`, whose quantity field holds `typed` (`Number(line.qty)`). */
    method UpdateQty(i: int, typed: Option<real>)
      requires 0 <= i < |billLines|
      modifies this
      ensures billLines == WithQty(old(billLines), i, typed)
      ensures discount == old(discount) && error == old(error) && saving == old(saving)
      ensures old(Valid()) ==> Valid()
    {
      var safeQty := if typed.Some? && typed.value != 0.0 then typed.value else 1.0;
      var line := billLines[i];
      line := line.(qty := if safeQty <= 0.0 then 1.0 else safeQty);
      line := line.(total := line.qty * line.unitPrice);
      assert line == old(billLines)[i].(qty := SafeQty(typed), total := SafeQty(typed) * old(billLines)[i].unitPrice);
      if old(Valid()) {
        UpdateQtyKeepsValid(old(billLines), i, typed);
      }
      billLines := billLines[i := line];
    }

    /** `removeLine(index)`: `billLines.splice(index, 1)`. */
    method RemoveLine(index: int)
      modifies this
      ensures billLines == RemovedAt(old(billLines), index)
      ensures discount == old(discount) && error == old(error) && saving == old(saving)
      ensures old(Valid()) ==> Valid()
    {
      if old(Valid()) {
        RemoveLineKeepsValid(billLines, index);
      }
      var start := SpliceStart(|billLines|, index);
      if start < |billLines| {
        billLines := billLines[..start] + billLines[start + 1..];
      }
    }

    /**
     * `completeBill` up to the inserts: the checks, then the bill and line
     * rows for a bill that passes them. `stock` is the fetched stock of the
     * item lines and `newBillId` the id the bill insert returns.
     */
    method CompleteBill(stock: map<Id, Option<real>>, profileId: Id, role: Option<string>, cashierSharePct: real, newBillId: Id)
      returns (request: Option<SaveRequest>)
      modifies this
      ensures billLines == old(billLines) && discount == old(discount)
      ensures match PreSaveCheck(old(billLines), stock)
              case Fail(message) =>
                && request == None && error == message
                && saving == (if old(billLines) == [] then old(saving) else false)
              case Pass =>
                && error == "" && saving
                && request == Some(SaveRequest(
                     BillPayload(profileId, BillTotal(billLines, discount), DiscountValue(discount, BillSubtotal(billLines)), SavedShare(role, cashierSharePct)),
                     LinesPayload(newBillId, billLines)))
    {
      if |billLines| == 0 {
        error := EmptyBillMessage;
        return None;
      }
      error := "";
      saving := true;
      var itemLines := Filter(billLines, IsItemLine);
      if |itemLines| > 0 {
        var insufficient := ShortOfStock(itemLines, stock);
        if insufficient {
          error := ShortStockMessage;
          saving := false;
          return None;
        }
      }
      var subtotal := BillSubtotal(billLines);
      var discountValue := DiscountValue(discount, subtotal);
      var bill := BillPayload(profileId, subtotal - discountValue, discountValue, SavedShare(role, cashierSharePct));
      request := Some(SaveRequest(bill, LinesPayload(newBillId, billLines)));
    }

    /**
     * The rest of `completeBill` once the request is sent. `billFails`,
     * `linesFail` and `stockFails` are the answers of the bill insert, the
     * line insert and the stock updates. A failed insert keeps the bill on
     * the page; otherwise the page resets, after noting a failed stock update
     * when the bill has item lines.
     */
    method FinishSave(billFails: bool, linesFail: bool, stockFails: bool)
      modifies this
      ensures billFails ==> billLines == old(billLines) && discount == old(discount) && !saving && error == BillSaveFailedMessage
      ensures !billFails && linesFail ==> billLines == old(billLines) && discount == old(discount) && !saving && error == LinesSaveFailedMessage
      ensures !billFails && !linesFail ==>
                && billLines == [] && discount == Some(0.0) && !saving
                && error == (if stockFails && |Filter(old(billLines), IsItemLine)| > 0 then StockUpdateFailedMessage else old(error))
      ensures old(Valid()) ==> Valid()
    {
      if billFails {
        error := BillSaveFailedMessage;
        saving := false;
        return;
      }
      if linesFail {
        error := LinesSaveFailedMessage;
        saving := false;
        return;
      }
      var itemLines := Filter(billLines, IsItemLine);
      if |itemLines| > 0 && stockFails {
        error := StockUpdateFailedMessage;
      }
      ResetAfterSave();
    }

    /** The reset after a bill and its lines are saved. `error` keeps what the save left there. */
    method ResetAfterSave()
      modifies this
      ensures billLines == [] && discount == Some(0.0) && !saving && error == old(error)
      ensures Valid()
    {
      billLines := [];
      discount := Some(0.0);
      saving := false;
    }
  }

  // ---------------------------------------------------------------------------
  // getBillSharePct and loadWeekStats

  /** The cashier page's `getBillSharePct`: the role is the bill's profile role, else the signed-in profile's. */
  function CashierBillSharePct(b: Bill, profileRole: Option<string>, cashierSharePct: Option<real>): real {
    SharePct(b.sharePct, OrElse(ProfileRole(b), profileRole), cashierSharePct)
  }

  /** The label of the shares of the week's bills: one value, or the lowest and highest. */
  datatype ShareLabel = Single(pct: real) | Range(low: real, high: real)

  /** The folded values `loadWeekStats` stores. */
  datatype WeekStats = WeekStats(gross: real, pocket: real, net: real, netBase: real, shareLabel: Option<ShareLabel>)

  function MinOf(s: seq<real>): (m: real)
    requires |s| > 0
    ensures m in s && forall x :: x in s ==> m <= x
    decreases |s|
  {
    if |s| == 1 then s[0]
    else
      var rest := MinOf(s[..|s| - 1]);
      assert forall x :: x in s ==> x in s[..|s| - 1] || x == s[|s| - 1];
      if s[|s| - 1] < rest then s[|s| - 1] else rest
  }

  function MaxOf(s: seq<real>): (m: real)
    requires |s| > 0
    ensures m in s && forall x :: x in s ==> x <= m
    decreases |s|
  {
    if |s| == 1 then s[0]
    else
      var rest := MaxOf(s[..|s| - 1]);
      assert forall x :: x in s ==> x in s[..|s| - 1] || x == s[|s| - 1];
      if s[|s| - 1] > rest then s[|s| - 1] else rest
  }

  /** `weekBills.map(getBillSharePct)`. */
  function ShareValues(bills: seq<Bill>, profileRole: Option<string>, cashierSharePct: Option<real>): (r: seq<real>)
    ensures |r| == |bills|
    ensures forall k :: 0 <= k < |bills| ==> r[k] == CashierBillSharePct(bills[k], profileRole, cashierSharePct)
  {
    seq(|bills|, k requires 0 <= k < |bills| => CashierBillSharePct(bills[k], profileRole, cashierSharePct))
  }

  /** `shareMin === shareMax ? ... : ...`. */
  function LabelOf(values: seq<real>): ShareLabel
    requires |values| > 0
  {
    var low, high := MinOf(values), MaxOf(values);
    if low == high then Single(low) else Range(low, high)
  }

  /** A bill's total less its cost. */
  function BaseNetTerm(lines: seq<BillLine>, catalog: map<Id, real>): Bill -> real {
    (b: Bill) => Num(b.total) - BillCost(lines, catalog, b.id)
  }

  function SharePctTerm(profileRole: Option<string>, cashierSharePct: Option<real>): Bill -> real {
    (b: Bill) => CashierBillSharePct(b, profileRole, cashierSharePct)
  }

  /** A bill's share of its total less its cost. */
  function ShareNetTerm(lines: seq<BillLine>, catalog: map<Id, real>, profileRole: Option<string>, cashierSharePct: Option<real>): Bill -> real {
    Percent(BaseNetTerm(lines, catalog), SharePctTerm(profileRole, cashierSharePct))
  }

  function BillCostTerm(lines: seq<BillLine>, catalog: map<Id, real>): Bill -> real {
    (b: Bill) => BillCost(lines, catalog, b.id)
  }

  /**
   * The folds of `loadWeekStats` over the week's bills of the signed-in
   * cashier, their lines and their pocket expenses: the gross, the pocket
   * total, the week net (shares of total less cost, less the pocket
   * total), the base net and the share label.
   */
  method LoadWeekStats(weekBills: seq<Bill>, billLines: seq<BillLine>, catalog: map<Id, real>,
                       profileRole: Option<string>, cashierSharePct: Option<real>, pocketRows: seq<PocketExpense>)
    returns (stats: WeekStats)
    ensures stats.gross == SumTotals(weekBills)
    ensures stats.pocket == PocketSum(pocketRows)
    ensures stats.net == SumOf(weekBills, ShareNetTerm(billLines, catalog, profileRole, cashierSharePct)) - PocketSum(pocketRows)
    ensures stats.netBase == SumOf(weekBills, BaseNetTerm(billLines, catalog))
    ensures stats.shareLabel == if |weekBills| == 0 then None else Some(LabelOf(ShareValues(weekBills, profileRole, cashierSharePct)))
  {
    var costPerBill := CostPerBill(billLines, catalog);
    var gross := SumOf(weekBills, TotalOf);
    var shareNet := SumOf(weekBills, ShareNetWith(costPerBill, profileRole, cashierSharePct));
    var baseNetTotal := SumOf(weekBills, BaseNetWith(costPerBill));
    TermsFromCosts(weekBills, billLines, catalog, profileRole, cashierSharePct);
    var shareLabel := None;
    if |weekBills| > 0 {
      shareLabel := Some(LabelOf(ShareValues(weekBills, profileRole, cashierSharePct)));
    }
    var pocketTotal := PocketSum(pocketRows);
    stats := WeekStats(gross, pocketTotal, shareNet - pocketTotal, baseNetTotal, shareLabel);
  }

  /** A bill's total less the cost the cost map records for it. */
  function BaseNetWith(costs: map<Id, real>): Bill -> real {
    (b: Bill) => Num(b.total) - OrZero(costs, b.id)
  }

  /** A bill's share of its total less the cost the cost map records for it. */
  function ShareNetWith(costs: map<Id, real>, profileRole: Option<string>, cashierSharePct: Option<real>): Bill -> real {
    Percent(BaseNetWith(costs), SharePctTerm(profileRole, cashierSharePct))
  }

  /** Folding through the cost map gives the same sums as costing each bill from its lines. */
  lemma TermsFromCosts(weekBills: seq<Bill>, billLines: seq<BillLine>, catalog: map<Id, real>,
                       profileRole: Option<string>, cashierSharePct: Option<real>)
    ensures SumOf(weekBills, BaseNetWith(Costs(billLines, catalog))) == SumOf(weekBills, BaseNetTerm(billLines, catalog))
    ensures SumOf(weekBills, ShareNetWith(Costs(billLines, catalog), profileRole, cashierSharePct))
            == SumOf(weekBills, ShareNetTerm(billLines, catalog, profileRole, cashierSharePct))
  {
    var costs := Costs(billLines, catalog);
    forall b | b in weekBills
      ensures BaseNetWith(costs)(b) == BaseNetTerm(billLines, catalog)(b)
    {
      CostOfCosts(billLines, catalog, b.id);
    }
    SumOfCongruent(weekBills, BaseNetWith(costs), BaseNetTerm(billLines, catalog));
    SumOfCongruent(weekBills, ShareNetWith(costs, profileRole, cashierSharePct), ShareNetTerm(billLines, catalog, profileRole, cashierSharePct));
  }

  /** The base net is the gross less the cost of the same bills. */
  lemma NetBaseIsGrossMinusCost(weekBills: seq<Bill>, billLines: seq<BillLine>, catalog: map<Id, real>)
    ensures SumOf(weekBills, BaseNetTerm(billLines, catalog)) == SumTotals(weekBills) - SumOf(weekBills, BillCostTerm(billLines, catalog))
  {
    SumOfSplit(weekBills, TotalOf, BaseNetTerm(billLines, catalog), BillCostTerm(billLines, catalog));
  }

  /** When the label shows a single share, every bill of the week has that share. */
  lemma SingleShareMeansOneShare(weekBills: seq<Bill>, profileRole: Option<string>, cashierSharePct: Option<real>)
    requires |weekBills| > 0
    requires LabelOf(ShareValues(weekBills, profileRole, cashierSharePct)).Single?
    ensures forall b :: b in weekBills ==>
              CashierBillSharePct(b, profileRole, cashierSharePct) == LabelOf(ShareValues(weekBills, profileRole, cashierSharePct)).pct
  {
    var values := ShareValues(weekBills, profileRole, cashierSharePct);
    forall b | b in weekBills
      ensures CashierBillSharePct(b, profileRole, cashierSharePct) == MinOf(values)
    {
      var k :| 0 <= k < |weekBills| && weekBills[k] == b;
      assert values[k] in values;
    }
  }

  /**
   * When every bill of the week has the same share `p` (as when the label
   * shows a single share), the shares sum to `p`% of the base net.
   */
  lemma CommonShareWeekNet(weekBills: seq<Bill>, billLines: seq<BillLine>, catalog: map<Id, real>,
                           profileRole: Option<string>, cashierSharePct: Option<real>, p: real)
    requires forall b :: b in weekBills ==> CashierBillSharePct(b, profileRole, cashierSharePct) == p
    ensures SumOf(weekBills, ShareNetTerm(billLines, catalog, profileRole, cashierSharePct))
            == SumOf(weekBills, BaseNetTerm(billLines, catalog)) * p / 100.0
  {
    SumOfCommonPercent(weekBills, BaseNetTerm(billLines, catalog), SharePctTerm(profileRole, cashierSharePct), p);
  }
}
