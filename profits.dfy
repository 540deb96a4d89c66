/**
 * The cashier-profits page: the bills of the business week, the bill lines
 * grouped by bill, and the per-cashier statistics of `calculateStats`
 * (gross and net since the start of today, of the week and of the month).
 */
module CashierProfits {
  import opened Wrappers
  import opened Folds
  import opened Records

  // ---------------------------------------------------------------------------
  // weekBills

  /** The bills the `weekBills` filter keeps: created within the week, both ends included. */
  function InWeek(startOfWeek: int, endOfWeek: int): Bill -> bool {
    (b: Bill) => Within(b.createdAt, startOfWeek, endOfWeek)
  }

  /** The computed `weekBills`. */
  function WeekBills(bills: seq<Bill>, startOfWeek: int, endOfWeek: int): (r: seq<Bill>)
    ensures forall b :: b in r <==> b in bills && b.createdAt.Some? && startOfWeek <= b.createdAt.value <= endOfWeek
    ensures |r| <= |bills|
  {
    Filter(bills, InWeek(startOfWeek, endOfWeek))
  }

  // ---------------------------------------------------------------------------
  // billLinesByBillId

  /** The lines of bill `billId`. */
  function OfBill(billId: Id): BillLine -> bool {
    (line: BillLine) => line.billId == billId
  }

  /** Some line belongs to bill `billId`. */
  predicate HasLines(lines: seq<BillLine>, billId: Id) {
    exists line :: line in lines && line.billId == billId
  }

  /** The bills some line belongs to. */
  function LineBillIds(lines: seq<BillLine>): set<Id> {
    set line | line in lines :: line.billId
  }

  /** The map `billLinesByBillId` ends as: each bill with lines, mapped to its lines in order. */
  function Grouped(lines: seq<BillLine>): map<Id, seq<BillLine>> {
    map billId | billId in LineBillIds(lines) :: Filter(lines, OfBill(billId))
  }

  /**
   * `billLinesByBillId` has a key exactly for the bills that have lines,
   * and each key holds exactly that bill's lines, in their original order.
   */
  lemma GroupedMeaning(lines: seq<BillLine>)
    ensures forall billId :: billId in Grouped(lines) <==> HasLines(lines, billId)
    ensures forall billId :: billId in Grouped(lines) ==> Grouped(lines)[billId] == Filter(lines, OfBill(billId))
    ensures forall billId :: billId in Grouped(lines) ==> Grouped(lines)[billId] != []
  {
    forall billId | billId in Grouped(lines)
      ensures Grouped(lines)[billId] != []
    {
      HasLinesFiltered(lines, billId);
    }
  }

  /** What one line does to the map: appends it to its bill's list, starting the list when the bill has none. */
  function WithLine(byBill: map<Id, seq<BillLine>>, line: BillLine): map<Id, seq<BillLine>> {
    var group := if line.billId in byBill then byBill[line.billId] else [];
    byBill[line.billId := group + [line]]
  }

  /** One more line is appended to its own bill's list and changes no other. */
  lemma GroupedStep(lines: seq<BillLine>, line: BillLine)
    ensures Grouped(lines + [line]) == WithLine(Grouped(lines), line)
  {
    var before, after := Grouped(lines), Grouped(lines + [line]);
    var target := WithLine(before, line);
    assert LineBillIds(lines + [line]) == LineBillIds(lines) + {line.billId} by {
      assert forall x :: x in lines + [line] <==> x in lines || x == line;
    }
    assert after.Keys == target.Keys;
    forall billId | billId in after
      ensures after[billId] == target[billId]
    {
      FilterSnoc(lines, line, OfBill(billId));
      if billId == line.billId && billId !in before {
        FilterNone(lines, OfBill(billId));
      }
    }
  }

  /** The body of the `forEach` for one line. */
  method AddToGroup(byBill: map<Id, seq<BillLine>>, line: BillLine) returns (r: map<Id, seq<BillLine>>)
    ensures r == WithLine(byBill, line)
  {
    r := byBill;
    if line.billId !in r {
      r := r[line.billId := []];
    }
    r := r[line.billId := r[line.billId] + [line]];
  }

  /** The computed `billLinesByBillId`. */
  method BillLinesByBillId(lines: seq<BillLine>) returns (byBill: map<Id, seq<BillLine>>)
    ensures byBill == Grouped(lines)
  {
    byBill := map[];
    var i := 0;
    while i < |lines|
      invariant 0 <= i <= |lines|
      invariant byBill == Grouped(lines[..i])
    {
      var line := lines[i];
      assert Grouped(lines[..i + 1]) == WithLine(byBill, line) by {
        assert lines[..i + 1] == lines[..i] + [line];
        GroupedStep(lines[..i], line);
      }
      byBill := AddToGroup(byBill, line);
      i := i + 1;
    }
    assert lines[..i] == lines;
  }

  /** A bill has lines exactly when filtering for it keeps some. */
  lemma HasLinesFiltered(lines: seq<BillLine>, billId: Id)
    ensures Filter(lines, OfBill(billId)) != [] <==> HasLines(lines, billId)
  {
    var r := Filter(lines, OfBill(billId));
    if r != [] {
      assert r[0] in r;
    }
    if HasLines(lines, billId) {
      var line :| line in lines && line.billId == billId;
      assert line in r;
    }
  }

  // ---------------------------------------------------------------------------
  // calculateStats

  /** A `profiles` row listed as a cashier. */
  datatype Cashier = Cashier(id: Id, fullName: Option<string>, username: Option<string>)

  /** One entry of `stats`. */
  datatype CashierStats = CashierStats(
    id: Id,
    name: Option<string>,
    todayGross: real,
    todayNet: real,
    weekGross: real,
    weekNet: real,
    monthGross: real,
    monthNet: real)

  /** The lower bounds of the three windows; none has an upper bound. */
  datatype Windows = Windows(startOfToday: int, startOfWeek: int, startOfMonth: int)

  /** `bill.created_by || bill.profiles?.id`. */
  function Owner(b: Bill): Option<Id> {
    OrElse(b.createdBy, ProfileId(b))
  }

  /** The bill counts for cashier `id`: its owner is present and is `id`. */
  predicate OwnedBy(b: Bill, id: Id) {
    Present(Owner(b)) && Owner(b).value == id
  }

  /** Some cashier in the list has id `id`. */
  predicate Listed(cashiers: seq<Cashier>, id: Id) {
    exists c :: c in cashiers && c.id == id
  }

  /** The cashier ids in order of first appearance: the keys of `new Map(cashiers.map(...))`. */
  function ListedIds(cashiers: seq<Cashier>): (ids: seq<Id>)
    ensures forall id :: id in ids <==> Listed(cashiers, id)
    ensures forall k :: 0 <= k < |ids| ==> Listed(cashiers, ids[k])
    ensures forall j, k :: 0 <= j < k < |ids| ==> ids[j] != ids[k]
    decreases |cashiers|
  {
    if |cashiers| == 0 then []
    else
      var prefix := ListedIds(cashiers[..|cashiers| - 1]);
      var c := cashiers[|cashiers| - 1];
      assert forall x :: x in cashiers[..|cashiers| - 1] ==> x in cashiers;
      if c.id in prefix then prefix else prefix + [c.id]
  }

  /** The last listed cashier with id `id`: the one whose entry the map keeps. */
  function LastWith(cashiers: seq<Cashier>, id: Id): (c: Cashier)
    requires Listed(cashiers, id)
    ensures c in cashiers && c.id == id
    decreases |cashiers|
  {
    var last := cashiers[|cashiers| - 1];
    if last.id == id then last
    else
      assert Listed(cashiers[..|cashiers| - 1], id) by {
        var c :| c in cashiers && c.id == id;
        var k :| 0 <= k < |cashiers| && cashiers[k] == c;
        assert cashiers[..|cashiers| - 1][k] == c;
      }
      LastWith(cashiers[..|cashiers| - 1], id)
  }

  /** What bill `b` adds to cashier `id`'s gross since `start`. */
  function GrossTerm(id: Id, start: int): Bill -> real {
    (b: Bill) => if OwnedBy(b, id) && AtOrAfter(b.createdAt, start) then Num(b.total) else 0.0
  }

  /** What bill `b` adds to cashier `id`'s net since `start`: its total less its cost. */
  function NetTerm(lines: seq<BillLine>, catalog: map<Id, real>, id: Id, start: int): Bill -> real {
    (b: Bill) => if OwnedBy(b, id) && AtOrAfter(b.createdAt, start) then Num(b.total) - BillCost(lines, catalog, b.id) else 0.0
  }

  /** What bill `b` adds to cashier `id`'s cost since `start`. */
  function CostTermOf(lines: seq<BillLine>, catalog: map<Id, real>, id: Id, start: int): Bill -> real {
    (b: Bill) => if OwnedBy(b, id) && AtOrAfter(b.createdAt, start) then BillCost(lines, catalog, b.id) else 0.0
  }

  /** The entry of cashier `c` once `bills` have been visited. */
  function EntryOf(c: Cashier, bills: seq<Bill>, lines: seq<BillLine>, catalog: map<Id, real>, w: Windows): CashierStats {
    CashierStats(
      c.id,
      OrElse(c.fullName, c.username),
      SumOf(bills, GrossTerm(c.id, w.startOfToday)),
      SumOf(bills, NetTerm(lines, catalog, c.id, w.startOfToday)),
      SumOf(bills, GrossTerm(c.id, w.startOfWeek)),
      SumOf(bills, NetTerm(lines, catalog, c.id, w.startOfWeek)),
      SumOf(bills, GrossTerm(c.id, w.startOfMonth)),
      SumOf(bills, NetTerm(lines, catalog, c.id, w.startOfMonth)))
  }

  /** A fresh entry: the cashier's id and name, every window at 0. */
  function Fresh(c: Cashier): CashierStats {
    CashierStats(c.id, OrElse(c.fullName, c.username), 0.0, 0.0, 0.0, 0.0, 0.0, 0.0)
  }

  /** Adding a bill's `gross` and `net` to every window of `e` whose start the bill's date reaches. */
  function Credit(e: CashierStats, createdAt: Option<int>, gross: real, net: real, w: Windows): CashierStats {
    var today := if AtOrAfter(createdAt, w.startOfToday) then gross else 0.0;
    var todayNet := if AtOrAfter(createdAt, w.startOfToday) then net else 0.0;
    var week := if AtOrAfter(createdAt, w.startOfWeek) then gross else 0.0;
    var weekNet := if AtOrAfter(createdAt, w.startOfWeek) then net else 0.0;
    var month := if AtOrAfter(createdAt, w.startOfMonth) then gross else 0.0;
    var monthNet := if AtOrAfter(createdAt, w.startOfMonth) then net else 0.0;
    e.(todayGross := e.todayGross + today, todayNet := e.todayNet + todayNet,
       weekGross := e.weekGross + week, weekNet := e.weekNet + weekNet,
       monthGross := e.monthGross + month, monthNet := e.monthNet + monthNet)
  }

  /** Crediting bill `b`: its total as gross, its total less its cost as net. */
  function CreditBill(e: CashierStats, b: Bill, lines: seq<BillLine>, catalog: map<Id, real>, w: Windows): CashierStats {
    Credit(e, b.createdAt, Num(b.total), Num(b.total) - BillCost(lines, catalog, b.id), w)
  }

  /** Before any bill, a cashier's entry is fresh. */
  lemma EntryOfNoBills(c: Cashier, lines: seq<BillLine>, catalog: map<Id, real>, w: Windows)
    ensures EntryOf(c, [], lines, catalog, w) == Fresh(c)
  {
  }

  /** One more bill credits a cashier's entry when it is theirs, and leaves it as it was otherwise. */
  lemma EntryStep(c: Cashier, bills: seq<Bill>, b: Bill, lines: seq<BillLine>, catalog: map<Id, real>, w: Windows)
    ensures EntryOf(c, bills + [b], lines, catalog, w)
            == if OwnedBy(b, c.id)
               then CreditBill(EntryOf(c, bills, lines, catalog, w), b, lines, catalog, w)
               else EntryOf(c, bills, lines, catalog, w)
  {
    SumOfSnoc(bills, b, GrossTerm(c.id, w.startOfToday));
    SumOfSnoc(bills, b, NetTerm(lines, catalog, c.id, w.startOfToday));
    SumOfSnoc(bills, b, GrossTerm(c.id, w.startOfWeek));
    SumOfSnoc(bills, b, NetTerm(lines, catalog, c.id, w.startOfWeek));
    SumOfSnoc(bills, b, GrossTerm(c.id, w.startOfMonth));
    SumOfSnoc(bills, b, NetTerm(lines, catalog, c.id, w.startOfMonth));
  }

  /** The entries once the cashier list alone has been visited. */
  function Seeded(cashiers: seq<Cashier>): map<Id, CashierStats> {
    map id | id in ListedIds(cashiers) :: Fresh(LastWith(cashiers, id))
  }

  /** The entries once the cashier list and `bills` have been visited. */
  function Entries(cashiers: seq<Cashier>, bills: seq<Bill>, lines: seq<BillLine>, catalog: map<Id, real>, w: Windows): map<Id, CashierStats> {
    map id | id in ListedIds(cashiers) :: EntryOf(LastWith(cashiers, id), bills, lines, catalog, w)
  }

  /** Listing one more cashier adds its id if new, and its fresh entry replaces any earlier one. */
  lemma SeedStep(cashiers: seq<Cashier>, c: Cashier)
    ensures ListedIds(cashiers + [c]) == if c.id in ListedIds(cashiers) then ListedIds(cashiers) else ListedIds(cashiers) + [c.id]
    ensures Seeded(cashiers + [c]) == Seeded(cashiers)[c.id := Fresh(c)]
  {
    assert (cashiers + [c])[..|cashiers|] == cashiers;
    var before, after := Seeded(cashiers), Seeded(cashiers + [c]);
    var target := before[c.id := Fresh(c)];
    assert after.Keys == target.Keys;
    forall id | id in after
      ensures after[id] == target[id]
    {
      if id != c.id {
        assert LastWith(cashiers + [c], id) == LastWith(cashiers, id);
      }
    }
  }

  /** With no bills, every entry is fresh. */
  lemma EntriesNoBills(cashiers: seq<Cashier>, lines: seq<BillLine>, catalog: map<Id, real>, w: Windows)
    ensures Entries(cashiers, [], lines, catalog, w) == Seeded(cashiers)
  {
    forall id | id in ListedIds(cashiers)
      ensures Entries(cashiers, [], lines, catalog, w)[id] == Seeded(cashiers)[id]
    {
      EntryOfNoBills(LastWith(cashiers, id), lines, catalog, w);
    }
  }

  /** What visiting bill `b` does to the entries: credit its owner's entry when the owner is listed. */
  function ApplyBill(m: map<Id, CashierStats>, b: Bill, lines: seq<BillLine>, catalog: map<Id, real>, w: Windows): map<Id, CashierStats> {
    var owner := Owner(b);
    if Present(owner) && owner.value in m
    then m[owner.value := CreditBill(m[owner.value], b, lines, catalog, w)]
    else m
  }

  /** One more bill credits its owner's entry when the owner is listed, and changes nothing otherwise. */
  lemma EntriesStep(cashiers: seq<Cashier>, bills: seq<Bill>, b: Bill, lines: seq<BillLine>, catalog: map<Id, real>, w: Windows)
    ensures Entries(cashiers, bills + [b], lines, catalog, w) == ApplyBill(Entries(cashiers, bills, lines, catalog, w), b, lines, catalog, w)
  {
    var before, after := Entries(cashiers, bills, lines, catalog, w), Entries(cashiers, bills + [b], lines, catalog, w);
    var target := ApplyBill(before, b, lines, catalog, w);
    assert after.Keys == target.Keys;
    forall id | id in after
      ensures after[id] == target[id]
    {
      EntriesStepAt(cashiers, bills, b, lines, catalog, w, id);
    }
  }

  lemma EntriesStepAt(cashiers: seq<Cashier>, bills: seq<Bill>, b: Bill, lines: seq<BillLine>, catalog: map<Id, real>, w: Windows, id: Id)
    requires id in ListedIds(cashiers)
    ensures Entries(cashiers, bills + [b], lines, catalog, w)[id]
            == ApplyBill(Entries(cashiers, bills, lines, catalog, w), b, lines, catalog, w)[id]
  {
    var before := Entries(cashiers, bills, lines, catalog, w);
    EntryStep(LastWith(cashiers, id), bills, b, lines, catalog, w);
    if OwnedBy(b, id) {
      assert ApplyBill(before, b, lines, catalog, w)[id] == CreditBill(before[id], b, lines, catalog, w);
    } else {
      assert ApplyBill(before, b, lines, catalog, w)[id] == before[id];
    }
  }

  /** The three window updates of one bill. */
  method AddToWindows(entry: CashierStats, billDate: Option<int>, gross: real, net: real, w: Windows) returns (r: CashierStats)
    ensures r == Credit(entry, billDate, gross, net, w)
  {
    r := entry;
    if AtOrAfter(billDate, w.startOfToday) {
      r := r.(todayGross := r.todayGross + gross, todayNet := r.todayNet + net);
    }
    if AtOrAfter(billDate, w.startOfWeek) {
      r := r.(weekGross := r.weekGross + gross, weekNet := r.weekNet + net);
    }
    if AtOrAfter(billDate, w.startOfMonth) {
      r := r.(monthGross := r.monthGross + gross, monthNet := r.monthNet + net);
    }
  }

  /** The body of the bill loop: credit the bill's owner, when listed, with its total and its total less `cost`. */
  method VisitBill(statsMap: map<Id, CashierStats>, bill: Bill, cost: real, ghost lines: seq<BillLine>, ghost catalog: map<Id, real>, w: Windows)
    returns (r: map<Id, CashierStats>)
    requires cost == BillCost(lines, catalog, bill.id)
    ensures r == ApplyBill(statsMap, bill, lines, catalog, w)
  {
    r := statsMap;
    var profileId := Owner(bill);
    if Present(profileId) && profileId.value in r {
      var billDate := bill.createdAt;
      var gross := Num(bill.total);
      var net := gross - cost;
      var entry := r[profileId.value];
      entry := AddToWindows(entry, billDate, gross, net, w);
      r := r[profileId.value := entry];
    }
  }

  /** One turn of the bill loop: the entries after bills `..j` become the entries after bills `..j + 1`. */
  method VisitNextBill(statsMap: map<Id, CashierStats>, costPerBill: map<Id, real>, ghost cashiers: seq<Cashier>, bills: seq<Bill>, j: int,
                       ghost lines: seq<BillLine>, ghost catalog: map<Id, real>, w: Windows)
    returns (r: map<Id, CashierStats>)
    requires 0 <= j < |bills|
    requires costPerBill == Costs(lines, catalog)
    requires statsMap == Entries(cashiers, bills[..j], lines, catalog, w)
    ensures r == Entries(cashiers, bills[..j + 1], lines, catalog, w)
  {
    var bill := bills[j];
    assert bills[..j + 1] == bills[..j] + [bill];
    EntriesStep(cashiers, bills[..j], bill, lines, catalog, w);
    CostOfCosts(lines, catalog, bill.id);
    r := VisitBill(statsMap, bill, OrZero(costPerBill, bill.id), lines, catalog, w);
  }

  /** The `bills.forEach` of `calculateStats`, from the fresh entries to the entries once every bill is visited. */
  method CreditBills(seeded: map<Id, CashierStats>, costPerBill: map<Id, real>, ghost cashiers: seq<Cashier>, bills: seq<Bill>,
                     ghost lines: seq<BillLine>, ghost catalog: map<Id, real>, w: Windows)
    returns (statsMap: map<Id, CashierStats>)
    requires seeded == Seeded(cashiers)
    requires costPerBill == Costs(lines, catalog)
    ensures statsMap == Entries(cashiers, bills, lines, catalog, w)
  {
    statsMap := seeded;
    EntriesNoBills(cashiers, lines, catalog, w);
    var j := 0;
    while j < |bills|
      invariant 0 <= j <= |bills|
      invariant statsMap == Entries(cashiers, bills[..j], lines, catalog, w)
    {
      statsMap := VisitNextBill(statsMap, costPerBill, cashiers, bills, j, lines, catalog, w);
      j := j + 1;
    }
    assert bills[..j] == bills;
  }

  /**
   * `calculateStats`: one entry per listed cashier id, in order of first
   * appearance, named after the last cashier listed with that id; each
   * window sums the totals, and the totals less the bill costs, of that
   * cashier's bills created at or after the window's start.
   */
  method CalculateStats(cashiers: seq<Cashier>, bills: seq<Bill>, lines: seq<BillLine>, catalog: map<Id, real>, w: Windows)
    returns (stats: seq<CashierStats>)
    ensures |stats| == |ListedIds(cashiers)|
    ensures forall k :: 0 <= k < |stats| ==>
              stats[k] == EntryOf(LastWith(cashiers, ListedIds(cashiers)[k]), bills, lines, catalog, w)
  {
    var costPerBill := CostPerBill(lines, catalog);

    var order := ListedIds(cashiers);
    var statsMap := Seeded(cashiers);
    statsMap := CreditBills(statsMap, costPerBill, cashiers, bills, lines, catalog, w);

    stats := seq(|order|, k requires 0 <= k < |order| => statsMap[order[k]]);
  }

  /** Each window's net is its gross less the cost of the same bills. */
  lemma NetIsGrossMinusCost(bills: seq<Bill>, lines: seq<BillLine>, catalog: map<Id, real>, id: Id, start: int)
    ensures SumOf(bills, NetTerm(lines, catalog, id, start))
            == SumOf(bills, GrossTerm(id, start)) - SumOf(bills, CostTermOf(lines, catalog, id, start))
  {
    SumOfSplit(bills, GrossTerm(id, start), NetTerm(lines, catalog, id, start), CostTermOf(lines, catalog, id, start));
  }

  /**
   * A bill with no owner, or whose owner is not a listed cashier, leaves
   * every entry as it was.
   */
  lemma UnlistedBillChangesNothing(cashiers: seq<Cashier>, bills: seq<Bill>, b: Bill, lines: seq<BillLine>, catalog: map<Id, real>, w: Windows)
    requires !Present(Owner(b)) || Owner(b).value !in ListedIds(cashiers)
    ensures forall id :: id in ListedIds(cashiers) ==>
              EntryOf(LastWith(cashiers, id), bills + [b], lines, catalog, w) == EntryOf(LastWith(cashiers, id), bills, lines, catalog, w)
  {
    forall id | id in ListedIds(cashiers)
      ensures EntryOf(LastWith(cashiers, id), bills + [b], lines, catalog, w) == EntryOf(LastWith(cashiers, id), bills, lines, catalog, w)
    {
      EntryStep(LastWith(cashiers, id), bills, b, lines, catalog, w);
    }
  }
}
