/** The pharmacy reports screen: sales, GST, profit and inventory figures over
    the bills dated inside a window. The window's two ends are parameters (the
    screen derives them from the clock). */
module Reports {
  import opened Common
  import opened Records
  import opened StockWrites
  import opened CatalogViews

  // ------------------------------------------------------------ the window

  predicate InWindow(b: Bill, start: Date, end: Date) {
    start <= b.date <= end
  }

  /** `filteredBills` */
  function FilteredBills(bills: seq<Bill>, start: Date, end: Date): seq<Bill> {
    Filter(bills, (b: Bill) => InWindow(b, start, end))
  }

  /** The window keeps the bills dated inside it, in order, and no others. */
  lemma FilteredBillsSpec(bills: seq<Bill>, start: Date, end: Date)
    ensures IsSubsequence(FilteredBills(bills, start, end), bills)
    ensures forall b :: b in FilteredBills(bills, start, end) <==> b in bills && start <= b.date <= end
  {
    FilterIsSubsequence(bills, (b: Bill) => InWindow(b, start, end));
  }

  // ---------------------------------------------------------------- sales

  function TotalSales(bills: seq<Bill>): real {
    Sum(bills, BillAmount)
  }

  /** `totalItems`: Σ of the bills' line counts. */
  function TotalItems(bills: seq<Bill>): nat
    decreases |bills|
  {
    if bills == [] then 0 else TotalItems(bills[..|bills| - 1]) + |bills[|bills| - 1].items|
  }

  function AverageTransaction(bills: seq<Bill>): (r: real)
    ensures |bills| > 0 ==> r * (|bills| as real) == TotalSales(bills)
    ensures |bills| == 0 ==> r == 0.0
  {
    if |bills| > 0 then TotalSales(bills) / (|bills| as real) else 0.0
  }

  /** The line count of a bill list is the length of its lines laid end to end. */
  function AllLines(bills: seq<Bill>): seq<BillItem>
    decreases |bills|
  {
    if bills == [] then [] else AllLines(bills[..|bills| - 1]) + bills[|bills| - 1].items
  }

  lemma {:induction false} TotalItemsCountsLines(bills: seq<Bill>)
    ensures TotalItems(bills) == |AllLines(bills)|
    decreases |bills|
  {
    if bills != [] {
      TotalItemsCountsLines(bills[..|bills| - 1]);
    }
  }

  // ----------------------------------------------------------- dictionaries

  /** A `forEach` filling `d[key(x)] = (d[key(x)] || 0) + val(x)`. */
  method Tally<T, K(==)>(s: seq<T>, key: T -> K, val: T -> real) returns (d: map<K, real>)
    ensures forall k :: k in d <==> k in Keys(s, key)
    ensures forall k :: k in d ==> d[k] == GroupSum(s, key, val, k)
  {
    d := map[];
    var i := 0;
    while i < |s|
      invariant 0 <= i <= |s|
      invariant forall k :: k in d ==> k in Keys(s[..i], key)
      invariant forall k :: k in Keys(s[..i], key) ==> k in d
      invariant forall k :: k in d ==> d[k] == GroupSum(s[..i], key, val, k)
    {
      var x := s[i];
      PrefixSnoc(s, i);
      assert s[..i + 1][..i] == s[..i];
      if key(x) !in d {
        forall y | y in s[..i]
          ensures key(y) != key(x)
        {
          KeysMember(s[..i], key, y);
        }
        GroupSumAbsent(s[..i], key, val, key(x));
        d := d[key(x) := val(x)];
      } else {
        d := d[key(x) := d[key(x)] + val(x)];
      }
      i := i + 1;
    }
    assert s[..|s|] == s;
  }

  function BillMode(b: Bill): PaymentMode {
    b.paymentMode
  }

  function One<T>(x: T): real {
    1.0
  }

  lemma {:induction false} SumOfOnes<T>(s: seq<T>)
    ensures Sum(s, One) == |s| as real
    decreases |s|
  {
    if s != [] {
      SumOfOnes(s[..|s| - 1]);
    }
  }

  /** `dailySales`: one entry per bill date, holding that day's total. */
  method DailySales(bills: seq<Bill>) returns (d: map<Date, real>)
    ensures forall day :: day in d <==> exists b :: b in bills && b.date == day
    ensures forall day :: day in d ==> d[day] == GroupSum(bills, BillDate, BillAmount, day)
  {
    d := Tally(bills, BillDate, BillAmount);
    KeysSpec(bills, BillDate);
  }

  /** The daily totals, taken over the distinct bill dates, add up to the
      total sales. */
  lemma DailySalesAddUp(bills: seq<Bill>)
    ensures Distinct(Keys(bills, BillDate))
    ensures KeyedTotal(Keys(bills, BillDate), bills, BillDate, BillAmount) == TotalSales(bills)
  {
    KeysSpec(bills, BillDate);
    GroupSumsCoverSum(bills, BillDate, BillAmount);
  }

  /** `paymentModes`: the number of bills paid each way. */
  method PaymentModes(bills: seq<Bill>) returns (d: map<PaymentMode, real>)
    ensures forall m :: m in d <==> exists b :: b in bills && b.paymentMode == m
    ensures forall m :: m in d ==> d[m] == GroupSum(bills, BillMode, One, m)
  {
    d := Tally(bills, BillMode, One);
    KeysSpec(bills, BillMode);
  }

  /** The per-mode counts add up to the number of bills. */
  lemma PaymentModesAddUp(bills: seq<Bill>)
    ensures KeyedTotal(Keys(bills, BillMode), bills, BillMode, One) == |bills| as real
  {
    GroupSumsCoverSum(bills, BillMode, One);
    SumOfOnes(bills);
  }

  // ------------------------------------------------------------------ GST

  function BillGst(b: Bill): real {
    b.gstAmount
  }

  function BillTaxable(b: Bill): real {
    b.totalAmount - b.gstAmount
  }

  /** `taxableAmount` is the total sales less the GST collected. */
  lemma TaxableIsSalesLessGst(bills: seq<Bill>)
    ensures Sum(bills, BillTaxable) == TotalSales(bills) - Sum(bills, BillGst)
  {
    SumSplit(bills, BillAmount, BillTaxable, BillGst);
  }

  function LineRate(item: BillItem): real {
    item.gstRate
  }

  function LineTotal(item: BillItem): real {
    item.total
  }

  function LineGst(item: BillItem): real {
    item.total * item.gstRate / 100.0
  }

  datatype RateTotals = RateTotals(taxable: real, gst: real)

  /** The entry for one line's rate after adding the line. */
  function AddLine(d: map<real, RateTotals>, item: BillItem): map<real, RateTotals> {
    var t := if item.gstRate in d then d[item.gstRate] else RateTotals(0.0, 0.0);
    d[item.gstRate := RateTotals(t.taxable + LineTotal(item), t.gst + LineGst(item))]
  }

  /** What `gstByRate` holds after the lines `ls`. */
  ghost predicate RatesOf(d: map<real, RateTotals>, ls: seq<BillItem>) {
    && (forall r :: r in d <==> r in Keys(ls, LineRate))
    && (forall r :: r in d ==> d[r] == RateTotals(GroupSum(ls, LineRate, LineTotal, r), GroupSum(ls, LineRate, LineGst, r)))
  }

  lemma AddLineStep(d: map<real, RateTotals>, ls: seq<BillItem>, item: BillItem)
    requires RatesOf(d, ls)
    ensures RatesOf(AddLine(d, item), ls + [item])
  {
    var s := ls + [item];
    assert s[..|s| - 1] == ls;
    if item.gstRate !in d {
      KeysSpec(ls, LineRate);
      forall y | y in ls
        ensures LineRate(y) != item.gstRate
      {
        KeysMember(ls, LineRate, y);
      }
      GroupSumAbsent(ls, LineRate, LineTotal, item.gstRate);
      GroupSumAbsent(ls, LineRate, LineGst, item.gstRate);
    }
  }

  /** `gstByRate`: the nested `forEach` over the bills and their lines. */
  method GstByRate(bills: seq<Bill>) returns (d: map<real, RateTotals>)
    ensures RatesOf(d, AllLines(bills))
  {
    d := map[];
    var i := 0;
    while i < |bills|
      invariant 0 <= i <= |bills|
      invariant RatesOf(d, AllLines(bills[..i]))
    {
      var items := bills[i].items;
      var j := 0;
      assert AllLines(bills[..i]) + items[..0] == AllLines(bills[..i]);
      while j < |items|
        invariant 0 <= j <= |items|
        invariant RatesOf(d, AllLines(bills[..i]) + items[..j])
      {
        AddLineStep(d, AllLines(bills[..i]) + items[..j], items[j]);
        PrefixSnoc(items, j);
        ConcatAssoc(AllLines(bills[..i]), items[..j], [items[j]]);
        d := AddLine(d, items[j]);
        j := j + 1;
      }
      assert items[..j] == items;
      PrefixSnoc(bills, i);
      assert bills[..i + 1][..i] == bills[..i];
      i := i + 1;
    }
    assert bills[..|bills|] == bills;
  }

  /** The taxable amounts of all rates add up to Σ line totals: each line is
      counted under exactly one rate. */
  lemma RatesCoverAllLines(bills: seq<Bill>)
    ensures KeyedTotal(Keys(AllLines(bills), LineRate), AllLines(bills), LineRate, LineTotal)
         == Sum(AllLines(bills), LineTotal)
  {
    GroupSumsCoverSum(AllLines(bills), LineRate, LineTotal);
  }

  // --------------------------------------------------------------- profit

  /** Σ totals of the lines whose item is in the catalog. */
  function Revenue(ls: seq<BillItem>, ms: seq<CatalogItem>): real
    decreases |ls|
  {
    if ls == [] then 0.0
    else
      var item := ls[|ls| - 1];
      Revenue(ls[..|ls| - 1], ms) + (match Find(ms, item.productId) case Some(_) => item.total case None => 0.0)
  }

  /** Σ purchase price × quantity over the same lines. */
  function Cost(ls: seq<BillItem>, ms: seq<CatalogItem>): real
    decreases |ls|
  {
    if ls == [] then 0.0
    else
      var item := ls[|ls| - 1];
      Cost(ls[..|ls| - 1], ms) + (match Find(ms, item.productId) case Some(m) => m.purchasePrice * (item.quantity as real) case None => 0.0)
  }

  /** `profitMargin`: gross profit as a percentage of revenue, 0 without revenue. */
  function ProfitMargin(revenue: real, cost: real): (r: real)
    ensures revenue <= 0.0 ==> r == 0.0
    ensures revenue > 0.0 && cost >= 0.0 ==> r <= 100.0
    ensures revenue > 0.0 && cost <= revenue ==> r >= 0.0
  {
    if revenue > 0.0 then ((revenue - cost) / revenue) * 100.0 else 0.0
  }

  lemma {:induction false} RevenueCostSnoc(ls: seq<BillItem>, item: BillItem, ms: seq<CatalogItem>)
    ensures Revenue(ls + [item], ms) == Revenue(ls, ms) + (if Find(ms, item.productId).Some? then item.total else 0.0)
    ensures Cost(ls + [item], ms)
         == Cost(ls, ms) + (if Find(ms, item.productId).Some? then Find(ms, item.productId).value.purchasePrice * (item.quantity as real) else 0.0)
  {
    assert (ls + [item])[..|ls|] == ls;
  }

  /** `profitData`: the nested `forEach` accumulating revenue and cost. */
  method ProfitData(bills: seq<Bill>, ms: seq<CatalogItem>) returns (revenue: real, cost: real, grossProfit: real, margin: real)
    ensures revenue == Revenue(AllLines(bills), ms) && cost == Cost(AllLines(bills), ms)
    ensures grossProfit == revenue - cost && margin == ProfitMargin(revenue, cost)
  {
    revenue, cost := 0.0, 0.0;
    var i := 0;
    while i < |bills|
      invariant 0 <= i <= |bills|
      invariant revenue == Revenue(AllLines(bills[..i]), ms) && cost == Cost(AllLines(bills[..i]), ms)
    {
      var items := bills[i].items;
      var j := 0;
      assert AllLines(bills[..i]) + items[..0] == AllLines(bills[..i]);
      while j < |items|
        invariant 0 <= j <= |items|
        invariant revenue == Revenue(AllLines(bills[..i]) + items[..j], ms)
        invariant cost == Cost(AllLines(bills[..i]) + items[..j], ms)
      {
        var item := items[j];
        RevenueCostSnoc(AllLines(bills[..i]) + items[..j], item, ms);
        PrefixSnoc(items, j);
        ConcatAssoc(AllLines(bills[..i]), items[..j], [item]);
        var medicine := Find(ms, item.productId);
        if medicine.Some? {
          revenue := revenue + item.total;
          cost := cost + medicine.value.purchasePrice * (item.quantity as real);
        }
        j := j + 1;
      }
      assert items[..j] == items;
      PrefixSnoc(bills, i);
      assert bills[..i + 1][..i] == bills[..i];
      i := i + 1;
    }
    assert bills[..|bills|] == bills;
    grossProfit := revenue - cost;
    margin := ProfitMargin(revenue, cost);
  }

  /** Lines whose item has left the catalog count neither as revenue nor as cost. */
  lemma {:induction false} UnknownLinesIgnored(ls: seq<BillItem>, ms: seq<CatalogItem>)
    requires forall k :: 0 <= k < |ls| ==> Find(ms, ls[k].productId).None?
    ensures Revenue(ls, ms) == 0.0 && Cost(ls, ms) == 0.0
    decreases |ls|
  {
    if ls != [] {
      UnknownLinesIgnored(ls[..|ls| - 1], ms);
    }
  }

  // ------------------------------------------------------------- inventory

  /** `med.category || 'Other'` */
  function CategoryOf(m: CatalogItem): string {
    if m.category == "" then "Other" else m.category
  }

  function StockOf(m: CatalogItem): real {
    m.stockQuantity as real
  }

  /** `categoryStock`: the stock held in each category. */
  method CategoryStock(ms: seq<CatalogItem>) returns (d: map<string, real>)
    ensures forall c :: c in d <==> exists m :: m in ms && CategoryOf(m) == c
    ensures forall c :: c in d ==> d[c] == GroupSum(ms, CategoryOf, StockOf, c)
  {
    d := Tally(ms, CategoryOf, StockOf);
    KeysSpec(ms, CategoryOf);
  }

  /** The category totals add up to the total stock, with uncategorised
      items under "Other" and none left out. */
  lemma CategoryStockAddsUp(ms: seq<CatalogItem>)
    ensures KeyedTotal(Keys(ms, CategoryOf), ms, CategoryOf, StockOf) == Sum(ms, StockOf)
    ensures "" !in Keys(ms, CategoryOf)
  {
    GroupSumsCoverSum(ms, CategoryOf, StockOf);
    KeysSpec(ms, CategoryOf);
  }

  datatype InventorySummary = InventorySummary(totalMedicines: nat, lowStockCount: nat, expiringCount: nat, totalStockValue: real)

  /** `inventoryData`'s counts; `expiring` is what `getExpiringMedicines(30)` returned. */
  function InventoryFigures(ms: seq<CatalogItem>, expiring: seq<CatalogItem>): (r: InventorySummary)
    ensures r.lowStockCount <= r.totalMedicines
  {
    InventorySummary(|ms|, |LowStock(ms)|, |expiring|, TotalValue(ms))
  }
}
