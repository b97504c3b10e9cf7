/** The shared store: catalog, customers, suppliers, bills, the append-only
    stock ledger and purchase entries.

    Each list has two views. The live list is what the functional setters
    update. The `shown` list is the value the current render closed over: the
    lookups `getProduct`, `getCustomer` and `getBill` read that one. An event
    handler starts with both equal (`Settled`); when it returns, the next
    render makes them equal again (`Render`). */
module AppStore {
  import opened Common
  import opened Records
  import opened StockWrites

  // ------------------------------------------------------------ lookups

  /** `customers.find(c => c.id === id)` */
  function FindCustomer(cs: seq<Customer>, id: Id): Option<Customer> {
    FindBy(cs, CustomerId, id)
  }

  /** `bills.find(b => b.id === id)` */
  function FindBill(bs: seq<Bill>, id: Id): Option<Bill> {
    FindBy(bs, BillId, id)
  }

  // -------------------------------------------------- customer updates

  function SetCustomerTotal(cs: seq<Customer>, id: Id, total: real): seq<Customer> {
    seq(|cs|, k requires 0 <= k < |cs| => if cs[k].id == id then cs[k].(totalPurchases := total) else cs[k])
  }

  /** The customer update `addBill` issues: the customer's total as the
      snapshot shows it, plus the bill's amount; nothing when the bill has no
      customer or the snapshot lacks that customer. */
  function CreditCustomer(live: seq<Customer>, snap: seq<Customer>, bill: Bill): seq<Customer> {
    match bill.customerId
    case None => live
    case Some(cid) =>
      match FindCustomer(snap, cid)
      case None => live
      case Some(c) => SetCustomerTotal(live, cid, c.totalPurchases + bill.totalAmount)
  }

  predicate UniqueCustomerIds(cs: seq<Customer>) {
    forall i, j :: 0 <= i < j < |cs| ==> cs[i].id != cs[j].id
  }

  /** The customer named by the bill gains exactly the bill's total; every other
      customer, and every other field, is unchanged. */
  lemma CreditCustomerAt(cs: seq<Customer>, bill: Bill, k: int)
    requires UniqueCustomerIds(cs) && 0 <= k < |cs|
    ensures |CreditCustomer(cs, cs, bill)| == |cs|
    ensures CreditCustomer(cs, cs, bill)[k]
         == if bill.customerId == Some(cs[k].id)
            then cs[k].(totalPurchases := cs[k].totalPurchases + bill.totalAmount)
            else cs[k]
  {
    if bill.customerId.Some? {
      var cid := bill.customerId.value;
      if cs[k].id == cid {
        FindCustomerUnique(cs, k);
      }
    }
  }

  /** A bill without a customer, or naming a customer the list lacks, leaves
      the customers as they are. */
  lemma CreditCustomerUnknown(cs: seq<Customer>, bill: Bill)
    requires bill.customerId.None? || forall k :: 0 <= k < |cs| ==> Some(cs[k].id) != bill.customerId
    ensures CreditCustomer(cs, cs, bill) == cs
  {
    if bill.customerId.Some? {
      assert FindCustomer(cs, bill.customerId.value).None?;
    }
  }

  lemma FindCustomerUnique(cs: seq<Customer>, k: int)
    requires UniqueCustomerIds(cs) && 0 <= k < |cs|
    ensures FindCustomer(cs, cs[k].id) == Some(cs[k])
  {
    FindByAt(cs, CustomerId, k);
  }

  // ----------------------------------------------------- bill effects

  function SaleDeltas(items: seq<BillItem>): seq<Delta> {
    seq(|items|, i requires 0 <= i < |items| => Delta(items[i].productId, -items[i].quantity))
  }

  function ReturnDeltas(items: seq<BillItem>): seq<Delta> {
    seq(|items|, i requires 0 <= i < |items| => Delta(items[i].productId, items[i].quantity))
  }

  function ReturnsOf(bill: Bill): seq<BillItem> {
    bill.returnItems.GetOr([])
  }

  /** The stock changes a bill requests: sold lines first, then returned lines. */
  function BillDeltas(bill: Bill): seq<Delta> {
    SaleDeltas(bill.items) + ReturnDeltas(ReturnsOf(bill))
  }

  function SaleEntry(bill: Bill, item: BillItem): StockTransaction {
    StockTransaction(SaleTx, item.productId, item.productName, -item.quantity, bill.date, bill.billNumber, "")
  }

  function ReturnEntry(billNumber: string, date: Date, item: BillItem): StockTransaction {
    StockTransaction(ReturnTx, item.productId, item.productName, item.quantity, date,
                     "RETURN-" + billNumber, "Return from bill " + billNumber)
  }

  function ReturnEntries(billNumber: string, date: Date, items: seq<BillItem>): seq<StockTransaction> {
    seq(|items|, i requires 0 <= i < |items| => ReturnEntry(billNumber, date, items[i]))
  }

  function SaleEntries(bill: Bill): seq<StockTransaction> {
    seq(|bill.items|, i requires 0 <= i < |bill.items| => SaleEntry(bill, bill.items[i]))
  }

  /** The ledger entries `addBill` appends. */
  function BillEntries(bill: Bill): seq<StockTransaction> {
    SaleEntries(bill) + ReturnEntries(bill.billNumber, bill.date, ReturnsOf(bill))
  }

  /** Σ of the ledger quantities recorded for `id`. */
  function NetQuantity(txs: seq<StockTransaction>, id: Id): int
    decreases |txs|
  {
    if txs == [] then 0
    else NetQuantity(txs[..|txs| - 1], id) + (if txs[|txs| - 1].productId == id then txs[|txs| - 1].quantity else 0)
  }

  lemma {:induction false} NetQuantityAppend(a: seq<StockTransaction>, b: seq<StockTransaction>, id: Id)
    ensures NetQuantity(a + b, id) == NetQuantity(a, id) + NetQuantity(b, id)
    decreases |b|
  {
    if b == [] {
      assert a + b == a;
    } else {
      assert (a + b)[..|a + b| - 1] == a + b[..|b| - 1];
      NetQuantityAppend(a, b[..|b| - 1], id);
    }
  }

  /** The ledger line i records the same product and signed quantity as change i. */
  predicate Mirrors(txs: seq<StockTransaction>, ds: seq<Delta>) {
    |txs| == |ds| && forall i :: 0 <= i < |ds| ==> txs[i].productId == ds[i].id && txs[i].quantity == ds[i].amount
  }

  lemma {:induction false} MirrorsNet(txs: seq<StockTransaction>, ds: seq<Delta>, id: Id)
    requires Mirrors(txs, ds)
    ensures NetQuantity(txs, id) == NetDelta(ds, id)
    decreases |ds|
  {
    if ds != [] {
      MirrorsNet(txs[..|txs| - 1], ds[..|ds| - 1], id);
    }
  }

  /** The bill's ledger entries record exactly the stock changes it requests. */
  lemma BillEntriesMirror(bill: Bill)
    ensures Mirrors(BillEntries(bill), BillDeltas(bill))
  {
  }

  /** Stock and ledger agree after `addBill` when no product is named twice:
      each entry ends at its stock plus the net quantity the new ledger
      entries record for it. When a product is named twice they disagree, see
      `SoldAndReturnedKeepsReturnOnly`. */
  lemma AddBillReconciles(ps: seq<CatalogItem>, bill: Bill, k: int)
    requires UniqueIds(ps) && 0 <= k < |ps|
    requires Distinct(DeltaIds(BillDeltas(bill)))
    ensures ApplyWrites(ps, SnapshotWrites(ps, BillDeltas(bill)))[k].stockQuantity
         == ps[k].stockQuantity + NetQuantity(BillEntries(bill), ps[k].id)
  {
    SnapshotWritesAt(ps, BillDeltas(bill), k);
    LastAmountDistinct(BillDeltas(bill), ps[k].id);
    BillEntriesMirror(bill);
    MirrorsNet(BillEntries(bill), BillDeltas(bill), ps[k].id);
  }

  /** A bill that sells q1 of a product and takes back q2 of the same product
      leaves its stock at entry + q2: the return write overwrites the sale write.
      The ledger still records −q1 and +q2. */
  lemma SoldAndReturnedKeepsReturnOnly(p: CatalogItem, sold: BillItem, returned: BillItem, bill: Bill)
    requires sold.productId == p.id && returned.productId == p.id
    requires bill.items == [sold] && bill.returnItems == Some([returned])
    ensures ApplyWrites([p], SnapshotWrites([p], BillDeltas(bill)))[0].stockQuantity
         == p.stockQuantity + returned.quantity
    ensures NetQuantity(BillEntries(bill), p.id) == returned.quantity - sold.quantity
  {
    var ds := BillDeltas(bill);
    assert ds == [Delta(p.id, -sold.quantity), Delta(p.id, returned.quantity)];
    SnapshotWritesAt([p], ds, 0);
    BillEntriesMirror(bill);
    MirrorsNet(BillEntries(bill), ds, p.id);
    assert ds[..1] == [Delta(p.id, -sold.quantity)];
    assert ds[..1][..0] == [];
    assert NetDelta(ds[..1], p.id) == -sold.quantity;
    assert NetDelta(ds, p.id) == returned.quantity - sold.quantity;
  }

  // -------------------------------------------------- returns to a bill

  /** The bill with its return list replaced and its amounts recomputed. */
  function WithReturns(b: Bill, items: seq<BillItem>): Bill {
    var returnAmount := Sum(items, AbsTotal);
    b.(returnItems := Some(items), returnAmount := Some(returnAmount), totalAmount := b.subtotal - returnAmount)
  }

  function ReplaceBill(bs: seq<Bill>, id: Id, nb: Bill): seq<Bill> {
    seq(|bs|, k requires 0 <= k < |bs| => if bs[k].id == id then nb else bs[k])
  }

  lemma {:induction false} AbsTotalsNonNegative(items: seq<BillItem>)
    ensures Sum(items, AbsTotal) >= 0.0
    decreases |items|
  {
    if items != [] {
      AbsTotalsNonNegative(items[..|items| - 1]);
    }
  }

  /** Recording returns replaces the previous return list rather than adding to
      it, never raises the total above the subtotal, and keeps the lines sold. */
  lemma WithReturnsReplaces(b: Bill, first: seq<BillItem>, second: seq<BillItem>)
    ensures WithReturns(WithReturns(b, first), second) == WithReturns(b, second)
    ensures WithReturns(b, second).totalAmount <= b.subtotal
    ensures WithReturns(b, second).items == b.items && WithReturns(b, second).id == b.id
  {
    AbsTotalsNonNegative(second);
  }

  // ---------------------------------------------------------- purchases

  function PurchaseDeltas(lines: seq<PurchaseLine>): seq<Delta> {
    seq(|lines|, i requires 0 <= i < |lines| => Delta(lines[i].productId, lines[i].quantity))
  }

  function PurchaseEntries(pe: PurchaseEntry): seq<StockTransaction> {
    seq(|pe.items|, i requires 0 <= i < |pe.items| =>
      StockTransaction(PurchaseTx, pe.items[i].productId, pe.items[i].productName, pe.items[i].quantity,
                       pe.date, pe.invoiceNo, ""))
  }

  /** A purchase whose lines name distinct products raises each product by the
      quantity its ledger entries record, and leaves the other products alone. */
  lemma AddPurchaseReconciles(ps: seq<CatalogItem>, pe: PurchaseEntry, k: int)
    requires UniqueIds(ps) && 0 <= k < |ps|
    requires Distinct(DeltaIds(PurchaseDeltas(pe.items)))
    ensures ApplyWrites(ps, FoundWrites(ps, PurchaseDeltas(pe.items)))[k].stockQuantity
         == ps[k].stockQuantity + NetQuantity(PurchaseEntries(pe), ps[k].id)
  {
    FoundWritesAt(ps, PurchaseDeltas(pe.items), k);
    LastAmountDistinct(PurchaseDeltas(pe.items), ps[k].id);
    PurchaseLedgerNet(pe, ps[k].id);
  }

  /** The purchase's ledger entries net, per product, to the changes it requests. */
  lemma PurchaseLedgerNet(pe: PurchaseEntry, id: Id)
    ensures NetQuantity(PurchaseEntries(pe), id) == NetDelta(PurchaseDeltas(pe.items), id)
  {
    assert Mirrors(PurchaseEntries(pe), PurchaseDeltas(pe.items));
    MirrorsNet(PurchaseEntries(pe), PurchaseDeltas(pe.items), id);
  }

  /** Two lines for one product in one purchase: only the last line's quantity
      reaches the stock, while the ledger records both. */
  lemma DuplicatePurchaseLinesLoseOne(p: CatalogItem, a: PurchaseLine, b: PurchaseLine, pe: PurchaseEntry)
    requires a.productId == p.id && b.productId == p.id && pe.items == [a, b]
    ensures ApplyWrites([p], FoundWrites([p], PurchaseDeltas(pe.items)))[0].stockQuantity == p.stockQuantity + b.quantity
    ensures NetQuantity(PurchaseEntries(pe), p.id) == a.quantity + b.quantity
  {
    var ds := PurchaseDeltas(pe.items);
    assert ds[0] == Delta(p.id, a.quantity) && ds[1] == Delta(p.id, b.quantity);
    assert LastAmount(ds, p.id) == Some(b.quantity);
    FoundWritesAt([p], ds, 0);
    var es := PurchaseEntries(pe);
    assert es[0].productId == p.id && es[0].quantity == a.quantity;
    assert es[1].productId == p.id && es[1].quantity == b.quantity;
    assert es[..1][..0] == [];
    assert NetQuantity(es[..1], p.id) == a.quantity;
  }

  // --------------------------------------------------------- bill number

  function BillsOn(bills: seq<Bill>, day: Date): seq<Bill> {
    Filter(bills, (b: Bill) => b.date == day)
  }

  /** `getFullYear().toString().slice(-2)` */
  function YearDigits(year: nat): string {
    var s := NatToString(year);
    if |s| >= 2 then s[|s| - 2..] else s
  }

  /** `generateBillNumber`: `MS`, two-digit year, month and day, then the
      number of bills already dated today plus one, zero-padded to four digits.
      The calendar fields and today's day number come from the clock. */
  function BillNumber(bills: seq<Bill>, year: nat, month: nat, day: nat, today: Date): string {
    var billsToday := |BillsOn(bills, today)|;
    "MS" + YearDigits(year) + PadZeros(NatToString(month), 2) + PadZeros(NatToString(day), 2)
      + PadZeros(NatToString(billsToday + 1), 4)
  }

  /** A year of at least two digits contributes its tens and units digits. */
  lemma YearDigitsShape(year: nat)
    requires 10 <= year
    ensures YearDigits(year) == [Digit((year / 10) % 10), Digit(year % 10)]
  {
    var t := NatToString(year / 10);
    assert NatToString(year) == t + [Digit(year % 10)];
    assert t[|t| - 1] == Digit((year / 10) % 10);
  }

  /** Two digits read back as tens and units. */
  lemma TwoDigitsValue(tens: nat, units: nat)
    requires tens < 10 && units < 10
    ensures DigitsValue([Digit(tens), Digit(units)]) == tens * 10 + units
  {
    NatToStringValue(tens);
    NatToStringValue(units);
    assert [Digit(tens), Digit(units)][..1] == NatToString(tens);
  }

  /** The tens and units digits make up the number modulo 100. */
  lemma LastTwoDigits(n: nat)
    ensures ((n / 10) % 10) * 10 + n % 10 == n % 100
  {
    var q, units := n / 10, n % 10;
    var hundreds, tens := q / 10, q % 10;
    assert n == 10 * q + units;
    assert q == 10 * hundreds + tens;
    assert n == 100 * hundreds + (10 * tens + units);
  }

  /** A year of at least two digits contributes exactly two characters,
      which read back as the year modulo 100. */
  lemma YearDigitsValue(year: nat)
    requires 10 <= year
    ensures |YearDigits(year)| == 2 && DigitsValue(YearDigits(year)) == year % 100
  {
    YearDigitsShape(year);
    TwoDigitsValue((year / 10) % 10, year % 10);
    LastTwoDigits(year);
  }

  /** A month or day number pads to exactly two characters that read back as it. */
  lemma TwoDigitField(n: nat)
    requires n < 100
    ensures |PadZeros(NatToString(n), 2)| == 2 && DigitsValue(PadZeros(NatToString(n), 2)) == n
  {
    assert Pow10(2) == 100 by {
      assert Pow10(1) == 10;
    }
    NatToStringLength(n, 2);
    PaddedValue(n, 2);
  }

  /** The sequence field reads back as n. */
  lemma SequenceFieldValue(n: nat)
    ensures var sf := PadZeros(NatToString(n), 4);
            |sf| >= 4 && DigitsValue(sf) == n
  {
    PaddedValue(n, 4);
  }

  /** Below 10000 the sequence field takes exactly four characters. */
  lemma SequenceFieldLength(n: nat)
    requires n < 10000
    ensures |PadZeros(NatToString(n), 4)| == 4
  {
    assert Pow10(2) == 100 by {
      assert Pow10(1) == 10;
    }
    assert Pow10(4) == 10000 by {
      assert Pow10(3) == 10 * Pow10(2);
    }
    NatToStringLength(n, 4);
  }

  /** `MS`, three two-character date fields and a sequence field: each field
      sits at its fixed offset, and the sequence field starts at offset 8. */
  lemma Assembled(y: string, m: string, d: string, sf: string)
    requires |y| == 2 && |m| == 2 && |d| == 2
    ensures var r := "MS" + y + m + d + sf;
            |r| == 8 + |sf| && r[..2] == "MS" && r[2..4] == y && r[4..6] == m && r[6..8] == d
            && r[8..] == sf
  {
    var head := "MS" + y + m + d;
    assert |head| == 8;
    assert (head + sf)[8..] == sf;
    assert (head + sf)[..2] == head[..2] == "MS";
    assert (head + sf)[2..4] == head[2..4] == y;
    assert (head + sf)[4..6] == head[4..6] == m;
    assert (head + sf)[6..8] == head[6..8] == d;
  }

  /** For a real date, the number is `MS`, then the year's last two digits,
      the month and the day, each two digits, then a sequence field of at least
      four digits that reads back as the count of today's bills plus one; below
      10000 bills a day it is exactly 12 characters. */
  lemma BillNumberSequence(bills: seq<Bill>, year: nat, month: nat, day: nat, today: Date)
    requires 10 <= year && 1 <= month <= 12 && 1 <= day <= 31
    ensures var r := BillNumber(bills, year, month, day, today);
            var n := |BillsOn(bills, today)| + 1;
            |r| >= 12 && r[..2] == "MS"
            && r[2..4] == YearDigits(year) && DigitsValue(r[2..4]) == year % 100
            && r[4..6] == PadZeros(NatToString(month), 2) && DigitsValue(r[4..6]) == month
            && r[6..8] == PadZeros(NatToString(day), 2) && DigitsValue(r[6..8]) == day
            && DigitsValue(r[8..]) == n
            && (n < 10000 ==> |r| == 12)
  {
    var n := |BillsOn(bills, today)| + 1;
    YearDigitsValue(year);
    TwoDigitField(month);
    TwoDigitField(day);
    SequenceFieldValue(n);
    if n < 10000 {
      SequenceFieldLength(n);
    }
    Assembled(YearDigits(year), PadZeros(NatToString(month), 2), PadZeros(NatToString(day), 2),
              PadZeros(NatToString(n), 4));
  }

  // ----------------------------------------------------------------- ids

  /** Distinct ids, all handed out by a counter that now stands at `next`. */
  predicate IdsFresh(ids: seq<Id>, next: nat) {
    Distinct(ids) && forall i :: 0 <= i < |ids| ==> ids[i] < next
  }

  lemma IdsFreshAppend(ids: seq<Id>, next: nat)
    requires IdsFresh(ids, next)
    ensures IdsFresh(ids + [next], next + 1) && IdsFresh(ids, next + 1)
  {
  }

  function ProductIds(ps: seq<CatalogItem>): seq<Id> {
    seq(|ps|, k requires 0 <= k < |ps| => ps[k].id)
  }

  /** Stock writes never change which products the catalog holds. */
  lemma WritesKeepProductIds(ps: seq<CatalogItem>, ws: seq<Write>)
    ensures ProductIds(ApplyWrites(ps, ws)) == ProductIds(ps)
  {
  }

  function CustomerIds(cs: seq<Customer>): seq<Id> {
    seq(|cs|, k requires 0 <= k < |cs| => cs[k].id)
  }

  function SupplierIds(ss: seq<Supplier>): seq<Id> {
    seq(|ss|, k requires 0 <= k < |ss| => ss[k].id)
  }

  function BillIds(bs: seq<Bill>): seq<Id> {
    seq(|bs|, k requires 0 <= k < |bs| => bs[k].id)
  }

  function PurchaseIds(es: seq<PurchaseEntry>): seq<Id> {
    seq(|es|, k requires 0 <= k < |es| => es[k].id)
  }

  lemma ProductIdsDistinct(ps: seq<CatalogItem>)
    requires Distinct(ProductIds(ps))
    ensures UniqueIds(ps)
  {
    forall i, j | 0 <= i < j < |ps|
      ensures ps[i].id != ps[j].id
    {
      assert ProductIds(ps)[i] != ProductIds(ps)[j];
    }
  }

  lemma CustomerIdsDistinct(cs: seq<Customer>)
    requires Distinct(CustomerIds(cs))
    ensures UniqueCustomerIds(cs)
  {
    forall i, j | 0 <= i < j < |cs|
      ensures cs[i].id != cs[j].id
    {
      assert CustomerIds(cs)[i] != CustomerIds(cs)[j];
    }
  }

  // --------------------------------------------------------------- store

  class Store {
    var products: seq<CatalogItem>
    var customers: seq<Customer>
    var suppliers: seq<Supplier>
    var bills: seq<Bill>
    var ledger: seq<StockTransaction>
    var purchases: seq<PurchaseEntry>
    var nextId: nat

    var shownProducts: seq<CatalogItem>
    var shownCustomers: seq<Customer>
    var shownBills: seq<Bill>

    /** Every list's ids are distinct and were handed out by the counter. */
    ghost predicate Valid()
      reads this
    {
      && IdsFresh(ProductIds(products), nextId)
      && IdsFresh(CustomerIds(customers), nextId)
      && IdsFresh(SupplierIds(suppliers), nextId)
      && IdsFresh(BillIds(bills), nextId)
      && IdsFresh(PurchaseIds(purchases), nextId)
    }

    /** No write since the last render: the lookups see the live lists. */
    predicate Settled()
      reads this
    {
      shownProducts == products && shownCustomers == customers && shownBills == bills
    }

    constructor ()
      ensures Valid() && Settled()
      ensures products == [] && customers == [] && suppliers == [] && bills == [] && ledger == [] && purchases == []
    {
      products, customers, suppliers, bills, ledger, purchases := [], [], [], [], [], [];
      nextId := 0;
      shownProducts, shownCustomers, shownBills := [], [], [];
    }

    /** The next render closes over the live lists. */
    method Render()
      modifies this`shownProducts, this`shownCustomers, this`shownBills
      ensures Settled()
    {
      shownProducts, shownCustomers, shownBills := products, customers, bills;
    }

    /** `getProduct`: reads the render's catalog. */
    function GetProduct(id: Id): (r: Option<CatalogItem>)
      reads this
      ensures r.Some? ==> r.value in shownProducts && r.value.id == id
      ensures r.None? <==> forall k :: 0 <= k < |shownProducts| ==> shownProducts[k].id != id
    {
      Find(shownProducts, id)
    }

    /** `getLowStockProducts`: reads the render's catalog. */
    function GetLowStockProducts(): (r: seq<CatalogItem>)
      reads this
      ensures forall i :: 0 <= i < |r| ==> r[i] in shownProducts && IsLow(r[i])
      ensures forall i :: 0 <= i < |shownProducts| && IsLow(shownProducts[i]) ==> shownProducts[i] in r
    {
      LowStock(shownProducts)
    }

    /** Moving the counter on keeps every list's ids fresh. */
    lemma FreshAfterBump()
      requires Valid()
      ensures IdsFresh(ProductIds(products), nextId + 1) && IdsFresh(CustomerIds(customers), nextId + 1)
      ensures IdsFresh(SupplierIds(suppliers), nextId + 1) && IdsFresh(BillIds(bills), nextId + 1)
      ensures IdsFresh(PurchaseIds(purchases), nextId + 1)
    {
    }

    method AddProduct(details: CatalogItem)
      requires Valid()
      modifies this`products, this`nextId
      ensures Valid()
      ensures products == old(products) + [details.(id := old(nextId))] && nextId == old(nextId) + 1
    {
      FreshAfterBump();
      IdsFreshAppend(ProductIds(products), nextId);
      assert ProductIds(products + [details.(id := nextId)]) == ProductIds(products) + [nextId];
      products := products + [details.(id := nextId)];
      nextId := nextId + 1;
    }

    /** `updateProduct(id, {stockQuantity: v})` */
    method UpdateStock(id: Id, v: int)
      modifies this`products
      ensures products == SetStock(old(products), id, v)
    {
      products := SetStock(products, id, v);
    }

    /** `updateProduct(id, formData)` from the product form: every field but the id. */
    method UpdateProduct(id: Id, details: CatalogItem)
      requires Valid()
      modifies this`products
      ensures Valid()
      ensures |products| == |old(products)|
      ensures forall k :: 0 <= k < |products| ==>
                products[k] == if old(products)[k].id == id then details.(id := id) else old(products)[k]
    {
      var ps := products;
      products := seq(|ps|, k requires 0 <= k < |ps| => if ps[k].id == id then details.(id := id) else ps[k]);
      assert ProductIds(products) == ProductIds(ps);
    }

    method DeleteProduct(id: Id)
      requires Valid()
      modifies this`products
      ensures Valid()
      ensures products == Filter(old(products), (p: CatalogItem) => p.id != id)
      ensures forall k :: 0 <= k < |products| ==> products[k].id != id
    {
      ProductIdsDistinct(products);
      FilterKeepsDistinctKeys(products, (p: CatalogItem) => p.id != id, (p: CatalogItem) => p.id);
      ghost var before := products;
      products := Filter(products, (p: CatalogItem) => p.id != id);
      forall i, j | 0 <= i < j < |products|
        ensures ProductIds(products)[i] != ProductIds(products)[j]
      {
      }
      forall k | 0 <= k < |products|
        ensures ProductIds(products)[k] < nextId
      {
        assert products[k] in before;
        var j :| 0 <= j < |before| && products[k] == before[j];
        assert ProductIds(before)[j] < nextId;
      }
    }

    method AddCustomer(name: string, phone: string, email: string, address: string, today: Date)
      requires Valid()
      modifies this`customers, this`nextId
      ensures Valid()
      ensures customers == old(customers) + [Customer(old(nextId), name, phone, email, address, today, 0.0)]
      ensures nextId == old(nextId) + 1
    {
      FreshAfterBump();
      IdsFreshAppend(CustomerIds(customers), nextId);
      var c := Customer(nextId, name, phone, email, address, today, 0.0);
      assert CustomerIds(customers + [c]) == CustomerIds(customers) + [nextId];
      customers := customers + [c];
      nextId := nextId + 1;
    }

    /** `updateCustomer(id, formData)` with the edit form's four fields. */
    method UpdateCustomer(id: Id, name: string, phone: string, email: string, address: string)
      requires Valid()
      modifies this`customers
      ensures Valid()
      ensures |customers| == |old(customers)|
      ensures forall k :: 0 <= k < |customers| ==>
                customers[k] == if old(customers)[k].id == id
                                then old(customers)[k].(name := name, phone := phone, email := email, address := address)
                                else old(customers)[k]
    {
      var cs := customers;
      customers := seq(|cs|, k requires 0 <= k < |cs| =>
                         if cs[k].id == id
                         then cs[k].(name := name, phone := phone, email := email, address := address)
                         else cs[k]);
      assert CustomerIds(customers) == CustomerIds(cs);
    }

    method AddSupplier(name: string, phone: string, email: string, address: string, today: Date)
      requires Valid()
      modifies this`suppliers, this`nextId
      ensures Valid()
      ensures suppliers == old(suppliers) + [Supplier(old(nextId), name, phone, email, address, today)]
      ensures nextId == old(nextId) + 1
    {
      FreshAfterBump();
      IdsFreshAppend(SupplierIds(suppliers), nextId);
      var sp := Supplier(nextId, name, phone, email, address, today);
      assert SupplierIds(suppliers + [sp]) == SupplierIds(suppliers) + [nextId];
      suppliers := suppliers + [sp];
      nextId := nextId + 1;
    }

    method AddStockTransaction(tx: StockTransaction)
      modifies this`ledger
      ensures ledger == old(ledger) + [tx]
    {
      ledger := ledger + [tx];
    }

    /** The `forEach` over sold lines: each line's stock := snapshot − q. */
    method SellStock(items: seq<BillItem>)
      modifies this`products
      ensures products == ApplyWrites(old(products), SnapshotWrites(shownProducts, SaleDeltas(items)))
    {
      ghost var ws := SnapshotWrites(shownProducts, SaleDeltas(items));
      var i := 0;
      while i < |items|
        invariant 0 <= i <= |items|
        invariant products == ApplyWrites(old(products), ws[..i])
      {
        UpdateStock(items[i].productId, StockOr0(shownProducts, items[i].productId) - items[i].quantity);
        assert ws[i] == Write(items[i].productId, StockOr0(shownProducts, items[i].productId) - items[i].quantity);
        ApplyWritesStep(old(products), ws, i);
        i := i + 1;
      }
      assert ws[..|items|] == ws;
    }

    /** The `forEach` over returned lines: each line's stock := snapshot + q. */
    method RestockReturns(items: seq<BillItem>)
      modifies this`products
      ensures products == ApplyWrites(old(products), SnapshotWrites(shownProducts, ReturnDeltas(items)))
    {
      ghost var ws := SnapshotWrites(shownProducts, ReturnDeltas(items));
      var i := 0;
      while i < |items|
        invariant 0 <= i <= |items|
        invariant products == ApplyWrites(old(products), ws[..i])
      {
        UpdateStock(items[i].productId, StockOr0(shownProducts, items[i].productId) + items[i].quantity);
        assert ws[i] == Write(items[i].productId, StockOr0(shownProducts, items[i].productId) + items[i].quantity);
        ApplyWritesStep(old(products), ws, i);
        i := i + 1;
      }
      assert ws[..|items|] == ws;
    }

    /** A loop that raises the stock of each product the snapshot has:
        `if (product) updateProduct(id, {stockQuantity: product.stockQuantity + q})`. */
    method RestockFound(ds: seq<Delta>)
      modifies this`products
      ensures products == ApplyWrites(old(products), FoundWrites(shownProducts, ds))
      ensures ProductIds(products) == ProductIds(old(products))
    {
      var i := 0;
      while i < |ds|
        invariant 0 <= i <= |ds|
        invariant products == ApplyWrites(old(products), FoundWrites(shownProducts, ds[..i]))
      {
        WriteFound(ds[i]);
        ApplyWritesAppend(old(products), FoundWrites(shownProducts, ds[..i]), FoundWrite(shownProducts, ds[i]));
        assert ds[..i + 1] == ds[..i] + [ds[i]];
        FoundWritesSnoc(shownProducts, ds[..i], ds[i]);
        i := i + 1;
      }
      assert ds[..|ds|] == ds;
      WritesKeepProductIds(old(products), FoundWrites(shownProducts, ds));
    }

    /** One step of such a loop: `if (product) updateProduct(...)`. */
    method WriteFound(d: Delta)
      modifies this`products
      ensures products == ApplyWrites(old(products), FoundWrite(shownProducts, d))
    {
      var product := Find(shownProducts, d.id);
      if product.Some? {
        UpdateStock(d.id, product.value.stockQuantity + d.amount);
        assert [Write(d.id, product.value.stockQuantity + d.amount)][..0] == [];
      }
    }

    /** One `addStockTransaction` per entry, in order. */
    method RecordEntries(txs: seq<StockTransaction>)
      modifies this`ledger
      ensures ledger == old(ledger) + txs
    {
      var i := 0;
      while i < |txs|
        invariant 0 <= i <= |txs|
        invariant ledger == old(ledger) + txs[..i]
      {
        AddStockTransaction(txs[i]);
        assert txs[..i + 1] == txs[..i] + [txs[i]];
        i := i + 1;
      }
      assert txs[..|txs|] == txs;
    }

    /** The customer credit inside `addBill`: only when the bill names a
        customer and the snapshot has it. */
    method CreditBillCustomer(bill: Bill)
      modifies this`customers
      ensures customers == CreditCustomer(old(customers), shownCustomers, bill)
      ensures CustomerIds(customers) == CustomerIds(old(customers))
    {
      if bill.customerId.Some? {
        var customer := FindCustomer(shownCustomers, bill.customerId.value);
        if customer.Some? {
          customers := SetCustomerTotal(customers, bill.customerId.value, customer.value.totalPurchases + bill.totalAmount);
        }
      }
      assert CustomerIds(customers) == CustomerIds(old(customers));
    }

    /** The two stock loops of `addBill`: sold lines, then returned lines. */
    method WriteBillStock(bill: Bill)
      modifies this`products
      ensures products == ApplyWrites(old(products), SnapshotWrites(shownProducts, BillDeltas(bill)))
      ensures ProductIds(products) == ProductIds(old(products))
    {
      ghost var sold := SnapshotWrites(shownProducts, SaleDeltas(bill.items));
      ghost var restocked := SnapshotWrites(shownProducts, ReturnDeltas(ReturnsOf(bill)));
      SellStock(bill.items);
      if bill.returnItems.Some? {
        RestockReturns(bill.returnItems.value);
      } else {
        assert restocked == [];
        assert sold + restocked == sold;
      }
      SnapshotWritesAppend(shownProducts, SaleDeltas(bill.items), ReturnDeltas(ReturnsOf(bill)));
      ApplyWritesAppend(old(products), sold, restocked);
      assert ProductIds(products) == ProductIds(old(products));
    }

    /** The two ledger loops of `addBill`: sold lines, then returned lines. */
    method RecordBillEntries(bill: Bill)
      modifies this`ledger
      ensures ledger == old(ledger) + BillEntries(bill)
    {
      RecordEntries(SaleEntries(bill));
      if bill.returnItems.Some? {
        RecordEntries(ReturnEntries(bill.billNumber, bill.date, bill.returnItems.value));
      } else {
        assert ReturnEntries(bill.billNumber, bill.date, ReturnsOf(bill)) == [];
        assert BillEntries(bill) == SaleEntries(bill) + [];
      }
    }

    /** `addBill`: record the bill under a fresh id, write each sold line's stock
        as snapshot − q and each returned line's as snapshot + q, credit the
        customer, then append one ledger entry per sold and per returned line. */
    method AddBill(bill: Bill)
      requires Valid()
      modifies this`bills, this`nextId, this`products, this`customers, this`ledger
      ensures Valid()
      ensures bills == old(bills) + [bill.(id := old(nextId))] && nextId == old(nextId) + 1
      ensures products == ApplyWrites(old(products), SnapshotWrites(shownProducts, BillDeltas(bill)))
      ensures customers == CreditCustomer(old(customers), shownCustomers, bill)
      ensures ledger == old(ledger) + BillEntries(bill)
    {
      FreshAfterBump();
      IdsFreshAppend(BillIds(bills), nextId);
      assert BillIds(bills + [bill.(id := nextId)]) == BillIds(bills) + [nextId];
      bills := bills + [bill.(id := nextId)];
      nextId := nextId + 1;
      WriteBillStock(bill);
      CreditBillCustomer(bill);
      RecordBillEntries(bill);
    }

    /** `addReturnToBill`: nothing happens for an unknown bill; otherwise the
        bill's return list is replaced, stock rises by q for every returned line
        whose product the snapshot has, and every line gets a ledger entry dated
        today. */
    method AddReturnToBill(billId: Id, items: seq<BillItem>, today: Date)
      requires Valid()
      modifies this`bills, this`products, this`ledger
      ensures Valid()
      ensures FindBill(shownBills, billId).None? ==>
                bills == old(bills) && products == old(products) && ledger == old(ledger)
      ensures FindBill(shownBills, billId).Some? ==>
                var b := FindBill(shownBills, billId).value;
                && bills == ReplaceBill(old(bills), billId, WithReturns(b, items))
                && products == ApplyWrites(old(products), FoundWrites(shownProducts, ReturnDeltas(items)))
                && ledger == old(ledger) + ReturnEntries(b.billNumber, today, items)
    {
      var found := FindBill(shownBills, billId);
      if found.None? {
        return;
      }
      var b := found.value;
      bills := ReplaceBill(bills, billId, WithReturns(b, items));
      assert BillIds(bills) == BillIds(old(bills));
      RestockFound(ReturnDeltas(items));
      RecordEntries(ReturnEntries(b.billNumber, today, items));
    }

    /** `addPurchase`: record the purchase under a fresh id; per line, raise an
        existing product's stock by q and append a `purchase` ledger entry. */
    method AddPurchase(pe: PurchaseEntry)
      requires Valid()
      modifies this`purchases, this`nextId, this`products, this`ledger
      ensures Valid()
      ensures purchases == old(purchases) + [pe.(id := old(nextId))] && nextId == old(nextId) + 1
      ensures products == ApplyWrites(old(products), FoundWrites(shownProducts, PurchaseDeltas(pe.items)))
      ensures ledger == old(ledger) + PurchaseEntries(pe)
    {
      FreshAfterBump();
      IdsFreshAppend(PurchaseIds(purchases), nextId);
      assert PurchaseIds(purchases + [pe.(id := nextId)]) == PurchaseIds(purchases) + [nextId];
      purchases := purchases + [pe.(id := nextId)];
      nextId := nextId + 1;
      RestockFound(PurchaseDeltas(pe.items));
      RecordEntries(PurchaseEntries(pe));
    }
  }
}
