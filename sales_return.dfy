/** The sales-return screen (product naming): a return to a supplier of
    every line of a recorded purchase, and a return from a customer of one
    product. Each handler writes stock and ledger entries itself and then
    records a synthetic bill through `addBill`, whose own stock writes are taken
    from the same render snapshot. */
module SalesReturns {
  import opened Common
  import opened Records
  import opened StockWrites
  import opened AppStore
  import opened Billing

  /** `purchases.find(p => p.id === id)`. */
  function FindPurchase(es: seq<PurchaseEntry>, id: Id): Option<PurchaseEntry> {
    FindBy(es, PurchaseId, id)
  }

  function LineIds(lines: seq<PurchaseLine>): seq<Id> {
    seq(|lines|, i requires 0 <= i < |lines| => lines[i].productId)
  }

  function PurchasePrice(line: PurchaseLine): real {
    line.purchasePrice
  }

  function ItemTotal(item: BillItem): real {
    item.total
  }

  // ------------------------------------------------------------ guards

  /** `handlePurchaseReturn`'s guards: a selected purchase and a positive
      quantity, then a purchase that exists. */
  function PurchaseReturnCheck(purchases: seq<PurchaseEntry>, selected: Option<Id>, q: int): Outcome {
    if selected.None? || q <= 0 then Rejected(MissingInput)
    else if FindPurchase(purchases, selected.value).None? then Rejected(NotFound)
    else Done
  }

  /** `handleCustomerReturn`'s guards: a selected product and a positive
      quantity, a product that exists, and at least q units of it in stock. */
  function CustomerReturnCheck(products: seq<CatalogItem>, selected: Option<Id>, q: int): Outcome {
    if selected.None? || q <= 0 then Rejected(MissingInput)
    else
      match Find(products, selected.value)
      case None => Rejected(NotFound)
      case Some(p) => if p.stockQuantity < q then Rejected(InsufficientStock) else Done
  }

  /** A purchase return is accepted exactly when a purchase is selected, it
      exists and the quantity is positive. */
  lemma PurchaseReturnAccepted(purchases: seq<PurchaseEntry>, selected: Option<Id>, q: int)
    ensures PurchaseReturnCheck(purchases, selected, q) == Done
        <==> selected.Some? && q > 0 && exists k :: 0 <= k < |purchases| && purchases[k].id == selected.value
  {
  }

  /** A customer return is accepted exactly when a product is selected, it
      exists, and 0 < q <= its stock. */
  lemma CustomerReturnAccepted(products: seq<CatalogItem>, selected: Option<Id>, q: int)
    ensures CustomerReturnCheck(products, selected, q) == Done
        <==> selected.Some? && Find(products, selected.value).Some?
             && 0 < q <= Find(products, selected.value).value.stockQuantity
  {
  }

  // ------------------------------------------------- return to supplier

  /** The stock change the loop requests for each purchase line: −q, the same
      q for every line whatever quantity the line was bought in. */
  function SupplierReturnDeltas(lines: seq<PurchaseLine>, q: int): seq<Delta> {
    seq(|lines|, i requires 0 <= i < |lines| => Delta(lines[i].productId, -q))
  }

  function SupplierReturnEntry(pe: PurchaseEntry, line: PurchaseLine, q: int, today: Date, reason: string): StockTransaction {
    StockTransaction(ReturnTx, line.productId, line.productName, -q, today,
                     "RET-" + pe.invoiceNo, "Return to supplier: " + pe.supplierName + " - " + reason)
  }

  /** One `return` ledger entry per purchase line, whether or not the product
      still exists. */
  function SupplierReturnEntries(pe: PurchaseEntry, q: int, today: Date, reason: string): seq<StockTransaction> {
    seq(|pe.items|, i requires 0 <= i < |pe.items| => SupplierReturnEntry(pe, pe.items[i], q, today, reason))
  }

  function ReturnedPurchaseItem(line: PurchaseLine, q: int): BillItem {
    BillItem(line.productId, line.productName, line.batchNo, q, line.purchasePrice, line.purchasePrice,
             0.0, 0.0, (q as real) * line.purchasePrice, false)
  }

  function ReturnedPurchaseItems(lines: seq<PurchaseLine>, q: int): seq<BillItem> {
    seq(|lines|, i requires 0 <= i < |lines| => ReturnedPurchaseItem(lines[i], q))
  }

  /** The synthetic `PURCHASE-` bill: one item per purchase line, amounts
      q × Σ purchase prices, no discount, tax, payment or customer. */
  function PurchaseReturnBill(pe: PurchaseEntry, q: int, stamp: string, today: Date): Bill {
    var amount := (q as real) * Sum(pe.items, PurchasePrice);
    Bill(0, "PURCHASE-" + stamp, today, None, None, ReturnedPurchaseItems(pe.items, q), None,
         amount, 0.0, 0.0, None, amount, Cash, 0.0, 0.0)
  }

  lemma {:induction false} ReturnedItemsSum(lines: seq<PurchaseLine>, q: int)
    ensures Sum(ReturnedPurchaseItems(lines, q), ItemTotal) == (q as real) * Sum(lines, PurchasePrice)
    decreases |lines|
  {
    if lines != [] {
      var init := lines[..|lines| - 1];
      assert ReturnedPurchaseItems(lines, q)[..|lines| - 1] == ReturnedPurchaseItems(init, q);
      ReturnedItemsSum(init, q);
    }
  }

  /** The synthetic purchase-return bill's subtotal and total are both
      q × Σ purchase prices, which is Σ of its item totals; every item carries
      quantity q and total q × price; it is listed as a return bill and not as
      a regular one. */
  lemma PurchaseReturnBillTotals(pe: PurchaseEntry, q: int, stamp: string, today: Date)
    ensures var b := PurchaseReturnBill(pe, q, stamp, today);
      && b.subtotal == b.totalAmount == Sum(b.items, ItemTotal) == (q as real) * Sum(pe.items, PurchasePrice)
      && b.totalDiscount == 0.0 && b.gstAmount == 0.0 && b.paidAmount == 0.0
      && |b.items| == |pe.items|
      && (forall i :: 0 <= i < |b.items| ==>
            b.items[i].productId == pe.items[i].productId && b.items[i].quantity == q
            && b.items[i].total == (q as real) * pe.items[i].purchasePrice)
      && IsReturnBill(b) && !IsRegular(b)
  {
    ReturnedItemsSum(pe.items, q);
    var b := PurchaseReturnBill(pe, q, stamp, today);
    assert b.billNumber[..9] == "PURCHASE-";
    assert b.billNumber[..9] != "CUSTOMER-" by {
      assert b.billNumber[0] != "CUSTOMER-"[0];
    }
  }

  lemma SupplierReturnDeltaIds(pe: PurchaseEntry, q: int, stamp: string, today: Date)
    ensures DeltaIds(SupplierReturnDeltas(pe.items, q)) == LineIds(pe.items)
    ensures BillDeltas(PurchaseReturnBill(pe, q, stamp, today)) == SupplierReturnDeltas(pe.items, q)
  {
    assert ReturnDeltas(ReturnsOf(PurchaseReturnBill(pe, q, stamp, today))) == [];
  }

  /** The catalog after the loop and `addBill`, both working from a snapshot
      equal to the catalog `ps` they start from. */
  function AfterSupplierReturn(ps: seq<CatalogItem>, pe: PurchaseEntry, q: int, stamp: string, today: Date): seq<CatalogItem> {
    ApplyWrites(ApplyWrites(ps, FoundWrites(ps, SupplierReturnDeltas(pe.items, q))),
                SnapshotWrites(ps, BillDeltas(PurchaseReturnBill(pe, q, stamp, today))))
  }

  /** After the loop and `addBill`, every product named by the purchase stands
      at its entry stock − q (both passes write snapshot − q), even when the
      purchase names it twice; every other product is untouched. */
  lemma SupplierReturnEndsAtEntryLessQ(ps: seq<CatalogItem>, pe: PurchaseEntry, q: int, stamp: string, today: Date)
    requires UniqueIds(ps)
    ensures |AfterSupplierReturn(ps, pe, q, stamp, today)| == |ps|
    ensures forall k :: 0 <= k < |ps| ==>
              AfterSupplierReturn(ps, pe, q, stamp, today)[k]
              == ps[k].(stockQuantity := if ps[k].id in LineIds(pe.items) then ps[k].stockQuantity - q else ps[k].stockQuantity)
  {
    SupplierReturnDeltaIds(pe, q, stamp, today);
    forall k | 0 <= k < |ps|
      ensures AfterSupplierReturn(ps, pe, q, stamp, today)[k]
              == ps[k].(stockQuantity := if ps[k].id in LineIds(pe.items) then ps[k].stockQuantity - q else ps[k].stockQuantity)
    {
      UniformTwoPasses(ps, SupplierReturnDeltas(pe.items, q), -q, k);
    }
  }

  lemma SupplierReturnEntriesMirror(pe: PurchaseEntry, q: int, today: Date, reason: string)
    ensures Mirrors(SupplierReturnEntries(pe, q, today, reason), SupplierReturnDeltas(pe.items, q))
  {
  }

  /** When no product appears on two lines, the ledger records each returned
      product twice (a `return` entry and a `sale` entry from `addBill`, each
      −q), so its net ledger movement is twice its actual stock change. */
  lemma SupplierReturnLedgerDoubles(ps: seq<CatalogItem>, pe: PurchaseEntry, q: int, stamp: string, today: Date,
                                    reason: string, k: int)
    requires UniqueIds(ps) && 0 <= k < |ps| && Distinct(LineIds(pe.items))
    ensures NetQuantity(SupplierReturnEntries(pe, q, today, reason) + BillEntries(PurchaseReturnBill(pe, q, stamp, today)), ps[k].id)
         == 2 * (AfterSupplierReturn(ps, pe, q, stamp, today)[k].stockQuantity - ps[k].stockQuantity)
  {
    var bill := PurchaseReturnBill(pe, q, stamp, today);
    var ds := SupplierReturnDeltas(pe.items, q);
    var txs := SupplierReturnEntries(pe, q, today, reason);
    var id := ps[k].id;
    SupplierReturnEndsAtEntryLessQ(ps, pe, q, stamp, today);
    SupplierReturnDeltaIds(pe, q, stamp, today);
    NetQuantityAppend(txs, BillEntries(bill), id);
    SupplierReturnEntriesMirror(pe, q, today, reason);
    MirrorsNet(txs, ds, id);
    BillEntriesMirror(bill);
    MirrorsNet(BillEntries(bill), BillDeltas(bill), id);
    LastAmountDistinct(ds, id);
    LastAmountUniform(ds, -q, id);
  }

  // ------------------------------------------------- return from customer

  function CustomerReturnEntry(p: CatalogItem, q: int, today: Date, reason: string): StockTransaction {
    StockTransaction(ReturnTx, p.id, p.name, q, today, "CUST-RET", "Customer return - " + reason)
  }

  /** The synthetic `CUSTOMER-` bill: one line of q units at the selling price,
      with the given `mrp` (this screen passes the purchase price). */
  function CustomerReturnBill(p: CatalogItem, q: int, mrp: real, stamp: string, today: Date): Bill {
    var amount := (q as real) * p.sellingPrice;
    Bill(0, "CUSTOMER-" + stamp, today, None, None,
         [BillItem(p.id, p.name, p.batchNo, q, mrp, p.sellingPrice, 0.0, 0.0, amount, false)], None,
         amount, 0.0, 0.0, None, amount, Cash, 0.0, 0.0)
  }

  /** The synthetic customer-return bill has one line, whose total equals the
      bill's subtotal and total, q × selling price; it is listed as a return
      bill and not as a regular one. */
  lemma CustomerReturnBillTotals(p: CatalogItem, q: int, mrp: real, stamp: string, today: Date)
    ensures var b := CustomerReturnBill(p, q, mrp, stamp, today);
      && |b.items| == 1 && b.items[0].productId == p.id && b.items[0].quantity == q && b.items[0].mrp == mrp
      && b.items[0].total == b.subtotal == b.totalAmount == (q as real) * p.sellingPrice
      && Sum(b.items, ItemTotal) == b.totalAmount
      && b.totalDiscount == 0.0 && b.gstAmount == 0.0 && b.paidAmount == 0.0
      && IsReturnBill(b) && !IsRegular(b)
  {
    var b := CustomerReturnBill(p, q, mrp, stamp, today);
    assert b.items[..0] == [];
    assert b.billNumber[..9] == "CUSTOMER-";
    assert b.billNumber[..9] != "PURCHASE-" by {
      assert b.billNumber[0] != "PURCHASE-"[0];
    }
  }

  /** The catalog after the handler's own write and `addBill`, both working
      from a snapshot equal to the catalog `ps` they start from. */
  function AfterCustomerReturn(ps: seq<CatalogItem>, p: CatalogItem, q: int, mrp: real, stamp: string, today: Date): seq<CatalogItem> {
    ApplyWrites(SetStock(ps, p.id, p.stockQuantity + q), SnapshotWrites(ps, BillDeltas(CustomerReturnBill(p, q, mrp, stamp, today))))
  }

  lemma CustomerReturnAt(ps: seq<CatalogItem>, p: CatalogItem, q: int, mrp: real, stamp: string, today: Date, k: int)
    requires UniqueIds(ps) && 0 <= k < |ps|
    ensures AfterCustomerReturn(ps, p, q, mrp, stamp, today)[k]
         == if ps[k].id == p.id then ps[k].(stockQuantity := ps[k].stockQuantity - q) else ps[k]
  {
    var bill := CustomerReturnBill(p, q, mrp, stamp, today);
    var first := [Write(p.id, p.stockQuantity + q)];
    assert ApplyWrites(ps, first) == SetStock(ps, p.id, p.stockQuantity + q) by {
      assert first[..0] == [];
    }
    assert BillDeltas(bill) == [Delta(p.id, -q)];
    assert [Delta(p.id, -q)][..0] == [];
    SecondPassWins(ps, first, BillDeltas(bill), k);
  }

  /** The handler's own write (entry + q) is overwritten by `addBill`'s sale
      write (entry − q): a customer return leaves the product q units BELOW
      where it started, and every other product as it was. */
  lemma CustomerReturnEndsAtEntryLessQ(ps: seq<CatalogItem>, p: CatalogItem, q: int, mrp: real, stamp: string, today: Date)
    requires UniqueIds(ps)
    ensures |AfterCustomerReturn(ps, p, q, mrp, stamp, today)| == |ps|
    ensures forall k :: 0 <= k < |ps| ==>
              AfterCustomerReturn(ps, p, q, mrp, stamp, today)[k]
              == if ps[k].id == p.id then ps[k].(stockQuantity := ps[k].stockQuantity - q) else ps[k]
  {
    forall k | 0 <= k < |ps|
      ensures AfterCustomerReturn(ps, p, q, mrp, stamp, today)[k]
              == if ps[k].id == p.id then ps[k].(stockQuantity := ps[k].stockQuantity - q) else ps[k]
    {
      CustomerReturnAt(ps, p, q, mrp, stamp, today, k);
    }
  }

  /** The ledger records +q (`return`) and then −q (`sale`): the net ledger
      movement of a customer return is zero for every product. */
  lemma CustomerReturnLedgerCancels(p: CatalogItem, q: int, mrp: real, stamp: string, today: Date, reason: string, id: Id)
    ensures var txs := [CustomerReturnEntry(p, q, today, reason)] + BillEntries(CustomerReturnBill(p, q, mrp, stamp, today));
      |txs| == 2 && txs[0].quantity == q && txs[1].quantity == -q && NetQuantity(txs, id) == 0
  {
    var bill := CustomerReturnBill(p, q, mrp, stamp, today);
    var first := CustomerReturnEntry(p, q, today, reason);
    var sale := SaleEntry(bill, bill.items[0]);
    assert BillEntries(bill) == [sale];
    var txs := [first, sale];
    assert txs[..1] == [first] && [first][..0] == [];
    assert NetQuantity([first], id) == if p.id == id then q else 0;
  }

  // ---------------------------------------------------------- handlers

  /** One pass of the `forEach` of a return to a supplier: write the
      snapshot's stock plus the line's change if the product exists, then
      record the line's ledger entry. */
  method WriteAndRecordStep(store: Store, d: Delta, tx: StockTransaction, ghost entry: seq<CatalogItem>, ghost done: seq<Delta>)
    requires store.products == ApplyWrites(entry, FoundWrites(store.shownProducts, done))
    modifies store`products, store`ledger
    ensures store.products == ApplyWrites(entry, FoundWrites(store.shownProducts, done + [d]))
    ensures store.ledger == old(store.ledger) + [tx]
  {
    store.WriteFound(d);
    ApplyWritesAppend(entry, FoundWrites(store.shownProducts, done), FoundWrite(store.shownProducts, d));
    FoundWritesSnoc(store.shownProducts, done, d);
    store.AddStockTransaction(tx);
  }

  /** The `forEach` of a return to a supplier, over all lines. */
  method WriteAndRecord(store: Store, ds: seq<Delta>, txs: seq<StockTransaction>)
    requires |ds| == |txs|
    modifies store`products, store`ledger
    ensures store.products == ApplyWrites(old(store.products), FoundWrites(store.shownProducts, ds))
    ensures ProductIds(store.products) == ProductIds(old(store.products))
    ensures store.ledger == old(store.ledger) + txs
  {
    var i := 0;
    while i < |ds|
      invariant 0 <= i <= |ds|
      invariant store.products == ApplyWrites(old(store.products), FoundWrites(store.shownProducts, ds[..i]))
      invariant store.ledger == old(store.ledger) + txs[..i]
    {
      WriteAndRecordStep(store, ds[i], txs[i], old(store.products), ds[..i]);
      PrefixSnoc(ds, i);
      PrefixSnoc(txs, i);
      i := i + 1;
    }
    assert ds[..|ds|] == ds;
    assert txs[..|txs|] == txs;
    WritesKeepProductIds(old(store.products), FoundWrites(store.shownProducts, ds));
  }

  /** A return to a supplier once the guards passed: the loop, then `addBill`
      with the synthetic `PURCHASE-` bill. */
  method ReturnToSupplier(store: Store, pe: PurchaseEntry, q: int, reason: string, stamp: string, today: Date)
    requires store.Valid() && store.Settled()
    modifies store`bills, store`nextId, store`products, store`customers, store`ledger
    ensures store.Valid()
    ensures store.bills == old(store.bills) + [PurchaseReturnBill(pe, q, stamp, today).(id := old(store.nextId))]
    ensures store.nextId == old(store.nextId) + 1
    ensures store.products == AfterSupplierReturn(old(store.products), pe, q, stamp, today)
    ensures store.customers == old(store.customers)
    ensures store.ledger == old(store.ledger) + SupplierReturnEntries(pe, q, today, reason) + BillEntries(PurchaseReturnBill(pe, q, stamp, today))
  {
    WriteAndRecord(store, SupplierReturnDeltas(pe.items, q), SupplierReturnEntries(pe, q, today, reason));
    store.AddBill(PurchaseReturnBill(pe, q, stamp, today));
  }

  /** A return from a customer once the guards passed: the handler's own
      stock write and ledger entry, then `addBill` with the synthetic
      `CUSTOMER-` bill. */
  method TakeBackFromCustomer(store: Store, p: CatalogItem, q: int, mrp: real, reason: string, stamp: string, today: Date)
    requires store.Valid() && store.Settled()
    modifies store`bills, store`nextId, store`products, store`customers, store`ledger
    ensures store.Valid()
    ensures store.bills == old(store.bills) + [CustomerReturnBill(p, q, mrp, stamp, today).(id := old(store.nextId))]
    ensures store.nextId == old(store.nextId) + 1
    ensures store.products == AfterCustomerReturn(old(store.products), p, q, mrp, stamp, today)
    ensures store.customers == old(store.customers)
    ensures store.ledger == old(store.ledger) + [CustomerReturnEntry(p, q, today, reason)] + BillEntries(CustomerReturnBill(p, q, mrp, stamp, today))
  {
    store.UpdateStock(p.id, p.stockQuantity + q);
    assert ProductIds(store.products) == ProductIds(old(store.products));
    store.AddStockTransaction(CustomerReturnEntry(p, q, today, reason));
    store.AddBill(CustomerReturnBill(p, q, mrp, stamp, today));
  }

  class SalesReturnScreen {
    var selectedPurchase: Option<Id>
    var selectedProduct: Option<Id>
    var returnQuantity: int
    var returnReason: string

    constructor ()
      ensures selectedPurchase.None? && selectedProduct.None? && returnQuantity == 0 && returnReason == ""
    {
      selectedPurchase, selectedProduct, returnQuantity, returnReason := None, None, 0, "";
    }

    /** `handlePurchaseReturn` on a rendered screen: a rejected return changes
        nothing; an accepted one runs the return to the supplier (see
        `SupplierReturnEndsAtEntryLessQ` for the resulting stock) and resets
        the form. */
    method HandlePurchaseReturn(store: Store, stamp: string, today: Date) returns (outcome: Outcome)
      requires store.Valid() && store.Settled()
      modifies this`selectedPurchase, this`returnQuantity, this`returnReason
      modifies store`bills, store`nextId, store`products, store`customers, store`ledger
      ensures store.Valid()
      ensures outcome == PurchaseReturnCheck(old(store.purchases), old(selectedPurchase), old(returnQuantity))
      ensures outcome.Rejected? ==>
                && store.bills == old(store.bills) && store.nextId == old(store.nextId)
                && store.products == old(store.products) && store.customers == old(store.customers)
                && store.ledger == old(store.ledger)
                && selectedPurchase == old(selectedPurchase) && returnQuantity == old(returnQuantity)
                && returnReason == old(returnReason)
      ensures outcome.Done? ==>
                var pe := FindPurchase(old(store.purchases), old(selectedPurchase).value).value;
                var bill := PurchaseReturnBill(pe, old(returnQuantity), stamp, today);
                && store.bills == old(store.bills) + [bill.(id := old(store.nextId))]
                && store.nextId == old(store.nextId) + 1
                && store.products == AfterSupplierReturn(old(store.products), pe, old(returnQuantity), stamp, today)
                && store.customers == old(store.customers)
                && store.ledger == old(store.ledger) + SupplierReturnEntries(pe, old(returnQuantity), today, old(returnReason)) + BillEntries(bill)
                && selectedPurchase.None? && returnQuantity == 0 && returnReason == ""
    {
      outcome := PurchaseReturnCheck(store.purchases, selectedPurchase, returnQuantity);
      if outcome.Rejected? {
        return;
      }
      var pe := FindPurchase(store.purchases, selectedPurchase.value).value;
      ReturnToSupplier(store, pe, returnQuantity, returnReason, stamp, today);
      selectedPurchase := None;
      returnQuantity := 0;
      returnReason := "";
    }

    /** `handleCustomerReturn` on a rendered screen: a rejected return changes
        nothing; an accepted one takes the product back (see
        `CustomerReturnEndsAtEntryLessQ` for the resulting stock), with the
        purchase price as the bill line's `mrp`, and resets the form. */
    method HandleCustomerReturn(store: Store, stamp: string, today: Date) returns (outcome: Outcome)
      requires store.Valid() && store.Settled()
      modifies this`selectedProduct, this`returnQuantity, this`returnReason
      modifies store`bills, store`nextId, store`products, store`customers, store`ledger
      ensures store.Valid()
      ensures outcome == CustomerReturnCheck(old(store.products), old(selectedProduct), old(returnQuantity))
      ensures outcome.Rejected? ==>
                && store.bills == old(store.bills) && store.nextId == old(store.nextId)
                && store.products == old(store.products) && store.customers == old(store.customers)
                && store.ledger == old(store.ledger)
                && selectedProduct == old(selectedProduct) && returnQuantity == old(returnQuantity)
                && returnReason == old(returnReason)
      ensures outcome.Done? ==>
                var p := Find(old(store.products), old(selectedProduct).value).value;
                var bill := CustomerReturnBill(p, old(returnQuantity), p.purchasePrice, stamp, today);
                && store.bills == old(store.bills) + [bill.(id := old(store.nextId))]
                && store.nextId == old(store.nextId) + 1
                && store.products == AfterCustomerReturn(old(store.products), p, old(returnQuantity), p.purchasePrice, stamp, today)
                && store.customers == old(store.customers)
                && store.ledger == old(store.ledger) + [CustomerReturnEntry(p, old(returnQuantity), today, old(returnReason))] + BillEntries(bill)
                && selectedProduct.None? && returnQuantity == 0 && returnReason == ""
    {
      outcome := CustomerReturnCheck(store.shownProducts, selectedProduct, returnQuantity);
      if outcome.Rejected? {
        return;
      }
      var p := Find(store.shownProducts, selectedProduct.value).value;
      TakeBackFromCustomer(store, p, returnQuantity, p.purchasePrice, returnReason, stamp, today);
      selectedProduct := None;
      returnQuantity := 0;
      returnReason := "";
    }
  }
}
