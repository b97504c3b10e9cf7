/** The sales-return dialog (medicine naming). Its handlers have the same
    guards, ledger entries and synthetic bills as the sales-return screen,
    with two differences: the return to a supplier lowers each line's stock
    by the quantity the line was bought in rather than by the quantity
    returned, and the customer-return bill line takes the item's `mrp`. */
module SalesReturnDialog {
  import opened Common
  import opened Records
  import opened StockWrites
  import opened AppStore
  import opened SalesReturns

  /** The stock change the dialog's loop requests for each purchase line:
      minus the quantity the line was bought in. */
  function PurchasedQuantityDeltas(lines: seq<PurchaseLine>): seq<Delta> {
    seq(|lines|, i requires 0 <= i < |lines| => Delta(lines[i].productId, -lines[i].quantity))
  }

  lemma PurchasedQuantityDeltaIds(lines: seq<PurchaseLine>)
    ensures DeltaIds(PurchasedQuantityDeltas(lines)) == LineIds(lines)
  {
  }

  /** The catalog after the dialog's loop and `addBill`, both working from a
      snapshot equal to the catalog `ps` they start from. */
  function AfterDialogSupplierReturn(ps: seq<CatalogItem>, pe: PurchaseEntry, q: int, stamp: string, today: Date): seq<CatalogItem> {
    ApplyWrites(ApplyWrites(ps, FoundWrites(ps, PurchasedQuantityDeltas(pe.items))),
                SnapshotWrites(ps, BillDeltas(PurchaseReturnBill(pe, q, stamp, today))))
  }

  /** Between the loop and `addBill`, when no product appears on two lines:
      each product of the purchase has fallen by the quantity its line was
      bought in, whatever quantity is being returned. */
  lemma LoopLowersByPurchasedQuantity(ps: seq<CatalogItem>, pe: PurchaseEntry, j: int, k: int)
    requires UniqueIds(ps) && Distinct(LineIds(pe.items))
    requires 0 <= j < |pe.items| && 0 <= k < |ps| && ps[k].id == pe.items[j].productId
    ensures ApplyWrites(ps, FoundWrites(ps, PurchasedQuantityDeltas(pe.items)))[k].stockQuantity
         == ps[k].stockQuantity - pe.items[j].quantity
  {
    var ds := PurchasedQuantityDeltas(pe.items);
    PurchasedQuantityDeltaIds(pe.items);
    FoundWritesAt(ps, ds, k);
    LastAmountAt(ds, j);
  }

  lemma DialogAt(ps: seq<CatalogItem>, pe: PurchaseEntry, q: int, stamp: string, today: Date, k: int)
    requires UniqueIds(ps) && 0 <= k < |ps|
    ensures AfterDialogSupplierReturn(ps, pe, q, stamp, today)[k]
         == ps[k].(stockQuantity := if ps[k].id in LineIds(pe.items) then ps[k].stockQuantity - q else ps[k].stockQuantity)
  {
    var ds := PurchasedQuantityDeltas(pe.items);
    var bs := SupplierReturnDeltas(pe.items, q);
    SupplierReturnDeltaIds(pe, q, stamp, today);
    PurchasedQuantityDeltaIds(pe.items);
    LastAmountUniform(bs, -q, ps[k].id);
    SecondPassWins(ps, FoundWrites(ps, ds), bs, k);
    if ps[k].id !in LineIds(pe.items) {
      LastAmountAbsent(ds, ps[k].id);
      FoundWritesAt(ps, ds, k);
    }
  }

  /** ... but `addBill` then overwrites every product of the purchase with
      snapshot − q, so the dialog ends exactly where the sales-return screen
      does: its different loop arithmetic leaves no trace in the stock. */
  lemma DialogEndsLikeScreen(ps: seq<CatalogItem>, pe: PurchaseEntry, q: int, stamp: string, today: Date)
    requires UniqueIds(ps)
    ensures AfterDialogSupplierReturn(ps, pe, q, stamp, today) == AfterSupplierReturn(ps, pe, q, stamp, today)
  {
    SupplierReturnEndsAtEntryLessQ(ps, pe, q, stamp, today);
    forall k | 0 <= k < |ps|
      ensures AfterDialogSupplierReturn(ps, pe, q, stamp, today)[k] == AfterSupplierReturn(ps, pe, q, stamp, today)[k]
    {
      DialogAt(ps, pe, q, stamp, today, k);
    }
  }

  /** The stock side of a purchase of 5 units returned 2 at a time, in the
      loop: stock falls by the 5 units purchased. */
  lemma DisagreeingLoop(p: CatalogItem, line: PurchaseLine, pe: PurchaseEntry)
    requires line.productId == p.id && line.quantity == 5 && pe.items == [line]
    ensures ApplyWrites([p], FoundWrites([p], PurchasedQuantityDeltas(pe.items)))[0].stockQuantity == p.stockQuantity - 5
  {
    assert Distinct(LineIds(pe.items));
    LoopLowersByPurchasedQuantity([p], pe, 0, 0);
  }

  /** The stock side after `addBill`: stock stands 2 below the start. */
  lemma DisagreeingEnd(p: CatalogItem, line: PurchaseLine, pe: PurchaseEntry, stamp: string, today: Date)
    requires line.productId == p.id && pe.items == [line]
    ensures AfterDialogSupplierReturn([p], pe, 2, stamp, today)[0].stockQuantity == p.stockQuantity - 2
  {
    DialogEndsLikeScreen([p], pe, 2, stamp, today);
    SupplierReturnEndsAtEntryLessQ([p], pe, 2, stamp, today);
    assert p.id in LineIds(pe.items);
  }

  /** The ledger side: the loop's entry records −2, and with `addBill`'s own
      −2 the ledger records −4. */
  lemma DisagreeingLedger(p: CatalogItem, line: PurchaseLine, pe: PurchaseEntry, stamp: string, today: Date, reason: string)
    requires line.productId == p.id && line.quantity == 5 && pe.items == [line]
    ensures NetQuantity(SupplierReturnEntries(pe, 2, today, reason), p.id) == -2
    ensures NetQuantity(SupplierReturnEntries(pe, 2, today, reason) + BillEntries(PurchaseReturnBill(pe, 2, stamp, today)), p.id) == -4
  {
    assert Distinct(LineIds(pe.items));
    SupplierReturnLedgerDoubles([p], pe, 2, stamp, today, reason, 0);
    var txs := SupplierReturnEntries(pe, 2, today, reason);
    assert txs[..0] == [];
  }

  /** A purchase of 5 units returned 2 at a time: the loop lowers stock by 5
      while its ledger entry records −2; after `addBill` the stock is down 2
      and the ledger, with `addBill`'s own −2, records −4. */
  lemma StockAndLedgerDisagree(p: CatalogItem, line: PurchaseLine, pe: PurchaseEntry, stamp: string, today: Date, reason: string)
    requires line.productId == p.id && line.quantity == 5 && pe.items == [line]
    ensures ApplyWrites([p], FoundWrites([p], PurchasedQuantityDeltas(pe.items)))[0].stockQuantity == p.stockQuantity - 5
    ensures NetQuantity(SupplierReturnEntries(pe, 2, today, reason), p.id) == -2
    ensures AfterDialogSupplierReturn([p], pe, 2, stamp, today)[0].stockQuantity == p.stockQuantity - 2
    ensures NetQuantity(SupplierReturnEntries(pe, 2, today, reason) + BillEntries(PurchaseReturnBill(pe, 2, stamp, today)), p.id) == -4
  {
    DisagreeingLoop(p, line, pe);
    DisagreeingEnd(p, line, pe, stamp, today);
    DisagreeingLedger(p, line, pe, stamp, today, reason);
  }

  /** A return to a supplier from the dialog once the guards passed. */
  method ReturnToSupplierByLine(store: Store, pe: PurchaseEntry, q: int, reason: string, stamp: string, today: Date)
    requires store.Valid() && store.Settled()
    modifies store`bills, store`nextId, store`products, store`customers, store`ledger
    ensures store.Valid()
    ensures store.bills == old(store.bills) + [PurchaseReturnBill(pe, q, stamp, today).(id := old(store.nextId))]
    ensures store.nextId == old(store.nextId) + 1
    ensures store.products == AfterDialogSupplierReturn(old(store.products), pe, q, stamp, today)
    ensures store.customers == old(store.customers)
    ensures store.ledger == old(store.ledger) + SupplierReturnEntries(pe, q, today, reason) + BillEntries(PurchaseReturnBill(pe, q, stamp, today))
  {
    WriteAndRecord(store, PurchasedQuantityDeltas(pe.items), SupplierReturnEntries(pe, q, today, reason));
    store.AddBill(PurchaseReturnBill(pe, q, stamp, today));
  }

  class SalesReturnModal {
    var selectedPurchase: Option<Id>
    var selectedMedicine: Option<Id>
    var returnQuantity: int
    var returnReason: string

    constructor ()
      ensures selectedPurchase.None? && selectedMedicine.None? && returnQuantity == 0 && returnReason == ""
    {
      selectedPurchase, selectedMedicine, returnQuantity, returnReason := None, None, 0, "";
    }

    /** `handlePurchaseReturn`: a rejected return changes nothing; an accepted
        one runs the dialog's return to the supplier (see
        `DialogEndsLikeScreen` for the resulting stock) and resets the form. */
    method HandlePurchaseReturn(store: Store, stamp: string, today: Date) returns (outcome: Outcome)
      requires store.Valid() && store.Settled()
      modifies this`selectedPurchase, this`returnQuantity, this`returnReason
      modifies store`bills, store`nextId, store`products, store`customers, store`ledger
      ensures store.Valid()
      ensures outcome == PurchaseReturnCheck(old(store.purchases), old(selectedPurchase), old(returnQuantity))
      ensures outcome.Rejected? ==>
                && store.bills == old(store.bills) && store.nextId == old(store.nextId)
                && store.products == old(store.products) && store.customers == old(store.customers)
                && store.ledger == old(store.ledger)
                && selectedPurchase == old(selectedPurchase) && returnQuantity == old(returnQuantity)
                && returnReason == old(returnReason)
      ensures outcome.Done? ==>
                var pe := FindPurchase(old(store.purchases), old(selectedPurchase).value).value;
                var bill := PurchaseReturnBill(pe, old(returnQuantity), stamp, today);
                && store.bills == old(store.bills) + [bill.(id := old(store.nextId))]
                && store.nextId == old(store.nextId) + 1
                && store.products == AfterDialogSupplierReturn(old(store.products), pe, old(returnQuantity), stamp, today)
                && store.customers == old(store.customers)
                && store.ledger == old(store.ledger) + SupplierReturnEntries(pe, old(returnQuantity), today, old(returnReason)) + BillEntries(bill)
                && selectedPurchase.None? && returnQuantity == 0 && returnReason == ""
    {
      outcome := PurchaseReturnCheck(store.purchases, selectedPurchase, returnQuantity);
      if outcome.Rejected? {
        return;
      }
      var pe := FindPurchase(store.purchases, selectedPurchase.value).value;
      ReturnToSupplierByLine(store, pe, returnQuantity, returnReason, stamp, today);
      selectedPurchase := None;
      returnQuantity := 0;
      returnReason := "";
    }

    /** `handleCustomerReturn`: as on the sales-return screen, but the bill
        line's `mrp` is the item's own `mrp`. */
    method HandleCustomerReturn(store: Store, stamp: string, today: Date) returns (outcome: Outcome)
      requires store.Valid() && store.Settled()
      modifies this`selectedMedicine, this`returnQuantity, this`returnReason
      modifies store`bills, store`nextId, store`products, store`customers, store`ledger
      ensures store.Valid()
      ensures outcome == CustomerReturnCheck(old(store.products), old(selectedMedicine), old(returnQuantity))
      ensures outcome.Rejected? ==>
                && store.bills == old(store.bills) && store.nextId == old(store.nextId)
                && store.products == old(store.products) && store.customers == old(store.customers)
                && store.ledger == old(store.ledger)
                && selectedMedicine == old(selectedMedicine) && returnQuantity == old(returnQuantity)
                && returnReason == old(returnReason)
      ensures outcome.Done? ==>
                var m := Find(old(store.products), old(selectedMedicine).value).value;
                var bill := CustomerReturnBill(m, old(returnQuantity), m.mrp, stamp, today);
                && store.bills == old(store.bills) + [bill.(id := old(store.nextId))]
                && store.nextId == old(store.nextId) + 1
                && store.products == AfterCustomerReturn(old(store.products), m, old(returnQuantity), m.mrp, stamp, today)
                && store.customers == old(store.customers)
                && store.ledger == old(store.ledger) + [CustomerReturnEntry(m, old(returnQuantity), today, old(returnReason))] + BillEntries(bill)
                && selectedMedicine.None? && returnQuantity == 0 && returnReason == ""
    {
      outcome := CustomerReturnCheck(store.shownProducts, selectedMedicine, returnQuantity);
      if outcome.Rejected? {
        return;
      }
      var m := Find(store.shownProducts, selectedMedicine.value).value;
      TakeBackFromCustomer(store, m, returnQuantity, m.mrp, returnReason, stamp, today);
      selectedMedicine := None;
      returnQuantity := 0;
      returnReason := "";
    }
  }
}
