/** The inventory screen: a manual stock adjustment for one selected item, and
    the supplier-bill form that records a purchase through `addPurchase`. The
    retail copy and the pharmacy copy of the screen differ only in naming
    (product / medicine) and in reading a missing batch or expiry as "";
    both are this module. */
module Inventory {
  import opened Common
  import opened Records
  import opened StockWrites
  import opened AppStore

  // ------------------------------------------------------ stock adjustment

  /** `handleStockUpdate`'s guards, in order: an item is selected and the
      quantity is not zero; the resulting stock is not negative. */
  function StockUpdateCheck(selected: Option<CatalogItem>, q: int): (r: Outcome)
    ensures r == Done <==> selected.Some? && q != 0 && selected.value.stockQuantity + q >= 0
    ensures selected.Some? && selected.value.stockQuantity >= 0 && r == Rejected(BelowZero) ==> q < 0
  {
    if selected.None? || q == 0 then Rejected(MissingInput)
    else if selected.value.stockQuantity + q < 0 then Rejected(BelowZero)
    else Done
  }

  /** The ledger entry of an adjustment: the signed quantity, under the type
      chosen in the form, referenced "ADJ-<stamp>". */
  function AdjustmentEntry(p: CatalogItem, txType: TxType, q: int, today: Date, stamp: string): StockTransaction {
    StockTransaction(txType, p.id, p.name, q, today, "ADJ-" + stamp, "")
  }

  /** An accepted adjustment of the item at position k, selected while it was
      current, moves its stock by exactly what the ledger entry records and
      keeps it non-negative; every other item is left alone. */
  lemma AdjustmentReconciles(ps: seq<CatalogItem>, txType: TxType, q: int, today: Date, stamp: string, k: int, j: int)
    requires UniqueIds(ps) && 0 <= k < |ps| && 0 <= j < |ps|
    requires StockUpdateCheck(Some(ps[k]), q) == Done
    ensures SetStock(ps, ps[k].id, ps[k].stockQuantity + q)[k].stockQuantity
         == ps[k].stockQuantity + NetQuantity([AdjustmentEntry(ps[k], txType, q, today, stamp)], ps[k].id)
    ensures SetStock(ps, ps[k].id, ps[k].stockQuantity + q)[k].stockQuantity >= 0
    ensures j != k ==> SetStock(ps, ps[k].id, ps[k].stockQuantity + q)[j] == ps[j]
  {
    var e := AdjustmentEntry(ps[k], txType, q, today, stamp);
    assert [e][..0] == [];
    assert NetQuantity([e], ps[k].id) == q;
  }

  /** The form keeps the record as it was when chosen. If a sale of s units
      is recorded between choosing the item and saving the adjustment, the
      save writes the chosen copy's stock plus q over the sale's write, so the
      catalog ends q above where it started while the ledger nets q − s. */
  lemma SaleBeforeSaveIsLost(ps: seq<CatalogItem>, k: int, s: int, sale: StockTransaction,
                             txType: TxType, q: int, today: Date, stamp: string)
    requires 0 <= k < |ps| && sale.productId == ps[k].id && sale.quantity == -s
    requires StockUpdateCheck(Some(ps[k]), q) == Done
    ensures var afterSale := SetStock(ps, ps[k].id, ps[k].stockQuantity - s);
            SetStock(afterSale, ps[k].id, ps[k].stockQuantity + q)[k].stockQuantity == ps[k].stockQuantity + q
    ensures NetQuantity([sale, AdjustmentEntry(ps[k], txType, q, today, stamp)], ps[k].id) == q - s
  {
    var e := AdjustmentEntry(ps[k], txType, q, today, stamp);
    assert [sale, e][..1] == [sale];
    assert [sale][..0] == [];
    assert NetQuantity([sale], ps[k].id) == -s;
    assert NetQuantity([sale, e], ps[k].id) == NetQuantity([sale], ps[k].id) + q;
  }

  // ---------------------------------------------------- supplier bill form

  /** A form row: the chosen item ("" is `None`), quantity and unit price. */
  datatype FormLine = FormLine(productId: Option<Id>, quantity: int, purchasePrice: real)

  const BlankLine := FormLine(None, 0, 0.0)

  predicate ValidFormLine(l: FormLine) {
    l.productId.Some? && l.quantity > 0 && l.purchasePrice > 0.0
  }

  predicate Known(ps: seq<CatalogItem>, l: FormLine) {
    l.productId.Some? && Find(ps, l.productId.value).Some?
  }

  predicate AllKnown(ps: seq<CatalogItem>, lines: seq<FormLine>) {
    forall i :: 0 <= i < |lines| ==> Known(ps, lines[i])
  }

  /** `suppliers.find(s => s.id === supplierId)`; nothing is selected as "". */
  function FindSupplier(ss: seq<Supplier>, id: Option<Id>): (r: Option<Supplier>)
    ensures r.Some? ==> id.Some? && r.value in ss && r.value.id == id.value
    ensures id.Some? && (exists k :: 0 <= k < |ss| && ss[k].id == id.value) ==> r.Some?
  {
    if id.None? then None else FindBy(ss, SupplierId, id.value)
  }

  /** The submit handler's guards, in order: a known supplier, an invoice
      number, at least one row and every row valid, and every row naming a
      catalog item (otherwise the handler throws before recording anything). */
  function PurchaseFormCheck(ss: seq<Supplier>, ps: seq<CatalogItem>, supplierId: Option<Id>, invoiceNo: string, lines: seq<FormLine>): (r: Outcome)
    ensures r == Done <==>
              && FindSupplier(ss, supplierId).Some? && invoiceNo != "" && |lines| > 0
              && (forall i :: 0 <= i < |lines| ==> ValidFormLine(lines[i])) && AllKnown(ps, lines)
    ensures r == Rejected(UnknownProduct) ==> forall i :: 0 <= i < |lines| ==> ValidFormLine(lines[i])
  {
    if FindSupplier(ss, supplierId).None? then Rejected(MissingSupplier)
    else if invoiceNo == "" then Rejected(MissingInvoice)
    else if |lines| == 0 || exists i :: 0 <= i < |lines| && !ValidFormLine(lines[i]) then Rejected(InvalidItems)
    else if exists i :: 0 <= i < |lines| && !Known(ps, lines[i]) then Rejected(UnknownProduct)
    else Done
  }

  /** A purchase line: the form's quantity and price, the catalog's name,
      batch and expiry. */
  function PurchaseLineOf(p: CatalogItem, l: FormLine): PurchaseLine {
    PurchaseLine(p.id, p.name, l.quantity, l.purchasePrice, p.batchNo, p.expiryDate)
  }

  function PurchaseLines(ps: seq<CatalogItem>, lines: seq<FormLine>): seq<PurchaseLine>
    requires AllKnown(ps, lines)
  {
    seq(|lines|, i requires 0 <= i < |lines| => PurchaseLineOf(Find(ps, lines[i].productId.value).value, lines[i]))
  }

  function LineCost(it: PurchaseLine): real {
    (it.quantity as real) * it.purchasePrice
  }

  function FormLineCost(l: FormLine): real {
    (l.quantity as real) * l.purchasePrice
  }

  /** The purchase the form records; the store gives it its id. */
  function FormPurchase(supplier: Supplier, invoiceNo: string, date: Date, items: seq<PurchaseLine>): PurchaseEntry {
    PurchaseEntry(0, supplier.name, invoiceNo, date, items, Sum(items, LineCost))
  }

  /** Each purchase line names the product its row chose, with the catalog's
      name and batch and the row's quantity and price. */
  lemma PurchaseLinesFollowForm(ps: seq<CatalogItem>, lines: seq<FormLine>, i: int)
    requires AllKnown(ps, lines) && 0 <= i < |lines|
    ensures |PurchaseLines(ps, lines)| == |lines|
    ensures var it := PurchaseLines(ps, lines)[i];
            var p := Find(ps, lines[i].productId.value).value;
            && it.productId == lines[i].productId.value && it.productName == p.name && it.batchNo == p.batchNo
            && it.quantity == lines[i].quantity && it.purchasePrice == lines[i].purchasePrice
  {
  }

  /** The bill's total is Σ quantity × price over the form's rows. */
  lemma {:induction false} PurchaseTotalOfForm(ps: seq<CatalogItem>, lines: seq<FormLine>)
    requires AllKnown(ps, lines)
    ensures Sum(PurchaseLines(ps, lines), LineCost) == Sum(lines, FormLineCost)
    decreases |lines|
  {
    if lines != [] {
      var init := lines[..|lines| - 1];
      assert PurchaseLines(ps, lines)[..|lines| - 1] == PurchaseLines(ps, init);
      PurchaseTotalOfForm(ps, init);
    }
  }

  /** Rows with positive quantity and price add up to a positive total. */
  lemma {:induction false} ValidRowsCostSomething(lines: seq<FormLine>)
    requires |lines| > 0 && forall i :: 0 <= i < |lines| ==> ValidFormLine(lines[i])
    ensures Sum(lines, FormLineCost) > 0.0
    decreases |lines|
  {
    var last := lines[|lines| - 1];
    assert ValidFormLine(last);
    assert FormLineCost(last) > 0.0 by {
      assert (last.quantity as real) >= 1.0;
    }
    var init := lines[..|lines| - 1];
    if init != [] {
      ValidRowsCostSomething(init);
    }
  }

  /** An accepted form records a purchase whose total is positive and is
      Σ quantity × price over its rows. */
  lemma AcceptedFormTotal(ss: seq<Supplier>, ps: seq<CatalogItem>, supplierId: Option<Id>, invoiceNo: string, date: Date, lines: seq<FormLine>)
    requires PurchaseFormCheck(ss, ps, supplierId, invoiceNo, lines) == Done
    ensures var pe := FormPurchase(FindSupplier(ss, supplierId).value, invoiceNo, date, PurchaseLines(ps, lines));
            pe.totalAmount == Sum(lines, FormLineCost) && pe.totalAmount > 0.0
  {
    PurchaseTotalOfForm(ps, lines);
    ValidRowsCostSomething(lines);
  }

  function FormIds(lines: seq<FormLine>): seq<Option<Id>> {
    seq(|lines|, i requires 0 <= i < |lines| => lines[i].productId)
  }

  /** When no item is chosen on two rows, recording the form raises the item
      a row names by that row's quantity. */
  lemma SubmittedRowRaisesStock(ps: seq<CatalogItem>, lines: seq<FormLine>, j: int, k: int)
    requires UniqueIds(ps) && AllKnown(ps, lines) && Distinct(FormIds(lines))
    requires 0 <= j < |lines| && 0 <= k < |ps| && lines[j].productId == Some(ps[k].id)
    ensures ApplyWrites(ps, FoundWrites(ps, PurchaseDeltas(PurchaseLines(ps, lines))))[k].stockQuantity
         == ps[k].stockQuantity + lines[j].quantity
  {
    var ds := PurchaseDeltas(PurchaseLines(ps, lines));
    forall a, b | 0 <= a < b < |ds|
      ensures DeltaIds(ds)[a] != DeltaIds(ds)[b]
    {
      assert FormIds(lines)[a] != FormIds(lines)[b];
    }
    FoundWritesAt(ps, ds, k);
    LastAmountAt(ds, j);
  }

  // ------------------------------------------------------------ the screen

  class InventoryScreen {
    var showStockUpdate: bool
    var selected: Option<CatalogItem>
    var txType: TxType
    var quantity: int

    var showPurchaseModal: bool
    var supplierId: Option<Id>
    var invoiceNo: string
    var date: Date
    var lines: seq<FormLine>

    constructor (today: Date)
      ensures !showStockUpdate && selected.None? && txType == AdjustmentTx && quantity == 0
      ensures !showPurchaseModal && supplierId.None? && invoiceNo == "" && date == today && lines == [BlankLine]
    {
      showStockUpdate, selected, txType, quantity := false, None, AdjustmentTx, 0;
      showPurchaseModal, supplierId, invoiceNo, date, lines := false, None, "", today, [BlankLine];
    }

    /** Choosing an item in the adjustment form keeps a copy of the rendered
        record; an id the catalog lacks leaves the selection as it was. */
    method SelectProduct(store: Store, id: Id)
      modifies this`selected
      ensures Find(store.shownProducts, id).Some? ==> selected == Find(store.shownProducts, id)
      ensures Find(store.shownProducts, id).None? ==> selected == old(selected)
    {
      var product := Find(store.shownProducts, id);
      if product.Some? {
        selected := product;
      }
    }

    /** `handleStockUpdate`: a rejected adjustment changes nothing; an
        accepted one writes the selected copy's stock plus the quantity,
        appends one ledger entry and closes the form. */
    method HandleStockUpdate(store: Store, stamp: string, today: Date) returns (outcome: Outcome)
      requires store.Valid()
      modifies this`showStockUpdate, this`selected, store`products, store`ledger
      ensures store.Valid()
      ensures outcome == StockUpdateCheck(old(selected), quantity)
      ensures outcome.Rejected? ==>
                && store.products == old(store.products) && store.ledger == old(store.ledger)
                && selected == old(selected) && showStockUpdate == old(showStockUpdate)
      ensures outcome.Done? ==>
                var p := old(selected).value;
                && store.products == SetStock(old(store.products), p.id, p.stockQuantity + quantity)
                && store.ledger == old(store.ledger) + [AdjustmentEntry(p, txType, quantity, today, stamp)]
                && !showStockUpdate && selected.None?
    {
      outcome := StockUpdateCheck(selected, quantity);
      if outcome.Rejected? {
        return;
      }
      var p := selected.value;
      assert ProductIds(SetStock(store.products, p.id, p.stockQuantity + quantity)) == ProductIds(store.products);
      store.UpdateStock(p.id, p.stockQuantity + quantity);
      store.AddStockTransaction(AdjustmentEntry(p, txType, quantity, today, stamp));
      showStockUpdate := false;
      selected := None;
    }

    /** The supplier-bill submit: a rejected form changes nothing; an accepted
        one records the purchase through `addPurchase` and resets the form. */
    method HandleSubmitPurchase(store: Store, today: Date) returns (outcome: Outcome)
      requires store.Valid()
      modifies this`showPurchaseModal, this`supplierId, this`invoiceNo, this`date, this`lines
      modifies store`purchases, store`nextId, store`products, store`ledger
      ensures store.Valid()
      ensures outcome == PurchaseFormCheck(store.suppliers, store.shownProducts, old(supplierId), old(invoiceNo), old(lines))
      ensures outcome.Rejected? ==>
                && store.purchases == old(store.purchases) && store.nextId == old(store.nextId)
                && store.products == old(store.products) && store.ledger == old(store.ledger)
                && supplierId == old(supplierId) && invoiceNo == old(invoiceNo) && date == old(date) && lines == old(lines)
      ensures outcome.Done? ==>
                var pe := FormPurchase(FindSupplier(store.suppliers, old(supplierId)).value, old(invoiceNo), old(date),
                                       PurchaseLines(store.shownProducts, old(lines)));
                && store.purchases == old(store.purchases) + [pe.(id := old(store.nextId))]
                && store.nextId == old(store.nextId) + 1
                && store.products == ApplyWrites(old(store.products), FoundWrites(store.shownProducts, PurchaseDeltas(pe.items)))
                && store.ledger == old(store.ledger) + PurchaseEntries(pe)
                && !showPurchaseModal && supplierId.None? && invoiceNo == "" && date == today && lines == [BlankLine]
    {
      outcome := PurchaseFormCheck(store.suppliers, store.shownProducts, supplierId, invoiceNo, lines);
      if outcome.Rejected? {
        return;
      }
      var supplier := FindSupplier(store.suppliers, supplierId).value;
      var items := PurchaseLines(store.shownProducts, lines);
      store.AddPurchase(FormPurchase(supplier, invoiceNo, date, items));
      showPurchaseModal, supplierId, invoiceNo, date, lines := false, None, "", today, [BlankLine];
    }
  }
}
