/** The billing screen: the cart of bill lines, the bill totals, and the commit
    of a finished bill to the store. */
module Billing {
  import opened Common
  import opened Records
  import opened StockWrites
  import opened AppStore

  // --------------------------------------------------------- line totals

  /** Selling price × quantity, before the line discount. */
  function Gross(item: BillItem): real {
    item.sellingPrice * item.quantity as real
  }

  /** The line's discount amount: `discount` is a percentage of the gross. */
  function LineDiscount(item: BillItem): real {
    Gross(item) * item.discount / 100.0
  }

  /** `calculateItemTotal`: the gross less the line discount. With a discount
      between 0 and 100 per cent, the total lies between 0 and the gross. */
  function LineTotal(item: BillItem): (r: real)
    ensures 0.0 <= item.discount <= 100.0 && Gross(item) >= 0.0 ==> 0.0 <= r <= Gross(item)
  {
    var g := Gross(item);
    assert 0.0 <= item.discount <= 100.0 && g >= 0.0 ==> 0.0 <= g * item.discount / 100.0 <= g by {
      if 0.0 <= item.discount <= 100.0 && g >= 0.0 {
        assert g * item.discount <= g * 100.0;
      }
    }
    g - LineDiscount(item)
  }

  // --------------------------------------------------------- bill totals

  datatype Totals = Totals(
    subtotal: real,
    billDiscount: real,
    afterDiscount: real,
    gstAmount: real,
    returnAmount: real,
    finalTotal: real,
    totalSavings: real)

  /** `calculateBillTotals`: Σ line totals, less the bill discount, plus GST on
      the discounted amount, less the returned lines' |total|s. The returned
      amount is never negative. */
  function BillTotals(items: seq<BillItem>, returned: seq<BillItem>, discountPct: real, gstPct: real): (t: Totals)
    ensures t.returnAmount >= 0.0
  {
    var subtotal := Sum(items, LineTotal);
    var billDiscount := subtotal * discountPct / 100.0;
    var afterDiscount := subtotal - billDiscount;
    var gstAmount := afterDiscount * gstPct / 100.0;
    AbsTotalsNonNegative(returned);
    var returnAmount := Sum(returned, AbsTotal);
    Totals(subtotal, billDiscount, afterDiscount, gstAmount, returnAmount,
           afterDiscount + gstAmount - returnAmount,
           Sum(items, LineDiscount) + billDiscount)
  }

  /** The final total in closed form: the subtotal scaled by (1 − d/100) and by
      (1 + g/100), less the returns. */
  lemma FinalTotalClosedForm(items: seq<BillItem>, returned: seq<BillItem>, d: real, g: real)
    ensures BillTotals(items, returned, d, g).finalTotal
         == Sum(items, LineTotal) * (1.0 - d / 100.0) * (1.0 + g / 100.0) - Sum(returned, AbsTotal)
  {
    DiscountThenTax(Sum(items, LineTotal), d, g);
  }

  /** Taking d per cent off and then adding g per cent is scaling by both factors. */
  lemma DiscountThenTax(s: real, d: real, g: real)
    ensures var a := s - s * d / 100.0; a + a * g / 100.0 == s * (1.0 - d / 100.0) * (1.0 + g / 100.0)
  {
    var a := s - s * d / 100.0;
    assert a == s * (1.0 - d / 100.0);
    assert a + a * g / 100.0 == a * (1.0 + g / 100.0);
  }

  /** The savings shown are what the lines cost at their selling prices less
      what the customer pays before GST and returns. */
  lemma SavingsAreGrossLessCharged(items: seq<BillItem>, returned: seq<BillItem>, d: real, g: real)
    ensures BillTotals(items, returned, d, g).totalSavings
         == Sum(items, Gross) - BillTotals(items, returned, d, g).afterDiscount
  {
    SumSplit(items, Gross, LineTotal, LineDiscount);
  }

  /** One line of 1000 at no line discount, a 10% bill discount and 18% GST:
      1000 − 100 + 162 = 1062, of which 100 is saved. */
  lemma TotalsExample(item: BillItem)
    requires item.sellingPrice == 1000.0 && item.quantity == 1 && item.discount == 0.0
    ensures BillTotals([item], [], 10.0, 18.0).finalTotal == 1062.0
    ensures BillTotals([item], [], 10.0, 18.0).totalSavings == 100.0
  {
    var items := [item];
    assert items[..0] == [];
    assert Sum(items, LineTotal) == 1000.0;
    assert Sum(items, LineDiscount) == 0.0;
  }

  // ---------------------------------------------------------------- cart

  /** `billItems.find(item => item.productId === id)` */
  function FindLine(items: seq<BillItem>, id: Id): Option<BillItem> {
    FindBy(items, LineProduct, id)
  }

  predicate DistinctLines(items: seq<BillItem>) {
    forall i, j :: 0 <= i < j < |items| ==> items[i].productId != items[j].productId
  }

  lemma FindLineAt(items: seq<BillItem>, k: int)
    requires DistinctLines(items) && 0 <= k < |items|
    ensures FindLine(items, items[k].productId) == Some(items[k])
  {
    FindByAt(items, LineProduct, k);
  }

  /** The quantity the cart holds of a product (0 when it has no line for it). */
  function CartQuantity(items: seq<BillItem>, id: Id): int {
    match FindLine(items, id)
    case Some(line) => line.quantity
    case None => 0
  }

  /** The line `addToBill` creates: one unit at the selling price, no discount, 18% GST. */
  function NewLine(p: CatalogItem): BillItem {
    BillItem(p.id, p.name, p.batchNo, 1, p.sellingPrice, p.sellingPrice, 0.0, 18.0, p.sellingPrice, false)
  }

  /** The cart after `addToBill(p)`. */
  function AddedToCart(items: seq<BillItem>, p: CatalogItem): (r: seq<BillItem>)
    ensures FindLine(items, p.id).Some? ==> |r| == |items|
    ensures FindLine(items, p.id).None? ==> r == items + [NewLine(p)]
  {
    if FindLine(items, p.id).Some? then
      seq(|items|, k requires 0 <= k < |items| =>
            if items[k].productId == p.id then items[k].(quantity := items[k].quantity + 1) else items[k])
    else items + [NewLine(p)]
  }

  /** Adding a product to the cart gives one more unit of it and changes the
      quantity of nothing else; the cart keeps one line per product, and no
      existing line's stored `total` changes (the increment leaves it stale). */
  lemma AddedToCartEffect(items: seq<BillItem>, p: CatalogItem, id: Id)
    requires DistinctLines(items)
    ensures DistinctLines(AddedToCart(items, p))
    ensures CartQuantity(AddedToCart(items, p), id) == CartQuantity(items, id) + (if id == p.id then 1 else 0)
    ensures forall k :: 0 <= k < |items| ==>
              AddedToCart(items, p)[k].total == items[k].total && AddedToCart(items, p)[k].productId == items[k].productId
  {
    var r := AddedToCart(items, p);
    if FindLine(items, id).Some? {
      var k :| 0 <= k < |items| && items[k].productId == id;
      FindLineAt(items, k);
      FindLineAt(r, k);
    } else if id == p.id {
      FindLineAt(r, |items|);
    } else {
      assert FindLine(r, id).None?;
    }
  }

  /** The list without the product's line: `items.filter(item => item.productId !== id)`. */
  function WithoutLine(items: seq<BillItem>, id: Id): (r: seq<BillItem>)
    ensures IsSubsequence(r, items)
  {
    FilterIsSubsequence(items, (line: BillItem) => line.productId != id);
    Filter(items, (line: BillItem) => line.productId != id)
  }

  lemma WithoutLineDistinct(items: seq<BillItem>, id: Id)
    requires DistinctLines(items)
    ensures DistinctLines(WithoutLine(items, id))
    ensures FindLine(WithoutLine(items, id), id).None?
  {
    FilterKeepsDistinctKeys(items, (line: BillItem) => line.productId != id, (line: BillItem) => line.productId);
  }

  lemma WithoutLineKeepsOther(items: seq<BillItem>, id: Id, other: Id)
    requires DistinctLines(items) && other != id
    ensures CartQuantity(WithoutLine(items, id), other) == CartQuantity(items, other)
  {
    var r := WithoutLine(items, id);
    WithoutLineDistinct(items, id);
    if FindLine(items, other).Some? {
      var k :| 0 <= k < |items| && items[k].productId == other;
      FindLineAt(items, k);
      assert items[k] in r;
      var j :| 0 <= j < |r| && r[j] == items[k];
      FindLineAt(r, j);
    } else {
      forall j | 0 <= j < |r|
        ensures r[j].productId != other
      {
        assert r[j] in items;
      }
    }
  }

  /** Dropping a product's line leaves no line for it, keeps every other line
      in order, and keeps one line per product. */
  lemma WithoutLineEffect(items: seq<BillItem>, id: Id, other: Id)
    requires DistinctLines(items)
    ensures DistinctLines(WithoutLine(items, id))
    ensures CartQuantity(WithoutLine(items, id), id) == 0
    ensures other != id ==> CartQuantity(WithoutLine(items, id), other) == CartQuantity(items, other)
  {
    WithoutLineDistinct(items, id);
    if other != id {
      WithoutLineKeepsOther(items, id, other);
    }
  }

  /** The cart after `updateQuantity(id, q)`: q ≤ 0 drops the product's line,
      otherwise only that line's quantity becomes q. */
  function UpdatedCart(items: seq<BillItem>, id: Id, q: int): (r: seq<BillItem>)
    ensures q <= 0 ==> IsSubsequence(r, items)
    ensures q > 0 ==> |r| == |items|
  {
    if q <= 0 then WithoutLine(items, id)
    else
      seq(|items|, k requires 0 <= k < |items| => if items[k].productId == id then items[k].(quantity := q) else items[k])
  }

  /** A list with the same product on every line as a list with one line
      per product also has one line per product, and finds a product on the
      same line. */
  lemma SameProductsFind(items: seq<BillItem>, r: seq<BillItem>, id: Id)
    requires DistinctLines(items) && |r| == |items|
    requires forall k :: 0 <= k < |r| ==> r[k].productId == items[k].productId
    ensures DistinctLines(r)
    ensures FindLine(items, id).None? ==> FindLine(r, id).None?
    ensures FindLine(items, id).Some? ==>
              exists k :: 0 <= k < |items| && FindLine(items, id) == Some(items[k]) && FindLine(r, id) == Some(r[k])
  {
    assert DistinctLines(r);
    if FindLine(items, id).Some? {
      var k :| 0 <= k < |items| && items[k].productId == id;
      FindLineAt(items, k);
      FindLineAt(r, k);
    }
  }

  /** `updateQuantity` with q > 0: the product's line, if any, now holds q
      units; every other line is untouched, and no stored `total` changes. */
  lemma SetInCart(items: seq<BillItem>, id: Id, q: int, other: Id)
    requires DistinctLines(items) && q > 0
    ensures DistinctLines(UpdatedCart(items, id, q))
    ensures CartQuantity(UpdatedCart(items, id, q), id) == if FindLine(items, id).None? then 0 else q
    ensures other != id ==> CartQuantity(UpdatedCart(items, id, q), other) == CartQuantity(items, other)
    ensures forall k :: 0 <= k < |items| ==> UpdatedCart(items, id, q)[k].total == items[k].total
  {
    var r := UpdatedCart(items, id, q);
    SameProductsFind(items, r, id);
    SameProductsFind(items, r, other);
  }

  // ------------------------------------------------------------- bills

  /** The customer on the screen: nobody (after "Change"), the walk-in
      placeholder, or a registered customer. */
  datatype Selection = NoCustomer | WalkIn | Chosen(customer: Customer)

  /** The bill `processBill` hands to `addBill`. */
  function BuildBill(items: seq<BillItem>, returned: seq<BillItem>, discountPct: real, gstPct: real,
                     mode: PaymentMode, sel: Selection, billNumber: string, today: Date): Bill
    requires !sel.NoCustomer?
  {
    var t := BillTotals(items, returned, discountPct, gstPct);
    Bill(0, billNumber, today,
         if sel.Chosen? then Some(sel.customer.id) else None,
         Some(if sel.Chosen? then sel.customer.name else "Walk-in Customer"),
         items,
         if |returned| > 0 then Some(returned) else None,
         t.subtotal, t.billDiscount, t.gstAmount,
         if t.returnAmount > 0.0 then Some(t.returnAmount) else None,
         t.finalTotal, mode, t.finalTotal, 0.0)
  }

  /** The submitted bill reconciles with itself: total = subtotal − discount +
      GST − returns (an omitted return amount counts as 0), it is paid in full
      with no change, it names a customer exactly when one was chosen, and it
      carries returns exactly when the return list is not empty. */
  lemma BuiltBillReconciles(items: seq<BillItem>, returned: seq<BillItem>, d: real, g: real,
                            mode: PaymentMode, sel: Selection, billNumber: string, today: Date)
    requires !sel.NoCustomer?
    ensures var b := BuildBill(items, returned, d, g, mode, sel, billNumber, today);
            && b.totalAmount == b.subtotal - b.totalDiscount + b.gstAmount - b.returnAmount.GetOr(0.0)
            && b.paidAmount == b.totalAmount && b.changeAmount == 0.0
            && (b.customerId.Some? <==> sel.Chosen?)
            && (b.returnItems.Some? <==> returned != [])
            && b.items == items
  {
    var t := BillTotals(items, returned, d, g);
    assert t.returnAmount >= 0.0;
  }

  /** `regularBills`: the bills that are not synthetic return bills. */
  predicate IsRegular(b: Bill) {
    !StartsWith(b.billNumber, "PURCHASE-") && !StartsWith(b.billNumber, "CUSTOMER-")
  }

  /** The return-bill list of the returns page. */
  predicate IsReturnBill(b: Bill) {
    StartsWith(b.billNumber, "PURCHASE-") || StartsWith(b.billNumber, "CUSTOMER-")
  }

  function RegularBills(bills: seq<Bill>): seq<Bill> {
    Filter(bills, IsRegular)
  }

  function ReturnBills(bills: seq<Bill>): seq<Bill> {
    Filter(bills, IsReturnBill)
  }

  /** The two lists split the bills between them: each keeps its bills in
      order, a bill is in exactly one of them, and their sizes add up. */
  lemma BillListsPartition(bills: seq<Bill>)
    ensures IsSubsequence(RegularBills(bills), bills) && IsSubsequence(ReturnBills(bills), bills)
    ensures |RegularBills(bills)| + |ReturnBills(bills)| == |bills|
    ensures forall k :: 0 <= k < |bills| ==> (bills[k] in RegularBills(bills) <==> !IsReturnBill(bills[k]))
    ensures forall k :: 0 <= k < |bills| ==> (bills[k] in ReturnBills(bills) <==> IsReturnBill(bills[k]))
  {
    FilterIsSubsequence(bills, IsRegular);
    FilterIsSubsequence(bills, IsReturnBill);
    FilterComplement(bills, IsReturnBill, IsRegular);
  }

  /** A `BILL-` number is never taken for a return bill. */
  lemma BillPrefixIsRegular(b: Bill, stamp: string)
    requires b.billNumber == "BILL-" + stamp
    ensures IsRegular(b)
  {
    assert b.billNumber[0] == 'B';
  }

  // ------------------------------------------------------------- screen

  class BillingScreen {
    var billItems: seq<BillItem>
    var returnItems: seq<BillItem>
    var discountPct: real
    var gstPct: real
    var paymentMode: PaymentMode
    var selected: Selection
    var isCreatingBill: bool

    /** The cart holds one line per product. */
    ghost predicate Valid()
      reads this
    {
      DistinctLines(billItems)
    }

    constructor ()
      ensures Valid()
      ensures billItems == [] && returnItems == [] && discountPct == 0.0 && gstPct == 18.0
      ensures paymentMode == Cash && selected == WalkIn && !isCreatingBill
    {
      billItems, returnItems := [], [];
      discountPct, gstPct := 0.0, 18.0;
      paymentMode := Cash;
      selected := WalkIn;
      isCreatingBill := false;
    }

    /** `addToBill` */
    method AddToBill(p: CatalogItem)
      requires Valid()
      modifies this`billItems
      ensures Valid()
      ensures billItems == AddedToCart(old(billItems), p)
    {
      var existing := FindLine(billItems, p.id);
      if existing.Some? {
        var items := billItems;
        billItems := seq(|items|, k requires 0 <= k < |items| =>
                           if items[k].productId == p.id then items[k].(quantity := items[k].quantity + 1) else items[k]);
      } else {
        billItems := billItems + [NewLine(p)];
      }
      AddedToCartEffect(old(billItems), p, p.id);
    }

    /** `updateQuantity` */
    method UpdateQuantity(id: Id, q: int)
      requires Valid()
      modifies this`billItems
      ensures Valid()
      ensures billItems == UpdatedCart(old(billItems), id, q)
    {
      if q <= 0 {
        WithoutLineEffect(billItems, id, id);
      } else {
        SetInCart(billItems, id, q, id);
      }
      billItems := UpdatedCart(billItems, id, q);
    }

    /** `handleReturnItems`: the return list confirmed in the return dialog. */
    method HandleReturnItems(items: seq<BillItem>)
      modifies this`returnItems
      ensures returnItems == items
    {
      returnItems := items;
    }

    /** `cancelBillCreation`: leaves bill creation with an empty cart, no
        returns, no discount and the walk-in customer. */
    method CancelBillCreation()
      modifies this`isCreatingBill, this`billItems, this`returnItems, this`discountPct, this`selected
      ensures Valid()
      ensures !isCreatingBill && billItems == [] && returnItems == [] && discountPct == 0.0 && selected == WalkIn
    {
      isCreatingBill := false;
      billItems, returnItems := [], [];
      discountPct := 0.0;
      selected := WalkIn;
    }

    /** `processBill`: nothing happens with an empty cart or no customer.
        Otherwise the built bill goes to `addBill`, and the cart, the discount
        and the customer are reset. The return list is NOT reset, so it stays
        attached to the next bill too. */
    method ProcessBill(store: Store, stamp: string, today: Date) returns (submitted: Option<Bill>)
      requires Valid() && store.Valid()
      modifies this`billItems, this`discountPct, this`selected
      modifies store`bills, store`nextId, store`products, store`customers, store`ledger
      ensures Valid() && store.Valid()
      ensures old(billItems) == [] || old(selected).NoCustomer? ==>
                && submitted.None?
                && billItems == old(billItems) && discountPct == old(discountPct) && selected == old(selected)
                && store.bills == old(store.bills) && store.nextId == old(store.nextId)
                && store.products == old(store.products) && store.customers == old(store.customers)
                && store.ledger == old(store.ledger)
      ensures old(billItems) != [] && !old(selected).NoCustomer? ==>
                && submitted == Some(BuildBill(old(billItems), returnItems, old(discountPct), gstPct, paymentMode,
                                               old(selected), "BILL-" + stamp, today))
                && store.bills == old(store.bills) + [submitted.value.(id := old(store.nextId))]
                && store.nextId == old(store.nextId) + 1
                && store.products == ApplyWrites(old(store.products), SnapshotWrites(store.shownProducts, BillDeltas(submitted.value)))
                && store.customers == CreditCustomer(old(store.customers), store.shownCustomers, submitted.value)
                && store.ledger == old(store.ledger) + BillEntries(submitted.value)
                && billItems == [] && discountPct == 0.0 && selected == WalkIn
    {
      if |billItems| == 0 || selected.NoCustomer? {
        return None;
      }
      var bill := BuildBill(billItems, returnItems, discountPct, gstPct, paymentMode, selected, "BILL-" + stamp, today);
      store.AddBill(bill);
      submitted := Some(bill);
      billItems := [];
      discountPct := 0.0;
      selected := WalkIn;
    }
  }
}
