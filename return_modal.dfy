/** The return dialog of the billing screen: it collects the items a customer
    brings back, one line per catalog item, never more than the item's stock,
    and hands the list to the billing screen on confirmation. */
module ReturnDialog {
  import opened Common
  import opened Records
  import opened StockWrites
  import opened Billing

  /** What q returned units of `m` are worth, as a negative line total. */
  function ReturnTotal(m: CatalogItem, q: int): real {
    -(m.sellingPrice * (q as real))
  }

  /** A new return line: q units at the item's selling price, with a negative total. */
  function ReturnLine(m: CatalogItem, q: int): BillItem {
    BillItem(m.id, m.name, m.batchNo, q, m.mrp, m.sellingPrice, 0.0, 18.0, ReturnTotal(m, q), true)
  }

  /** The return list after accepting q more units of `m`: the existing line
      grows (its total recomputed from the new quantity), or a new line is added. */
  function WithReturn(items: seq<BillItem>, m: CatalogItem, q: int): (r: seq<BillItem>)
    ensures FindLine(items, m.id).Some? ==> |r| == |items|
    ensures FindLine(items, m.id).None? ==> r == items + [ReturnLine(m, q)]
    ensures forall k :: 0 <= k < |items| ==> r[k].productId == items[k].productId
    ensures forall k :: 0 <= k < |items| && items[k].productId != m.id ==> r[k] == items[k]
    ensures forall k :: 0 <= k < |items| && items[k].productId == m.id ==>
              r[k].quantity == items[k].quantity + q && r[k].total == ReturnTotal(m, r[k].quantity)
  {
    if FindLine(items, m.id).Some? then
      seq(|items|, k requires 0 <= k < |items| =>
            if items[k].productId == m.id
            then items[k].(quantity := items[k].quantity + q, total := ReturnTotal(m, items[k].quantity + q))
            else items[k])
    else items + [ReturnLine(m, q)]
  }

  /** `handleAddReturn`'s guards, in order: a selection and a positive
      quantity, a known item, and no more returned in total than its stock. */
  function AddReturnCheck(items: seq<BillItem>, medicines: seq<CatalogItem>, selected: Option<Id>, q: int): Outcome {
    if selected.None? || q <= 0 then Rejected(MissingInput)
    else
      match Find(medicines, selected.value)
      case None => Rejected(NotFound)
      case Some(m) => if CartQuantity(items, m.id) + q > m.stockQuantity then Rejected(InsufficientStock) else Done
  }

  /** `getAvailableQuantity`: the stock not yet claimed by the return list, or
      0 for an unknown item. */
  function AvailableQuantity(items: seq<BillItem>, medicines: seq<CatalogItem>, id: Id): int {
    match Find(medicines, id)
    case None => 0
    case Some(m) => m.stockQuantity - CartQuantity(items, id)
  }

  /** An add is accepted exactly when the item is known and the quantity is
      positive and at most what `getAvailableQuantity` reports. */
  lemma AcceptedIffAvailable(items: seq<BillItem>, medicines: seq<CatalogItem>, id: Id, q: int)
    ensures AddReturnCheck(items, medicines, Some(id), q) == Done
        <==> Find(medicines, id).Some? && 0 < q <= AvailableQuantity(items, medicines, id)
  {
  }

  /** Every line names a known item and claims no more than its stock. */
  predicate WithinStock(items: seq<BillItem>, medicines: seq<CatalogItem>) {
    forall k :: 0 <= k < |items| ==>
      Find(medicines, items[k].productId).Some? && items[k].quantity <= Find(medicines, items[k].productId).value.stockQuantity
  }

  predicate PositiveLines(items: seq<BillItem>) {
    forall k :: 0 <= k < |items| ==> items[k].quantity > 0
  }

  /** Accepting q units keeps one positive line per item. */
  lemma WithReturnShape(items: seq<BillItem>, m: CatalogItem, q: int)
    requires DistinctLines(items) && PositiveLines(items) && q > 0
    ensures DistinctLines(WithReturn(items, m, q)) && PositiveLines(WithReturn(items, m, q))
  {
    var r := WithReturn(items, m, q);
    if FindLine(items, m.id).Some? {
      assert DistinctLines(r);
    } else {
      assert forall k :: 0 <= k < |items| ==> items[k].productId != m.id;
      assert DistinctLines(r);
    }
  }

  /** The item's own line: it holds q more units (or q units, when new), and
      its total is −(price × that quantity). */
  lemma WithReturnOwnLine(items: seq<BillItem>, m: CatalogItem, q: int)
    requires DistinctLines(items) && PositiveLines(items) && q > 0
    ensures FindLine(WithReturn(items, m, q), m.id).Some?
    ensures CartQuantity(WithReturn(items, m, q), m.id) == CartQuantity(items, m.id) + q
    ensures FindLine(WithReturn(items, m, q), m.id).value.total
         == ReturnTotal(m, CartQuantity(WithReturn(items, m, q), m.id))
  {
    WithReturnShape(items, m, q);
    var r := WithReturn(items, m, q);
    var k: int;
    if FindLine(items, m.id).Some? {
      k :| 0 <= k < |items| && items[k].productId == m.id;
      FindLineAt(items, k);
    } else {
      k := |items|;
    }
    FindLineAt(r, k);
  }

  /** Every other item's returned quantity is left as it was. */
  lemma WithReturnOtherLine(items: seq<BillItem>, m: CatalogItem, q: int, id: Id)
    requires DistinctLines(items) && PositiveLines(items) && q > 0 && id != m.id
    ensures CartQuantity(WithReturn(items, m, q), id) == CartQuantity(items, id)
  {
    WithReturnShape(items, m, q);
    var r := WithReturn(items, m, q);
    if FindLine(items, id).Some? {
      var j :| 0 <= j < |items| && items[j].productId == id;
      FindLineAt(items, j);
      FindLineAt(r, j);
    } else {
      assert FindLine(r, id).None?;
    }
  }

  /** Accepting q units of an item adds q to that item's returned quantity
      and to nothing else, and leaves the item's line with total
      −(price × returned quantity). */
  lemma WithReturnEffect(items: seq<BillItem>, m: CatalogItem, q: int, id: Id)
    requires DistinctLines(items) && PositiveLines(items) && q > 0
    ensures DistinctLines(WithReturn(items, m, q)) && PositiveLines(WithReturn(items, m, q))
    ensures CartQuantity(WithReturn(items, m, q), id) == CartQuantity(items, id) + (if id == m.id then q else 0)
    ensures FindLine(WithReturn(items, m, q), m.id).Some?
    ensures FindLine(WithReturn(items, m, q), m.id).value.total
         == ReturnTotal(m, CartQuantity(WithReturn(items, m, q), m.id))
  {
    WithReturnShape(items, m, q);
    WithReturnOwnLine(items, m, q);
    if id != m.id {
      WithReturnOtherLine(items, m, q, id);
    }
  }

  /** Hence an accepted add keeps every line within its item's stock. */
  lemma AcceptedStaysWithinStock(items: seq<BillItem>, medicines: seq<CatalogItem>, id: Id, q: int)
    requires DistinctLines(items) && PositiveLines(items) && WithinStock(items, medicines)
    requires AddReturnCheck(items, medicines, Some(id), q) == Done
    ensures WithinStock(WithReturn(items, Find(medicines, id).value, q), medicines)
  {
    var m := Find(medicines, id).value;
    var r := WithReturn(items, m, q);
    forall k | 0 <= k < |r|
      ensures Find(medicines, r[k].productId).Some?
      ensures r[k].quantity <= Find(medicines, r[k].productId).value.stockQuantity
    {
      WithReturnEffect(items, m, q, r[k].productId);
      if r[k].productId == m.id {
        FindLineAt(r, k);
      } else {
        assert k < |items| && r[k] == items[k];
      }
    }
  }

  class ReturnModal {
    var selected: Option<Id>
    var returnQuantity: int
    var returnItems: seq<BillItem>

    /** One positive line per item. */
    ghost predicate Valid()
      reads this
    {
      DistinctLines(returnItems) && PositiveLines(returnItems)
    }

    constructor ()
      ensures Valid() && selected.None? && returnQuantity == 1 && returnItems == []
    {
      selected, returnQuantity, returnItems := None, 1, [];
    }

    /** `handleAddReturn`: a rejected add changes nothing; an accepted one
        updates the list and resets the selection and the quantity to 1. */
    method HandleAddReturn(medicines: seq<CatalogItem>) returns (outcome: Outcome)
      requires Valid()
      modifies this
      ensures Valid()
      ensures outcome == AddReturnCheck(old(returnItems), medicines, old(selected), old(returnQuantity))
      ensures outcome.Rejected? ==>
                returnItems == old(returnItems) && selected == old(selected) && returnQuantity == old(returnQuantity)
      ensures outcome.Done? ==>
                && returnItems == WithReturn(old(returnItems), Find(medicines, old(selected).value).value, old(returnQuantity))
                && selected.None? && returnQuantity == 1
      ensures WithinStock(old(returnItems), medicines) ==> WithinStock(returnItems, medicines)
    {
      outcome := AddReturnCheck(returnItems, medicines, selected, returnQuantity);
      if outcome.Rejected? {
        return;
      }
      var m := Find(medicines, selected.value).value;
      WithReturnEffect(returnItems, m, returnQuantity, m.id);
      if WithinStock(returnItems, medicines) {
        AcceptedStaysWithinStock(returnItems, medicines, selected.value, returnQuantity);
      }
      returnItems := WithReturn(returnItems, m, returnQuantity);
      selected := None;
      returnQuantity := 1;
    }

    /** `handleRemoveReturn` */
    method HandleRemoveReturn(id: Id)
      requires Valid()
      modifies this`returnItems
      ensures Valid()
      ensures returnItems == WithoutLine(old(returnItems), id)
    {
      WithoutLineEffect(returnItems, id, id);
      returnItems := WithoutLine(returnItems, id);
      forall k | 0 <= k < |returnItems|
        ensures returnItems[k].quantity > 0
      {
        assert returnItems[k] in old(returnItems);
      }
    }

    /** `handleConfirmReturn`: the list handed to the billing screen, or
        nothing when the list is empty. */
    method HandleConfirmReturn() returns (confirmed: Option<seq<BillItem>>)
      ensures confirmed.None? <==> returnItems == []
      ensures confirmed.Some? ==> confirmed.value == returnItems
    {
      if |returnItems| == 0 {
        return None;
      }
      return Some(returnItems);
    }
  }
}
