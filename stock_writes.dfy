/** How the store's stock writes compose inside one event handler.

    Every `updateProduct(id, {stockQuantity: v})` is a functional update of the
    live catalog, but `v` is computed from `getProduct`, which reads the catalog
    as it stood when the handler began. A handler therefore amounts to "take the
    snapshot, then apply the writes `stock[id] := v` in order": the last write to
    an id wins, and a write to an id the catalog lacks changes nothing. */
module StockWrites {
  import opened Common
  import opened Records

  /** `products.find(p => p.id === id)`. */
  function Find(ps: seq<CatalogItem>, id: Id): Option<CatalogItem> {
    FindBy(ps, ItemId, id)
  }

  predicate UniqueIds(ps: seq<CatalogItem>) {
    forall i, j :: 0 <= i < j < |ps| ==> ps[i].id != ps[j].id
  }

  /** With unique ids, `find` returns the one entry with that id. */
  lemma FindUnique(ps: seq<CatalogItem>, k: int)
    requires UniqueIds(ps) && 0 <= k < |ps|
    ensures Find(ps, ps[k].id) == Some(ps[k])
  {
    FindByAt(ps, ItemId, k);
  }

  /** `(getProduct(id)?.stockQuantity || 0)` */
  function StockOr0(ps: seq<CatalogItem>, id: Id): int {
    match Find(ps, id)
    case Some(p) => p.stockQuantity
    case None => 0
  }

  datatype Write = Write(id: Id, stock: int)

  /** `updateProduct(id, {stockQuantity: v})` on the live list. */
  function SetStock(ps: seq<CatalogItem>, id: Id, v: int): seq<CatalogItem> {
    seq(|ps|, k requires 0 <= k < |ps| => if ps[k].id == id then ps[k].(stockQuantity := v) else ps[k])
  }

  /** The live catalog after the writes `ws`, applied in order. */
  function ApplyWrites(ps: seq<CatalogItem>, ws: seq<Write>): (r: seq<CatalogItem>)
    ensures |r| == |ps|
    ensures forall k :: 0 <= k < |ps| ==> r[k].id == ps[k].id
    decreases |ws|
  {
    if ws == [] then ps else SetStock(ApplyWrites(ps, ws[..|ws| - 1]), ws[|ws| - 1].id, ws[|ws| - 1].stock)
  }

  /** The value of the last write to `id`, if any. */
  function LastWrite(ws: seq<Write>, id: Id): Option<int>
    decreases |ws|
  {
    if ws == [] then None
    else if ws[|ws| - 1].id == id then Some(ws[|ws| - 1].stock)
    else LastWrite(ws[..|ws| - 1], id)
  }

  /** Applying one more queued write is one more `updateProduct`. */
  lemma ApplyWritesStep(ps: seq<CatalogItem>, ws: seq<Write>, i: int)
    requires 0 <= i < |ws|
    ensures ApplyWrites(ps, ws[..i + 1]) == SetStock(ApplyWrites(ps, ws[..i]), ws[i].id, ws[i].stock)
  {
    assert ws[..i + 1][..i] == ws[..i];
  }

  /** Last write wins: each entry ends with the last value written to its id,
      or keeps its stock when nothing was written to it; no other field moves. */
  lemma {:induction false} ApplyWritesAt(ps: seq<CatalogItem>, ws: seq<Write>, k: int)
    requires 0 <= k < |ps|
    ensures ApplyWrites(ps, ws)[k] == ps[k].(stockQuantity := LastWrite(ws, ps[k].id).GetOr(ps[k].stockQuantity))
    decreases |ws|
  {
    if ws != [] {
      ApplyWritesAt(ps, ws[..|ws| - 1], k);
    }
  }

  lemma {:induction false} ApplyWritesAppend(ps: seq<CatalogItem>, a: seq<Write>, b: seq<Write>)
    ensures ApplyWrites(ApplyWrites(ps, a), b) == ApplyWrites(ps, a + b)
    decreases |b|
  {
    if b == [] {
      assert a + b == a;
    } else {
      assert (a + b)[..|a + b| - 1] == a + b[..|b| - 1];
      ApplyWritesAppend(ps, a, b[..|b| - 1]);
    }
  }

  lemma {:induction false} LastWriteAppend(a: seq<Write>, b: seq<Write>, id: Id)
    ensures LastWrite(a + b, id) == if LastWrite(b, id).Some? then LastWrite(b, id) else LastWrite(a, id)
    decreases |b|
  {
    if b == [] {
      assert a + b == a;
    } else {
      assert (a + b)[..|a + b| - 1] == a + b[..|b| - 1];
      LastWriteAppend(a, b[..|b| - 1], id);
    }
  }

  // ---------------------------------------------------- snapshot writes

  /** A signed stock change requested for one product. */
  datatype Delta = Delta(id: Id, amount: int)

  function DeltaIds(ds: seq<Delta>): seq<Id> {
    seq(|ds|, i requires 0 <= i < |ds| => ds[i].id)
  }

  /** The writes a handler issues for `ds`: each value is the snapshot's stock
      (0 for a missing product) plus the change. */
  function SnapshotWrites(snap: seq<CatalogItem>, ds: seq<Delta>): seq<Write> {
    seq(|ds|, i requires 0 <= i < |ds| => Write(ds[i].id, StockOr0(snap, ds[i].id) + ds[i].amount))
  }

  lemma SnapshotWritesAppend(snap: seq<CatalogItem>, a: seq<Delta>, b: seq<Delta>)
    ensures SnapshotWrites(snap, a + b) == SnapshotWrites(snap, a) + SnapshotWrites(snap, b)
  {
  }

  /** Ordinary sequential arithmetic: each change is added to the current stock. */
  function ApplyDeltas(ps: seq<CatalogItem>, ds: seq<Delta>): (r: seq<CatalogItem>)
    ensures |r| == |ps|
    decreases |ds|
  {
    if ds == [] then ps
    else
      var qs := ApplyDeltas(ps, ds[..|ds| - 1]);
      var d := ds[|ds| - 1];
      seq(|qs|, k requires 0 <= k < |qs| => if qs[k].id == d.id then qs[k].(stockQuantity := qs[k].stockQuantity + d.amount) else qs[k])
  }

  /** Σ of the changes requested for `id`. */
  function NetDelta(ds: seq<Delta>, id: Id): int
    decreases |ds|
  {
    if ds == [] then 0 else NetDelta(ds[..|ds| - 1], id) + (if ds[|ds| - 1].id == id then ds[|ds| - 1].amount else 0)
  }

  lemma {:induction false} ApplyDeltasAt(ps: seq<CatalogItem>, ds: seq<Delta>, k: int)
    requires 0 <= k < |ps|
    ensures ApplyDeltas(ps, ds)[k] == ps[k].(stockQuantity := ps[k].stockQuantity + NetDelta(ds, ps[k].id))
    decreases |ds|
  {
    if ds != [] {
      ApplyDeltasAt(ps, ds[..|ds| - 1], k);
    }
  }

  lemma {:induction false} SnapshotLastWrite(snap: seq<CatalogItem>, ds: seq<Delta>, id: Id)
    requires Distinct(DeltaIds(ds))
    ensures LastWrite(SnapshotWrites(snap, ds), id)
         == if id in DeltaIds(ds) then Some(StockOr0(snap, id) + NetDelta(ds, id)) else None
    decreases |ds|
  {
    if ds != [] {
      var init := ds[..|ds| - 1];
      assert SnapshotWrites(snap, ds)[..|ds| - 1] == SnapshotWrites(snap, init);
      assert DeltaIds(ds) == DeltaIds(init) + [ds[|ds| - 1].id];
      forall i, j | 0 <= i < j < |init|
        ensures DeltaIds(init)[i] != DeltaIds(init)[j]
      {
        assert DeltaIds(ds)[i] != DeltaIds(ds)[j];
      }
      SnapshotLastWrite(snap, init, id);
      if ds[|ds| - 1].id == id {
        forall i | 0 <= i < |init|
          ensures DeltaIds(init)[i] != id
        {
          assert DeltaIds(ds)[i] != DeltaIds(ds)[|ds| - 1];
        }
        NetDeltaAbsent(init, id);
      }
    } else {
      assert DeltaIds(ds) == [];
    }
  }

  lemma {:induction false} NetDeltaAbsent(ds: seq<Delta>, id: Id)
    requires id !in DeltaIds(ds)
    ensures NetDelta(ds, id) == 0
    decreases |ds|
  {
    if ds != [] {
      assert DeltaIds(ds) == DeltaIds(ds[..|ds| - 1]) + [ds[|ds| - 1].id];
      NetDeltaAbsent(ds[..|ds| - 1], id);
    }
  }

  /** With unique catalog ids and distinct requested ids, the snapshot writes
      give exactly what adding each change to the current stock gives. */
  lemma SnapshotIsSequential(ps: seq<CatalogItem>, ds: seq<Delta>)
    requires UniqueIds(ps)
    requires Distinct(DeltaIds(ds))
    ensures ApplyWrites(ps, SnapshotWrites(ps, ds)) == ApplyDeltas(ps, ds)
  {
    var r := ApplyWrites(ps, SnapshotWrites(ps, ds));
    forall k | 0 <= k < |ps|
      ensures r[k] == ApplyDeltas(ps, ds)[k]
    {
      ApplyWritesAt(ps, SnapshotWrites(ps, ds), k);
      ApplyDeltasAt(ps, ds, k);
      SnapshotLastWrite(ps, ds, ps[k].id);
      FindUnique(ps, k);
      if ps[k].id !in DeltaIds(ds) {
        NetDeltaAbsent(ds, ps[k].id);
      }
    }
  }

  /** ... and when one id is requested twice, the snapshot semantics loses the
      first change: two sales of 1 unit from a stock of 10 leave 9, not 8. */
  lemma RepeatedIdLosesChange(p: CatalogItem)
    requires p.stockQuantity == 10
    ensures ApplyWrites([p], SnapshotWrites([p], [Delta(p.id, -1), Delta(p.id, -1)]))[0].stockQuantity == 9
    ensures ApplyDeltas([p], [Delta(p.id, -1), Delta(p.id, -1)])[0].stockQuantity == 8
  {
    var ds := [Delta(p.id, -1), Delta(p.id, -1)];
    ApplyWritesAt([p], SnapshotWrites([p], ds), 0);
    ApplyDeltasAt([p], ds, 0);
    assert ds[..1] == [Delta(p.id, -1)];
    assert ds[..1][..0] == [];
    assert NetDelta(ds[..1], p.id) == -1;
  }

  /** The last change requested for `id`, if any. */
  function LastAmount(ds: seq<Delta>, id: Id): Option<int>
    decreases |ds|
  {
    if ds == [] then None
    else if ds[|ds| - 1].id == id then Some(ds[|ds| - 1].amount)
    else LastAmount(ds[..|ds| - 1], id)
  }

  function Shifted(base: int, a: Option<int>): Option<int> {
    match a
    case Some(x) => Some(base + x)
    case None => None
  }

  lemma {:induction false} SnapshotLastAmount(snap: seq<CatalogItem>, ds: seq<Delta>, id: Id)
    ensures LastWrite(SnapshotWrites(snap, ds), id) == Shifted(StockOr0(snap, id), LastAmount(ds, id))
    decreases |ds|
  {
    if ds != [] {
      assert SnapshotWrites(snap, ds)[..|ds| - 1] == SnapshotWrites(snap, ds[..|ds| - 1]);
      SnapshotLastAmount(snap, ds[..|ds| - 1], id);
    }
  }

  /** Whatever else the handler requested, each catalog entry ends at its
      snapshot stock plus the LAST change requested for it; earlier changes to
      the same product are lost. */
  lemma SnapshotWritesAt(ps: seq<CatalogItem>, ds: seq<Delta>, k: int)
    requires UniqueIds(ps) && 0 <= k < |ps|
    ensures ApplyWrites(ps, SnapshotWrites(ps, ds))[k]
         == ps[k].(stockQuantity := ps[k].stockQuantity + LastAmount(ds, ps[k].id).GetOr(0))
  {
    ApplyWritesAt(ps, SnapshotWrites(ps, ds), k);
    SnapshotLastAmount(ps, ds, ps[k].id);
    FindUnique(ps, k);
  }

  /** The writes of a loop that skips products the snapshot lacks:
      `if (product) updateProduct(id, {stockQuantity: product.stockQuantity + q})`. */
  function FoundWrites(snap: seq<CatalogItem>, ds: seq<Delta>): (r: seq<Write>)
    ensures |r| <= |ds|
    decreases |ds|
  {
    if ds == [] then [] else FoundWrites(snap, ds[..|ds| - 1]) + FoundWrite(snap, ds[|ds| - 1])
  }

  /** The write issued for one change: none when the snapshot lacks the product. */
  function FoundWrite(snap: seq<CatalogItem>, d: Delta): seq<Write> {
    match Find(snap, d.id)
    case Some(p) => [Write(d.id, p.stockQuantity + d.amount)]
    case None => []
  }

  lemma FoundWritesSnoc(snap: seq<CatalogItem>, ds: seq<Delta>, d: Delta)
    ensures FoundWrites(snap, ds + [d]) == FoundWrites(snap, ds) + FoundWrite(snap, d)
  {
    assert (ds + [d])[..|ds|] == ds;
  }

  lemma FoundWriteLast(snap: seq<CatalogItem>, d: Delta, id: Id)
    ensures LastWrite(FoundWrite(snap, d), id)
         == if d.id == id && Find(snap, id).Some? then Some(StockOr0(snap, id) + d.amount) else None
  {
    if Find(snap, d.id).Some? {
      assert FoundWrite(snap, d)[..0] == [];
    }
  }

  lemma {:induction false} FoundLastAmount(snap: seq<CatalogItem>, ds: seq<Delta>, id: Id)
    ensures LastWrite(FoundWrites(snap, ds), id)
         == if Find(snap, id).Some? then Shifted(StockOr0(snap, id), LastAmount(ds, id)) else None
    decreases |ds|
  {
    if ds != [] {
      var init := ds[..|ds| - 1];
      var d := ds[|ds| - 1];
      FoundLastAmount(snap, init, id);
      LastWriteAppend(FoundWrites(snap, init), FoundWrite(snap, d), id);
      FoundWriteLast(snap, d, id);
    }
  }

  /** With the snapshot equal to the catalog, skipping the missing products
      changes nothing: each entry ends at its stock plus its last change. */
  lemma FoundWritesAt(ps: seq<CatalogItem>, ds: seq<Delta>, k: int)
    requires UniqueIds(ps) && 0 <= k < |ps|
    ensures ApplyWrites(ps, FoundWrites(ps, ds))[k]
         == ps[k].(stockQuantity := ps[k].stockQuantity + LastAmount(ds, ps[k].id).GetOr(0))
  {
    ApplyWritesAt(ps, FoundWrites(ps, ds), k);
    FoundLastAmount(ps, ds, ps[k].id);
    FindUnique(ps, k);
  }

  /** A write for a product the snapshot lacks is never issued, so a line naming
      a missing product changes no stock. */
  lemma FoundWritesSkipMissing(snap: seq<CatalogItem>, ds: seq<Delta>, id: Id)
    requires Find(snap, id).None?
    ensures LastWrite(FoundWrites(snap, ds), id) == None
  {
    FoundLastAmount(snap, ds, id);
  }

  lemma {:induction false} LastAmountDistinct(ds: seq<Delta>, id: Id)
    requires Distinct(DeltaIds(ds))
    ensures LastAmount(ds, id).GetOr(0) == NetDelta(ds, id)
    decreases |ds|
  {
    if ds != [] {
      var init := ds[..|ds| - 1];
      assert DeltaIds(ds) == DeltaIds(init) + [ds[|ds| - 1].id];
      forall i, j | 0 <= i < j < |init|
        ensures DeltaIds(init)[i] != DeltaIds(init)[j]
      {
        assert DeltaIds(ds)[i] != DeltaIds(ds)[j];
      }
      LastAmountDistinct(init, id);
      if ds[|ds| - 1].id == id {
        forall i | 0 <= i < |init|
          ensures DeltaIds(init)[i] != id
        {
          assert DeltaIds(ds)[i] != DeltaIds(ds)[|ds| - 1];
        }
        NetDeltaAbsent(init, id);
      }
    }
  }

  lemma {:induction false} LastAmountAbsent(ds: seq<Delta>, id: Id)
    requires id !in DeltaIds(ds)
    ensures LastAmount(ds, id).None?
    decreases |ds|
  {
    if ds != [] {
      assert DeltaIds(ds) == DeltaIds(ds[..|ds| - 1]) + [ds[|ds| - 1].id];
      LastAmountAbsent(ds[..|ds| - 1], id);
    }
  }

  /** With no id requested twice, the last change for a requested id is the
      one change requested for it. */
  lemma {:induction false} LastAmountAt(ds: seq<Delta>, j: int)
    requires Distinct(DeltaIds(ds)) && 0 <= j < |ds|
    ensures LastAmount(ds, ds[j].id) == Some(ds[j].amount)
    decreases |ds|
  {
    if j < |ds| - 1 {
      var init := ds[..|ds| - 1];
      assert DeltaIds(ds)[j] != DeltaIds(ds)[|ds| - 1];
      assert DeltaIds(init) == DeltaIds(ds)[..|ds| - 1];
      assert init[j] == ds[j];
      LastAmountAt(init, j);
    }
  }

  /** When every change requested is the same amount, the last one for an id
      is that amount exactly when the id is requested at all. */
  lemma {:induction false} LastAmountUniform(ds: seq<Delta>, a: int, id: Id)
    requires forall i :: 0 <= i < |ds| ==> ds[i].amount == a
    ensures LastAmount(ds, id) == if id in DeltaIds(ds) then Some(a) else None
    decreases |ds|
  {
    if ds != [] {
      var init := ds[..|ds| - 1];
      assert DeltaIds(ds) == DeltaIds(init) + [ds[|ds| - 1].id];
      LastAmountUniform(init, a, id);
    }
  }

  /** A handler that writes `first` and then calls `addBill`: `addBill`'s writes,
      taken from the same snapshot, decide every product it names; the others
      keep what `first` left them. */
  lemma SecondPassWins(ps: seq<CatalogItem>, first: seq<Write>, ds: seq<Delta>, k: int)
    requires UniqueIds(ps) && 0 <= k < |ps|
    ensures LastAmount(ds, ps[k].id).Some? ==>
              ApplyWrites(ApplyWrites(ps, first), SnapshotWrites(ps, ds))[k]
              == ps[k].(stockQuantity := ps[k].stockQuantity + LastAmount(ds, ps[k].id).value)
    ensures LastAmount(ds, ps[k].id).None? ==>
              ApplyWrites(ApplyWrites(ps, first), SnapshotWrites(ps, ds))[k] == ApplyWrites(ps, first)[k]
  {
    var mid := ApplyWrites(ps, first);
    ApplyWritesAt(ps, first, k);
    ApplyWritesAt(mid, SnapshotWrites(ps, ds), k);
    SnapshotLastAmount(ps, ds, ps[k].id);
    FindUnique(ps, k);
  }

  /** A handler loop that moves every product it names by the same amount a,
      followed by `addBill` requesting the same changes from the same snapshot:
      each named product ends at its entry stock + a, the rest are untouched. */
  lemma UniformTwoPasses(ps: seq<CatalogItem>, ds: seq<Delta>, a: int, k: int)
    requires UniqueIds(ps) && 0 <= k < |ps|
    requires forall i :: 0 <= i < |ds| ==> ds[i].amount == a
    ensures ApplyWrites(ApplyWrites(ps, FoundWrites(ps, ds)), SnapshotWrites(ps, ds))[k]
         == ps[k].(stockQuantity := if ps[k].id in DeltaIds(ds) then ps[k].stockQuantity + a else ps[k].stockQuantity)
  {
    LastAmountUniform(ds, a, ps[k].id);
    SecondPassWins(ps, FoundWrites(ps, ds), ds, k);
    if ps[k].id !in DeltaIds(ds) {
      FoundWritesAt(ps, ds, k);
    }
  }

  // ----------------------------------------------------------- low stock

  predicate IsLow(p: CatalogItem) {
    p.stockQuantity <= p.minStockLevel
  }

  /** `getLowStockProducts`: the items at or below their reorder threshold, in catalog order. */
  function LowStock(ps: seq<CatalogItem>): (r: seq<CatalogItem>)
    ensures forall i :: 0 <= i < |r| ==> r[i] in ps && r[i].stockQuantity <= r[i].minStockLevel
    ensures forall i :: 0 <= i < |ps| && ps[i].stockQuantity <= ps[i].minStockLevel ==> ps[i] in r
  {
    Filter(ps, IsLow)
  }

  lemma LowStockInOrder(ps: seq<CatalogItem>)
    ensures IsSubsequence(LowStock(ps), ps)
  {
    FilterIsSubsequence(ps, IsLow);
  }
}
