/** The catalog list screens: the retail product list and the pharmacy
    medicine list. Both classify each item's stock level, narrow the catalog
    by a search term and a type filter, and show the catalog's total value.
    They differ only in the fields the search looks at. */
module CatalogViews {
  import opened Common
  import opened Records
  import opened StockWrites

  // ------------------------------------------------------------ stock level

  datatype StockStatus = LowLevel | MediumLevel | GoodLevel

  /** `getStockStatus`: low at or below the reorder threshold, medium up to
      twice the threshold, good above that. */
  function StockStatusOf(p: CatalogItem): (r: StockStatus)
    ensures r == LowLevel <==> IsLow(p)
    ensures r == MediumLevel <==> p.minStockLevel < p.stockQuantity <= 2 * p.minStockLevel
    ensures r == GoodLevel <==> p.stockQuantity > p.minStockLevel && p.stockQuantity > 2 * p.minStockLevel
  {
    if p.stockQuantity <= p.minStockLevel then LowLevel
    else if p.stockQuantity <= p.minStockLevel * 2 then MediumLevel
    else GoodLevel
  }

  /** A catalog item shows as low exactly when `getLowStockProducts` lists it. */
  lemma LowStatusIffListed(ps: seq<CatalogItem>, k: int)
    requires 0 <= k < |ps|
    ensures StockStatusOf(ps[k]) == LowLevel <==> ps[k] in LowStock(ps)
  {
    if ps[k] in LowStock(ps) {
      var i :| 0 <= i < |LowStock(ps)| && LowStock(ps)[i] == ps[k];
    }
  }

  // -------------------------------------------------------------- filtering

  datatype ListScreen = ProductScreen | MedicineScreen

  datatype TypeFilter = AllItems | LowStockOnly | ExpiringOnly

  /** `list.some(x => x.id === id)` */
  predicate HasId(list: seq<CatalogItem>, id: Id) {
    exists k :: 0 <= k < |list| && list[k].id == id
  }

  /** The search: the lower-cased term occurs in the lower-cased name, brand
      or category (products), or name, manufacturer or batch (medicines). */
  predicate Matches(screen: ListScreen, term: string, p: CatalogItem) {
    var t := Lower(term);
    match screen
    case ProductScreen => Contains(Lower(p.name), t) || Contains(Lower(p.brand), t) || Contains(Lower(p.category), t)
    case MedicineScreen => Contains(Lower(p.name), t) || Contains(Lower(p.manufacturer), t) || Contains(Lower(p.batchNo), t)
  }

  function Searched(screen: ListScreen, ps: seq<CatalogItem>, term: string): seq<CatalogItem> {
    if term == "" then ps else Filter(ps, p => Matches(screen, term, p))
  }

  /** The type filter; `expiring` is what `getExpiringProducts(30)` returned. */
  predicate PassesType(ps: seq<CatalogItem>, f: TypeFilter, expiring: seq<CatalogItem>, p: CatalogItem) {
    match f
    case AllItems => true
    case LowStockOnly => HasId(LowStock(ps), p.id)
    case ExpiringOnly => HasId(expiring, p.id)
  }

  /** `filteredProducts` / `filteredMedicines`: the search, then the type filter. */
  function FilteredItems(screen: ListScreen, ps: seq<CatalogItem>, term: string, f: TypeFilter, expiring: seq<CatalogItem>): seq<CatalogItem> {
    var searched := Searched(screen, ps, term);
    if f == AllItems then searched else Filter(searched, p => PassesType(ps, f, expiring, p))
  }

  predicate Shown(screen: ListScreen, ps: seq<CatalogItem>, term: string, f: TypeFilter, expiring: seq<CatalogItem>, p: CatalogItem) {
    (term == "" || Matches(screen, term, p)) && PassesType(ps, f, expiring, p)
  }

  /** The list shown keeps catalog order, drops items and adds none; it holds
      exactly the catalog items that match the search and pass the type
      filter, and is the whole catalog with no search and no filter. */
  lemma FilteredItemsSpec(screen: ListScreen, ps: seq<CatalogItem>, term: string, f: TypeFilter, expiring: seq<CatalogItem>)
    ensures IsSubsequence(FilteredItems(screen, ps, term, f, expiring), ps)
    ensures forall x :: x in FilteredItems(screen, ps, term, f, expiring) <==> x in ps && Shown(screen, ps, term, f, expiring, x)
    ensures term == "" && f == AllItems ==> FilteredItems(screen, ps, term, f, expiring) == ps
  {
    var shown := (x: CatalogItem) => Shown(screen, ps, term, f, expiring, x);
    var r := FilteredItems(screen, ps, term, f, expiring);
    if term == "" {
      if f == AllItems {
        FilterAll(ps, shown);
      } else {
        FilterCongruent(ps, p => PassesType(ps, f, expiring, p), shown);
      }
    } else if f == AllItems {
      FilterCongruent(ps, p => Matches(screen, term, p), shown);
    } else {
      FilterFilter(ps, p => Matches(screen, term, p), p => PassesType(ps, f, expiring, p), shown);
    }
    assert r == Filter(ps, shown);
    FilterIsSubsequence(ps, shown);
  }

  /** With distinct ids, the low-stock filter with no search shows exactly
      what `getLowStockProducts` returns, in the same order. */
  lemma LowStockFilterIsLowStock(screen: ListScreen, ps: seq<CatalogItem>, expiring: seq<CatalogItem>)
    requires UniqueIds(ps)
    ensures FilteredItems(screen, ps, "", LowStockOnly, expiring) == LowStock(ps)
  {
    var low := LowStock(ps);
    forall x | x in ps
      ensures PassesType(ps, LowStockOnly, expiring, x) == IsLow(x)
    {
      if HasId(low, x.id) {
        var k :| 0 <= k < |low| && low[k].id == x.id;
        var a :| 0 <= a < |ps| && ps[a] == low[k];
        var b :| 0 <= b < |ps| && ps[b] == x;
        assert a == b;
      }
      if IsLow(x) {
        var k :| 0 <= k < |low| && low[k] == x;
      }
    }
    FilterCongruent(ps, p => PassesType(ps, LowStockOnly, expiring, p), IsLow);
  }

  lemma LowerTwice(s: string)
    ensures Lower(Lower(s)) == Lower(s)
  {
  }

  /** The search ignores the case of the term: searching for its lower-cased
      form shows the same list. */
  lemma SearchIgnoresCase(screen: ListScreen, ps: seq<CatalogItem>, term: string, f: TypeFilter, expiring: seq<CatalogItem>)
    ensures FilteredItems(screen, ps, Lower(term), f, expiring) == FilteredItems(screen, ps, term, f, expiring)
  {
    LowerTwice(term);
    if term != "" {
      FilterCongruent(ps, p => Matches(screen, Lower(term), p), p => Matches(screen, term, p));
    }
  }

  // ------------------------------------------------------------ total value

  function StockValue(p: CatalogItem): real {
    (p.stockQuantity as real) * p.sellingPrice
  }

  /** The "Total Value" card: Σ stock × selling price over the catalog. */
  function TotalValue(ps: seq<CatalogItem>): real {
    Sum(ps, StockValue)
  }

  /** Setting one item's stock moves the total value by the change in stock
      times that item's selling price. */
  lemma TotalValueAfterStockWrite(ps: seq<CatalogItem>, k: int, v: int)
    requires UniqueIds(ps) && 0 <= k < |ps|
    ensures TotalValue(SetStock(ps, ps[k].id, v))
         == TotalValue(ps) + ((v - ps[k].stockQuantity) as real) * ps[k].sellingPrice
  {
    var p := ps[k].(stockQuantity := v);
    assert SetStock(ps, ps[k].id, v) == ps[k := p];
    SumUpdate(ps, k, p, StockValue);
    assert StockValue(p) - StockValue(ps[k]) == ((v - ps[k].stockQuantity) as real) * ps[k].sellingPrice;
  }

  /** With no negative stock and no negative price, the total is not negative. */
  lemma {:induction false} TotalValueNonNegative(ps: seq<CatalogItem>)
    requires forall k :: 0 <= k < |ps| ==> ps[k].stockQuantity >= 0 && ps[k].sellingPrice >= 0.0
    ensures TotalValue(ps) >= 0.0
    decreases |ps|
  {
    if ps != [] {
      var last := ps[|ps| - 1];
      assert StockValue(last) >= 0.0;
      TotalValueNonNegative(ps[..|ps| - 1]);
    }
  }
}
