/** The alert monitor: on every catalog change it posts one warning per item
    that has become low on stock and one error per item that has come within
    two days of expiry, remembering which ids it has already announced so an
    item is announced once for as long as it stays flagged. */
module Alerts {
  import opened Common
  import opened Records
  import opened StockWrites
  import opened Notifications

  /** The ids of a list of items: `new Set(list.map(m => m.id))`. */
  function IdSet(items: seq<CatalogItem>): set<Id>
    decreases |items|
  {
    if items == [] then {} else IdSet(items[..|items| - 1]) + {items[|items| - 1].id}
  }

  lemma {:induction false} IdSetMember(items: seq<CatalogItem>, id: Id)
    ensures id in IdSet(items) <==> exists k :: 0 <= k < |items| && items[k].id == id
    decreases |items|
  {
    if items != [] {
      var init := items[..|items| - 1];
      IdSetMember(init, id);
      if exists k :: 0 <= k < |init| && init[k].id == id {
        var k :| 0 <= k < |init| && init[k].id == id;
        assert items[k].id == id;
      }
    }
  }

  /** The items a pass over `items` announces when `notified` holds the ids
      announced before: each item whose id is neither in `notified` nor on an
      earlier item of the list, in list order. */
  function FirstSightings(items: seq<CatalogItem>, notified: set<Id>): seq<CatalogItem>
    decreases |items|
  {
    if items == [] then []
    else
      var init := items[..|items| - 1];
      var last := items[|items| - 1];
      if last.id in notified + IdSet(init) then FirstSightings(init, notified)
      else FirstSightings(init, notified) + [last]
  }

  /** A pass announces exactly the flagged ids not announced before, each
      once: there are |flagged ids \ notified| announcements. */
  lemma {:induction false} FirstSightingsSpec(items: seq<CatalogItem>, notified: set<Id>)
    ensures IdSet(FirstSightings(items, notified)) == IdSet(items) - notified
    ensures |FirstSightings(items, notified)| == |IdSet(items) - notified|
    decreases |items|
  {
    if items != [] {
      var init := items[..|items| - 1];
      var last := items[|items| - 1];
      var f := FirstSightings(init, notified);
      FirstSightingsSpec(init, notified);
      if last.id !in notified + IdSet(init) {
        assert (f + [last])[..|f|] == f;
        assert IdSet(f + [last]) == IdSet(f) + {last.id};
        assert IdSet(items) - notified == (IdSet(init) - notified) + {last.id};
      }
    }
  }

  datatype Check = LowStockCheck | ExpiryCheck

  function LowStockMessage(m: CatalogItem): string {
    m.name + " is running low! Current stock: " + IntToString(m.stockQuantity)
      + ", Minimum: " + IntToString(m.minStockLevel)
  }

  /** `days` is the whole number of days to the expiry date, read off the clock. */
  function ExpiryMessage(m: CatalogItem, days: int): string {
    m.name + " expires in " + IntToString(days) + " day" + (if days != 1 then "s" else "")
      + "! Expiry date: " + m.expiryDate
  }

  /** The notification a check posts for an item. */
  function AlertFor(check: Check, m: CatalogItem, now: nat, daysLeft: Id -> int): Notification {
    match check
    case LowStockCheck => Posted(WarningNotice, "Low Stock Alert", LowStockMessage(m), now)
    case ExpiryCheck => Posted(ErrorNotice, "Expiry Alert", ExpiryMessage(m, daysLeft(m.id)), now)
  }

  /** The notifications a pass posts for the announced items, newest first. */
  function Newest(check: Check, s: seq<CatalogItem>, now: nat, daysLeft: Id -> int): (r: seq<Notification>)
    ensures |r| == |s|
    decreases |s|
  {
    if s == [] then [] else [AlertFor(check, s[|s| - 1], now, daysLeft)] + Newest(check, s[..|s| - 1], now, daysLeft)
  }

  /** Every notification of a pass is unread and carries the pass's clock reading. */
  lemma {:induction false} NewestStamped(check: Check, s: seq<CatalogItem>, now: nat, daysLeft: Id -> int)
    ensures forall n :: n in Newest(check, s, now, daysLeft) ==> n.id == now && !n.read
    decreases |s|
  {
    if s != [] {
      NewestStamped(check, s[..|s| - 1], now, daysLeft);
    }
  }

  /** One more item: it is announced when its id is neither notified nor
      on an earlier item. */
  lemma FirstSightingsStep(items: seq<CatalogItem>, i: int, notified: set<Id>)
    requires 0 <= i < |items|
    ensures IdSet(items[..i + 1]) == IdSet(items[..i]) + {items[i].id}
    ensures FirstSightings(items[..i + 1], notified)
         == if items[i].id in notified + IdSet(items[..i]) then FirstSightings(items[..i], notified)
            else FirstSightings(items[..i], notified) + [items[i]]
  {
    assert items[..i + 1][..i] == items[..i];
  }

  lemma NewestSnoc(check: Check, s: seq<CatalogItem>, m: CatalogItem, now: nat, daysLeft: Id -> int)
    ensures Newest(check, s + [m], now, daysLeft) == [AlertFor(check, m, now, daysLeft)] + Newest(check, s, now, daysLeft)
  {
    assert (s + [m])[..|s|] == s;
  }

  /** Post the check's notification for one item through its `show*` wrapper. */
  method Announce(center: NotificationCenter, check: Check, m: CatalogItem, now: nat, daysLeft: Id -> int)
    modifies center
    ensures center.notifications == [AlertFor(check, m, now, daysLeft)] + old(center.notifications)
  {
    match check {
      case LowStockCheck => center.ShowWarning(LowStockMessage(m), Some("Low Stock Alert"), now);
      case ExpiryCheck => center.ShowError(ExpiryMessage(m, daysLeft(m.id)), Some("Expiry Alert"), now);
    }
  }

  /** One pass of that `forEach`: item i is announced, and its id added to
      the set, when the set does not hold it yet. */
  method NotifyOne(center: NotificationCenter, items: seq<CatalogItem>, i: int, notified: set<Id>, after: set<Id>,
                   check: Check, now: nat, daysLeft: Id -> int, ghost base: seq<Notification>)
    returns (after': set<Id>)
    requires 0 <= i < |items|
    requires after == notified + IdSet(items[..i])
    requires center.notifications == Newest(check, FirstSightings(items[..i], notified), now, daysLeft) + base
    modifies center
    ensures after' == notified + IdSet(items[..i + 1])
    ensures center.notifications == Newest(check, FirstSightings(items[..i + 1], notified), now, daysLeft) + base
  {
    var m := items[i];
    ghost var announced := FirstSightings(items[..i], notified);
    FirstSightingsStep(items, i, notified);
    after' := after;
    if m.id !in after {
      NewestSnoc(check, announced, m, now, daysLeft);
      Announce(center, check, m, now, daysLeft);
      ConcatAssoc([AlertFor(check, m, now, daysLeft)], Newest(check, announced, now, daysLeft), base);
      after' := after + {m.id};
    }
  }

  /** One `forEach` over the flagged items: post for each id not yet
      notified and add it to the set. */
  method NotifyNew(center: NotificationCenter, items: seq<CatalogItem>, notified: set<Id>, check: Check, now: nat, daysLeft: Id -> int)
    returns (after: set<Id>)
    modifies center
    ensures after == notified + IdSet(items)
    ensures center.notifications == Newest(check, FirstSightings(items, notified), now, daysLeft) + old(center.notifications)
  {
    after := notified;
    ghost var base := center.notifications;
    assert items[..0] == [];
    var i := 0;
    while i < |items|
      invariant 0 <= i <= |items|
      invariant after == notified + IdSet(items[..i])
      invariant center.notifications == Newest(check, FirstSightings(items[..i], notified), now, daysLeft) + base
    {
      after := NotifyOne(center, items, i, notified, after, check, now, daysLeft, base);
      i := i + 1;
    }
    assert items[..|items|] == items;
  }

  /** One clean-up `forEach`: drop every notified id that is no longer flagged. */
  method Prune(notified: set<Id>, current: set<Id>) returns (kept: set<Id>)
    ensures kept == notified * current
  {
    kept := notified;
    var remaining := notified;
    while remaining != {}
      invariant remaining <= notified
      invariant kept == (notified * current) + remaining
      decreases remaining
    {
      var id :| id in remaining;
      if id !in current {
        kept := kept - {id};
      }
      remaining := remaining - {id};
    }
  }

  /** Across two consecutive runs, an id is announced in the second exactly
      when it is flagged now and was not flagged in the first: an item that
      stays flagged is announced once, one that leaves and comes back is
      announced again. */
  lemma AnnouncedIffNewlyFlagged(previous: seq<CatalogItem>, current: seq<CatalogItem>, id: Id)
    ensures id in IdSet(FirstSightings(current, IdSet(previous))) <==> id in IdSet(current) && id !in IdSet(previous)
  {
    FirstSightingsSpec(current, IdSet(previous));
  }

  /** When a run's alerts are all posted at one clock reading `now`, they all
      carry that reading as their id, so dismissing that id dismisses every
      alert of the run and nothing older with a different id. */
  lemma DismissingOneDismissesRun(expiring: seq<CatalogItem>, low: seq<CatalogItem>, earlier: seq<Notification>, now: nat, daysLeft: Id -> int)
    ensures Without(Newest(ExpiryCheck, expiring, now, daysLeft) + (Newest(LowStockCheck, low, now, daysLeft) + earlier), now)
         == Without(earlier, now)
  {
    var errors := Newest(ExpiryCheck, expiring, now, daysLeft);
    var warnings := Newest(LowStockCheck, low, now, daysLeft);
    var others := (n: Notification) => n.id != now;
    NewestStamped(ExpiryCheck, expiring, now, daysLeft);
    NewestStamped(LowStockCheck, low, now, daysLeft);
    FilterAppend(errors, warnings + earlier, others);
    FilterAppend(warnings, earlier, others);
    FilterNone(errors, others);
    FilterNone(warnings, others);
  }

  class AlertMonitor {
    var notifiedLowStock: set<Id>
    var notifiedExpiring: set<Id>

    constructor ()
      ensures notifiedLowStock == {} && notifiedExpiring == {}
    {
      notifiedLowStock, notifiedExpiring := {}, {};
    }

    /** The effect body. `medicines` is the rendered catalog; `expiring` is
        what `getExpiringMedicines(2)` returned. Afterwards the notified sets
        are exactly the ids flagged now, and the centre holds this run's
        expiry errors, then its low-stock warnings, then what it held. */
    method Run(center: NotificationCenter, medicines: seq<CatalogItem>, expiring: seq<CatalogItem>, now: nat, daysLeft: Id -> int)
      modifies this, center
      ensures notifiedLowStock == IdSet(LowStock(medicines)) && notifiedExpiring == IdSet(expiring)
      ensures center.notifications
           == Newest(ExpiryCheck, FirstSightings(expiring, old(notifiedExpiring)), now, daysLeft)
              + (Newest(LowStockCheck, FirstSightings(LowStock(medicines), old(notifiedLowStock)), now, daysLeft)
                 + old(center.notifications))
    {
      var low := LowStock(medicines);
      var lowAfter := NotifyNew(center, low, notifiedLowStock, LowStockCheck, now, daysLeft);
      var expiringAfter := NotifyNew(center, expiring, notifiedExpiring, ExpiryCheck, now, daysLeft);
      notifiedLowStock := Prune(lowAfter, IdSet(low));
      notifiedExpiring := Prune(expiringAfter, IdSet(expiring));
    }
  }
}
