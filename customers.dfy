/** The customer list screen: per-customer purchase statistics drawn from the
    bills, a search over name, phone and email, and the add/edit form. */
module Customers {
  import opened Common
  import opened Records
  import opened AppStore

  // ------------------------------------------------------------ statistics

  predicate BillOf(cid: Id, b: Bill) {
    b.customerId == Some(cid)
  }

  /** `bills.filter(bill => bill.customerId === customerId)` */
  function CustomerBills(bills: seq<Bill>, cid: Id): seq<Bill> {
    Filter(bills, b => BillOf(cid, b))
  }

  /** `Math.max(...bills.map(bill => date))` over a non-empty list. */
  function LatestDate(bs: seq<Bill>): (r: Date)
    requires bs != []
    ensures exists k :: 0 <= k < |bs| && bs[k].date == r
    ensures forall k :: 0 <= k < |bs| ==> bs[k].date <= r
    decreases |bs|
  {
    if |bs| == 1 then bs[0].date
    else
      var m := LatestDate(bs[..|bs| - 1]);
      if bs[|bs| - 1].date > m then bs[|bs| - 1].date else m
  }

  datatype CustomerStats = CustomerStats(totalSpent: real, totalVisits: nat, lastVisit: Option<Date>)

  /** `getCustomerStats`. The latest date is tested for truthiness, so a
      latest visit on day 0 (1970-01-01, time value 0) shows as no visit. */
  function StatsOf(bills: seq<Bill>, cid: Id): (r: CustomerStats)
    ensures r.totalVisits <= |bills|
    ensures r.lastVisit.Some? ==>
              && r.lastVisit.value != 0
              && (exists b :: b in bills && BillOf(cid, b) && b.date == r.lastVisit.value)
              && (forall b :: b in bills && BillOf(cid, b) ==> b.date <= r.lastVisit.value)
    ensures r.lastVisit.None? ==>
              forall b :: b in bills && BillOf(cid, b) ==> b.date <= 0
  {
    var bs := CustomerBills(bills, cid);
    var last := if bs == [] then None else var m := LatestDate(bs); if m == 0 then None else Some(m);
    assert forall b :: b in bills && BillOf(cid, b) ==> b in bs;
    CustomerStats(Sum(bs, BillAmount), |bs|, last)
  }

  lemma CustomerBillsSnoc(bills: seq<Bill>, b: Bill, cid: Id)
    ensures CustomerBills(bills + [b], cid) == CustomerBills(bills, cid) + (if BillOf(cid, b) then [b] else [])
  {
    var p := (x: Bill) => BillOf(cid, x);
    FilterAppend(bills, [b], p);
    assert Filter([b], p) == (if p(b) then [b] else []) + Filter([b][1..], p);
  }

  lemma LatestIsNewest(before: seq<Bill>, b: Bill)
    requires forall k :: 0 <= k < |before| ==> before[k].date <= b.date
    ensures LatestDate(before + [b]) == b.date
  {
    var s := before + [b];
    assert s[..|s| - 1] == before;
  }

  /** A new bill counts toward its customer's statistics, and only toward
      theirs: the total grows by the bill's amount, the visits by one, and a
      bill dated after every earlier one becomes the last visit. */
  lemma StatsAfterBill(bills: seq<Bill>, b: Bill, cid: Id)
    ensures BillOf(cid, b) ==>
              && StatsOf(bills + [b], cid).totalSpent == StatsOf(bills, cid).totalSpent + b.totalAmount
              && StatsOf(bills + [b], cid).totalVisits == StatsOf(bills, cid).totalVisits + 1
              && (b.date > 0 && (forall x :: x in bills && BillOf(cid, x) ==> x.date <= b.date)
                  ==> StatsOf(bills + [b], cid).lastVisit == Some(b.date))
    ensures !BillOf(cid, b) ==> StatsOf(bills + [b], cid) == StatsOf(bills, cid)
  {
    var before := CustomerBills(bills, cid);
    CustomerBillsSnoc(bills, b, cid);
    if BillOf(cid, b) {
      var after := before + [b];
      assert after[..|after| - 1] == before;
      if b.date > 0 && (forall x :: x in bills && BillOf(cid, x) ==> x.date <= b.date) {
        forall k | 0 <= k < |before|
          ensures before[k].date <= b.date
        {
          assert before[k] in bills && BillOf(cid, before[k]);
        }
        LatestIsNewest(before, b);
      }
    } else {
      assert before + [] == before;
    }
  }

  // ---------------------------------------------------------------- search

  /** Name and email match ignoring case; the phone matches as typed. */
  predicate CustomerMatches(term: string, c: Customer) {
    Contains(Lower(c.name), Lower(term)) || Contains(c.phone, term) || Contains(Lower(c.email), Lower(term))
  }

  /** `filteredCustomers` */
  function FilteredCustomers(cs: seq<Customer>, term: string): seq<Customer> {
    Filter(cs, c => CustomerMatches(term, c))
  }

  /** The list shown keeps the customers' order, holds exactly those that
      match, and is every customer while the search box is empty. */
  lemma FilteredCustomersSpec(cs: seq<Customer>, term: string)
    ensures IsSubsequence(FilteredCustomers(cs, term), cs)
    ensures forall c :: c in FilteredCustomers(cs, term) <==> c in cs && CustomerMatches(term, c)
    ensures term == "" ==> FilteredCustomers(cs, term) == cs
  {
    FilterIsSubsequence(cs, c => CustomerMatches(term, c));
    if term == "" {
      forall c | c in cs
        ensures CustomerMatches(term, c)
      {
        ContainsEmpty(Lower(c.name));
      }
      FilterAll(cs, c => CustomerMatches(term, c));
    }
  }

  // ------------------------------------------------------------------ form

  class CustomerScreen {
    var showForm: bool
    var editing: Option<Customer>
    var name: string
    var phone: string
    var email: string
    var address: string

    predicate Blank()
      reads this
    {
      name == "" && phone == "" && email == "" && address == "" && editing.None? && !showForm
    }

    constructor ()
      ensures Blank()
    {
      showForm, editing := false, None;
      name, phone, email, address := "", "", "", "";
    }

    /** `handleEdit`: the form opens on the customer's fields. */
    method HandleEdit(c: Customer)
      modifies this
      ensures name == c.name && phone == c.phone && email == c.email && address == c.address
      ensures editing == Some(c) && showForm
    {
      name, phone, email, address := c.name, c.phone, c.email, c.address;
      editing := Some(c);
      showForm := true;
    }

    /** `handleFormClose` */
    method HandleFormClose()
      modifies this
      ensures Blank()
    {
      showForm, editing := false, None;
      name, phone, email, address := "", "", "", "";
    }

    /** `handleSubmit`: without a name or a phone nothing changes; editing
        rewrites the edited customer's four fields in place and keeps the
        count, adding appends exactly one new customer; either way the form
        closes empty. */
    method HandleSubmit(store: Store, today: Date) returns (outcome: Outcome)
      requires store.Valid()
      modifies this, store`customers, store`nextId
      ensures store.Valid()
      ensures outcome == (if old(name) == "" || old(phone) == "" then Rejected(MissingInput) else Done)
      ensures outcome.Rejected? ==>
                && store.customers == old(store.customers) && store.nextId == old(store.nextId)
                && name == old(name) && phone == old(phone) && email == old(email) && address == old(address)
                && editing == old(editing) && showForm == old(showForm)
      ensures outcome.Done? && old(editing).Some? ==>
                && |store.customers| == |old(store.customers)| && store.nextId == old(store.nextId)
                && forall k :: 0 <= k < |store.customers| ==>
                     store.customers[k]
                     == if old(store.customers)[k].id == old(editing).value.id
                        then old(store.customers)[k].(name := old(name), phone := old(phone), email := old(email), address := old(address))
                        else old(store.customers)[k]
      ensures outcome.Done? && old(editing).None? ==>
                && store.customers == old(store.customers) + [Customer(old(store.nextId), old(name), old(phone), old(email), old(address), today, 0.0)]
                && store.nextId == old(store.nextId) + 1
      ensures outcome.Done? ==> Blank()
    {
      if name == "" || phone == "" {
        return Rejected(MissingInput);
      }
      if editing.Some? {
        store.UpdateCustomer(editing.value.id, name, phone, email, address);
      } else {
        store.AddCustomer(name, phone, email, address, today);
      }
      name, phone, email, address := "", "", "", "";
      editing := None;
      showForm := false;
      outcome := Done;
    }
  }
}
