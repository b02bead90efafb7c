/** The integrity the database keeps over the marketplace tables (primary keys, the unique
    order number, the one-to-one payment column, foreign keys), stated over the key columns,
    and the lemmas that carry it across the updates the services make. */
module Tables {
  import opened Common
  import opened Rentals
  import opened Trade

  // What the database guarantees: primary keys, the unique order number, the one-to-one
  // payment column, and foreign keys that point at rows (CASCADE / SET_NULL remove or
  // clear them, and rows are only soft-deleted here). The invariant reads only the key
  // columns, so an update of any other column keeps it.

  function DetailIds(details: seq<TravelDetail>): seq<Id> {
    seq(|details|, i requires 0 <= i < |details| => details[i].id)
  }

  function ListingIds(objects: seq<LocationObject>): seq<Id> {
    seq(|objects|, i requires 0 <= i < |objects| => objects[i].id)
  }

  function OrderIds(orders: seq<Order>): seq<Id> {
    seq(|orders|, i requires 0 <= i < |orders| => orders[i].id)
  }

  /** Each order's (search, listing) pair. */
  function OrderLinks(orders: seq<Order>): seq<(Id, Id)> {
    seq(|orders|, i requires 0 <= i < |orders| => (orders[i].detail, orders[i].listing))
  }

  function OfferIds(offers: seq<Offer>): seq<Id> {
    seq(|offers|, i requires 0 <= i < |offers| => offers[i].id)
  }

  function OfferOrders(offers: seq<Offer>): seq<Id> {
    seq(|offers|, i requires 0 <= i < |offers| => offers[i].order)
  }

  function OfferNumbers(offers: seq<Offer>): seq<int> {
    seq(|offers|, i requires 0 <= i < |offers| => offers[i].orderNumber)
  }

  function PaymentIds(txs: seq<Transaction>): seq<Id> {
    seq(|txs|, i requires 0 <= i < |txs| => txs[i].id)
  }

  function PaymentOffers(txs: seq<Transaction>): seq<Option<Id>> {
    seq(|txs|, i requires 0 <= i < |txs| => txs[i].offer)
  }

  predicate Distinct<T(==)>(s: seq<T>) {
    forall i, j :: 0 <= i < j < |s| ==> s[i] != s[j]
  }

  predicate Below(ids: seq<Id>, bound: Id) {
    forall i :: 0 <= i < |ids| ==> ids[i] < bound
  }

  /** `travel_offer` is a OneToOneField: no two payments share an offer. */
  predicate OnePaymentPerOffer(refs: seq<Option<Id>>) {
    forall i, j :: 0 <= i < j < |refs| && refs[i].Some? ==> refs[i] != refs[j]
  }

  predicate AllIn(refs: seq<Id>, ids: seq<Id>) {
    forall i :: 0 <= i < |refs| ==> refs[i] in ids
  }

  predicate LinksIn(links: seq<(Id, Id)>, details: seq<Id>, listings: seq<Id>) {
    forall i :: 0 <= i < |links| ==> links[i].0 in details && links[i].1 in listings
  }

  predicate SomeIn(refs: seq<Option<Id>>, ids: seq<Id>) {
    forall i :: 0 <= i < |refs| && refs[i].Some? ==> refs[i].value in ids
  }

  predicate TablesValid(details: seq<TravelDetail>, orders: seq<Order>, offers: seq<Offer>, txs: seq<Transaction>,
                        inv: Inventory, bound: Id) {
    && Distinct(DetailIds(details)) && Distinct(OrderIds(orders)) && Distinct(OfferIds(offers)) && Distinct(PaymentIds(txs))
    && Distinct(OfferNumbers(offers)) && OnePaymentPerOffer(PaymentOffers(txs))
    && Below(DetailIds(details), bound) && Below(OrderIds(orders), bound)
    && Below(OfferIds(offers), bound) && Below(PaymentIds(txs), bound)
    && LinksIn(OrderLinks(orders), DetailIds(details), ListingIds(inv.objects))
    && AllIn(OfferOrders(offers), OrderIds(orders))
    && SomeIn(PaymentOffers(txs), OfferIds(offers))
  }

  // From key columns back to lookups

  lemma InDetails(details: seq<TravelDetail>, id: Id)
    requires id in DetailIds(details)
    ensures FindDetail(details, id).Some? && DetailAt(details, id).Some?
  {
    var k :| 0 <= k < |details| && DetailIds(details)[k] == id;
    assert details[k].id == id;
  }

  lemma InListings(objects: seq<LocationObject>, id: Id)
    requires id in ListingIds(objects)
    ensures FindListing(objects, id).Some?
  {
    var k :| 0 <= k < |objects| && ListingIds(objects)[k] == id;
    assert objects[k].id == id;
  }

  lemma InOrders(orders: seq<Order>, id: Id)
    requires id in OrderIds(orders)
    ensures FindOrder(orders, id).Some? && OrderAt(orders, id).Some?
  {
    var k :| 0 <= k < |orders| && OrderIds(orders)[k] == id;
    assert orders[k].id == id;
  }

  lemma InOffers(offers: seq<Offer>, id: Id)
    requires id in OfferIds(offers)
    ensures OfferAt(offers, id).Some?
  {
    var k :| 0 <= k < |offers| && OfferIds(offers)[k] == id;
    assert offers[k].id == id;
  }

  /** Every order's search and listing exist. */
  lemma OrderLinked(details: seq<TravelDetail>, orders: seq<Order>, offers: seq<Offer>, txs: seq<Transaction>, inv: Inventory, n: Id, i: nat)
    requires TablesValid(details, orders, offers, txs, inv, n) && i < |orders|
    ensures FindDetail(details, orders[i].detail).Some? && FindListing(inv.objects, orders[i].listing).Some?
  {
    assert OrderLinks(orders)[i] == (orders[i].detail, orders[i].listing);
    InDetails(details, orders[i].detail);
    InListings(inv.objects, orders[i].listing);
  }

  /** Every offer's order exists. */
  lemma OfferLinked(details: seq<TravelDetail>, orders: seq<Order>, offers: seq<Offer>, txs: seq<Transaction>, inv: Inventory, n: Id, j: nat)
    requires TablesValid(details, orders, offers, txs, inv, n) && j < |offers|
    ensures FindOrder(orders, offers[j].order).Some?
  {
    assert OfferOrders(offers)[j] == offers[j].order;
    InOrders(orders, offers[j].order);
  }

  /** Every payment that still has an offer points at an existing one. */
  lemma PaymentLinked(details: seq<TravelDetail>, orders: seq<Order>, offers: seq<Offer>, txs: seq<Transaction>, inv: Inventory, n: Id, k: nat)
    requires TablesValid(details, orders, offers, txs, inv, n) && k < |txs| && txs[k].offer.Some?
    ensures OfferAt(offers, txs[k].offer.value).Some?
  {
    assert PaymentOffers(txs)[k] == txs[k].offer;
    InOffers(offers, txs[k].offer.value);
  }

  // Updates that keep every key column

  predicate SameDetailKeys(a: seq<TravelDetail>, b: seq<TravelDetail>) {
    |a| == |b| && forall i :: 0 <= i < |a| ==> a[i].id == b[i].id
  }

  predicate SameOrderKeys(a: seq<Order>, b: seq<Order>) {
    |a| == |b| && forall i :: 0 <= i < |a| ==> a[i].id == b[i].id && a[i].detail == b[i].detail && a[i].listing == b[i].listing
  }

  predicate SameOfferKeys(a: seq<Offer>, b: seq<Offer>) {
    |a| == |b| && forall i :: 0 <= i < |a| ==> a[i].id == b[i].id && a[i].order == b[i].order && a[i].orderNumber == b[i].orderNumber
  }

  predicate SamePaymentKeys(a: seq<Transaction>, b: seq<Transaction>) {
    |a| == |b| && forall i :: 0 <= i < |a| ==> a[i].id == b[i].id && a[i].offer == b[i].offer
  }

  lemma DetailsRekeyed(a: seq<TravelDetail>, b: seq<TravelDetail>, orders: seq<Order>, offers: seq<Offer>, txs: seq<Transaction>, inv: Inventory, n: Id)
    requires TablesValid(a, orders, offers, txs, inv, n) && SameDetailKeys(a, b)
    ensures TablesValid(b, orders, offers, txs, inv, n)
  {
    assert DetailIds(a) == DetailIds(b);
  }

  lemma OrdersRekeyed(details: seq<TravelDetail>, a: seq<Order>, b: seq<Order>, offers: seq<Offer>, txs: seq<Transaction>, inv: Inventory, n: Id)
    requires TablesValid(details, a, offers, txs, inv, n) && SameOrderKeys(a, b)
    ensures TablesValid(details, b, offers, txs, inv, n)
  {
    assert OrderIds(a) == OrderIds(b);
    assert OrderLinks(a) == OrderLinks(b);
  }

  lemma OffersRekeyed(details: seq<TravelDetail>, orders: seq<Order>, a: seq<Offer>, b: seq<Offer>, txs: seq<Transaction>, inv: Inventory, n: Id)
    requires TablesValid(details, orders, a, txs, inv, n) && SameOfferKeys(a, b)
    ensures TablesValid(details, orders, b, txs, inv, n)
  {
    assert OfferIds(a) == OfferIds(b);
    assert OfferOrders(a) == OfferOrders(b);
    assert OfferNumbers(a) == OfferNumbers(b);
  }

  lemma PaymentsRekeyed(details: seq<TravelDetail>, orders: seq<Order>, offers: seq<Offer>, a: seq<Transaction>, b: seq<Transaction>, inv: Inventory, n: Id)
    requires TablesValid(details, orders, offers, a, inv, n) && SamePaymentKeys(a, b)
    ensures TablesValid(details, orders, offers, b, inv, n)
  {
    assert PaymentIds(a) == PaymentIds(b);
    assert PaymentOffers(a) == PaymentOffers(b);
  }

  lemma DetailRowUpdated(details: seq<TravelDetail>, orders: seq<Order>, offers: seq<Offer>, txs: seq<Transaction>, inv: Inventory, n: Id,
                         i: nat, x: TravelDetail)
    requires TablesValid(details, orders, offers, txs, inv, n) && i < |details| && x.id == details[i].id
    ensures TablesValid(details[i := x], orders, offers, txs, inv, n)
  {
    DetailsRekeyed(details, details[i := x], orders, offers, txs, inv, n);
  }

  lemma OrderRowUpdated(details: seq<TravelDetail>, orders: seq<Order>, offers: seq<Offer>, txs: seq<Transaction>, inv: Inventory, n: Id,
                        i: nat, x: Order)
    requires TablesValid(details, orders, offers, txs, inv, n) && i < |orders|
    requires x.id == orders[i].id && x.detail == orders[i].detail && x.listing == orders[i].listing
    ensures TablesValid(details, orders[i := x], offers, txs, inv, n)
  {
    OrdersRekeyed(details, orders, orders[i := x], offers, txs, inv, n);
  }

  lemma OfferRowUpdated(details: seq<TravelDetail>, orders: seq<Order>, offers: seq<Offer>, txs: seq<Transaction>, inv: Inventory, n: Id,
                        i: nat, x: Offer)
    requires TablesValid(details, orders, offers, txs, inv, n) && i < |offers|
    requires x.id == offers[i].id && x.order == offers[i].order && x.orderNumber == offers[i].orderNumber
    ensures TablesValid(details, orders, offers[i := x], txs, inv, n)
  {
    OffersRekeyed(details, orders, offers, offers[i := x], txs, inv, n);
  }

  lemma PaymentRowUpdated(details: seq<TravelDetail>, orders: seq<Order>, offers: seq<Offer>, txs: seq<Transaction>, inv: Inventory, n: Id,
                          i: nat, x: Transaction)
    requires TablesValid(details, orders, offers, txs, inv, n) && i < |txs|
    requires x.id == txs[i].id && x.offer == txs[i].offer
    ensures TablesValid(details, orders, offers, txs[i := x], inv, n)
  {
    PaymentsRekeyed(details, orders, offers, txs, txs[i := x], inv, n);
  }

  // Inserts of fresh rows

  lemma DistinctAppend(a: seq<Id>, b: seq<Id>, n: Id)
    requires Distinct(a) && Distinct(b) && Below(a, n)
    requires forall k :: 0 <= k < |b| ==> n <= b[k]
    ensures Distinct(a + b)
  {
    forall i, j | 0 <= i < j < |a + b| ensures (a + b)[i] != (a + b)[j] {
      if j >= |a| && i < |a| {
        assert (a + b)[i] == a[i] && (a + b)[j] == b[j - |a|];
      }
    }
  }

  lemma DetailAdded(details: seq<TravelDetail>, orders: seq<Order>, offers: seq<Offer>, txs: seq<Transaction>, inv: Inventory, n: Id, d: TravelDetail)
    requires TablesValid(details, orders, offers, txs, inv, n) && d.id == n
    ensures TablesValid(details + [d], orders, offers, txs, inv, n + 1)
  {
    assert DetailIds(details + [d]) == DetailIds(details) + [n];
    DistinctAppend(DetailIds(details), [n], n);
  }

  lemma OrdersAdded(details: seq<TravelDetail>, orders: seq<Order>, offers: seq<Offer>, txs: seq<Transaction>, inv: Inventory, n: Id,
                    listings: seq<LocationObject>, detail: Id, now: Time)
    requires TablesValid(details, orders, offers, txs, inv, n)
    requires detail in DetailIds(details)
    requires forall k :: 0 <= k < |listings| ==> listings[k] in inv.objects
    ensures TablesValid(details, orders + NewOrders(listings, detail, n, now), offers, txs, inv, n + |listings|)
  {
    var added := NewOrders(listings, detail, n, now);
    var ids := seq(|listings|, k requires 0 <= k < |listings| => n + k);
    assert OrderIds(added) == ids;
    assert OrderIds(orders + added) == OrderIds(orders) + ids;
    assert OrderLinks(orders + added) == OrderLinks(orders) + OrderLinks(added);
    DistinctAppend(OrderIds(orders), ids, n);
    forall k | 0 <= k < |added| ensures OrderLinks(added)[k].0 in DetailIds(details) && OrderLinks(added)[k].1 in ListingIds(inv.objects) {
      var p :| 0 <= p < |inv.objects| && inv.objects[p] == listings[k];
      assert ListingIds(inv.objects)[p] == listings[k].id;
    }
  }

  lemma OfferAdded(details: seq<TravelDetail>, orders: seq<Order>, offers: seq<Offer>, txs: seq<Transaction>, inv: Inventory, n: Id, f: Offer)
    requires TablesValid(details, orders, offers, txs, inv, n)
    requires f.id == n && FindOrder(orders, f.order).Some?
    requires forall i :: 0 <= i < |offers| ==> offers[i].orderNumber < f.orderNumber
    ensures TablesValid(details, orders, offers + [f], txs, inv, n + 1)
  {
    assert OfferIds(offers + [f]) == OfferIds(offers) + [n];
    assert OfferOrders(offers + [f]) == OfferOrders(offers) + [f.order];
    assert OfferNumbers(offers + [f]) == OfferNumbers(offers) + [f.orderNumber];
    DistinctAppend(OfferIds(offers), [n], n);
    var k := OrderAt(orders, f.order).value;
    assert OrderIds(orders)[k] == f.order;
    forall i, j | 0 <= i < j < |offers| + 1 ensures OfferNumbers(offers + [f])[i] != OfferNumbers(offers + [f])[j] {
      if j == |offers| {
        assert OfferNumbers(offers)[i] == offers[i].orderNumber;
      }
    }
  }

  lemma PaymentAdded(details: seq<TravelDetail>, orders: seq<Order>, offers: seq<Offer>, txs: seq<Transaction>, inv: Inventory, n: Id, t: Transaction)
    requires TablesValid(details, orders, offers, txs, inv, n)
    requires t.id == n && t.offer.Some? && OfferAt(offers, t.offer.value).Some?
    requires forall i :: 0 <= i < |txs| ==> txs[i].offer != t.offer
    ensures TablesValid(details, orders, offers, txs + [t], inv, n + 1)
  {
    assert PaymentIds(txs + [t]) == PaymentIds(txs) + [n];
    assert PaymentOffers(txs + [t]) == PaymentOffers(txs) + [t.offer];
    DistinctAppend(PaymentIds(txs), [n], n);
    var k := OfferAt(offers, t.offer.value).value;
    assert OfferIds(offers)[k] == t.offer.value;
    forall i, j | 0 <= i < j < |txs| + 1 && PaymentOffers(txs + [t])[i].Some?
      ensures PaymentOffers(txs + [t])[i] != PaymentOffers(txs + [t])[j]
    {
      if j == |txs| {
        assert PaymentOffers(txs)[i] == txs[i].offer;
      }
    }
  }

  /** Every offer leads to its traveller. */
  lemma TravellerKnown(details: seq<TravelDetail>, orders: seq<Order>, offers: seq<Offer>, txs: seq<Transaction>, inv: Inventory, n: Id, j: nat)
    requires TablesValid(details, orders, offers, txs, inv, n) && j < |offers|
    ensures TravellerEmailOf(orders, details, offers[j]).Some? && OfferUser(orders, details, offers[j]).Some?
  {
    OfferLinked(details, orders, offers, txs, inv, n, j);
    var o := FindOrder(orders, offers[j].order).value;
    var k :| 0 <= k < |orders| && orders[k] == o;
    OrderLinked(details, orders, offers, txs, inv, n, k);
  }
}
