/** The vendor's order queries (`OrderListService` in src/apps/vendors/services.py):
    orders still waiting for an answer, approved orders not yet paid, and the paid
    trips currently booked on the vendor's listings. Result rows follow table order. */
module VendorOrders {
  import opened Common
  import opened Rentals
  import opened Trade

  /** `match_object__vendor=vendor`. */
  predicate OwnedBy(objects: seq<LocationObject>, vendor: Id, o: Order) {
    match FindListing(objects, o.listing)
    case None => false
    case Some(l) => l.vendor == vendor
  }

  /** `order.travel_detail.date.end_date`. */
  function TravelEnd(details: seq<TravelDetail>, o: Order): Option<Date> {
    match FindDetail(details, o.detail)
    case None => None
    case Some(d) => Some(d.stay.end)
  }

  /** The `matched_price` annotation of `get_vendor_orders`: the strict rule. */
  function StrictPriceOf(inv: Inventory, details: seq<TravelDetail>, o: Order): Option<int> {
    match TravelEnd(details, o)
    case None => None
    case Some(e) => StrictMatchedPrice(inv.prices, o.listing, e)
  }

  /** The `matched_price` annotation of `detail_current_occupancy`: the loose rule. */
  function LoosePriceOf(inv: Inventory, details: seq<TravelDetail>, o: Order): Option<int> {
    match TravelEnd(details, o)
    case None => None
    case Some(e) => LooseMatchedPrice(inv.prices, o.listing, e)
  }

  // ---------------------------------------------------------------------------
  // get_vendor_orders

  /** Not deleted, on one of the vendor's listings, and not answered yet. */
  predicate AwaitingAnswer(objects: seq<LocationObject>, vendor: Id, o: Order) {
    !o.isDeleted && OwnedBy(objects, vendor, o) && o.approved.None?
  }

  datatype PricedOrder = PricedOrder(order: Order, matchedPrice: Option<int>)

  /** The orders among `rows` waiting for the vendor's answer, each priced by the strict rule. */
  function PendingOrders(rows: seq<Order>, details: seq<TravelDetail>, inv: Inventory, vendor: Id): (r: seq<PricedOrder>)
    ensures |r| <= |rows|
    ensures forall x :: x in r ==> x.order in rows && AwaitingAnswer(inv.objects, vendor, x.order)
    ensures forall x :: x in r ==> x.matchedPrice == StrictPriceOf(inv, details, x.order)
    ensures forall o :: o in rows && AwaitingAnswer(inv.objects, vendor, o) ==>
      PricedOrder(o, StrictPriceOf(inv, details, o)) in r
  {
    if rows == [] then []
    else
      var rest := PendingOrders(rows[1..], details, inv, vendor);
      assert forall o :: o in rows ==> o == rows[0] || o in rows[1..];
      if AwaitingAnswer(inv.objects, vendor, rows[0]) then [PricedOrder(rows[0], StrictPriceOf(inv, details, rows[0]))] + rest
      else rest
  }

  /** `get_vendor_orders`. */
  function GetVendorOrders(orders: seq<Order>, details: seq<TravelDetail>, inv: Inventory, vendor: Id): (r: seq<PricedOrder>)
    ensures forall o :: o in orders && AwaitingAnswer(inv.objects, vendor, o) <==>
      PricedOrder(o, StrictPriceOf(inv, details, o)) in r
    ensures forall x :: x in r ==> x.matchedPrice == StrictPriceOf(inv, details, x.order)
  {
    PendingOrders(orders, details, inv, vendor)
  }

  /** A listed price is a price row of the listing that covers the travel end date. */
  lemma ListedPriceCoversTravelEnd(orders: seq<Order>, details: seq<TravelDetail>, inv: Inventory, vendor: Id, x: PricedOrder)
    requires x in GetVendorOrders(orders, details, inv, vendor) && x.matchedPrice.Some?
    ensures TravelEnd(details, x.order).Some?
    ensures exists i :: (0 <= i < |inv.prices| && inv.prices[i].price == x.matchedPrice.value
      && StrictEndMatch(inv.prices[i], x.order.listing, TravelEnd(details, x.order).value))
  {
  }

  // ---------------------------------------------------------------------------
  // approved_vendor_orders

  /** The order has no offer at all. */
  predicate Offerless(offers: seq<Offer>, id: Id) {
    forall i :: 0 <= i < |offers| ==> offers[i].order != id
  }

  /** `offers__is_payed=None`: the outer join yields a row with no payment decision, either
      an offer whose payment is undecided or, for an order with no offer, the empty side. */
  predicate UnpaidJoin(offers: seq<Offer>, id: Id) {
    Offerless(offers, id) || exists i :: 0 <= i < |offers| && offers[i].order == id && offers[i].isPayed.None?
  }

  /** Not deleted, the vendor's, approved, and with an undecided payment. */
  predicate AwaitingPayment(offers: seq<Offer>, objects: seq<LocationObject>, vendor: Id, o: Order) {
    !o.isDeleted && OwnedBy(objects, vendor, o) && o.approved == Some(true) && UnpaidJoin(offers, o.id)
  }

  function ApprovedFilter(offers: seq<Offer>, objects: seq<LocationObject>, vendor: Id): Order -> bool {
    o => AwaitingPayment(offers, objects, vendor, o)
  }

  /** `approved_vendor_orders`. */
  function ApprovedVendorOrders(orders: seq<Order>, offers: seq<Offer>, objects: seq<LocationObject>, vendor: Id): (r: seq<Order>)
    ensures |r| <= |orders|
    ensures forall o :: o in r <==> o in orders && AwaitingPayment(offers, objects, vendor, o)
  {
    Filter(orders, ApprovedFilter(offers, objects, vendor))
  }

  /** An order waiting for an answer is never among the approved ones, and conversely. */
  lemma PendingAndApprovedDisjoint(orders: seq<Order>, offers: seq<Offer>, details: seq<TravelDetail>, inv: Inventory,
                                   vendor: Id, o: Order)
    requires o in ApprovedVendorOrders(orders, offers, inv.objects, vendor)
    ensures PricedOrder(o, StrictPriceOf(inv, details, o)) !in GetVendorOrders(orders, details, inv, vendor)
  {
  }

  /** Paying an offer does not drop its order from the approved list while another offer of
      the order is still undecided. */
  lemma ApprovedWhileAnotherOfferUndecided(orders: seq<Order>, offers: seq<Offer>, objects: seq<LocationObject>,
                                           vendor: Id, j: nat, k: nat)
    requires j < |offers| && k < |offers| && j != k && offers[j].order == offers[k].order
    requires offers[k].isPayed.None?
    ensures forall o :: o in ApprovedVendorOrders(orders, offers, objects, vendor) <==>
      o in ApprovedVendorOrders(orders, offers[j := offers[j].(isPayed := Some(true))], objects, vendor)
  {
    var paid := offers[j := offers[j].(isPayed := Some(true))];
    forall o | o in orders
      ensures AwaitingPayment(offers, objects, vendor, o) == AwaitingPayment(paid, objects, vendor, o)
    {
      if o.id == offers[j].order {
        assert paid[k] == offers[k];
      } else {
        forall i | 0 <= i < |offers|
          ensures (offers[i].order == o.id && offers[i].isPayed.None?) == (paid[i].order == o.id && paid[i].isPayed.None?)
        {
        }
      }
    }
  }

  // ---------------------------------------------------------------------------
  // get_current_occupancy / detail_current_occupancy

  /** `offers__is_payed=True`: some offer of the order, deleted or not, is paid. */
  predicate HasPaidOffer(offers: seq<Offer>, id: Id) {
    exists i :: 0 <= i < |offers| && offers[i].order == id && offers[i].isPayed == Some(true)
  }

  /** Not deleted, the vendor's, and paid. */
  predicate Occupied(offers: seq<Offer>, objects: seq<LocationObject>, vendor: Id, o: Order) {
    HasPaidOffer(offers, o.id) && !o.isDeleted && OwnedBy(objects, vendor, o)
  }

  /** An offer the quantity subquery counts for `user`: not deleted, paid, and answering one
      of the user's searches. */
  predicate PaidTrip(orders: seq<Order>, details: seq<TravelDetail>, user: Id, f: Offer) {
    !f.isDeleted && f.isPayed == Some(true)
    && OfferDetail(orders, details, f).Some? && OfferDetail(orders, details, f).value.user == user
  }

  /** `Count('id')` of the user's paid trips among `rows`. */
  function PaidTrips(rows: seq<Offer>, orders: seq<Order>, details: seq<TravelDetail>, user: Id): (n: nat)
    ensures n <= |rows|
    ensures n == 0 <==> forall i :: 0 <= i < |rows| ==> !PaidTrip(orders, details, user, rows[i])
  {
    if rows == [] then 0
    else
      var rest := PaidTrips(rows[1..], orders, details, user);
      assert forall i :: 1 <= i < |rows| ==> rows[i] == rows[1..][i - 1];
      (if PaidTrip(orders, details, user, rows[0]) then 1 else 0) + rest
  }

  /** The `travel_quantity` annotation: the traveller's paid trips, or None when the grouped
      subquery has no row. */
  function TravelQuantity(offers: seq<Offer>, orders: seq<Order>, details: seq<TravelDetail>, o: Order): (q: Option<nat>)
    ensures q.Some? ==> 1 <= q.value <= |offers|
  {
    match OrderUser(details, o)
    case None => None
    case Some(u) =>
      var n := PaidTrips(offers, orders, details, u);
      if n == 0 then None else Some(n)
  }

  datatype Occupancy = Occupancy(order: Order, travelQuantity: Option<nat>)

  function Occupancies(rows: seq<Order>, orders: seq<Order>, offers: seq<Offer>, details: seq<TravelDetail>,
                       objects: seq<LocationObject>, vendor: Id): (r: seq<Occupancy>)
    ensures |r| <= |rows|
    ensures forall x :: x in r ==> (x.order in rows && Occupied(offers, objects, vendor, x.order)
      && x.travelQuantity == TravelQuantity(offers, orders, details, x.order))
    ensures forall o :: o in rows && Occupied(offers, objects, vendor, o) ==>
      Occupancy(o, TravelQuantity(offers, orders, details, o)) in r
  {
    if rows == [] then []
    else
      var rest := Occupancies(rows[1..], orders, offers, details, objects, vendor);
      assert forall o :: o in rows ==> o == rows[0] || o in rows[1..];
      if Occupied(offers, objects, vendor, rows[0]) then
        [Occupancy(rows[0], TravelQuantity(offers, orders, details, rows[0]))] + rest
      else rest
  }

  /** `get_current_occupancy`. */
  function GetCurrentOccupancy(orders: seq<Order>, offers: seq<Offer>, details: seq<TravelDetail>,
                               objects: seq<LocationObject>, vendor: Id): (r: seq<Occupancy>)
    ensures forall o :: o in orders && Occupied(offers, objects, vendor, o) <==>
      Occupancy(o, TravelQuantity(offers, orders, details, o)) in r
    ensures forall x :: x in r ==> x.travelQuantity == TravelQuantity(offers, orders, details, x.order)
  {
    Occupancies(orders, orders, offers, details, objects, vendor)
  }

  /** No two orders share a primary key. */
  predicate UniqueOrderIds(orders: seq<Order>) {
    forall i, j :: 0 <= i < j < |orders| ==> orders[i].id != orders[j].id
  }

  /** An order with a live paid offer is counted in its own traveller's quantity, so its
      quantity is never None. */
  lemma OwnPaidOfferCounted(offers: seq<Offer>, orders: seq<Order>, details: seq<TravelDetail>, o: Order, j: nat)
    requires UniqueOrderIds(orders) && o in orders
    requires j < |offers| && offers[j].order == o.id && offers[j].isPayed == Some(true) && !offers[j].isDeleted
    requires FindDetail(details, o.detail).Some?
    ensures TravelQuantity(offers, orders, details, o).Some?
  {
    assert FindOrder(orders, o.id) == Some(o) by {
      var p := FindOrder(orders, o.id);
      var i :| 0 <= i < |orders| && orders[i] == o;
      assert orders[i].id == o.id;
      var k :| 0 <= k < |orders| && orders[k] == p.value;
      assert k == i;
    }
    assert PaidTrip(orders, details, FindDetail(details, o.detail).value.user, offers[j]);
  }

  datatype OccupancyDetail = OccupancyDetail(order: Order, travelQuantity: Option<nat>, matchedPrice: Option<int>)

  /** The first order among `rows` with the given id that passes the occupancy filter. */
  function FirstOccupied(rows: seq<Order>, orderId: Id, offers: seq<Offer>, objects: seq<LocationObject>, vendor: Id): (r: Option<Order>)
    ensures r.None? <==> forall i :: 0 <= i < |rows| ==> !(rows[i].id == orderId && Occupied(offers, objects, vendor, rows[i]))
    ensures r.Some? ==> r.value in rows && r.value.id == orderId && Occupied(offers, objects, vendor, r.value)
  {
    if rows == [] then None
    else if rows[0].id == orderId && Occupied(offers, objects, vendor, rows[0]) then Some(rows[0])
    else
      var rest := FirstOccupied(rows[1..], orderId, offers, objects, vendor);
      assert forall i :: 1 <= i < |rows| ==> rows[i] == rows[1..][i - 1];
      rest
  }

  /** `detail_current_occupancy`: the vendor's paid order with that id, with its travel
      quantity and its price by the loose rule, or None. */
  function DetailCurrentOccupancy(orderId: Id, vendor: Id, orders: seq<Order>, offers: seq<Offer>,
                                  details: seq<TravelDetail>, inv: Inventory): (r: Option<OccupancyDetail>)
    ensures r.None? <==> forall i :: 0 <= i < |orders| ==>
      !(orders[i].id == orderId && Occupied(offers, inv.objects, vendor, orders[i]))
    ensures r.Some? ==> (r.value.order in orders && r.value.order.id == orderId
      && Occupied(offers, inv.objects, vendor, r.value.order))
    ensures r.Some? ==> (r.value.travelQuantity == TravelQuantity(offers, orders, details, r.value.order)
      && r.value.matchedPrice == LoosePriceOf(inv, details, r.value.order))
  {
    match FirstOccupied(orders, orderId, offers, inv.objects, vendor)
    case None => None
    case Some(o) => Some(OccupancyDetail(o, TravelQuantity(offers, orders, details, o), LoosePriceOf(inv, details, o)))
  }

  /** The detail view shows exactly the orders of the occupancy list, with the same quantity. */
  lemma DetailAgreesWithList(orderId: Id, vendor: Id, orders: seq<Order>, offers: seq<Offer>,
                             details: seq<TravelDetail>, inv: Inventory)
    ensures var r := DetailCurrentOccupancy(orderId, vendor, orders, offers, details, inv);
      var list := GetCurrentOccupancy(orders, offers, details, inv.objects, vendor);
      && (r.Some? ==> Occupancy(r.value.order, r.value.travelQuantity) in list)
      && (r.None? ==> forall x :: x in list ==> x.order.id != orderId)
  {
    var r := DetailCurrentOccupancy(orderId, vendor, orders, offers, details, inv);
    var list := GetCurrentOccupancy(orders, offers, details, inv.objects, vendor);
    if r.None? {
      forall x | x in list ensures x.order.id != orderId {
        assert x == Occupancy(x.order, TravelQuantity(offers, orders, details, x.order));
        assert x.order in orders && Occupied(offers, inv.objects, vendor, x.order);
      }
    }
  }

  /** An order the pending list prices is also priced in the detail view's loose rule. */
  lemma DetailPricedWhenListPriced(inv: Inventory, details: seq<TravelDetail>, o: Order)
    ensures StrictPriceOf(inv, details, o).Some? ==> LoosePriceOf(inv, details, o).Some?
  {
    if TravelEnd(details, o).Some? {
      StrictImpliesLoose(inv.prices, o.listing, TravelEnd(details, o).value);
    }
  }
}
