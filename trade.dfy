/** The records of the order/offer lifecycle (src/apps/travels/models.py,
    src/apps/profiles/models/payment.py) and the pure selections the travel,
    search, broker and payment services make over them. Every table is a
    sequence of rows in table order; primary keys are `Id`s. */
module Trade {
  import opened Common
  import opened Rentals

  /** The dates of a planned trip. */
  datatype Stay = Stay(start: Date, end: Date)

  /** The traveller's budget; `max_sum` is a text column. */
  datatype Budget = Budget(minSum: string, maxSum: string)

  /** A traveller's search. `userEmail` is the e-mail of the searching user. */
  datatype TravelDetail = TravelDetail(
    id: Id, user: Id, userEmail: Email, placement: Id, objectType: Option<Id>, objectKind: Id,
    stay: Stay, budget: Budget, createdAt: Time, isDeleted: bool)

  /** One listing proposed to its vendor for one search. `approved` is None until the vendor
      answers. */
  datatype Order = Order(
    id: Id, detail: Id, listing: Id, approved: Option<bool>, isSent: bool, createdAt: Time, isDeleted: bool)

  /** The contact details a traveller enters when booking an offer. */
  datatype Booking = Booking(firstName: Option<string>, lastName: Option<string>, email: Option<string>, phone: Option<string>)

  const NoBooking := Booking(None, None, None, None)

  /** A vendor's priced answer to an order. `isPayed` and `isAccepted` are None until decided. */
  datatype Offer = Offer(
    id: Id, order: Id, isPayed: Option<bool>, isAccepted: Option<bool>, orderNumber: int,
    comment: Option<string>, price: int, isSent: bool, createdAt: Time, isDeleted: bool, booking: Booking)

  /** What `result_url` records about a payment: the gateway's callback fields and the fields
      of its status report. */
  datatype Settlement = Settlement(
    paymentId: Option<string>, salt: Option<string>, sig: Option<string>,
    currency: Option<string>, cardPan: Option<string>, status: Option<string>,
    failureDescription: Option<string>)

  /** The `response` part of the gateway's status report (`get_status`). */
  datatype StatusReport = StatusReport(
    currency: Option<string>, cardPan: Option<string>, amount: Option<string>, status: Option<string>,
    failureDescription: Option<string>)

  /** `payment_date` is an `auto_now` column: every `save()` stamps it with the current time,
      while a queryset `.update()` stores the value it is given (the gateway's date text). */
  datatype PaymentDate = SavedAt(time: Time) | Reported(text: Option<string>)

  /** A payment of an offer. `user` and `offer` become None when the row they point to is removed. */
  datatype Transaction = Transaction(
    id: Id, user: Option<Id>, offer: Option<Id>, description: string, amount: Option<string>,
    pgResult: Option<string>, settlement: Option<Settlement>, paymentDate: PaymentDate,
    isSent: bool, isDeleted: bool)

  /** The listing tables as the travel services read them. */
  datatype Inventory = Inventory(objects: seq<LocationObject>, locations: map<Id, Location>, prices: seq<ObjectPrice>)

  // ---------------------------------------------------------------------------
  // Following foreign keys

  function FindDetail(details: seq<TravelDetail>, id: Id): (r: Option<TravelDetail>)
    ensures r.Some? ==> r.value in details && r.value.id == id
    ensures r.None? <==> forall i :: 0 <= i < |details| ==> details[i].id != id
  {
    match Position(details, (d: TravelDetail) => d.id == id)
    case None => None
    case Some(i) => Some(details[i])
  }

  function FindOrder(orders: seq<Order>, id: Id): (r: Option<Order>)
    ensures r.Some? ==> r.value in orders && r.value.id == id
    ensures r.None? <==> forall i :: 0 <= i < |orders| ==> orders[i].id != id
  {
    match Position(orders, (o: Order) => o.id == id)
    case None => None
    case Some(i) => Some(orders[i])
  }

  function FindListing(objects: seq<LocationObject>, id: Id): (r: Option<LocationObject>)
    ensures r.Some? ==> r.value in objects && r.value.id == id
    ensures r.None? <==> forall i :: 0 <= i < |objects| ==> objects[i].id != id
  {
    match Position(objects, (o: LocationObject) => o.id == id)
    case None => None
    case Some(i) => Some(objects[i])
  }

  /** `order.match_object.vendor.email`. */
  function VendorEmailOf(inv: Inventory, o: Order): Option<Email> {
    match FindListing(inv.objects, o.listing)
    case None => None
    case Some(l) => Some(l.vendorEmail)
  }

  /** The search an offer answers: `offer.order.travel_detail`. */
  function OfferDetail(orders: seq<Order>, details: seq<TravelDetail>, f: Offer): Option<TravelDetail> {
    match FindOrder(orders, f.order)
    case None => None
    case Some(o) => FindDetail(details, o.detail)
  }

  /** `offer.order.travel_detail.user.email`. */
  function TravellerEmailOf(orders: seq<Order>, details: seq<TravelDetail>, f: Offer): Option<Email> {
    match OfferDetail(orders, details, f)
    case None => None
    case Some(d) => Some(d.userEmail)
  }

  /** `order.travel_detail.user`. */
  function OrderUser(details: seq<TravelDetail>, o: Order): Option<Id> {
    match FindDetail(details, o.detail)
    case None => None
    case Some(d) => Some(d.user)
  }

  /** No two listings share a primary key. */
  predicate UniqueListingIds(objects: seq<LocationObject>) {
    forall i, j :: 0 <= i < j < |objects| ==> objects[i].id != objects[j].id
  }

  // ---------------------------------------------------------------------------
  // create_matching_orders: the listings a search proposes

  /** Same placement (through the listing's location) and kind, and the same type when the
      search names one. Deleted listings are not excluded. */
  predicate MatchesSearch(inv: Inventory, l: LocationObject, d: TravelDetail) {
    && l.location in inv.locations
    && inv.locations[l.location].placement == d.placement
    && l.objectKind == d.objectKind
    && (d.objectType.Some? ==> l.objectType == d.objectType.value)
  }

  /** The availability test: a price row of the listing that starts no later than the stay
      starts, OR ends no earlier than the stay ends. Deleted price rows count. */
  predicate OpensStay(p: ObjectPrice, listing: Id, stay: Stay) {
    p.objectId == listing && (DateLe(p.start, stay.start) || DateLe(stay.end, p.end))
  }

  predicate HasOpeningPrice(prices: seq<ObjectPrice>, listing: Id, stay: Stay) {
    exists i :: 0 <= i < |prices| && OpensStay(prices[i], listing, stay)
  }

  /** `available_objects`: the matching listings with an opening price row, once each
      (`.distinct()`), in table order. */
  function AvailableListings(inv: Inventory, objects: seq<LocationObject>, d: TravelDetail): (r: seq<LocationObject>)
    ensures |r| <= |objects|
  {
    if objects == [] then []
    else
      var rest := AvailableListings(inv, objects[1..], d);
      if MatchesSearch(inv, objects[0], d) && HasOpeningPrice(inv.prices, objects[0].id, d.stay) then [objects[0]] + rest
      else rest
  }

  /** A listing is proposed exactly when it is in the table, matches the search and has an
      opening price. */
  lemma {:induction false} AvailableListingsMembers(inv: Inventory, objects: seq<LocationObject>, d: TravelDetail)
    ensures forall l :: l in AvailableListings(inv, objects, d) <==>
      l in objects && MatchesSearch(inv, l, d) && HasOpeningPrice(inv.prices, l.id, d.stay)
  {
    if objects != [] {
      AvailableListingsMembers(inv, objects[1..], d);
      assert forall l :: l in objects <==> l == objects[0] || l in objects[1..];
    }
  }

  /** `.distinct()` on unique rows: no listing is proposed twice. */
  lemma {:induction false} AvailableListingsUnique(inv: Inventory, objects: seq<LocationObject>, d: TravelDetail)
    requires UniqueListingIds(objects)
    ensures UniqueListingIds(AvailableListings(inv, objects, d))
  {
    if objects != [] {
      var rest := AvailableListings(inv, objects[1..], d);
      assert forall i :: 1 <= i < |objects| ==> objects[i] == objects[1..][i - 1];
      AvailableListingsUnique(inv, objects[1..], d);
      if MatchesSearch(inv, objects[0], d) && HasOpeningPrice(inv.prices, objects[0].id, d.stay) {
        AvailableListingsMembers(inv, objects[1..], d);
        forall j | 0 <= j < |rest| ensures rest[j].id != objects[0].id {
          assert rest[j] in rest;
          var k :| 0 <= k < |objects[1..]| && objects[1..][k] == rest[j];
          assert objects[k + 1] == rest[j];
        }
        var r := [objects[0]] + rest;
        assert forall i :: 1 <= i < |r| ==> r[i] == rest[i - 1];
      }
    }
  }

  /** A search with no opening price row anywhere proposes no listing. */
  lemma NoPricesNoListings(inv: Inventory, d: TravelDetail)
    requires forall i :: 0 <= i < |inv.prices| ==> !OpensStay(inv.prices[i], inv.prices[i].objectId, d.stay)
    ensures forall l :: l !in AvailableListings(inv, inv.objects, d)
  {
    AvailableListingsMembers(inv, inv.objects, d);
  }

  /** The availability test is looser than containment: a listing priced only for an earlier
      period that started before the stay is still proposed. */
  lemma ExpiredPriceStillOpens()
    ensures OpensStay(ObjectPrice(1, 7, Date(2024, 1, 1), Date(2024, 1, 31), 50, false), 7,
                      Stay(Date(2024, 6, 1), Date(2024, 6, 10)))
  {
  }

  // ---------------------------------------------------------------------------
  // create_offer: the order number

  /** `aggregate(Max('order_number'))`: None on an empty table. Deleted offers count. */
  function MaxOrderNumber(offers: seq<Offer>): (r: Option<int>)
    ensures r.None? <==> offers == []
    ensures r.Some? ==> exists i :: 0 <= i < |offers| && offers[i].orderNumber == r.value
    ensures r.Some? ==> forall i :: 0 <= i < |offers| ==> offers[i].orderNumber <= r.value
  {
    if offers == [] then None
    else
      var rest := MaxOrderNumber(offers[1..]);
      assert forall i :: 1 <= i < |offers| ==> offers[i] == offers[1..][i - 1];
      if rest.None? || rest.value < offers[0].orderNumber then Some(offers[0].orderNumber) else rest
  }

  /** `(max or 0) + 1`: larger than every existing order number, and 1 on an empty table. */
  function NextOrderNumber(offers: seq<Offer>): (n: int)
    ensures forall i :: 0 <= i < |offers| ==> offers[i].orderNumber < n
    ensures offers == [] ==> n == 1
  {
    match MaxOrderNumber(offers)
    case None => 1
    case Some(m) => (if m == 0 then 0 else m) + 1
  }

  /** Hence appending an offer with that number keeps the order numbers unique. */
  lemma NextOrderNumberKeepsUnique(offers: seq<Offer>, f: Offer)
    requires forall i, j :: 0 <= i < j < |offers| ==> offers[i].orderNumber != offers[j].orderNumber
    requires f.orderNumber == NextOrderNumber(offers)
    ensures forall i, j :: 0 <= i < j < |offers + [f]| ==> (offers + [f])[i].orderNumber != (offers + [f])[j].orderNumber
  {
  }

  // ---------------------------------------------------------------------------
  // The batches of the catch-up tasks (src/apps/profiles/tasks/broker.py)

  /** `send_orders`' filter: unsent, not deleted, unanswered, on a listing of that vendor. */
  predicate OrderAwaitsVendor(inv: Inventory, o: Order, email: Email) {
    !o.isSent && !o.isDeleted && o.approved.None? && VendorEmailOf(inv, o) == Some(email)
  }

  /** The ids of the orders the vendor's catch-up sends, in table order. */
  function OrderIdsAwaiting(orders: seq<Order>, inv: Inventory, email: Email): (ids: seq<Id>)
    ensures forall id :: id in ids <==> exists i :: 0 <= i < |orders| && orders[i].id == id && OrderAwaitsVendor(inv, orders[i], email)
  {
    if orders == [] then []
    else
      assert forall i :: 1 <= i < |orders| ==> orders[i] == orders[1..][i - 1];
      (if OrderAwaitsVendor(inv, orders[0], email) then [orders[0].id] else []) + OrderIdsAwaiting(orders[1..], inv, email)
  }

  /** `orders.update(is_sent=True)` on that batch. */
  function MarkOrdersSent(orders: seq<Order>, inv: Inventory, email: Email): (r: seq<Order>)
    ensures |r| == |orders|
    ensures forall i :: 0 <= i < |r| ==> r[i].(isSent := orders[i].isSent) == orders[i]
    ensures forall i :: 0 <= i < |r| ==> (r[i].isSent <==> orders[i].isSent || OrderAwaitsVendor(inv, orders[i], email))
  {
    seq(|orders|, i requires 0 <= i < |orders| =>
      if OrderAwaitsVendor(inv, orders[i], email) then orders[i].(isSent := true) else orders[i])
  }

  /** After the update nothing awaits the vendor: a second catch-up sends an empty batch. */
  lemma MarkOrdersSentEmptiesBatch(orders: seq<Order>, inv: Inventory, email: Email)
    ensures forall id :: id !in OrderIdsAwaiting(MarkOrdersSent(orders, inv, email), inv, email)
  {
    var r := MarkOrdersSent(orders, inv, email);
    forall i | 0 <= i < |r| ensures !OrderAwaitsVendor(inv, r[i], email) {
      assert r[i].listing == orders[i].listing;
    }
  }

  /** `send_offers`' filter: unsent, not deleted, unanswered, of that traveller. */
  predicate OfferAwaitsTraveller(orders: seq<Order>, details: seq<TravelDetail>, f: Offer, email: Email) {
    !f.isSent && !f.isDeleted && f.isAccepted.None? && TravellerEmailOf(orders, details, f) == Some(email)
  }

  function OfferIdsAwaiting(offers: seq<Offer>, orders: seq<Order>, details: seq<TravelDetail>, email: Email): (ids: seq<Id>)
    ensures forall id :: id in ids <==> exists i :: 0 <= i < |offers| && offers[i].id == id && OfferAwaitsTraveller(orders, details, offers[i], email)
  {
    if offers == [] then []
    else
      assert forall i :: 1 <= i < |offers| ==> offers[i] == offers[1..][i - 1];
      (if OfferAwaitsTraveller(orders, details, offers[0], email) then [offers[0].id] else [])
        + OfferIdsAwaiting(offers[1..], orders, details, email)
  }

  function MarkOffersSent(offers: seq<Offer>, orders: seq<Order>, details: seq<TravelDetail>, email: Email): (r: seq<Offer>)
    ensures |r| == |offers|
    ensures forall i :: 0 <= i < |r| ==> r[i].(isSent := offers[i].isSent) == offers[i]
    ensures forall i :: 0 <= i < |r| ==> (r[i].isSent <==> offers[i].isSent || OfferAwaitsTraveller(orders, details, offers[i], email))
  {
    seq(|offers|, i requires 0 <= i < |offers| =>
      if OfferAwaitsTraveller(orders, details, offers[i], email) then offers[i].(isSent := true) else offers[i])
  }

  lemma MarkOffersSentEmptiesBatch(offers: seq<Offer>, orders: seq<Order>, details: seq<TravelDetail>, email: Email)
    ensures forall id :: id !in OfferIdsAwaiting(MarkOffersSent(offers, orders, details, email), orders, details, email)
  {
    var r := MarkOffersSent(offers, orders, details, email);
    forall i | 0 <= i < |r| ensures !OfferAwaitsTraveller(orders, details, r[i], email) {
      assert r[i].order == offers[i].order;
    }
  }

  /** `send_deleted_offers`' filter: already sent, deleted, unanswered, of that traveller. */
  predicate OfferWithdrawnFor(orders: seq<Order>, details: seq<TravelDetail>, f: Offer, email: Email) {
    f.isSent && f.isDeleted && f.isAccepted.None? && TravellerEmailOf(orders, details, f) == Some(email)
  }

  function WithdrawnOfferIds(offers: seq<Offer>, orders: seq<Order>, details: seq<TravelDetail>, email: Email): (ids: seq<Id>)
    ensures forall id :: id in ids <==> exists i :: 0 <= i < |offers| && offers[i].id == id && OfferWithdrawnFor(orders, details, offers[i], email)
  {
    if offers == [] then []
    else
      assert forall i :: 1 <= i < |offers| ==> offers[i] == offers[1..][i - 1];
      (if OfferWithdrawnFor(orders, details, offers[0], email) then [offers[0].id] else [])
        + WithdrawnOfferIds(offers[1..], orders, details, email)
  }

  /** The `update(is_sent=True)` of `send_deleted_offers` on rows it selected by `is_sent=True`. */
  function MarkWithdrawnSent(offers: seq<Offer>, orders: seq<Order>, details: seq<TravelDetail>, email: Email): seq<Offer> {
    seq(|offers|, i requires 0 <= i < |offers| =>
      if OfferWithdrawnFor(orders, details, offers[i], email) then offers[i].(isSent := true) else offers[i])
  }

  /** That update changes no row: every row it touches is already sent. */
  lemma MarkWithdrawnSentChangesNothing(offers: seq<Offer>, orders: seq<Order>, details: seq<TravelDetail>, email: Email)
    ensures MarkWithdrawnSent(offers, orders, details, email) == offers
  {
    var r := MarkWithdrawnSent(offers, orders, details, email);
    forall i | 0 <= i < |offers| ensures r[i] == offers[i] {
      if OfferWithdrawnFor(orders, details, offers[i], email) {
        assert offers[i].isSent;
      }
    }
  }

  // ---------------------------------------------------------------------------
  // SearchService.cancel_search (src/apps/profiles/services/user.py)

  /** `offer.order.travel_detail.user`. */
  function OfferUser(orders: seq<Order>, details: seq<TravelDetail>, f: Offer): Option<Id> {
    match OfferDetail(orders, details, f)
    case None => None
    case Some(d) => Some(d.user)
  }

  /** The offer filter: the user's live offers that are neither paid nor answered. */
  predicate OfferCancellable(orders: seq<Order>, details: seq<TravelDetail>, f: Offer, user: Id) {
    !f.isDeleted && f.isPayed.None? && f.isAccepted.None? && OfferUser(orders, details, f) == Some(user)
  }

  /** `offers__is_payed__isnull=True` through a left join: the order has no offer at all, or
      some offer (deleted or not) whose payment is undecided. */
  predicate NoOfferOrUnpaid(offers: seq<Offer>, orderId: Id) {
    (forall i :: 0 <= i < |offers| ==> offers[i].order != orderId)
    || exists i :: 0 <= i < |offers| && offers[i].order == orderId && offers[i].isPayed.None?
  }

  /** The order filter: the user's live unanswered orders with no offer or an undecided payment. */
  predicate OrderCancellable(details: seq<TravelDetail>, offers: seq<Offer>, o: Order, user: Id) {
    !o.isDeleted && o.approved.None? && OrderUser(details, o) == Some(user) && NoOfferOrUnpaid(offers, o.id)
  }

  /** The search filter, `orders__offers__is_payed__isnull=True` through two left joins: the
      search has no order, or some order that has no offer or an undecided payment. */
  predicate DetailCancellable(orders: seq<Order>, offers: seq<Offer>, d: TravelDetail, user: Id) {
    d.user == user && !d.isDeleted
    && ((forall i :: 0 <= i < |orders| ==> orders[i].detail != d.id)
        || exists i :: 0 <= i < |orders| && orders[i].detail == d.id && NoOfferOrUnpaid(offers, orders[i].id))
  }

  function CancelOffers(offers: seq<Offer>, orders: seq<Order>, details: seq<TravelDetail>, user: Id): (r: seq<Offer>)
    ensures |r| == |offers|
    ensures forall i :: 0 <= i < |r| ==> r[i].(isDeleted := offers[i].isDeleted) == offers[i]
    ensures forall i :: 0 <= i < |r| ==> (r[i].isDeleted <==> offers[i].isDeleted || OfferCancellable(orders, details, offers[i], user))
  {
    seq(|offers|, i requires 0 <= i < |offers| =>
      if OfferCancellable(orders, details, offers[i], user) then offers[i].(isDeleted := true) else offers[i])
  }

  function CancelOrders(orders: seq<Order>, details: seq<TravelDetail>, offers: seq<Offer>, user: Id): (r: seq<Order>)
    ensures |r| == |orders|
    ensures forall i :: 0 <= i < |r| ==> r[i].(isDeleted := orders[i].isDeleted) == orders[i]
    ensures forall i :: 0 <= i < |r| ==> (r[i].isDeleted <==> orders[i].isDeleted || OrderCancellable(details, offers, orders[i], user))
  {
    seq(|orders|, i requires 0 <= i < |orders| =>
      if OrderCancellable(details, offers, orders[i], user) then orders[i].(isDeleted := true) else orders[i])
  }

  function CancelDetails(details: seq<TravelDetail>, orders: seq<Order>, offers: seq<Offer>, user: Id): (r: seq<TravelDetail>)
    ensures |r| == |details|
    ensures forall i :: 0 <= i < |r| ==> r[i].(isDeleted := details[i].isDeleted) == details[i]
    ensures forall i :: 0 <= i < |r| ==> (r[i].isDeleted <==> details[i].isDeleted || DetailCancellable(orders, offers, details[i], user))
  {
    seq(|details|, i requires 0 <= i < |details| =>
      if DetailCancellable(orders, offers, details[i], user) then details[i].(isDeleted := true) else details[i])
  }

  /** Cancelling a search spares every paid (or refused) offer, every answered order, and every
      order whose offers all have a decided payment. */
  lemma CancelSearchSparesDecided(offers: seq<Offer>, orders: seq<Order>, details: seq<TravelDetail>, user: Id, i: nat, j: nat)
    requires i < |offers| && j < |orders|
    ensures offers[i].isPayed.Some? ==> CancelOffers(offers, orders, details, user)[i] == offers[i]
    ensures orders[j].approved.Some? ==> CancelOrders(orders, details, offers, user)[j] == orders[j]
    ensures (exists k :: 0 <= k < |offers| && offers[k].order == orders[j].id)
         && (forall k :: 0 <= k < |offers| && offers[k].order == orders[j].id ==> offers[k].isPayed.Some?)
        ==> CancelOrders(orders, details, offers, user)[j] == orders[j]
  {
    var r := CancelOffers(offers, orders, details, user);
    assert r[i].(isDeleted := offers[i].isDeleted) == offers[i];
    var q := CancelOrders(orders, details, offers, user);
    assert q[j].(isDeleted := orders[j].isDeleted) == orders[j];
  }

  /** A search whose every order has offers, all with a decided payment, is not cancelled. */
  lemma CancelSearchSparesPaidSearch(details: seq<TravelDetail>, orders: seq<Order>, offers: seq<Offer>, user: Id, i: nat)
    requires i < |details|
    requires exists j :: 0 <= j < |orders| && orders[j].detail == details[i].id
    requires forall j :: 0 <= j < |orders| && orders[j].detail == details[i].id ==>
      (exists k :: 0 <= k < |offers| && offers[k].order == orders[j].id)
      && (forall k :: 0 <= k < |offers| && offers[k].order == orders[j].id ==> offers[k].isPayed.Some?)
    ensures CancelDetails(details, orders, offers, user)[i] == details[i]
  {
    var r := CancelDetails(details, orders, offers, user);
    assert !DetailCancellable(orders, offers, details[i], user);
    assert r[i].(isDeleted := details[i].isDeleted) == details[i];
  }

  /** Every live, unpaid, unanswered offer of the user is cancelled, and no offer of another user. */
  lemma CancelOffersExactly(offers: seq<Offer>, orders: seq<Order>, details: seq<TravelDetail>, user: Id, i: nat)
    requires i < |offers|
    ensures (!offers[i].isDeleted && offers[i].isPayed.None? && offers[i].isAccepted.None?
             && OfferUser(orders, details, offers[i]) == Some(user))
      ==> CancelOffers(offers, orders, details, user)[i].isDeleted
    ensures OfferUser(orders, details, offers[i]) != Some(user) ==> CancelOffers(offers, orders, details, user)[i] == offers[i]
  {
    var r := CancelOffers(offers, orders, details, user);
    assert r[i].(isDeleted := offers[i].isDeleted) == offers[i];
  }

  // ---------------------------------------------------------------------------
  // TravelOfferService.filter_past / filter_active (src/apps/travels/services.py)

  /** `offer.order.travel_detail.date.end_date`. */
  function OfferEnd(orders: seq<Order>, details: seq<TravelDetail>, f: Offer): Option<Date> {
    match OfferDetail(orders, details, f)
    case None => None
    case Some(d) => Some(d.stay.end)
  }

  predicate EndsBy(orders: seq<Order>, details: seq<TravelDetail>, f: Offer, day: Date) {
    OfferEnd(orders, details, f).Some? && DateLe(OfferEnd(orders, details, f).value, day)
  }

  predicate EndsFrom(orders: seq<Order>, details: seq<TravelDetail>, f: Offer, day: Date) {
    OfferEnd(orders, details, f).Some? && DateLe(day, OfferEnd(orders, details, f).value)
  }

  /** Filtering on a date: an absent or empty `date` keeps the queryset; a text Django's
      `parse_date` (the parameter `parseDate`) cannot read gives a None filter value, which
      the ORM refuses with ValueError. */
  function FilterByDate(offers: seq<Offer>, orders: seq<Order>, details: seq<TravelDetail>,
                        date: Option<string>, parseDate: string -> Option<Date>, past: bool): (r: Result<seq<Offer>>)
    ensures (date.None? || date == Some("")) ==> r == Ok(offers)
    ensures date.Some? && date.value != "" && parseDate(date.value).None? ==> r.Err?
    ensures date.Some? && date.value != "" && parseDate(date.value).Some? ==>
      var day := parseDate(date.value).value;
      r.Ok? && forall f :: f in r.value <==> f in offers && (if past then EndsBy(orders, details, f, day) else EndsFrom(orders, details, f, day))
  {
    if date.None? || date.value == "" then Ok(offers)
    else
      match parseDate(date.value)
      case None => Err(Crash("ValueError: Cannot use None as a query value"))
      case Some(day) =>
        if past then Ok(Filter(offers, (f: Offer) => EndsBy(orders, details, f, day)))
        else Ok(Filter(offers, (f: Offer) => EndsFrom(orders, details, f, day)))
  }

  /** `filter_past`: the offers whose stay ends on or before the date. */
  function FilterPast(offers: seq<Offer>, orders: seq<Order>, details: seq<TravelDetail>,
                      date: Option<string>, parseDate: string -> Option<Date>): (r: Result<seq<Offer>>)
    ensures (date.None? || date == Some("")) ==> r == Ok(offers)
    ensures date.Some? && date.value != "" && parseDate(date.value).None? ==> r.Err?
    ensures date.Some? && date.value != "" && parseDate(date.value).Some? ==>
      r.Ok? && forall f :: f in r.value <==>
        f in offers && OfferEnd(orders, details, f).Some? && DateLe(OfferEnd(orders, details, f).value, parseDate(date.value).value)
  {
    FilterByDate(offers, orders, details, date, parseDate, true)
  }

  /** `filter_active`: the offers whose stay ends on or after the date. */
  function FilterActive(offers: seq<Offer>, orders: seq<Order>, details: seq<TravelDetail>,
                        date: Option<string>, parseDate: string -> Option<Date>): (r: Result<seq<Offer>>)
    ensures (date.None? || date == Some("")) ==> r == Ok(offers)
    ensures date.Some? && date.value != "" && parseDate(date.value).None? ==> r.Err?
    ensures date.Some? && date.value != "" && parseDate(date.value).Some? ==>
      r.Ok? && forall f :: f in r.value <==>
        f in offers && OfferEnd(orders, details, f).Some? && DateLe(parseDate(date.value).value, OfferEnd(orders, details, f).value)
  {
    FilterByDate(offers, orders, details, date, parseDate, false)
  }

  /** On the same readable date the past and the active offers together are all offers with a
      known end, and they share exactly the offers ending on that day. */
  lemma PastAndActiveSplit(offers: seq<Offer>, orders: seq<Order>, details: seq<TravelDetail>,
                           date: string, parseDate: string -> Option<Date>, f: Offer)
    requires date != "" && parseDate(date).Some?
    requires f in offers && OfferEnd(orders, details, f).Some?
    ensures var past := FilterPast(offers, orders, details, Some(date), parseDate).value;
      var active := FilterActive(offers, orders, details, Some(date), parseDate).value;
      (f in past || f in active)
      && (f in past && f in active <==> OfferEnd(orders, details, f).value == parseDate(date).value)
  {
    DateLeTotalOrder(OfferEnd(orders, details, f).value, parseDate(date).value, parseDate(date).value);
  }

  // ---------------------------------------------------------------------------
  // The rows the services and tasks fetch by id

  /** `Orders.objects.get(id=...)`. */
  function OrderAt(orders: seq<Order>, id: Id): (r: Option<nat>)
    ensures r.Some? ==> r.value < |orders| && orders[r.value].id == id
    ensures r.None? <==> forall i :: 0 <= i < |orders| ==> orders[i].id != id
  {
    Position(orders, (o: Order) => o.id == id)
  }

  /** `send_order`'s row: that id, not deleted, not yet sent. */
  function UnsentOrderAt(orders: seq<Order>, id: Id): (r: Option<nat>)
    ensures r.Some? ==> r.value < |orders| && orders[r.value].id == id && !orders[r.value].isDeleted && !orders[r.value].isSent
    ensures r.None? <==> forall i :: 0 <= i < |orders| ==> !(orders[i].id == id && !orders[i].isDeleted && !orders[i].isSent)
  {
    Position(orders, (o: Order) => o.id == id && !o.isDeleted && !o.isSent)
  }

  /** `deleted_expired_orders`' row: that id, not deleted, unanswered. */
  function OpenOrderAt(orders: seq<Order>, id: Id): (r: Option<nat>)
    ensures r.Some? ==> r.value < |orders| && orders[r.value].id == id && !orders[r.value].isDeleted && orders[r.value].approved.None?
    ensures r.None? <==> forall i :: 0 <= i < |orders| ==> !(orders[i].id == id && !orders[i].isDeleted && orders[i].approved.None?)
  {
    Position(orders, (o: Order) => o.id == id && !o.isDeleted && o.approved.None?)
  }

  function DetailAt(details: seq<TravelDetail>, id: Id): (r: Option<nat>)
    ensures r.Some? ==> r.value < |details| && details[r.value].id == id
    ensures r.None? <==> forall i :: 0 <= i < |details| ==> details[i].id != id
  {
    Position(details, (d: TravelDetail) => d.id == id)
  }

  function OfferAt(offers: seq<Offer>, id: Id): (r: Option<nat>)
    ensures r.Some? ==> r.value < |offers| && offers[r.value].id == id
    ensures r.None? <==> forall i :: 0 <= i < |offers| ==> offers[i].id != id
  {
    Position(offers, (f: Offer) => f.id == id)
  }

  /** `send_offer`'s row: that id, not deleted, not yet sent. */
  function UnsentOfferAt(offers: seq<Offer>, id: Id): (r: Option<nat>)
    ensures r.Some? ==> r.value < |offers| && offers[r.value].id == id && !offers[r.value].isDeleted && !offers[r.value].isSent
    ensures r.None? <==> forall i :: 0 <= i < |offers| ==> !(offers[i].id == id && !offers[i].isDeleted && !offers[i].isSent)
  {
    Position(offers, (f: Offer) => f.id == id && !f.isDeleted && !f.isSent)
  }

  /** `deleted_expired_offers`' row: that id, not deleted, unanswered. */
  function OpenOfferAt(offers: seq<Offer>, id: Id): (r: Option<nat>)
    ensures r.Some? ==> r.value < |offers| && offers[r.value].id == id && !offers[r.value].isDeleted && offers[r.value].isAccepted.None?
    ensures r.None? <==> forall i :: 0 <= i < |offers| ==> !(offers[i].id == id && !offers[i].isDeleted && offers[i].isAccepted.None?)
  {
    Position(offers, (f: Offer) => f.id == id && !f.isDeleted && f.isAccepted.None?)
  }

  /** The row `cancel_offer`, `accept_offer` and `booking_offer` fetch: that id, not deleted. */
  function LiveOfferAt(offers: seq<Offer>, id: Id): (r: Option<nat>)
    ensures r.Some? ==> r.value < |offers| && offers[r.value].id == id && !offers[r.value].isDeleted
    ensures r.None? <==> forall i :: 0 <= i < |offers| ==> !(offers[i].id == id && !offers[i].isDeleted)
  {
    Position(offers, (f: Offer) => f.id == id && !f.isDeleted)
  }

  function TransactionAt(txs: seq<Transaction>, id: Id): (r: Option<nat>)
    ensures r.Some? ==> r.value < |txs| && txs[r.value].id == id
    ensures r.None? <==> forall i :: 0 <= i < |txs| ==> txs[i].id != id
  {
    Position(txs, (t: Transaction) => t.id == id)
  }

  /** `transaction.user.email`, when the user is still there. */
  predicate PaidBy(users: map<Id, Email>, t: Transaction, email: Email) {
    t.user.Some? && t.user.value in users && users[t.user.value] == email
  }

  /** `send_some_payment_status`' row: the first live, unsent payment of that user. */
  function UnsentPaymentOf(txs: seq<Transaction>, users: map<Id, Email>, email: Email): (r: Option<nat>)
    ensures r.Some? ==> r.value < |txs| && PaidBy(users, txs[r.value], email) && !txs[r.value].isDeleted && !txs[r.value].isSent
    ensures r.None? <==> forall i :: 0 <= i < |txs| ==> !(PaidBy(users, txs[i], email) && !txs[i].isDeleted && !txs[i].isSent)
  {
    Position(txs, (t: Transaction) => PaidBy(users, t, email) && !t.isDeleted && !t.isSent)
  }

  // ---------------------------------------------------------------------------
  // create_matching_orders: the rows it creates

  /** One fresh, unanswered, unsent order per listing, with consecutive ids from `firstId`. */
  function NewOrders(listings: seq<LocationObject>, detail: Id, firstId: Id, now: Time): (r: seq<Order>)
    ensures |r| == |listings|
    ensures forall k :: 0 <= k < |listings| ==> r[k] == Order(firstId + k, detail, listings[k].id, None, false, now, false)
  {
    if listings == [] then []
    else NewOrders(listings[..|listings| - 1], detail, firstId, now)
         + [Order(firstId + |listings| - 1, detail, listings[|listings| - 1].id, None, false, now, false)]
  }

  /** Each order a search opens is an unanswered, unsent order of that search for a listing
      that matches it and has an opening price. */
  lemma NewOrdersMatch(inv: Inventory, d: TravelDetail, firstId: Id, now: Time, k: nat)
    requires k < |NewOrders(AvailableListings(inv, inv.objects, d), d.id, firstId, now)|
    ensures var o := NewOrders(AvailableListings(inv, inv.objects, d), d.id, firstId, now)[k];
      && o.detail == d.id && o.approved.None? && !o.isSent && !o.isDeleted && o.createdAt == now
      && exists l :: l in inv.objects && l.id == o.listing && MatchesSearch(inv, l, d) && HasOpeningPrice(inv.prices, l.id, d.stay)
  {
    var ls := AvailableListings(inv, inv.objects, d);
    AvailableListingsMembers(inv, inv.objects, d);
    assert ls[k] in ls;
  }

  /** Each listing that matches the search and has an opening price gets an order. */
  lemma EveryMatchGetsAnOrder(inv: Inventory, d: TravelDetail, firstId: Id, now: Time, l: LocationObject)
    requires l in inv.objects && MatchesSearch(inv, l, d) && HasOpeningPrice(inv.prices, l.id, d.stay)
    ensures exists k :: (0 <= k < |NewOrders(AvailableListings(inv, inv.objects, d), d.id, firstId, now)|
      && NewOrders(AvailableListings(inv, inv.objects, d), d.id, firstId, now)[k].listing == l.id)
  {
    var ls := AvailableListings(inv, inv.objects, d);
    AvailableListingsMembers(inv, inv.objects, d);
    var k :| 0 <= k < |ls| && ls[k] == l;
    var os := NewOrders(ls, d.id, firstId, now);
    assert 0 <= k < |os| && os[k].listing == l.id;
  }

  /** No listing gets two orders (listing ids being unique). */
  lemma NoListingTwice(inv: Inventory, d: TravelDetail, firstId: Id, now: Time)
    requires UniqueListingIds(inv.objects)
    ensures var os := NewOrders(AvailableListings(inv, inv.objects, d), d.id, firstId, now);
      forall j, k :: 0 <= j < k < |os| ==> os[j].listing != os[k].listing
  {
    var ls := AvailableListings(inv, inv.objects, d);
    AvailableListingsUnique(inv, inv.objects, d);
  }

  /** A search no listing matches opens no order, and raises nothing. */
  lemma {:induction false} NoMatchNoListings(inv: Inventory, objects: seq<LocationObject>, d: TravelDetail)
    requires forall k :: 0 <= k < |objects| ==> !MatchesSearch(inv, objects[k], d)
    ensures AvailableListings(inv, objects, d) == []
  {
    if objects != [] {
      assert forall k :: 1 <= k < |objects| ==> objects[k] == objects[1..][k - 1];
      NoMatchNoListings(inv, objects[1..], d);
    }
  }

  // ---------------------------------------------------------------------------
  // create_offer: the checks before the offer is created

  const OrderNotFoundText := "Order not found."
  const OverBudgetText := "Price exceeds the maximum allowed budget."
  const NoSearchText := "AttributeError: 'NoneType' object has no attribute 'budget'"
  const NotAnIntegerText := "ValueError: invalid literal for int() with base 10"
  const PriceMissingText := "TypeError: int() argument must be a string, a bytes-like object or a real number, not 'NoneType'"

  /** `int(order.travel_detail.budget.max_sum)`, or None when the order, its search or the
      number is missing. */
  function MaxBudget(orders: seq<Order>, details: seq<TravelDetail>, orderId: Id): (r: Option<int>)
    ensures FindOrder(orders, orderId).None? ==> r.None?
    ensures r.Some? ==> var o := FindOrder(orders, orderId).value;
      FindOrder(orders, orderId).Some? && FindDetail(details, o.detail).Some?
      && ParseInt(FindDetail(details, o.detail).value.budget.maxSum) == r
  {
    match FindOrder(orders, orderId)
    case None => None
    case Some(o) =>
      match FindDetail(details, o.detail)
      case None => None
      case Some(d) => ParseInt(d.budget.maxSum)
  }

  /** What `create_offer` stores for an accepted offer: its order number and the price as
      the BigIntegerField reads it. */
  datatype OfferTerms = OfferTerms(orderNumber: int, price: int)

  /** What `create_offer` would store, or why it refuses. The order is looked up first: 404
      for an unknown order (whether or not it is deleted or already answered). Then
      `int(max_sum)` is read: a crash when the order has no search or `max_sum` is no
      integer. Then `int(price)` on the raw request value: a TypeError when the price is
      missing, a ValueError when it is not an integer. Last, 400 when the price is above the
      budget. */
  function OfferCheck(orders: seq<Order>, details: seq<TravelDetail>, offers: seq<Offer>, orderId: Id, price: Option<string>): (r: Result<OfferTerms>)
    ensures FindOrder(orders, orderId).None? ==> r == Err(Refused(404, OrderNotFoundText))
    ensures FindOrder(orders, orderId).Some? && FindDetail(details, FindOrder(orders, orderId).value.detail).None? ==>
      r == Err(Crash(NoSearchText))
    ensures (&& FindOrder(orders, orderId).Some?
             && FindDetail(details, FindOrder(orders, orderId).value.detail).Some?
             && ParseInt(FindDetail(details, FindOrder(orders, orderId).value.detail).value.budget.maxSum).None?) ==>
      r == Err(Crash(NotAnIntegerText))
    ensures MaxBudget(orders, details, orderId).Some? && price.None? ==> r == Err(Crash(PriceMissingText))
    ensures MaxBudget(orders, details, orderId).Some? && price.Some? && ParseInt(price.value).None? ==>
      r == Err(Crash(NotAnIntegerText))
    ensures r.Ok? <==> (&& MaxBudget(orders, details, orderId).Some? && price.Some? && ParseInt(price.value).Some?
                        && ParseInt(price.value).value <= MaxBudget(orders, details, orderId).value)
    ensures r == Err(Refused(400, OverBudgetText)) <==>
      (&& MaxBudget(orders, details, orderId).Some? && price.Some? && ParseInt(price.value).Some?
       && ParseInt(price.value).value > MaxBudget(orders, details, orderId).value)
    ensures r.Ok? ==> (&& r.value.price == ParseInt(price.value).value
                       && r.value.orderNumber == NextOrderNumber(offers)
                       && forall i :: 0 <= i < |offers| ==> offers[i].orderNumber < r.value.orderNumber)
  {
    match FindOrder(orders, orderId)
    case None => Err(Refused(404, OrderNotFoundText))
    case Some(o) =>
      match FindDetail(details, o.detail)
      case None => Err(Crash(NoSearchText))
      case Some(d) =>
        match ParseInt(d.budget.maxSum)
        case None => Err(Crash(NotAnIntegerText))
        case Some(max) =>
          match price
          case None => Err(Crash(PriceMissingText))
          case Some(text) =>
            match ParseInt(text)
            case None => Err(Crash(NotAnIntegerText))
            case Some(p) =>
              if p > max then Err(Refused(400, OverBudgetText)) else Ok(OfferTerms(NextOrderNumber(offers), p))
  }

  // ---------------------------------------------------------------------------
  // PaymentService.create_transaction: get_or_create

  const PaymentDescription := "ОПЛАТА ЗА БРОНИРОВАНИЕ"
  const NotTheTravellersOrder := "Заказ который был отправлен не является заказом этого пользователя"

  predicate SamePayment(t: Transaction, user: Id, offer: Id) {
    t.user == Some(user) && t.offer == Some(offer) && t.description == PaymentDescription
  }

  function PaymentAt(txs: seq<Transaction>, user: Id, offer: Id): (r: Option<nat>)
    ensures r.Some? ==> r.value < |txs| && SamePayment(txs[r.value], user, offer)
    ensures r.None? <==> forall i :: 0 <= i < |txs| ==> !SamePayment(txs[i], user, offer)
  {
    Position(txs, (t: Transaction) => SamePayment(t, user, offer))
  }

  function PaymentOfOffer(txs: seq<Transaction>, offer: Id): (r: Option<nat>)
    ensures r.Some? ==> r.value < |txs| && txs[r.value].offer == Some(offer)
    ensures r.None? <==> forall i :: 0 <= i < |txs| ==> txs[i].offer != Some(offer)
  {
    Position(txs, (t: Transaction) => t.offer == Some(offer))
  }

  /** `get_or_create(user, travel_offer, pg_description)` then `amount` set only on creation;
      the new row's `payment_date` is the time of that save. Creating a second payment of an
      offer breaks the one-to-one column. */
  function GetOrCreatePayment(txs: seq<Transaction>, user: Id, offer: Id, amount: Option<string>, freshId: Id, now: Time): (r: Result<(seq<Transaction>, Id)>)
    ensures PaymentAt(txs, user, offer).Some? ==> r == Ok((txs, txs[PaymentAt(txs, user, offer).value].id))
    ensures PaymentAt(txs, user, offer).None? && PaymentOfOffer(txs, offer).Some? ==> r.Err?
    ensures PaymentAt(txs, user, offer).None? && PaymentOfOffer(txs, offer).None? ==>
      r == Ok((txs + [Transaction(freshId, Some(user), Some(offer), PaymentDescription, amount, None, None, SavedAt(now), false, false)], freshId))
  {
    match PaymentAt(txs, user, offer)
    case Some(i) => Ok((txs, txs[i].id))
    case None =>
      if PaymentOfOffer(txs, offer).Some? then Err(Crash("IntegrityError: duplicate key value violates unique constraint"))
      else Ok((txs + [Transaction(freshId, Some(user), Some(offer), PaymentDescription, amount, None, None, SavedAt(now), false, false)], freshId))
  }

  /** A repeated `create_transaction` returns the same record and leaves the table, amount
      included, as the first call left it, whatever amount it is given and whenever it runs. */
  lemma GetOrCreatePaymentIdempotent(txs: seq<Transaction>, user: Id, offer: Id, a1: Option<string>, a2: Option<string>,
                                      id1: Id, id2: Id, now1: Time, now2: Time)
    requires GetOrCreatePayment(txs, user, offer, a1, id1, now1).Ok?
    ensures var first := GetOrCreatePayment(txs, user, offer, a1, id1, now1).value;
      GetOrCreatePayment(first.0, user, offer, a2, id2, now2) == Ok(first)
  {
    var first := GetOrCreatePayment(txs, user, offer, a1, id1, now1).value;
    if PaymentAt(txs, user, offer).None? {
      var t := Transaction(id1, Some(user), Some(offer), PaymentDescription, a1, None, None, SavedAt(now1), false, false);
      assert first.0 == txs + [t];
      assert SamePayment(first.0[|txs|], user, offer);
      assert forall i :: 0 <= i < |txs| ==> first.0[i] == txs[i];
      var p := PaymentAt(first.0, user, offer);
      assert p.Some? && p.value == |txs|;
    }
  }
}
