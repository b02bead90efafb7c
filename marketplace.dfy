/** The order/offer lifecycle as one sequential state: the travel services
    (src/apps/travels/services.py), the broker tasks (src/apps/profiles/tasks/broker.py),
    the websocket consumers (src/apps/vendors/consumers.py,
    src/apps/profiles/consumers/user.py), the traveller's SearchService
    (src/apps/profiles/services/user.py) and the payment records
    (src/apps/profiles/services/payment.py). The shared connection store is a map,
    the channel layer an outbox of messages, the task queue a list of jobs with due
    times, and the clock an integer. */
module Marketplace {
  import opened Common
  import opened Rentals
  import opened Trade
  import opened Channels
  import opened PaymentSignatures
  import opened Tables

  /** `apply_async(..., countdown=300)` of the expiry tasks. */
  const ExpiryCountdown := 300
  /** What `send_order` and `send_offer` add to `created_at` on each run. */
  const ResendDelay := 5 * Minute
  /** `Expired_time` of a search and of an offer. */
  const DetailLifetime := 5 * Minute
  const OfferLifetime := 15 * Minute

  const OrderNotFound := "Order not found"
  const OfferNotFound := "Offer not found"

  // ---------------------------------------------------------------------------
  // The consumers

  datatype ConsumerKind = VendorConsumer | VendorDeleteOrderConsumer | UserConsumer | DeletedOffersConsumer

  /** The topic a consumer registers its connections under. */
  function TopicOf(kind: ConsumerKind): string {
    match kind
    case VendorConsumer => VendorTopic
    case VendorDeleteOrderConsumer => DeletedOrderTopic
    case UserConsumer => UserTopic
    case DeletedOffersConsumer => DeletedOffersTopic
  }

  /** The catch-up task a consumer queues on connect. Both vendor consumers queue the
      orders catch-up. */
  function CatchUp(kind: ConsumerKind, email: Email): (t: Task)
    ensures kind.VendorConsumer? || kind.VendorDeleteOrderConsumer? ==> t == SendOrders(email)
    ensures kind.UserConsumer? ==> t == SendOffers(email)
    ensures kind.DeletedOffersConsumer? ==> t == SendDeletedOffers(email)
  {
    match kind
    case VendorConsumer => SendOrders(email)
    case VendorDeleteOrderConsumer => SendOrders(email)
    case UserConsumer => SendOffers(email)
    case DeletedOffersConsumer => SendDeletedOffers(email)
  }

  /** The model a consumer looks the token's user up in. */
  function ModelName(kind: ConsumerKind): string {
    if kind.VendorConsumer? || kind.VendorDeleteOrderConsumer? then "Vendor" else "User"
  }

  /** The four consumers' class-level dicts. */
  datatype ConnTables = ConnTables(vendor: ConnDict, vendorDeleteOrder: ConnDict, user: ConnDict, deletedOffers: ConnDict)
  {
    function Get(kind: ConsumerKind): ConnDict {
      match kind
      case VendorConsumer => vendor
      case VendorDeleteOrderConsumer => vendorDeleteOrder
      case UserConsumer => user
      case DeletedOffersConsumer => deletedOffers
    }

    function Set(kind: ConsumerKind, d: ConnDict): (r: ConnTables)
      ensures r.Get(kind) == d
      ensures forall other :: other != kind ==> r.Get(other) == Get(other)
    {
      match kind
      case VendorConsumer => this.(vendor := d)
      case VendorDeleteOrderConsumer => this.(vendorDeleteOrder := d)
      case UserConsumer => this.(user := d)
      case DeletedOffersConsumer => this.(deletedOffers := d)
    }

    /** No dict holds an e-mail twice. */
    predicate Valid() {
      KeysUnique(vendor) && KeysUnique(vendorDeleteOrder) && KeysUnique(user) && KeysUnique(deletedOffers)
    }
  }

  lemma SetKeepsValid(c: ConnTables, kind: ConsumerKind, d: ConnDict)
    requires c.Valid() && KeysUnique(d)
    ensures c.Set(kind, d).Valid() && KeysUnique(c.Get(kind))
  {
  }

  /** The store keys a disconnecting channel frees. */
  function Served(topic: string, gone: seq<Email>): set<(string, Email)> {
    set e | e in gone :: (topic, e)
  }

  // ---------------------------------------------------------------------------
  // The jobs create_matching_orders queues

  /** Per new order, in order: `send_order` now and `deleted_expired_orders` 300 s later,
      both keyed by the listing's vendor e-mail. */
  function OrderJobs(listings: seq<LocationObject>, firstId: Id, now: Time): (r: seq<Job>)
    ensures |r| == 2 * |listings|
    ensures forall k :: 0 <= k < |listings| ==>
      && r[2 * k] == Job(now, SendOrder(firstId + k, listings[k].vendorEmail))
      && r[2 * k + 1] == Job(now + ExpiryCountdown, ExpireOrder(firstId + k, listings[k].vendorEmail, DeletedOrderTopic, SendDeletedOrderIdType))
  {
    if listings == [] then []
    else
      var n := |listings| - 1;
      OrderJobs(listings[..n], firstId, now)
      + [Job(now, SendOrder(firstId + n, listings[n].vendorEmail)),
         Job(now + ExpiryCountdown, ExpireOrder(firstId + n, listings[n].vendorEmail, DeletedOrderTopic, SendDeletedOrderIdType))]
  }

  lemma NewOrdersSnoc(ls: seq<LocationObject>, k: nat, detail: Id, firstId: Id, now: Time)
    requires k < |ls|
    ensures NewOrders(ls[..k + 1], detail, firstId, now)
            == NewOrders(ls[..k], detail, firstId, now) + [Order(firstId + k, detail, ls[k].id, None, false, now, false)]
  {
    assert ls[..k + 1][..k] == ls[..k];
  }

  lemma OrderJobsSnoc(ls: seq<LocationObject>, k: nat, firstId: Id, now: Time)
    requires k < |ls|
    ensures OrderJobs(ls[..k + 1], firstId, now)
            == OrderJobs(ls[..k], firstId, now)
               + [Job(now, SendOrder(firstId + k, ls[k].vendorEmail)),
                  Job(now + ExpiryCountdown, ExpireOrder(firstId + k, ls[k].vendorEmail, DeletedOrderTopic, SendDeletedOrderIdType))]
  {
    assert ls[..k + 1][..k] == ls[..k];
  }

  /** The store after one more e-mail of a disconnecting channel has been dropped. */
  lemma DropOneMore(m: Registry, topic: string, gone: seq<Email>, e: Email)
    ensures m - Served(topic, gone) - {(topic, e)} == m - Served(topic, gone + [e])
  {
    assert Served(topic, gone + [e]) == Served(topic, gone) + {(topic, e)};
  }

  // ---------------------------------------------------------------------------
  // The state

  /** The loop of `disconnect`: each key the channel serves is collected, in dict order, and
      dropped from the store under `topic`. */
  method DropServed(d: ConnDict, channel: string, topic: string, registry: Registry) returns (gone: seq<Email>, store: Registry)
    ensures gone == KeysFor(d, channel)
    ensures store == registry - Served(topic, gone)
  {
    store, gone := registry, [];
    for i := 0 to |d|
      invariant gone == KeysFor(d[..i], channel)
      invariant store == registry - Served(topic, gone)
    {
      KeysForSnoc(d, channel, i);
      if d[i].1 == channel {
        DropOneMore(registry, topic, gone, d[i].0);
        store := store - {(topic, d[i].0)};
        gone := gone + [d[i].0];
      }
    }
    assert d[..|d|] == d;
  }

  /** The loop of `create_matching_orders`: one order row per listing under consecutive ids
      from `first`, each followed by its delivery job and its expiry job. */
  method OrderRows(detail: Id, ls: seq<LocationObject>, first: Id, now: Time) returns (os: seq<Order>, js: seq<Job>)
    ensures os == NewOrders(ls, detail, first, now)
    ensures js == OrderJobs(ls, first, now)
  {
    os, js := [], [];
    for k := 0 to |ls|
      invariant os == NewOrders(ls[..k], detail, first, now)
      invariant js == OrderJobs(ls[..k], first, now)
    {
      NewOrdersSnoc(ls, k, detail, first, now);
      OrderJobsSnoc(ls, k, first, now);
      var email := ls[k].vendorEmail;
      os := os + [Order(first + k, detail, ls[k].id, None, false, now, false)];
      js := js + [Job(now, SendOrder(first + k, email)),
                  Job(now + ExpiryCountdown, ExpireOrder(first + k, email, DeletedOrderTopic, SendDeletedOrderIdType))];
    }
    assert ls[..|ls|] == ls;
  }

  class Market {
    var details: seq<TravelDetail>
    var orders: seq<Order>
    var offers: seq<Offer>
    var transactions: seq<Transaction>
    /** The listing tables; maintained by the listing services, read here. */
    const inventory: Inventory
    /** `User` and `Vendor` rows: id to e-mail (`str(user)` is the e-mail). */
    const users: map<Id, Email>
    const vendors: map<Id, Email>
    /** The shared connection store. */
    var registry: Registry
    /** The consumers' class-level dicts. */
    var conns: ConnTables
    /** Everything sent over the channel layer, oldest first. */
    var outbox: seq<Message>
    /** Queued tasks that have not run yet. */
    var jobs: seq<Job>
    var clock: Time
    /** The next primary key handed out (UUIDs in the source). */
    var nextId: Id

    ghost predicate Valid()
      reads this
    {
      TablesValid(details, orders, offers, transactions, inventory, nextId) && conns.Valid()
    }

    constructor (inventory: Inventory, users: map<Id, Email>, vendors: map<Id, Email>, now: Time)
      ensures Valid()
      ensures details == [] && orders == [] && offers == [] && transactions == []
      ensures this.inventory == inventory && this.users == users && this.vendors == vendors
      ensures registry == map[] && outbox == [] && jobs == [] && clock == now && nextId == 0
      ensures conns == ConnTables([], [], [], [])
    {
      details, orders, offers, transactions := [], [], [], [];
      this.inventory, this.users, this.vendors := inventory, users, vendors;
      registry, outbox, jobs, clock, nextId := map[], [], [], now, 0;
      conns := ConnTables([], [], [], []);
    }

    /** The accounts a consumer admits. */
    function AccountsFor(kind: ConsumerKind): map<Id, Email> {
      if kind.VendorConsumer? || kind.VendorDeleteOrderConsumer? then vendors else users
    }

    // -------------------------------------------------------------------------
    // The clock and the task queue

    method Tick(seconds: nat)
      modifies this`clock
      ensures clock == old(clock) + seconds
    {
      clock := clock + seconds;
    }

    /** The worker takes a due job off the queue; the caller then runs its task. */
    method TakeJob(k: nat) returns (task: Task)
      requires k < |jobs| && jobs[k].due <= clock
      modifies this`jobs
      ensures task == old(jobs)[k].task
      ensures jobs == old(jobs)[..k] + old(jobs)[k + 1..]
    {
      task := jobs[k].task;
      jobs := jobs[..k] + jobs[k + 1..];
    }

    // -------------------------------------------------------------------------
    // TravelDetailCreateService

    /** `create_travel_detail`: record the search, open its orders, answer with its expiry. */
    method CreateTravelDetail(user: Id, placement: Id, objectType: Option<Id>, objectKind: Id, stay: Stay, budget: Budget)
      returns (id: Id, expires: Time)
      requires Valid() && user in users
      modifies this`details, this`orders, this`jobs, this`nextId
      ensures Valid()
      ensures id == old(nextId) && expires == clock + DetailLifetime
      ensures var d := TravelDetail(id, user, users[user], placement, objectType, objectKind, stay, budget, clock, false);
        var ls := AvailableListings(inventory, inventory.objects, d);
        && details == old(details) + [d]
        && orders == old(orders) + NewOrders(ls, id, id + 1, clock)
        && jobs == old(jobs) + OrderJobs(ls, id + 1, clock)
        && nextId == id + 1 + |ls|
    {
      id := nextId;
      var d := TravelDetail(id, user, users[user], placement, objectType, objectKind, stay, budget, clock, false);
      DetailAdded(details, orders, offers, transactions, inventory, nextId, d);
      details := details + [d];
      nextId := nextId + 1;
      assert DetailIds(details)[|details| - 1] == d.id;
      CreateMatchingOrders(d);
      expires := clock + DetailLifetime;
    }

    /** `create_matching_orders`: one order per available listing, each followed by its
        delivery job and its expiry job. */
    method CreateMatchingOrders(d: TravelDetail)
      requires Valid() && d.id in DetailIds(details)
      modifies this`orders, this`jobs, this`nextId
      ensures Valid()
      ensures var ls := AvailableListings(inventory, inventory.objects, d);
        && orders == old(orders) + NewOrders(ls, d.id, old(nextId), clock)
        && jobs == old(jobs) + OrderJobs(ls, old(nextId), clock)
        && nextId == old(nextId) + |ls|
    {
      var ls := AvailableListings(inventory, inventory.objects, d);
      AvailableListingsMembers(inventory, inventory.objects, d);
      OrdersAdded(details, orders, offers, transactions, inventory, nextId, ls, d.id, clock);
      AddOrders(d.id, ls);
    }

    /** The loop of `create_matching_orders` over the listings it found. */
    method AddOrders(detail: Id, ls: seq<LocationObject>)
      modifies this`orders, this`jobs, this`nextId
      ensures orders == old(orders) + NewOrders(ls, detail, old(nextId), clock)
      ensures jobs == old(jobs) + OrderJobs(ls, old(nextId), clock)
      ensures nextId == old(nextId) + |ls|
    {
      var os, js := OrderRows(detail, ls, nextId, clock);
      orders, jobs, nextId := orders + os, jobs + js, nextId + |ls|;
    }

    /** `delete_travel_detail`: soft-delete the search, whatever its state. */
    method DeleteTravelDetail(detailId: Id) returns (fault: Option<Fault>)
      requires Valid()
      modifies this`details
      ensures Valid()
      ensures DetailAt(old(details), detailId).None? ==> fault == Some(Raised(404, Text(NotFoundMessage))) && details == old(details)
      ensures DetailAt(old(details), detailId).Some? ==>
        var i := DetailAt(old(details), detailId).value;
        fault.None? && details == old(details)[i := old(details)[i].(isDeleted := true)]
    {
      match DetailAt(details, detailId)
      case None =>
        fault := Some(Raised(404, Text(NotFoundMessage)));
      case Some(i) =>
        DetailRowUpdated(details, orders, offers, transactions, inventory, nextId, i, details[i].(isDeleted := true));
        details := details[i := details[i].(isDeleted := true)];
        fault := None;
    }

    // -------------------------------------------------------------------------
    // OrderDetailService

    /** `make_approved_true`: `.get(id=...)` finds deleted orders too. */
    method MakeApprovedTrue(orderId: Id) returns (fault: Option<Fault>)
      requires Valid()
      modifies this`orders
      ensures Valid()
      ensures OrderAt(old(orders), orderId).None? ==> fault == Some(Raised(404, Text(OrderNotFound))) && orders == old(orders)
      ensures OrderAt(old(orders), orderId).Some? ==>
        var i := OrderAt(old(orders), orderId).value;
        fault.None? && orders == old(orders)[i := old(orders)[i].(approved := Some(true))]
    {
      match OrderAt(orders, orderId)
      case None =>
        fault := Some(Raised(404, Text(OrderNotFound)));
      case Some(i) =>
        OrderRowUpdated(details, orders, offers, transactions, inventory, nextId, i, orders[i].(approved := Some(true)));
        orders := orders[i := orders[i].(approved := Some(true))];
        fault := None;
    }

    /** `delete_order`: the vendor rejects the order. */
    method DeleteOrder(orderId: Id) returns (fault: Option<Fault>)
      requires Valid()
      modifies this`orders
      ensures Valid()
      ensures OrderAt(old(orders), orderId).None? ==> fault == Some(Raised(404, Text(OrderNotFound))) && orders == old(orders)
      ensures OrderAt(old(orders), orderId).Some? ==>
        var i := OrderAt(old(orders), orderId).value;
        fault.None? && orders == old(orders)[i := old(orders)[i].(isDeleted := true, approved := Some(false))]
    {
      match OrderAt(orders, orderId)
      case None =>
        fault := Some(Raised(404, Text(OrderNotFound)));
      case Some(i) =>
        OrderRowUpdated(details, orders, offers, transactions, inventory, nextId, i, orders[i].(isDeleted := true, approved := Some(false)));
        orders := orders[i := orders[i].(isDeleted := true, approved := Some(false))];
        fault := None;
    }

    // -------------------------------------------------------------------------
    // TravelOfferService

    /** The tables once `create_offer` has accepted an offer for `orderId`, given the tables
        before: the offer takes the next id and order number, and is appended; the order is
        approved; the offer's delivery to the traveller and its expiry (keyed by the vendor's
        e-mail, on the traveller-side topic) are queued. */
    ghost predicate OfferPlaced(orders0: seq<Order>, offers0: seq<Offer>, jobs0: seq<Job>, n0: Id,
                                orderId: Id, comment: Option<string>, price: int)
      reads this
    {
      && OrderAt(orders0, orderId).Some?
      && var i := OrderAt(orders0, orderId).value;
      var o := orders0[i];
      var f := Offer(n0, orderId, None, None, NextOrderNumber(offers0), comment, price, false, clock, false, NoBooking);
      && TravellerEmailOf(orders0, details, f).Some? && VendorEmailOf(inventory, o).Some?
      && offers == offers0 + [f]
      && orders == orders0[i := o.(approved := Some(true))]
      && jobs == jobs0 + [Job(clock, SendOffer(f.id, TravellerEmailOf(orders0, details, f).value)),
                          Job(clock + ExpiryCountdown, ExpireOffer(f.id, VendorEmailOf(inventory, o).value,
                                                                   DeletedOffersTopic, SendDeletedOffersIdType))]
      && nextId == n0 + 1
    }

    /** The expiry notice `create_offer` queues is keyed by the vendor's e-mail on the
        deleted-offers topic, but only the traveller-side consumer registers there, and only
        with a `User` row's e-mail: a vendor whose e-mail no traveller has is never reached. */
    lemma OfferExpiryNoticeUnreachable(token: string, decode: string -> TokenResult, vendorEmail: Email)
      requires vendorEmail !in users.Values
      ensures TopicOf(DeletedOffersConsumer) == DeletedOffersTopic
      ensures var a := Admit(token, decode, ModelName(DeletedOffersConsumer), AccountsFor(DeletedOffersConsumer));
        a.Admitted? ==> a.email != vendorEmail
    {
    }

    /** `create_offer`: check the order, the budget and the price, then place the offer.
        `price` is the raw request value, None when the request has none. */
    method CreateOffer(orderId: Id, comment: Option<string>, price: Option<string>) returns (r: Result<Time>)
      requires Valid()
      modifies this`offers, this`orders, this`jobs, this`nextId
      ensures Valid()
      ensures OfferCheck(old(orders), details, old(offers), orderId, price).Err? ==>
        && r == Err(OfferCheck(old(orders), details, old(offers), orderId, price).fault)
        && offers == old(offers) && orders == old(orders) && jobs == old(jobs) && nextId == old(nextId)
      ensures OfferCheck(old(orders), details, old(offers), orderId, price).Ok? ==>
        r == Ok(clock + OfferLifetime)
        && OfferPlaced(old(orders), old(offers), old(jobs), old(nextId), orderId, comment,
                       OfferCheck(old(orders), details, old(offers), orderId, price).value.price)
    {
      var check := OfferCheck(orders, details, offers, orderId, price);
      if check.Err? {
        r := Err(check.fault);
        return;
      }
      AcceptCheckedOffer(orderId, comment, check.value);
      r := Ok(clock + OfferLifetime);
    }

    /** The accepted path of `create_offer`, once the order, the budget and the price are
        checked and gave `terms`. */
    method AcceptCheckedOffer(orderId: Id, comment: Option<string>, terms: OfferTerms)
      requires Valid() && OrderAt(orders, orderId).Some? && FindOrder(orders, orderId).Some?
      requires FindDetail(details, FindOrder(orders, orderId).value.detail).Some?
      requires terms.orderNumber == NextOrderNumber(offers)
      modifies this`offers, this`orders, this`jobs, this`nextId
      ensures Valid()
      ensures OfferPlaced(old(orders), old(offers), old(jobs), old(nextId), orderId, comment, terms.price)
    {
      var i := OrderAt(orders, orderId).value;
      var o := orders[i];
      OrderLinked(details, orders, offers, transactions, inventory, nextId, i);
      var f := Offer(nextId, orderId, None, None, terms.orderNumber, comment, terms.price, false, clock, false, NoBooking);
      var traveller := TravellerEmailOf(orders, details, f).value;
      var vendor := VendorEmailOf(inventory, o).value;
      PlaceOffer(i, f, traveller, vendor);
    }

    /** The accepted path of `create_offer`: store the offer under the next id, queue its
        delivery to `traveller` and its expiry keyed by `vendor`, and approve order `i`. */
    method PlaceOffer(i: nat, f: Offer, traveller: Email, vendor: Email)
      requires Valid()
      requires i < |orders| && f.id == nextId && f.order == orders[i].id
      requires forall k :: 0 <= k < |offers| ==> offers[k].orderNumber < f.orderNumber
      modifies this`offers, this`orders, this`jobs, this`nextId
      ensures Valid()
      ensures offers == old(offers) + [f] && nextId == old(nextId) + 1
      ensures orders == old(orders)[i := old(orders)[i].(approved := Some(true))]
      ensures jobs == old(jobs) + [Job(clock, SendOffer(f.id, traveller)),
                                   Job(clock + ExpiryCountdown, ExpireOffer(f.id, vendor, DeletedOffersTopic, SendDeletedOffersIdType))]
    {
      assert OrderIds(orders)[i] == f.order;
      InOrders(orders, f.order);
      OfferAdded(details, orders, offers, transactions, inventory, nextId, f);
      offers := offers + [f];
      nextId := nextId + 1;
      jobs := jobs + [Job(clock, SendOffer(f.id, traveller)),
                      Job(clock + ExpiryCountdown, ExpireOffer(f.id, vendor, DeletedOffersTopic, SendDeletedOffersIdType))];
      OrderRowUpdated(details, orders, offers, transactions, inventory, nextId, i, orders[i].(approved := Some(true)));
      orders := orders[i := orders[i].(approved := Some(true))];
    }

    /** `delete_offer`: the offer is withdrawn. */
    method DeleteOffer(offerId: Id) returns (fault: Option<Fault>)
      requires Valid()
      modifies this`offers
      ensures Valid()
      ensures OfferAt(old(offers), offerId).None? ==> fault == Some(Raised(404, Text(OfferNotFound))) && offers == old(offers)
      ensures OfferAt(old(offers), offerId).Some? ==>
        var i := OfferAt(old(offers), offerId).value;
        fault.None? && offers == old(offers)[i := old(offers)[i].(isDeleted := true, isAccepted := Some(false))]
    {
      match OfferAt(offers, offerId)
      case None =>
        fault := Some(Raised(404, Text(OfferNotFound)));
      case Some(i) =>
        OfferRowUpdated(details, orders, offers, transactions, inventory, nextId, i, offers[i].(isDeleted := true, isAccepted := Some(false)));
        offers := offers[i := offers[i].(isDeleted := true, isAccepted := Some(false))];
        fault := None;
    }

    // -------------------------------------------------------------------------
    // The broker tasks

    /** The end date of an order's search, which the `matched_price` annotation tests. */
    function TravelEnd(o: Order): Date
      requires FindDetail(details, o.detail).Some?
      reads this
    {
      FindDetail(details, o.detail).value.stay.end
    }

    /** `send_order`: the order must still be live and unsent (otherwise the task crashes on
        None). Its `created_at` moves 5 minutes on; it is marked sent and pushed only when the
        vendor is connected. */
    method SendOrderTask(orderId: Id, email: Email) returns (fault: Option<Fault>)
      requires Valid()
      modifies this`orders, this`outbox
      ensures Valid()
      ensures UnsentOrderAt(old(orders), orderId).None? ==>
        fault == Some(Crash("AttributeError: 'NoneType' object has no attribute 'created_at'"))
        && orders == old(orders) && outbox == old(outbox)
      ensures UnsentOrderAt(old(orders), orderId).Some? ==>
        var i := UnsentOrderAt(old(orders), orderId).value;
        var o := old(orders)[i];
        var later := o.(createdAt := o.createdAt + ResendDelay);
        && fault.None?
        && FindDetail(details, o.detail).Some?
        && ((VendorTopic, email) in registry ==>
              && orders == old(orders)[i := later.(isSent := true)]
              && outbox == old(outbox) + [Message(registry[(VendorTopic, email)], SendOrdersType,
                                                  OrderRecord(orderId, StrictMatchedPrice(inventory.prices, o.listing, TravelEnd(o))))])
        && ((VendorTopic, email) !in registry ==> orders == old(orders)[i := later] && outbox == old(outbox))
    {
      match UnsentOrderAt(orders, orderId)
      case None =>
        fault := Some(Crash("AttributeError: 'NoneType' object has no attribute 'created_at'"));
      case Some(i) =>
        var o := orders[i];
        OrderLinked(details, orders, offers, transactions, inventory, nextId, i);
        var later := o.(createdAt := o.createdAt + ResendDelay);
        var price := StrictMatchedPrice(inventory.prices, o.listing, TravelEnd(o));
        if (VendorTopic, email) in registry {
          later := later.(isSent := true);
          outbox := outbox + [Message(registry[(VendorTopic, email)], SendOrdersType, OrderRecord(orderId, price))];
        }
        PutOrder(i, later);
        fault := None;
    }

    /** Save order row `i` with its keys unchanged. */
    method PutOrder(i: nat, x: Order)
      requires Valid() && i < |orders|
      requires x.id == orders[i].id && x.detail == orders[i].detail && x.listing == orders[i].listing
      modifies this`orders
      ensures Valid()
      ensures orders == old(orders)[i := x]
    {
      OrderRowUpdated(details, orders, offers, transactions, inventory, nextId, i, x);
      orders := orders[i := x];
    }

    /** `send_orders`: mark the vendor's waiting orders sent, then push them as one batch; with
        no registered channel the task crashes after the update. */
    method SendOrdersTask(email: Email) returns (fault: Option<Fault>)
      requires Valid()
      modifies this`orders, this`outbox
      ensures Valid()
      ensures orders == MarkOrdersSent(old(orders), inventory, email)
      ensures (VendorTopic, email) in registry ==>
        fault.None? && outbox == old(outbox) + [Message(registry[(VendorTopic, email)], SendOrdersType,
                                                        OrderRecords(OrderIdsAwaiting(old(orders), inventory, email)))]
      ensures (VendorTopic, email) !in registry ==>
        fault == Some(Crash("AttributeError: 'NoneType' object has no attribute 'decode'")) && outbox == old(outbox)
    {
      var batch := OrderIdsAwaiting(orders, inventory, email);
      var no := MarkOrdersSent(orders, inventory, email);
      OrdersRekeyed(details, orders, no, offers, transactions, inventory, nextId);
      orders := no;
      if (VendorTopic, email) !in registry {
        fault := Some(Crash("AttributeError: 'NoneType' object has no attribute 'decode'"));
        return;
      }
      outbox := outbox + [Message(registry[(VendorTopic, email)], SendOrdersType, OrderRecords(batch))];
      fault := None;
    }

    /** `deleted_expired_orders`: an order still live and unanswered is soft-deleted, and
        its id is pushed on `topic` if `email` is registered there. */
    method ExpireOrderTask(orderId: Id, email: Email, topic: string, kind: string)
      requires Valid()
      modifies this`orders, this`outbox
      ensures Valid()
      ensures OpenOrderAt(old(orders), orderId).None? ==> orders == old(orders) && outbox == old(outbox)
      ensures OpenOrderAt(old(orders), orderId).Some? ==>
        var i := OpenOrderAt(old(orders), orderId).value;
        && orders == old(orders)[i := old(orders)[i].(isDeleted := true)]
        && outbox == old(outbox) + (if (topic, email) in registry then [Message(registry[(topic, email)], kind, IdText(orderId))] else [])
    {
      match OpenOrderAt(orders, orderId)
      case None =>
      case Some(i) =>
        if (topic, email) in registry {
          outbox := outbox + [Message(registry[(topic, email)], kind, IdText(orderId))];
        }
        OrderRowUpdated(details, orders, offers, transactions, inventory, nextId, i, orders[i].(isDeleted := true));
        orders := orders[i := orders[i].(isDeleted := true)];
    }

    /** `send_offer`: `.get` raises when the offer is no longer live and unsent. */
    method SendOfferTask(offerId: Id, email: Email) returns (fault: Option<Fault>)
      requires Valid()
      modifies this`offers, this`outbox
      ensures Valid()
      ensures UnsentOfferAt(old(offers), offerId).None? ==>
        fault == Some(Crash("TravelOffer.DoesNotExist")) && offers == old(offers) && outbox == old(outbox)
      ensures UnsentOfferAt(old(offers), offerId).Some? ==>
        var i := UnsentOfferAt(old(offers), offerId).value;
        var later := old(offers)[i].(createdAt := old(offers)[i].createdAt + ResendDelay);
        && fault.None?
        && ((UserTopic, email) in registry ==>
              && offers == old(offers)[i := later.(isSent := true)]
              && outbox == old(outbox) + [Message(registry[(UserTopic, email)], SendOffersType, OfferRecord(offerId))])
        && ((UserTopic, email) !in registry ==> offers == old(offers)[i := later] && outbox == old(outbox))
    {
      match UnsentOfferAt(offers, offerId)
      case None =>
        fault := Some(Crash("TravelOffer.DoesNotExist"));
      case Some(i) =>
        var later := offers[i].(createdAt := offers[i].createdAt + ResendDelay);
        if (UserTopic, email) in registry {
          later := later.(isSent := true);
          outbox := outbox + [Message(registry[(UserTopic, email)], SendOffersType, OfferRecord(offerId))];
        }
        OfferRowUpdated(details, orders, offers, transactions, inventory, nextId, i, later);
        offers := offers[i := later];
        fault := None;
    }

    /** `send_offers`: mark the traveller's waiting offers sent, then push them as one batch. */
    method SendOffersTask(email: Email) returns (fault: Option<Fault>)
      requires Valid()
      modifies this`offers, this`outbox
      ensures Valid()
      ensures offers == MarkOffersSent(old(offers), orders, details, email)
      ensures (UserTopic, email) in registry ==>
        fault.None? && outbox == old(outbox) + [Message(registry[(UserTopic, email)], SendOffersType,
                                                        OfferRecords(OfferIdsAwaiting(old(offers), orders, details, email)))]
      ensures (UserTopic, email) !in registry ==>
        fault == Some(Crash("AttributeError: 'NoneType' object has no attribute 'decode'")) && outbox == old(outbox)
    {
      var batch := OfferIdsAwaiting(offers, orders, details, email);
      var nf := MarkOffersSent(offers, orders, details, email);
      OffersRekeyed(details, orders, offers, nf, transactions, inventory, nextId);
      offers := nf;
      if (UserTopic, email) !in registry {
        fault := Some(Crash("AttributeError: 'NoneType' object has no attribute 'decode'"));
        return;
      }
      outbox := outbox + [Message(registry[(UserTopic, email)], SendOffersType, OfferRecords(batch))];
      fault := None;
    }

    /** `send_deleted_offers`: report the ids of the traveller's withdrawn offers; the update it
        runs on them leaves the table as it was. */
    method SendDeletedOffersTask(email: Email) returns (fault: Option<Fault>)
      requires Valid()
      modifies this`offers, this`outbox
      ensures Valid()
      ensures offers == old(offers)
      ensures (DeletedOffersTopic, email) in registry ==>
        fault.None? && outbox == old(outbox) + [Message(registry[(DeletedOffersTopic, email)], SendDeletedOffersIdType,
                                                        IdTexts(WithdrawnOfferIds(old(offers), orders, details, email)))]
      ensures (DeletedOffersTopic, email) !in registry ==>
        fault == Some(Crash("AttributeError: 'NoneType' object has no attribute 'decode'")) && outbox == old(outbox)
    {
      var ids := WithdrawnOfferIds(offers, orders, details, email);
      MarkWithdrawnSentChangesNothing(offers, orders, details, email);
      offers := MarkWithdrawnSent(offers, orders, details, email);
      if (DeletedOffersTopic, email) !in registry {
        fault := Some(Crash("AttributeError: 'NoneType' object has no attribute 'decode'"));
        return;
      }
      outbox := outbox + [Message(registry[(DeletedOffersTopic, email)], SendDeletedOffersIdType, IdTexts(ids))];
      fault := None;
    }

    /** `deleted_expired_offers`: an offer still live and unanswered is soft-deleted, and its id
        is pushed on `topic` if `email` is registered there. */
    method ExpireOfferTask(offerId: Id, email: Email, topic: string, kind: string)
      requires Valid()
      modifies this`offers, this`outbox
      ensures Valid()
      ensures OpenOfferAt(old(offers), offerId).None? ==> offers == old(offers) && outbox == old(outbox)
      ensures OpenOfferAt(old(offers), offerId).Some? ==>
        var i := OpenOfferAt(old(offers), offerId).value;
        && offers == old(offers)[i := old(offers)[i].(isDeleted := true)]
        && outbox == old(outbox) + (if (topic, email) in registry then [Message(registry[(topic, email)], kind, IdText(offerId))] else [])
    {
      match OpenOfferAt(offers, offerId)
      case None =>
      case Some(i) =>
        if (topic, email) in registry {
          outbox := outbox + [Message(registry[(topic, email)], kind, IdText(offerId))];
        }
        OfferRowUpdated(details, orders, offers, transactions, inventory, nextId, i, offers[i].(isDeleted := true));
        offers := offers[i := offers[i].(isDeleted := true)];
    }

    /** `send_payment_status`: record the payment outcome on the offer (queuing the
        verification e-mail on success), then mark the payment sent and push the status if
        the traveller is connected. A missing payment or offer crashes before any change. */
    method SendPaymentStatusTask(txId: Id) returns (fault: Option<Fault>)
      requires Valid()
      modifies this`offers, this`transactions, this`outbox, this`jobs
      ensures Valid()
      ensures TransactionAt(old(transactions), txId).None? || old(transactions)[TransactionAt(old(transactions), txId).value].offer.None? ==>
        fault.Some? && offers == old(offers) && transactions == old(transactions) && outbox == old(outbox) && jobs == old(jobs)
      ensures TransactionAt(old(transactions), txId).Some? && old(transactions)[TransactionAt(old(transactions), txId).value].offer.Some? ==>
        var i := TransactionAt(old(transactions), txId).value;
        var t := old(transactions)[i];
        && OfferAt(old(offers), t.offer.value).Some?
        && var j := OfferAt(old(offers), t.offer.value).value;
        var f := old(offers)[j];
        var paid := t.pgResult == Some(Succeeded);
        && TravellerEmailOf(orders, details, f).Some?
        && var email := TravellerEmailOf(orders, details, f).value;
        && fault.None?
        && offers == old(offers)[j := f.(isPayed := Some(paid))]
        && jobs == old(jobs) + (if paid then [Job(clock, SendVerificationCode(email))] else [])
        && ((PaymentTopic, email) in registry ==>
              && transactions == old(transactions)[i := t.(isSent := true, paymentDate := SavedAt(clock))]
              && outbox == old(outbox) + [Message(registry[(PaymentTopic, email)], SendPaymentStatusType, PaymentStatus(Some(paid)))])
        && ((PaymentTopic, email) !in registry ==> transactions == old(transactions) && outbox == old(outbox))
    {
      var pos := TransactionAt(transactions, txId);
      if pos.None? {
        fault := Some(Crash("AttributeError: 'NoneType' object has no attribute 'travel_offer'"));
        return;
      }
      var i := pos.value;
      var t := transactions[i];
      if t.offer.None? {
        fault := Some(Crash("AttributeError: 'NoneType' object has no attribute 'is_payed'"));
        return;
      }
      PaymentLinked(details, orders, offers, transactions, inventory, nextId, i);
      var j := OfferAt(offers, t.offer.value).value;
      var f := offers[j];
      TravellerKnown(details, orders, offers, transactions, inventory, nextId, j);
      var paid := t.pgResult == Some(Succeeded);
      var email := TravellerEmailOf(orders, details, f).value;
      SettlePayment(i, j, paid, email);
      fault := None;
    }

    /** The end of `send_payment_status` once payment `i` and its offer `j` are found: store
        the outcome on the offer, queue the verification code on success, and when the
        traveller is connected mark the payment sent and push the status. That `save()` also
        stamps `payment_date` with the current time, replacing the gateway's date. */
    method SettlePayment(i: nat, j: nat, paid: bool, email: Email)
      requires Valid() && i < |transactions| && j < |offers|
      modifies this`offers, this`transactions, this`outbox, this`jobs
      ensures Valid()
      ensures offers == old(offers)[j := old(offers)[j].(isPayed := Some(paid))]
      ensures jobs == old(jobs) + (if paid then [Job(clock, SendVerificationCode(email))] else [])
      ensures (PaymentTopic, email) in registry ==>
        && transactions == old(transactions)[i := old(transactions)[i].(isSent := true, paymentDate := SavedAt(clock))]
        && outbox == old(outbox) + [Message(registry[(PaymentTopic, email)], SendPaymentStatusType, PaymentStatus(Some(paid)))]
      ensures (PaymentTopic, email) !in registry ==> transactions == old(transactions) && outbox == old(outbox)
    {
      OfferRowUpdated(details, orders, offers, transactions, inventory, nextId, j, offers[j].(isPayed := Some(paid)));
      offers := offers[j := offers[j].(isPayed := Some(paid))];
      if paid {
        jobs := jobs + [Job(clock, SendVerificationCode(email))];
      }
      if (PaymentTopic, email) in registry {
        PaymentRowUpdated(details, orders, offers, transactions, inventory, nextId, i, transactions[i].(isSent := true, paymentDate := SavedAt(clock)));
        transactions := transactions[i := transactions[i].(isSent := true, paymentDate := SavedAt(clock))];
        outbox := outbox + [Message(registry[(PaymentTopic, email)], SendPaymentStatusType, PaymentStatus(Some(paid)))];
      }
    }

    /** `send_some_payment_status`: the user's first live unsent payment is marked sent and its
        offer's payment state pushed, when the user is connected; the `save()` stamps its
        `payment_date` with the current time. A payment whose offer is gone crashes after being
        marked. */
    method SendSomePaymentStatusTask(email: Email) returns (fault: Option<Fault>)
      requires Valid()
      modifies this`transactions, this`outbox
      ensures Valid()
      ensures UnsentPaymentOf(old(transactions), users, email).None? || (PaymentTopic, email) !in registry ==>
        fault.None? && transactions == old(transactions) && outbox == old(outbox)
      ensures UnsentPaymentOf(old(transactions), users, email).Some? && (PaymentTopic, email) in registry ==>
        var i := UnsentPaymentOf(old(transactions), users, email).value;
        var t := old(transactions)[i];
        && transactions == old(transactions)[i := t.(isSent := true, paymentDate := SavedAt(clock))]
        && (t.offer.None? ==> fault.Some? && outbox == old(outbox))
        && (t.offer.Some? ==>
              && fault.None?
              && OfferAt(offers, t.offer.value).Some?
              && outbox == old(outbox) + [Message(registry[(PaymentTopic, email)], SendPaymentStatusType,
                                                  PaymentStatus(offers[OfferAt(offers, t.offer.value).value].isPayed))])
    {
      fault := None;
      var pos := UnsentPaymentOf(transactions, users, email);
      if pos.None? || (PaymentTopic, email) !in registry {
        return;
      }
      var i := pos.value;
      var t := transactions[i];
      if t.offer.Some? {
        PaymentLinked(details, orders, offers, transactions, inventory, nextId, i);
      }
      PaymentRowUpdated(details, orders, offers, transactions, inventory, nextId, i, t.(isSent := true, paymentDate := SavedAt(clock)));
      transactions := transactions[i := t.(isSent := true, paymentDate := SavedAt(clock))];
      if t.offer.None? {
        fault := Some(Crash("AttributeError: 'NoneType' object has no attribute 'is_payed'"));
        return;
      }
      var f := offers[OfferAt(offers, t.offer.value).value];
      outbox := outbox + [Message(registry[(PaymentTopic, email)], SendPaymentStatusType, PaymentStatus(f.isPayed))];
    }

    // -------------------------------------------------------------------------
    // The websocket consumers

    /** `connect` of the four token-checked consumers. The query string is split outside the
        `try`, so a query without '=' fails the connection without an answer. */
    method Connect(kind: ConsumerKind, query: string, channel: string, decode: string -> TokenResult) returns (r: Result<Admission>)
      requires Valid()
      modifies this`conns, this`registry, this`jobs
      ensures Valid()
      ensures QueryValue(query).None? ==>
        r == Err(Crash("IndexError: list index out of range"))
        && conns == old(conns) && registry == old(registry) && jobs == old(jobs)
      ensures QueryValue(query).Some? ==>
        var a := Admit(QueryValue(query).value, decode, ModelName(kind), AccountsFor(kind));
        && r == Ok(a)
        && (a.Admitted? ==>
              && conns == old(conns).Set(kind, DictPut(old(conns).Get(kind), a.email, channel))
              && registry == old(registry)[(TopicOf(kind), a.email) := channel]
              && jobs == old(jobs) + [Job(clock, CatchUp(kind, a.email))])
        && (a.Closed? ==> conns == old(conns) && registry == old(registry) && jobs == old(jobs))
    {
      var token := QueryValue(query);
      if token.None? {
        r := Err(Crash("IndexError: list index out of range"));
        return;
      }
      var a := Admit(token.value, decode, ModelName(kind), AccountsFor(kind));
      r := Ok(a);
      if a.Admitted? {
        SetKeepsValid(conns, kind, conns.Get(kind));
        var d := DictPut(conns.Get(kind), a.email, channel);
        DictPutKeepsUnique(conns.Get(kind), a.email, channel);
        SetKeepsValid(conns, kind, d);
        conns := conns.Set(kind, d);
        registry := registry[(TopicOf(kind), a.email) := channel];
        jobs := jobs + [Job(clock, CatchUp(kind, a.email))];
      }
    }

    /** `disconnect`: drop from the store every e-mail this channel serves, then delete the
        first of them from the dict; with none, `token_to_remove[0]` raises. */
    method Disconnect(kind: ConsumerKind, channel: string) returns (fault: Option<Fault>)
      requires Valid()
      modifies this`conns, this`registry
      ensures Valid()
      ensures KeysUnique(old(conns).Get(kind))
      ensures var gone := KeysFor(old(conns).Get(kind), channel);
        && registry == old(registry) - Served(TopicOf(kind), gone)
        && (|gone| == 0 ==> fault == Some(Crash("IndexError: list index out of range")) && conns == old(conns))
        && (|gone| > 0 ==> fault.None? && conns == old(conns).Set(kind, DictDel(old(conns).Get(kind), gone[0])))
    {
      var d := conns.Get(kind);
      SetKeepsValid(conns, kind, d);
      var gone, store := DropServed(d, channel, TopicOf(kind), registry);
      registry := store;
      if |gone| == 0 {
        fault := Some(Crash("IndexError: list index out of range"));
        return;
      }
      var rest := DictDel(d, gone[0]);
      SetKeepsValid(conns, kind, rest);
      conns := conns.Set(kind, rest);
      fault := None;
    }

    /** The e-mail of the user whose id `PaymentResultConsumer` reads from the query
        (`User.objects.get(id=url.split('=')[1])`). */
    function PaymentUser(query: string): (r: Option<Email>)
      ensures QueryValue(query).None? ==> r.None?
      ensures r.Some? <==> exists id :: id in users && QueryValue(query).Some? && ParseNat(QueryValue(query).value) == Some(id)
      ensures r.Some? ==> r.value in users.Values
    {
      match QueryValue(query)
      case None => None
      case Some(v) =>
        match ParseNat(v)
        case None => None
        case Some(id) => if id in users then Some(users[id]) else None
    }

    /** The query `user_id=<id>` of a known user names that user. */
    lemma PaymentUserOfId(id: Id)
      requires id in users
      ensures PaymentUser("user_id=" + NatToString(id)) == Some(users[id])
    {
      var t := NatToString(id);
      assert forall k :: 0 <= k < |t| ==> t[k] != '=';
      QueryValueOfParameter("user_id", t);
      assert "user_id" + "=" + t == "user_id=" + t;
      NatToStringValue(id);
      assert ParseNat(t) == Some(id);
    }

    /** Why `url.split('=')[1]` followed by `User.objects.get(id=...)` fails, or None when it
        finds a user: an IndexError for a query without '=', a ValidationError for a value
        that is no key, DoesNotExist for a key with no row. */
    function PaymentLookupFault(query: string): (r: Option<Fault>)
      ensures r.None? <==> PaymentUser(query).Some?
      ensures QueryValue(query).None? ==> r == Some(Crash("IndexError: list index out of range"))
      ensures QueryValue(query).Some? && ParseNat(QueryValue(query).value).None? ==>
        r == Some(Crash("['“" + QueryValue(query).value + "” is not a valid UUID.']"))
      ensures (&& QueryValue(query).Some? && ParseNat(QueryValue(query).value).Some?
               && ParseNat(QueryValue(query).value).value !in users) ==>
        r == Some(Crash("User matching query does not exist."))
    {
      match QueryValue(query)
      case None => Some(Crash("IndexError: list index out of range"))
      case Some(v) =>
        assert "User" + " matching query does not exist." == "User matching query does not exist.";
        match LookupFailure("User", v, users)
        case None => None
        case Some(m) => Some(Crash(m))
    }

    /** `PaymentResultConsumer.connect`: no token check; the id is read from the query, any
        failure is uncaught. */
    method PaymentConnect(query: string, channel: string) returns (fault: Option<Fault>)
      requires Valid()
      modifies this`registry, this`jobs
      ensures Valid()
      ensures PaymentUser(query).None? ==> fault == PaymentLookupFault(query) && registry == old(registry) && jobs == old(jobs)
      ensures PaymentUser(query).Some? ==>
        var email := PaymentUser(query).value;
        && fault.None?
        && registry == old(registry)[(PaymentTopic, email) := channel]
        && jobs == old(jobs) + [Job(clock, SendSomePaymentStatus(email))]
    {
      var email := PaymentUser(query);
      if email.None? {
        fault := PaymentLookupFault(query);
        return;
      }
      registry := registry[(PaymentTopic, email.value) := channel];
      jobs := jobs + [Job(clock, SendSomePaymentStatus(email.value))];
      fault := None;
    }

    /** `PaymentResultConsumer.disconnect`: remove exactly that user's entry. */
    method PaymentDisconnect(query: string) returns (fault: Option<Fault>)
      requires Valid()
      modifies this`registry
      ensures Valid()
      ensures PaymentUser(query).None? ==> fault == PaymentLookupFault(query) && registry == old(registry)
      ensures PaymentUser(query).Some? ==> fault.None? && registry == old(registry) - {(PaymentTopic, PaymentUser(query).value)}
    {
      var email := PaymentUser(query);
      if email.None? {
        fault := PaymentLookupFault(query);
        return;
      }
      registry := registry - {(PaymentTopic, email.value)};
      fault := None;
    }

    // -------------------------------------------------------------------------
    // SearchService

    /** `cancel_search`: the three bulk updates, in that order, each reading the tables as the
        previous one left them. */
    method CancelSearch(user: Id)
      requires Valid()
      modifies this`offers, this`orders, this`details
      ensures Valid()
      ensures offers == CancelOffers(old(offers), old(orders), old(details), user)
      ensures orders == CancelOrders(old(orders), old(details), offers, user)
      ensures details == CancelDetails(old(details), orders, offers, user)
    {
      var nf := CancelOffers(offers, orders, details, user);
      OffersRekeyed(details, orders, offers, nf, transactions, inventory, nextId);
      offers := nf;
      var no := CancelOrders(orders, details, offers, user);
      OrdersRekeyed(details, orders, no, offers, transactions, inventory, nextId);
      orders := no;
      var nd := CancelDetails(details, orders, offers, user);
      DetailsRekeyed(details, nd, orders, offers, transactions, inventory, nextId);
      details := nd;
    }

    /** `cancel_offer`: withdraw the live offer with that id; any other id changes nothing and
        still succeeds. */
    method CancelOffer(offerId: Id)
      requires Valid()
      modifies this`offers
      ensures Valid()
      ensures LiveOfferAt(old(offers), offerId).None? ==> offers == old(offers)
      ensures LiveOfferAt(old(offers), offerId).Some? ==>
        var i := LiveOfferAt(old(offers), offerId).value;
        offers == old(offers)[i := old(offers)[i].(isDeleted := true, isAccepted := Some(false))]
    {
      match LiveOfferAt(offers, offerId)
      case None =>
      case Some(i) =>
        OfferRowUpdated(details, orders, offers, transactions, inventory, nextId, i, offers[i].(isDeleted := true, isAccepted := Some(false)));
        offers := offers[i := offers[i].(isDeleted := true, isAccepted := Some(false))];
    }

    /** `accept_offer`: accept the live offer with that id, whatever its payment or answer;
        with none the task crashes on None. */
    method AcceptOffer(offerId: Id) returns (fault: Option<Fault>)
      requires Valid()
      modifies this`offers
      ensures Valid()
      ensures LiveOfferAt(old(offers), offerId).None? ==>
        fault == Some(Crash("AttributeError: 'NoneType' object has no attribute 'is_accepted'")) && offers == old(offers)
      ensures LiveOfferAt(old(offers), offerId).Some? ==>
        var i := LiveOfferAt(old(offers), offerId).value;
        fault.None? && offers == old(offers)[i := old(offers)[i].(isAccepted := Some(true))]
    {
      match LiveOfferAt(offers, offerId)
      case None =>
        fault := Some(Crash("AttributeError: 'NoneType' object has no attribute 'is_accepted'"));
      case Some(i) =>
        OfferRowUpdated(details, orders, offers, transactions, inventory, nextId, i, offers[i].(isAccepted := Some(true)));
        offers := offers[i := offers[i].(isAccepted := Some(true))];
        fault := None;
    }

    // -------------------------------------------------------------------------
    // PaymentService

    /** `create_transaction`: only the offer's traveller may pay it; the payment record is
        fetched or created, and a new one takes the amount. */
    method CreateTransaction(user: Id, amount: Option<string>, offerId: Id) returns (r: Result<Id>)
      requires Valid()
      modifies this`transactions, this`nextId
      ensures Valid()
      ensures OfferAt(offers, offerId).None? ==> r.Err? && transactions == old(transactions) && nextId == old(nextId)
      ensures OfferAt(offers, offerId).Some? && OfferUser(orders, details, offers[OfferAt(offers, offerId).value]) != Some(user) ==>
        r == Err(Crash("Transaction.DoesNotExist: " + NotTheTravellersOrder)) && transactions == old(transactions) && nextId == old(nextId)
      ensures OfferAt(offers, offerId).Some? && OfferUser(orders, details, offers[OfferAt(offers, offerId).value]) == Some(user) ==>
        var g := GetOrCreatePayment(old(transactions), user, offerId, amount, old(nextId), clock);
        && (g.Err? ==> r == Err(g.fault) && transactions == old(transactions) && nextId == old(nextId))
        && (g.Ok? ==> r == Ok(g.value.1) && transactions == g.value.0
                      && nextId == old(nextId) + (if |g.value.0| == |old(transactions)| then 0 else 1))
    {
      var pos := OfferAt(offers, offerId);
      if pos.None? {
        r := Err(Crash("AttributeError: 'NoneType' object has no attribute 'order'"));
        return;
      }
      if OfferUser(orders, details, offers[pos.value]) != Some(user) {
        r := Err(Crash("Transaction.DoesNotExist: " + NotTheTravellersOrder));
        return;
      }
      var g := GetOrCreatePayment(transactions, user, offerId, amount, nextId, clock);
      if g.Err? {
        r := Err(g.fault);
        return;
      }
      if |g.value.0| != |transactions| {
        AddPayment(Transaction(nextId, Some(user), Some(offerId), PaymentDescription, amount, None, None, SavedAt(clock), false, false));
      }
      r := Ok(g.value.1);
    }

    /** A new payment row under the next id, for an offer that has none yet. */
    method AddPayment(t: Transaction)
      requires Valid() && t.id == nextId && t.offer.Some? && OfferAt(offers, t.offer.value).Some?
      requires forall i :: 0 <= i < |transactions| ==> transactions[i].offer != t.offer
      modifies this`transactions, this`nextId
      ensures Valid()
      ensures transactions == old(transactions) + [t] && nextId == old(nextId) + 1
    {
      PaymentAdded(details, orders, offers, transactions, inventory, nextId, t);
      transactions, nextId := transactions + [t], nextId + 1;
    }

    /** `result_url` with the view that calls it: record the gateway's callback and status
        report on the payment, queue `send_payment_status`, and answer the gateway. The
        `.update()` stores the gateway's `pg_payment_date` as given. The ValueError of an
        unreadable `pg_result` is reachable only by calling the service directly: the view's
        serializer already requires an integer there. */
    method ResultUrl(txId: Id, paymentId: Option<string>, salt: Option<string>, sig: Option<string>, paymentDate: Option<string>,
                     pgResult: string, report: Option<StatusReport>, md5: string -> string) returns (r: Result<Answer>)
      requires Valid()
      modifies this`transactions, this`jobs
      ensures Valid()
      ensures TransactionAt(old(transactions), txId).None? || ParseInt(pgResult).None? || report.None? ==>
        r.Err? && transactions == old(transactions) && jobs == old(jobs)
      ensures TransactionAt(old(transactions), txId).Some? && ParseInt(pgResult).Some? && report.Some? ==>
        var i := TransactionAt(old(transactions), txId).value;
        var tag := ResultTag(ParseInt(pgResult).value);
        var s := report.value;
        && transactions == old(transactions)[i := old(transactions)[i].(
             pgResult := Some(tag), amount := s.amount,
             settlement := Some(Settlement(paymentId, salt, sig, s.currency, s.cardPan, s.status, s.failureDescription)),
             paymentDate := Reported(paymentDate))]
        && jobs == old(jobs) + [Job(clock, SendPaymentStatus(txId))]
        && r == Ok(AnswerFor(tag, md5))
    {
      var pos := TransactionAt(transactions, txId);
      if pos.None? {
        r := Err(Crash("ObjectDoesNotExist"));
        return;
      }
      var code := ParseInt(pgResult);
      if code.None? {
        r := Err(Crash("ValueError: invalid literal for int() with base 10"));
        return;
      }
      if report.None? {
        r := Err(Crash("AttributeError: 'NoneType' object has no attribute 'get'"));
        return;
      }
      var i := pos.value;
      var tag := ResultTag(code.value);
      var s := report.value;
      var t := transactions[i].(
        pgResult := Some(tag), amount := s.amount,
        settlement := Some(Settlement(paymentId, salt, sig, s.currency, s.cardPan, s.status, s.failureDescription)),
             paymentDate := Reported(paymentDate));
      RecordResult(i, t);
      r := Ok(AnswerFor(tag, md5));
    }

    /** The callback's update of payment `i`, and the status task it queues. */
    method RecordResult(i: nat, t: Transaction)
      requires Valid() && i < |transactions|
      requires t.id == transactions[i].id && t.offer == transactions[i].offer
      modifies this`transactions, this`jobs
      ensures Valid()
      ensures transactions == old(transactions)[i := t]
      ensures jobs == old(jobs) + [Job(clock, SendPaymentStatus(t.id))]
    {
      PaymentRowUpdated(details, orders, offers, transactions, inventory, nextId, i, t);
      transactions := transactions[i := t];
      jobs := jobs + [Job(clock, SendPaymentStatus(t.id))];
    }

    /** `booking_offer`: copy the contact details onto the live offer, nothing else. */
    method BookingOffer(offerId: Id, booking: Booking) returns (fault: Option<Fault>)
      requires Valid()
      modifies this`offers
      ensures Valid()
      ensures LiveOfferAt(old(offers), offerId).None? ==>
        fault == Some(Crash("AttributeError: 'NoneType' object has no attribute 'first_name'")) && offers == old(offers)
      ensures LiveOfferAt(old(offers), offerId).Some? ==>
        var i := LiveOfferAt(old(offers), offerId).value;
        fault.None? && offers == old(offers)[i := old(offers)[i].(booking := booking)]
    {
      match LiveOfferAt(offers, offerId)
      case None =>
        fault := Some(Crash("AttributeError: 'NoneType' object has no attribute 'first_name'"));
      case Some(i) =>
        OfferRowUpdated(details, orders, offers, transactions, inventory, nextId, i, offers[i].(booking := booking));
        offers := offers[i := offers[i].(booking := booking)];
        fault := None;
    }
  }
}
