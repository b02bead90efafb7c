/** The review service (src/apps/reviews/services.py): which paid trip the traveller is
    asked to review next, and the insertion of a review. */
module Reviews {
  import opened Common
  import opened Trade

  /** The fields a review request supplies. */
  datatype ReviewData = ReviewData(objectId: Id, quality: int, conveniences: int, purity: int, location: int, comment: string)

  /** An `ObjectReview` row; `userId` is its author. */
  datatype Review = Review(id: Id, userId: Id, data: ReviewData, isDeleted: bool)

  /** The offer joined with its order and that order's search (`order__travel_detail`). */
  function Trip(orders: seq<Order>, details: seq<TravelDetail>, f: Offer): Option<(Order, TravelDetail)> {
    match FindOrder(orders, f.order)
    case None => None
    case Some(o) =>
      match FindDetail(details, o.detail)
      case None => None
      case Some(d) => Some((o, d))
  }

  /** `has_review`: the traveller has a review of the listing, deleted or not. */
  predicate HasReview(reviews: seq<Review>, objectId: Id, userId: Id) {
    exists i :: 0 <= i < |reviews| && reviews[i].data.objectId == objectId && reviews[i].userId == userId
  }

  /** The filter of `get_queryset_to_check`: the caller's criteria, the trip ended before
      today, the offer is paid, and its traveller has not reviewed the listing. */
  predicate ReviewDue(orders: seq<Order>, details: seq<TravelDetail>, reviews: seq<Review>, today: Date,
                      criteria: (Offer, Order, TravelDetail) -> bool, f: Offer) {
    && Trip(orders, details, f).Some?
    && var (o, d) := Trip(orders, details, f).value;
    && criteria(f, o, d)
    && DateLt(d.stay.end, today)
    && f.isPayed == Some(true)
    && !HasReview(reviews, o.listing, d.user)
  }

  /** The travel end date of an offer whose trip is known. */
  function TripEnd(orders: seq<Order>, details: seq<TravelDetail>, f: Offer): Date
    requires Trip(orders, details, f).Some?
  {
    Trip(orders, details, f).value.1.stay.end
  }

  /** The row with the smallest key among those `ok` accepts; among equal keys, the first in
      table order. */
  function EarliestBy<T>(rows: seq<T>, ok: T -> bool, key: T -> Date): (r: Option<T>)
    ensures r.None? <==> forall i :: 0 <= i < |rows| ==> !ok(rows[i])
    ensures r.Some? ==> r.value in rows && ok(r.value)
    ensures r.Some? ==> forall i :: 0 <= i < |rows| && ok(rows[i]) ==> DateLe(key(r.value), key(rows[i]))
  {
    if rows == [] then None
    else
      var rest := EarliestBy(rows[1..], ok, key);
      assert forall i :: 1 <= i < |rows| ==> rows[i] == rows[1..][i - 1];
      if !ok(rows[0]) then rest
      else if rest.None? then Some(rows[0])
      else
        DateLeTotalOrder(key(rows[0]), key(rest.value), key(rows[0]));
        if DateLt(key(rest.value), key(rows[0])) then rest
        else
          assert forall i :: 1 <= i < |rows| && ok(rows[i]) ==> DateLe(key(rows[0]), key(rows[i])) by {
            forall i | 1 <= i < |rows| && ok(rows[i]) ensures DateLe(key(rows[0]), key(rows[i])) {
              DateLeTotalOrder(key(rows[0]), key(rest.value), key(rows[i]));
            }
          }
          Some(rows[0])
  }

  function DueFilter(orders: seq<Order>, details: seq<TravelDetail>, reviews: seq<Review>, today: Date,
                     criteria: (Offer, Order, TravelDetail) -> bool): Offer -> bool {
    f => ReviewDue(orders, details, reviews, today, criteria, f)
  }

  /** The ordering key; offers without a trip are never due, so their key is never compared. */
  function EndKey(orders: seq<Order>, details: seq<TravelDetail>): Offer -> Date {
    f => if Trip(orders, details, f).Some? then TripEnd(orders, details, f) else Date(0, 1, 1)
  }

  /** `.order_by("order__travel_detail__date__end_date").first()` over the due offers: one
      with the earliest end date, the first in table order among equals. */
  function FirstDue(offers: seq<Offer>, orders: seq<Order>, details: seq<TravelDetail>, reviews: seq<Review>, today: Date,
                    criteria: (Offer, Order, TravelDetail) -> bool): (r: Option<Offer>)
    ensures r.None? <==> forall i :: 0 <= i < |offers| ==> !ReviewDue(orders, details, reviews, today, criteria, offers[i])
    ensures r.Some? ==> r.value in offers && ReviewDue(orders, details, reviews, today, criteria, r.value)
    ensures r.Some? ==> forall i :: 0 <= i < |offers| && ReviewDue(orders, details, reviews, today, criteria, offers[i]) ==>
      DateLe(TripEnd(orders, details, r.value), TripEnd(orders, details, offers[i]))
  {
    var due := DueFilter(orders, details, reviews, today, criteria);
    var key := EndKey(orders, details);
    var r := EarliestBy(offers, due, key);
    assert forall i :: 0 <= i < |offers| ==> due(offers[i]) == ReviewDue(orders, details, reviews, today, criteria, offers[i]);
    r
  }

  /** `get_queryset_to_check`: the next trip to review, or 404 when there is none. */
  function QuerysetToCheck(offers: seq<Offer>, orders: seq<Order>, details: seq<TravelDetail>, reviews: seq<Review>,
                           today: Date, criteria: (Offer, Order, TravelDetail) -> bool): (r: Result<Offer>)
    ensures r.Err? <==> forall i :: 0 <= i < |offers| ==> !ReviewDue(orders, details, reviews, today, criteria, offers[i])
    ensures r.Err? ==> r.fault == Raised(404, Text(NotFoundMessage))
    ensures r.Ok? ==> r.value in offers && r.value.isPayed == Some(true)
    ensures r.Ok? ==> ReviewDue(orders, details, reviews, today, criteria, r.value)
    ensures r.Ok? ==> forall i :: 0 <= i < |offers| && ReviewDue(orders, details, reviews, today, criteria, offers[i]) ==>
      DateLe(TripEnd(orders, details, r.value), TripEnd(orders, details, offers[i]))
  {
    match FirstDue(offers, orders, details, reviews, today, criteria)
    case None => Err(Raised(404, Text(NotFoundMessage)))
    case Some(f) => Ok(f)
  }

  /** Once the traveller has reviewed the listing, that trip is no longer due. */
  lemma ReviewedTripNoLongerDue(orders: seq<Order>, details: seq<TravelDetail>, reviews: seq<Review>, today: Date,
                                criteria: (Offer, Order, TravelDetail) -> bool, f: Offer, r: Review)
    requires Trip(orders, details, f).Some?
    requires r.data.objectId == Trip(orders, details, f).value.0.listing
    requires r.userId == Trip(orders, details, f).value.1.user
    ensures !ReviewDue(orders, details, reviews + [r], today, criteria, f)
  {
    assert (reviews + [r])[|reviews|] == r;
  }

  /** A new review never makes a trip due. */
  lemma ReviewsOnlyRetire(orders: seq<Order>, details: seq<TravelDetail>, reviews: seq<Review>, today: Date,
                          criteria: (Offer, Order, TravelDetail) -> bool, f: Offer, r: Review)
    requires ReviewDue(orders, details, reviews + [r], today, criteria, f)
    ensures ReviewDue(orders, details, reviews, today, criteria, f)
  {
    forall i | 0 <= i < |reviews| ensures (reviews + [r])[i] == reviews[i] {
    }
  }

  /** The review table. */
  class ReviewBook {
    var reviews: seq<Review>
    var nextId: Id

    ghost predicate Valid()
      reads this
    {
      forall i :: 0 <= i < |reviews| ==> reviews[i].id < nextId
    }

    constructor ()
      ensures Valid() && reviews == [] && nextId == 0
    {
      reviews, nextId := [], 0;
    }

    /** `create_review`: the review is stored with the caller as its author. */
    method CreateReview(userId: Id, data: ReviewData) returns (r: Review)
      requires Valid()
      modifies this
      ensures Valid()
      ensures r == Review(old(nextId), userId, data, false)
      ensures reviews == old(reviews) + [r] && nextId == old(nextId) + 1
      ensures forall i :: 0 <= i < |old(reviews)| ==> old(reviews)[i].id != r.id
    {
      r := Review(nextId, userId, data, false);
      reviews := reviews + [r];
      nextId := nextId + 1;
    }
  }
}
