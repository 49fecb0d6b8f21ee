/**
  The booking lifecycle over a sequence of requests to the views: what stays
  true of the store whatever the requests and the provider's replies are.
 */
module Lifecycle {
  import opened Wrappers
  import opened Model
  import opened Gateway
  import opened Bookings
  import opened Payments
  import opened Listings
  import opened Reviews

  /** One request to a view, with the provider's reply where the view asks for one. */
  datatype Request =
    | CreateBookingReq(user: UserId, id: BookingId, listing: ListingId,
                       startDate: int, endDate: int, initReply: Option<InitResponse>)
    | VerifyReq(tx: BookingId, verifyReply: Option<VerifyResponse>)
    | DestroyBookingReq(user: UserId, id: BookingId)
    | DestroyListingReq(user: UserId, id: ListingId)
    | DestroyReviewReq(user: UserId, id: ReviewId)

  function Step(db: Db, req: Request): Outcome
  {
    match req
    case CreateBookingReq(user, id, listing, s, e, g) => CreateBooking(db, id, user, listing, s, e, g)
    case VerifyReq(tx, g) => VerifyPayment(db, tx, g)
    case DestroyBookingReq(user, id) => DestroyBooking(db, user, id)
    case DestroyListingReq(user, id) => DestroyListing(db, user, id)
    case DestroyReviewReq(user, id) => DestroyReview(db, user, id)
  }

  /** The store after handling the requests in order. */
  function Run(db: Db, reqs: seq<Request>): Db
    decreases |reqs|
  {
    if |reqs| == 0 then db else Run(Step(db, reqs[0]).db, reqs[1..])
  }

  /** The request is a verification of `id` whose reply reports a successful payment. */
  predicate PaysFor(req: Request, id: BookingId)
  {
    req.VerifyReq? && req.tx == id && ReportsPaid(req.verifyReply)
  }

  predicate IsConfirmed(db: Db, id: BookingId)
  {
    id in db.bookings && db.bookings[id].status == Confirmed
  }

  /** Every booking on a listing still in the store is priced at that listing's rate. */
  predicate PricesConsistent(db: Db)
  {
    forall id :: id in db.bookings && db.bookings[id].listing in db.listings ==>
      db.bookings[id].totalPrice
        == StayPrice(db.listings[db.bookings[id].listing].pricePerNight,
                     db.bookings[id].startDate, db.bookings[id].endDate)
  }

  lemma StepKeepsPrices(db: Db, req: Request)
    requires PricesConsistent(db)
    ensures PricesConsistent(Step(db, req).db)
  {
  }

  /** The price rule holds of every booking after any sequence of requests. */
  lemma {:induction false} RunKeepsPrices(db: Db, reqs: seq<Request>)
    requires PricesConsistent(db)
    ensures PricesConsistent(Run(db, reqs))
    decreases |reqs|
  {
    if |reqs| > 0 {
      StepKeepsPrices(db, reqs[0]);
      RunKeepsPrices(Step(db, reqs[0]).db, reqs[1..]);
    }
  }

  lemma StepKeepsConfirmed(db: Db, req: Request, id: BookingId)
    requires IsConfirmed(db, id)
    ensures IsConfirmed(Step(db, req).db, id)
  {
  }

  /**
    A confirmed booking stays in the store and stays confirmed under the
    modelled requests: its delete is refused, a new booking cannot take its
    id, and verification never moves it back to pending.
   */
  lemma {:induction false} ConfirmedIsPermanent(db: Db, reqs: seq<Request>, id: BookingId)
    requires IsConfirmed(db, id)
    ensures IsConfirmed(Run(db, reqs), id)
    decreases |reqs|
  {
    if |reqs| > 0 {
      StepKeepsConfirmed(db, reqs[0], id);
      ConfirmedIsPermanent(Step(db, reqs[0]).db, reqs[1..], id);
    }
  }

  lemma StepConfirmsOnlyOnPayment(db: Db, req: Request, id: BookingId)
    requires IsConfirmed(Step(db, req).db, id)
    ensures IsConfirmed(db, id) || PaysFor(req, id)
  {
  }

  /**
    A booking is confirmed at the end only if it was confirmed at the start or
    some request verified a successful payment for it; in particular a booking
    that is never successfully verified is never confirmed.
   */
  lemma {:induction false} ConfirmationNeedsPayment(db: Db, reqs: seq<Request>, id: BookingId)
    requires IsConfirmed(Run(db, reqs), id)
    ensures IsConfirmed(db, id) || exists i :: 0 <= i < |reqs| && PaysFor(reqs[i], id)
    decreases |reqs|
  {
    if |reqs| > 0 {
      var db1 := Step(db, reqs[0]).db;
      ConfirmationNeedsPayment(db1, reqs[1..], id);
      if IsConfirmed(db1, id) {
        StepConfirmsOnlyOnPayment(db, reqs[0], id);
        if !IsConfirmed(db, id) {
          assert PaysFor(reqs[0], id);
        }
      } else {
        var j :| 0 <= j < |reqs| - 1 && PaysFor(reqs[1..][j], id);
        assert PaysFor(reqs[j + 1], id);
      }
    }
  }

  /**
    A booking created by a request is pending right after it, whatever the
    provider answered to the payment initialization.
   */
  lemma CreatedBookingIsPending(db: Db, req: Request)
    requires req.CreateBookingReq? && req.listing in db.listings && req.id !in db.bookings
    ensures req.id in Step(db, req).db.bookings
    ensures Step(db, req).db.bookings[req.id].status == Pending
    ensures Step(db, req).response.PaymentStarted? || Code(Step(db, req).response) == 500
  {
  }
}
