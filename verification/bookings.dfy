/**
  BookingViewSet: creating a booking and starting its payment, deleting a
  booking, and the per-user booking query.
 */
module Bookings {
  import opened Wrappers
  import opened Model
  import opened Gateway

  /** Nights charged for a stay: the end day counts as a night too. */
  function Nights(startDate: int, endDate: int): int
  {
    endDate - startDate + 1
  }

  /** The stored price of a stay at `rate` per night. */
  function StayPrice(rate: int, startDate: int, endDate: int): int
  {
    rate * Nights(startDate, endDate)
  }

  /** A stay of at least one day is charged at least one night. */
  lemma NightsPositive(startDate: int, endDate: int)
    requires startDate <= endDate
    ensures Nights(startDate, endDate) >= 1
  {
  }

  /** The charge built up day by day: the nightly rate for each day from start to end. */
  function DailyCharges(rate: int, startDate: int, endDate: int): int
    decreases endDate - startDate + 1
  {
    if endDate < startDate then 0 else rate + DailyCharges(rate, startDate + 1, endDate)
  }

  /** The stored price of a stay is the nightly rate summed over its days. */
  lemma {:induction false} StayPriceIsDailySum(rate: int, startDate: int, endDate: int)
    requires startDate <= endDate + 1
    ensures StayPrice(rate, startDate, endDate) == DailyCharges(rate, startDate, endDate)
    decreases endDate - startDate + 1
  {
    if startDate <= endDate {
      StayPriceIsDailySum(rate, startDate + 1, endDate);
      assert rate * (endDate - startDate + 1) == rate + rate * (endDate - (startDate + 1) + 1);
    }
  }

  /**
    The response chosen from the provider's reply to "initialize transaction":
    the checkout URL with 201 when the reply says "success", the payment error
    with 500 otherwise. A null checkout URL is passed on as a null
    `payment_url` with 201; a "success" reply without `data.checkout_url`
    raises, which the framework answers with a bare 500.
   */
  function InitDecision(g: Option<InitResponse>): (r: Response)
    ensures r.PaymentStarted? <==> InitAccepted(g) && g.value.checkoutUrl.Some?
    ensures r.PaymentStarted? ==> r.paymentUrl == g.value.checkoutUrl.value && Code(r) == 201
    ensures InitAccepted(g) && g.value.checkoutUrl == Some(None) ==> r == PaymentStarted(None)
    ensures r == PaymentInitFailed <==> !InitAccepted(g)
    ensures r == ServerError <==> InitAccepted(g) && g.value.checkoutUrl.None?
    ensures !r.PaymentStarted? ==> Code(r) == 500
  {
    if InitAccepted(g) then
      match g.value.checkoutUrl
      case Some(url) => PaymentStarted(url)
      case None => ServerError
    else
      PaymentInitFailed
  }

  /**
    Booking creation. The serializer rejects an unknown listing; inserting a
    booking under a primary key already in use fails in the database. Otherwise
    the booking is stored as pending at the listing's rate times the nights,
    and only then is the provider asked to start the payment; its failure does
    not remove the booking.
   */
  function CreateBooking(
    db: Db, id: BookingId, user: UserId, listing: ListingId,
    startDate: int, endDate: int, g: Option<InitResponse>): (r: Outcome)
    ensures listing !in db.listings ==> r == Outcome(db, Invalid)
    ensures listing in db.listings && id in db.bookings ==> r == Outcome(db, ServerError)
    ensures listing in db.listings && id !in db.bookings ==>
      && r.db.listings == db.listings
      && r.db.reviews == db.reviews
      && r.db.bookings.Keys == db.bookings.Keys + {id}
      && (forall other :: other in db.bookings ==> r.db.bookings[other] == db.bookings[other])
      && r.db.bookings[id].listing == listing
      && r.db.bookings[id].user == user
      && r.db.bookings[id].startDate == startDate
      && r.db.bookings[id].endDate == endDate
      && r.db.bookings[id].totalPrice == db.listings[listing].pricePerNight * ((endDate - startDate) + 1)
      && r.db.bookings[id].status == Pending
      && r.response == InitDecision(g)
      && (r.response.PaymentStarted? <==> InitAccepted(g) && g.value.checkoutUrl.Some?)
      && (r.response.PaymentStarted? ==> r.response.paymentUrl == g.value.checkoutUrl.value)
      && (r.response == PaymentInitFailed <==> !InitAccepted(g))
  {
    if listing !in db.listings then
      Outcome(db, Invalid)
    else if id in db.bookings then
      Outcome(db, ServerError)
    else
      var price := StayPrice(db.listings[listing].pricePerNight, startDate, endDate);
      var booking := Booking(listing, user, startDate, endDate, price, Pending);
      Outcome(db.(bookings := db.bookings[id := booking]), InitDecision(g))
  }

  /** Delete: only the booking's user may delete it, and never once confirmed. */
  function DestroyBooking(db: Db, user: UserId, id: BookingId): (r: Outcome)
    ensures r.response == Deleted <==>
      id in db.bookings && db.bookings[id].user == user && db.bookings[id].status != Confirmed
    ensures id in db.bookings && db.bookings[id].user != user ==>
      r.response == Forbidden(NotBookingOwner)
    ensures id in db.bookings && db.bookings[id].user == user && db.bookings[id].status == Confirmed ==>
      r.response == Forbidden(BookingIsConfirmed)
    ensures id !in db.bookings ==> r.response == NotFound
    ensures r.response != Deleted ==> r.db == db
    ensures r.response == Deleted ==>
      && r.db.listings == db.listings
      && r.db.reviews == db.reviews
      && (forall k :: k in r.db.bookings <==> k in db.bookings && k != id)
      && (forall k :: k in r.db.bookings ==> r.db.bookings[k] == db.bookings[k])
  {
    if id !in db.bookings then
      Outcome(db, NotFound)
    else if db.bookings[id].user != user then
      Outcome(db, Forbidden(NotBookingOwner))
    else if db.bookings[id].status == Confirmed then
      Outcome(db, Forbidden(BookingIsConfirmed))
    else
      Outcome(db.(bookings := db.bookings - {id}), Deleted)
  }

  /** The booking is on a listing that `host` hosts. */
  predicate HostedBy(db: Db, b: Booking, host: UserId)
  {
    b.listing in db.listings && db.listings[b.listing].host == host
  }

  /** Staff see the bookings on the listings they host; others their own. */
  predicate Sees(db: Db, u: User, b: Booking)
  {
    if u.isStaff then HostedBy(db, b, u.id) else b.user == u.id
  }

  /** The booking query of a requester. */
  function VisibleBookings(db: Db, u: User): (r: map<BookingId, Booking>)
    ensures forall id :: id in r ==> id in db.bookings && r[id] == db.bookings[id]
    ensures u.isStaff ==> forall id :: id in db.bookings ==>
      (id in r <==> db.bookings[id].listing in db.listings
                    && db.listings[db.bookings[id].listing].host == u.id)
    ensures !u.isStaff ==> forall id :: id in db.bookings ==>
      (id in r <==> db.bookings[id].user == u.id)
  {
    map id | id in db.bookings && Sees(db, u, db.bookings[id]) :: db.bookings[id]
  }

  /**
    A non-staff requester's query holds exactly the bookings whose delete
    passes the ownership check.
   */
  lemma GuestSeesWhatTheyOwn(db: Db, u: User, id: BookingId)
    requires !u.isStaff && id in db.bookings
    ensures id in VisibleBookings(db, u)
        <==> DestroyBooking(db, u.id, id).response != Forbidden(NotBookingOwner)
  {
  }

  /** A guest's own pending booking is visible to them and they may delete it. */
  lemma GuestMayDeleteOwnPending(db: Db, u: User, id: BookingId)
    requires !u.isStaff && id in db.bookings
    requires db.bookings[id].user == u.id && db.bookings[id].status == Pending
    ensures id in VisibleBookings(db, u)
    ensures DestroyBooking(db, u.id, id).response == Deleted
    ensures id !in DestroyBooking(db, u.id, id).db.bookings
  {
  }

  /** A created booking is visible to its guest until deleted. */
  lemma CreatedBookingVisibleToGuest(
    db: Db, id: BookingId, u: User, listing: ListingId,
    startDate: int, endDate: int, g: Option<InitResponse>)
    requires !u.isStaff && listing in db.listings && id !in db.bookings
    ensures id in VisibleBookings(CreateBooking(db, id, u.id, listing, startDate, endDate, g).db, u)
  {
  }
}
