/** ListingViewSet: deleting a listing. */
module Listings {
  import opened Model
  import Bookings

  /** Delete: only the listing's host may delete it. */
  function DestroyListing(db: Db, user: UserId, id: ListingId): (r: Outcome)
    ensures r.response == Deleted <==> id in db.listings && db.listings[id].host == user
    ensures id in db.listings && db.listings[id].host != user ==> r.response == Forbidden(NotListingHost)
    ensures id !in db.listings ==> r.response == NotFound
    ensures r.response != Deleted ==> r.db == db
    ensures r.response == Deleted ==>
      && r.db.bookings == db.bookings
      && r.db.reviews == db.reviews
      && (forall k :: k in r.db.listings <==> k in db.listings && k != id)
      && (forall k :: k in r.db.listings ==> r.db.listings[k] == db.listings[k])
  {
    if id !in db.listings then
      Outcome(db, NotFound)
    else if db.listings[id].host != user then
      Outcome(db, Forbidden(NotListingHost))
    else
      Outcome(db.(listings := db.listings - {id}), Deleted)
  }

  /**
    A staff requester's booking query holds exactly the bookings on listings
    whose delete passes the host check for that requester.
   */
  lemma StaffSeesBookingsOfListingsTheyHost(db: Db, u: User, id: BookingId)
    requires u.isStaff && id in db.bookings
    ensures id in Bookings.VisibleBookings(db, u)
        <==> DestroyListing(db, u.id, db.bookings[id].listing).response == Deleted
  {
  }
}
