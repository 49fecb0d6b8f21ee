/** ReviewViewSet: the review query nested under a listing, and deleting a review. */
module Reviews {
  import opened Wrappers
  import opened Model

  /**
    The `listing_pk` URL argument filters only when it is present and truthy;
    an empty string is falsy in Python and lists every review.
   */
  predicate Filters(listingPk: Option<string>)
  {
    listingPk.Some? && listingPk.value != ""
  }

  /** The review query: reviews of the given listing, or all reviews. */
  function ReviewsFor(db: Db, listingPk: Option<string>): (r: map<ReviewId, Review>)
    ensures forall id :: id in r ==> id in db.reviews && r[id] == db.reviews[id]
    ensures Filters(listingPk) ==> forall id :: id in db.reviews ==>
      (id in r <==> db.reviews[id].listing == listingPk.value)
    ensures !Filters(listingPk) ==> r == db.reviews
  {
    if Filters(listingPk) then
      map id | id in db.reviews && db.reviews[id].listing == listingPk.value :: db.reviews[id]
    else
      db.reviews
  }

  /** Delete: only the review's author may delete it. */
  function DestroyReview(db: Db, user: UserId, id: ReviewId): (r: Outcome)
    ensures r.response == Deleted <==> id in db.reviews && db.reviews[id].user == user
    ensures id in db.reviews && db.reviews[id].user != user ==> r.response == Forbidden(NotReviewAuthor)
    ensures id !in db.reviews ==> r.response == NotFound
    ensures r.response != Deleted ==> r.db == db
    ensures r.response == Deleted ==>
      && r.db.bookings == db.bookings
      && r.db.listings == db.listings
      && (forall k :: k in r.db.reviews <==> k in db.reviews && k != id)
      && (forall k :: k in r.db.reviews ==> r.db.reviews[k] == db.reviews[k])
  {
    if id !in db.reviews then
      Outcome(db, NotFound)
    else if db.reviews[id].user != user then
      Outcome(db, Forbidden(NotReviewAuthor))
    else
      Outcome(db.(reviews := db.reviews - {id}), Deleted)
  }

  /** A deleted review disappears from every review query. */
  lemma DeletedReviewUnlisted(db: Db, user: UserId, id: ReviewId, listingPk: Option<string>)
    requires id in db.reviews && db.reviews[id].user == user
    ensures id !in ReviewsFor(DestroyReview(db, user, id).db, listingPk)
  {
  }
}
