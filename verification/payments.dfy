/** VerifyPaymentAPIView: reconciling the provider's verify reply into a booking. */
module Payments {
  import opened Wrappers
  import opened Model
  import opened Gateway

  /** The store with booking `id` marked confirmed and nothing else changed. */
  function Confirm(db: Db, id: BookingId): Db
    requires id in db.bookings
  {
    db.(bookings := db.bookings[id := db.bookings[id].(status := Confirmed)])
  }

  /**
    Verification of transaction `tx`. The booking is looked up first, so an
    unknown reference is NotFound whatever the provider would say. A reply
    whose status is "success" and whose payment status is "successful"
    confirms the booking (200); another payment status is 400; no reply or a
    reply whose status is not "success" is 500. A "success" reply without a
    `data` object raises, which the framework answers with a bare 500.
   */
  function VerifyPayment(db: Db, tx: BookingId, g: Option<VerifyResponse>): (r: Outcome)
    ensures tx !in db.bookings ==> r == Outcome(db, NotFound)
    ensures tx in db.bookings && ReportsPaid(g) ==>
      && r.response == PaymentVerified(tx, "confirmed")
      && Code(r.response) == 200
      && r.db.listings == db.listings
      && r.db.reviews == db.reviews
      && r.db.bookings.Keys == db.bookings.Keys
      && r.db.bookings[tx] == db.bookings[tx].(status := Confirmed)
      && (forall other :: other in db.bookings && other != tx ==> r.db.bookings[other] == db.bookings[other])
    ensures tx in db.bookings && !ReportsPaid(g) ==> r.db == db
    ensures tx in db.bookings ==>
      (r.response == PaymentNotSuccessful <==>
        VerifyReached(g) && g.value.data.Some? && g.value.data.value.status != Some("successful"))
    ensures tx in db.bookings ==> (r.response == PaymentVerifyFailed <==> !VerifyReached(g))
    ensures tx in db.bookings ==> (r.response == ServerError <==> VerifyReached(g) && g.value.data.None?)
  {
    if tx !in db.bookings then
      Outcome(db, NotFound)
    else if VerifyReached(g) then
      match g.value.data
      case None => Outcome(db, ServerError)
      case Some(payment) =>
        if payment.status == Some("successful") then
          var db' := Confirm(db, tx);
          Outcome(db', PaymentVerified(tx, StatusName(db'.bookings[tx].status)))
        else
          Outcome(db, PaymentNotSuccessful)
    else
      Outcome(db, PaymentVerifyFailed)
  }

  /** An unknown reference never depends on the provider's reply. */
  lemma UnknownReferenceIgnoresGateway(db: Db, tx: BookingId, g1: Option<VerifyResponse>, g2: Option<VerifyResponse>)
    requires tx !in db.bookings
    ensures VerifyPayment(db, tx, g1) == VerifyPayment(db, tx, g2)
    ensures VerifyPayment(db, tx, g1).db == db
  {
  }

  /** Verifying the same reference again with the same reply changes nothing more. */
  lemma VerifyIdempotent(db: Db, tx: BookingId, g: Option<VerifyResponse>)
    ensures VerifyPayment(VerifyPayment(db, tx, g).db, tx, g) == VerifyPayment(db, tx, g)
  {
  }

  /**
    A declined payment and an unreachable provider are told apart: 400 against
    500, and neither touches the store.
   */
  lemma DeclineIsNotOutage(db: Db, tx: BookingId, declined: Option<VerifyResponse>, failed: Option<VerifyResponse>)
    requires tx in db.bookings
    requires VerifyReached(declined) && declined.value.data.Some?
    requires declined.value.data.value.status != Some("successful")
    requires !VerifyReached(failed)
    ensures Code(VerifyPayment(db, tx, declined).response) == 400
    ensures Code(VerifyPayment(db, tx, failed).response) == 500
    ensures VerifyPayment(db, tx, declined).db == db == VerifyPayment(db, tx, failed).db
  {
  }
}
