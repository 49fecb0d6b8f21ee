/**
  The records of the listings app and the HTTP responses its views return.
  The database is three maps keyed by primary key; users are identified by id.
 */
module Model {
  import opened Wrappers

  type UserId = nat
  type ListingId = string
  type BookingId = string
  type ReviewId = string

  /** The authenticated requester: its id and Django's `is_staff` flag. */
  datatype User = User(id: UserId, isStaff: bool)

  datatype Status = Pending | Confirmed | Canceled

  /** The value stored in the booking's `status` column. */
  function StatusName(s: Status): string
  {
    match s
    case Pending => "pending"
    case Confirmed => "confirmed"
    case Canceled => "canceled"
  }

  /** A listing: its host and its nightly rate in minor currency units. */
  datatype Listing = Listing(host: UserId, pricePerNight: int)

  /** A booking; start and end are day numbers, the price is in minor units. */
  datatype Booking = Booking(
    listing: ListingId,
    user: UserId,
    startDate: int,
    endDate: int,
    totalPrice: int,
    status: Status)

  datatype Review = Review(listing: ListingId, user: UserId, rating: int)

  datatype Db = Db(
    listings: map<ListingId, Listing>,
    bookings: map<BookingId, Booking>,
    reviews: map<ReviewId, Review>)

  /** Why a delete was refused with PermissionDenied. */
  datatype Denial = NotBookingOwner | BookingIsConfirmed | NotListingHost | NotReviewAuthor

  /** The responses the views produce, one constructor per distinct body. */
  datatype Response =
    | PaymentStarted(paymentUrl: Option<string>)
    | PaymentInitFailed
    | PaymentVerified(bookingId: BookingId, status: string)
    | PaymentNotSuccessful
    | PaymentVerifyFailed
    | Invalid
    | NotFound
    | Forbidden(reason: Denial)
    | Deleted
    | ServerError

  /** The HTTP status code sent with each response. */
  function Code(r: Response): int
  {
    match r
    case PaymentStarted(_) => 201
    case PaymentInitFailed => 500
    case PaymentVerified(_, _) => 200
    case PaymentNotSuccessful => 400
    case PaymentVerifyFailed => 500
    case Invalid => 400
    case NotFound => 404
    case Forbidden(_) => 403
    case Deleted => 204
    case ServerError => 500
  }

  /** The state after a request together with the response sent. */
  datatype Outcome = Outcome(db: Db, response: Response)
}
