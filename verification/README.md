# Booking lifecycle of the travel-booking listings views

This project models the decision logic of `alx_travel_app/listings/views.py` in
a travel-booking backend. It covers booking creation with payment
initialization, payment verification, the ownership and status guards on
deleting bookings, listings and reviews, and the booking and review queries.
The database is a value `Db` holding three maps: listings, bookings and
reviews, each keyed by primary key. The requester is a `User` with an id and
Django's `is_staff` flag. The payment provider shows up only as the decoded
reply the views read. That reply is an `Option<InitResponse>` or an
`Option<VerifyResponse>`, where `None` means the HTTP client returned nothing.
Dates are integer day numbers. Prices are integers in minor currency units.

Modules:
- `Wrappers`: `Option`.
- `Model`: records, booking status, responses and their HTTP codes.
- `Gateway`: the shapes of the provider's replies and the tests the views apply to them.
- `Bookings`: `BookingViewSet`. This covers creation, delete and the per-user query.
- `Payments`: `VerifyPaymentAPIView`.
- `Listings`: `ListingViewSet` delete.
- `Reviews`: `ReviewViewSet`. This covers the nested query and delete.
- `Lifecycle`: handles any sequence of these requests and proves what stays true of the store.

Behaviour of the code worth noting:
- `views.py` itself does not compare the end date with the start date. Whether the booking serializer's validation does is not part of this model. The night count is at least one only under `start <= end`.
- The owner's delete of an unconfirmed booking removes it. None of the modelled requests sets `canceled`. The refusal message for a confirmed booking points the owner to the inherited booking update instead, and that update is not modelled.
- A successful verification confirms the booking whatever its current status, a canceled one included. The code has no status guard.
- A reply whose status is `"success"` but which lacks `data`, or lacks `data.checkout_url` on creation, makes the view raise. The model answers this with `ServerError`, a bare 500.
- A `checkout_url` that is present but null is passed on: the answer is 201 with a null `payment_url`.

## Model

| member | source | states |
|---|---|---|
| Bookings.NightsPositive | alx_travel_app/listings/views.py:88 | a stay whose end is not before its start is charged at least one night, counting the end day |
| Bookings.StayPriceIsDailySum | alx_travel_app/listings/views.py:88-91 | the stored price, rate × (end − start + 1), equals the nightly rate summed day by day over the stay |
| Bookings.InitDecision | alx_travel_app/listings/views.py:105-115 | 201 carrying `data.checkout_url` iff a reply is present with status "success" and the key is there, a null URL passed on as null; the payment-initialization 500 iff the reply is absent or not "success"; a bare 500 when the key is missing |
| Bookings.CreateBooking | alx_travel_app/listings/views.py:79-115 | unknown listing is rejected and nothing is stored; otherwise the new booking is stored pending at rate × (end − start + 1) for the requester, every other record is unchanged, it stays stored whether the payment starts (201 with `data.checkout_url`) or not (500), and the response is exactly the initialization decision |
| Bookings.DestroyBooking | alx_travel_app/listings/views.py:117-123 | ownership is checked before status: a non-owner is refused whatever the status, the owner of a confirmed booking is refused, otherwise exactly that booking is removed; a refused delete changes nothing |
| Bookings.VisibleBookings | alx_travel_app/listings/views.py:69-77 | staff see exactly the bookings on listings they host; others see exactly their own bookings, with stored values |
| Bookings.GuestSeesWhatTheyOwn | alx_travel_app/listings/views.py:69-123 | for a non-staff user a booking is in their query iff deleting it passes the ownership check |
| Bookings.GuestMayDeleteOwnPending | alx_travel_app/listings/views.py:117-123 | a guest's own pending booking is listed for them and their delete removes it |
| Bookings.CreatedBookingVisibleToGuest | alx_travel_app/listings/views.py:69-93 | a booking created by a non-staff user appears in that user's booking query |
| Listings.DestroyListing | alx_travel_app/listings/views.py:40-45 | only the host deletes a listing; exactly that listing is removed, the effect on its bookings and reviews is not modelled as a change; a refused delete changes nothing |
| Listings.StaffSeesBookingsOfListingsTheyHost | alx_travel_app/listings/views.py:40-75 | a staff user's booking query holds a booking iff that user may delete the booking's listing |
| Reviews.ReviewsFor | alx_travel_app/listings/views.py:226-231 | with a non-empty listing_pk exactly the reviews of that listing are listed; without one every review is |
| Reviews.DestroyReview | alx_travel_app/listings/views.py:237-241 | only the author deletes a review; exactly that review is removed; a refused delete changes nothing |
| Reviews.DeletedReviewUnlisted | alx_travel_app/listings/views.py:226-241 | a review its author deleted is in no review query afterwards |
| Payments.VerifyPayment | alx_travel_app/listings/views.py:126-154 | unknown reference is 404 with the store unchanged; a "success" reply with payment status "successful" confirms exactly that booking and answers 200 with its id and "confirmed"; any other payment status is 400, no reply or a non-"success" reply is 500, both with the store unchanged |
| Payments.UnknownReferenceIgnoresGateway | alx_travel_app/listings/views.py:127-129 | for an unknown reference the outcome is the same whatever the provider replies: the lookup precedes the provider call |
| Payments.VerifyIdempotent | alx_travel_app/listings/views.py:130-144 | verifying twice with the same reply gives the same store and response as verifying once |
| Payments.DeclineIsNotOutage | alx_travel_app/listings/views.py:145-154 | a declined payment (400) and an unreachable provider (500) are distinguished and neither changes the store |
| Lifecycle.StepKeepsPrices | alx_travel_app/listings/views.py:86-93 | each request keeps every booking priced at its listing's rate times its nights |
| Lifecycle.RunKeepsPrices | alx_travel_app/listings/views.py:86-93 | after any sequence of the modelled requests every booking on a stored listing is priced at that listing's rate times its nights |
| Lifecycle.StepKeepsConfirmed | alx_travel_app/listings/views.py:117-136 | no single request removes a confirmed booking or changes its status |
| Lifecycle.ConfirmedIsPermanent | alx_travel_app/listings/views.py:117-136 | a confirmed booking stays stored and confirmed after any sequence of the modelled requests |
| Lifecycle.StepConfirmsOnlyOnPayment | alx_travel_app/listings/views.py:130-136 | a request leaves a booking confirmed only if it was confirmed or the request verified a successful payment for it |
| Lifecycle.ConfirmationNeedsPayment | alx_travel_app/listings/views.py:130-136 | a booking confirmed after a sequence of the modelled requests was confirmed before it or one of them verified a successful payment for it |
| Lifecycle.CreatedBookingIsPending | alx_travel_app/listings/views.py:84-115 | a freshly created booking is pending whatever the provider answered, and the response is 201 or 500 |

## Left out

- The payment client in `alx_travel_app/listings/services.py` (HTTP calls, the credential read from the environment, the request payload) is network I/O. Its two results are the `Option` reply inputs.
- The ORM, serializers, authentication, permission classes, the filter backend and the API-documentation decorators are framework code. The serializer survives only as "unknown listing gives `Invalid`". The primary-key insert survives only as "an id already in use gives `ServerError`".
- Before `perform_destroy` runs, DRF's `get_object` looks the instance up in the `get_queryset` result. The model checks the guards against the whole store instead, which differs in three cases:
  - A non-staff non-owner gets 404 in the code and 403 in the model. Both keep the booking.
  - A staff user's own booking on a listing they do not host is outside their query. The code answers 404 and keeps the booking; the model answers `Deleted` and removes it.
  - A review deleted through the nested route under a different `listing_pk` is outside that query. The code answers 404 and keeps the review; the model applies only the author check.
- Booking ids are compared as exact strings. UUID parsing, which accepts several spellings of one id, is not modelled.
- `perform_create` of the booking view takes `request` where DRF passes the serializer, and it calls `serializer.save()` twice. The model follows the decision the method's text describes, not the framework call path.
- `float(booking.total_price)` and the currency, URL and customization payload strings are floating point or provider payload. They are not modelled.
- The commented-out alternate verification handler is not modelled. Neither is the plain CRUD of users, listing and review creation and update, or the inherited booking update and partial update. The serializer that decides which booking fields an update may change is not part of this model. Listing price updates and booking updates are therefore outside the `Lifecycle` lemmas.
- Bookings.CreateBooking: a stay whose end date is before its start date is modelled as accepted and stored at a price of zero or less. The booking serializer's validation, which `views.py` runs before saving and which may reject such dates, is not part of this model.
- Listings.DestroyListing: the `on_delete` effect of deleting a listing on its bookings and reviews is defined in the models, which are not part of this model. The model leaves them in place, so it can reach a booking whose listing is gone.
- Lifecycle.ConfirmedIsPermanent: holds for the modelled requests only. It depends on listing delete not cascading to bookings: with a cascading foreign key, a host deleting a listing would remove its confirmed bookings. Booking update is not a modelled request either.
- Lifecycle.RunKeepsPrices: booking update is not a modelled request. `BookingViewSet` inherits update and partial update, and a change to the dates through them would not recompute the price. Whether the serializer allows that is not part of this model.
- Lifecycle.ConfirmationNeedsPayment: booking update is not a modelled request. A status change through the inherited update, if the serializer allows one, is outside this statement.
- Concurrent verification requests are not modelled. The code has no locking.
