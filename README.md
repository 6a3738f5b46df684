# Toolsy: a verified model of the rental rules

Toolsy is a tool-rental marketplace. It has a Django REST backend and a
Next.js client. Providers own shops and list tools. Renters book tools for a
date range and pay through Razorpay, online or as cash on return. Providers
pay for a monthly subscription. A superuser manages everything through an
admin dashboard.

This project models the rules inside that code, one Dafny module per source
file:

- **Booking lifecycle and inventory.** A renter creates a booking, which
  takes stock off the tool. The shop owner confirms it. Either side may
  cancel it, which returns the stock. The renter pays, either through
  `verify_payment` or through the Razorpay webhook.
- **Pricing.** The server stores a duration and a total when a booking is
  saved. The client computes its own day-based estimate.
- **Subscriptions.** A provider's subscription goes from pending to active
  for a 30-day window. There is also the shop-subscription `is_active` rule.
- **Permissions and the admin side.** This covers the access-control
  predicates, the one-time admin setup and migrate guards, the admin
  aggregates and the admin toggles.
- **The client.** This covers the session store (`AuthContext`), the route
  guards and redirect priorities, link and action visibility, the booking
  estimate, image URLs, request headers and error messages, and the tool
  search.

The database tables that the views update in place are classes holding
sequences:

- `Inventory.Marketplace` holds the tools and bookings.
- `Users.UserTable` holds the users.
- `SubscriptionApi.SubscriptionTable` holds the subscriptions.
- `Tools.ReviewTable` holds the reviews.
- `BookingApi.NotificationTable` holds the notifications.

A shop is a class, because `update_rating` assigns its fields in place. The
React components that keep state (`AuthProvider`, the booking modal form, the
dashboard page and the new-tool page) are classes too. Their fields are the
component's `useState` slots.

Units and conventions:

- Money is integer paise.
- Backend times are integer seconds. Client times are integer milliseconds.
- "Now" is always a parameter.
- A Razorpay signature check is a boolean input.
- The id of the order the gateway creates is an optional string input,
  `None` when the gateway call fails. The subscription order endpoint as
  written never obtains one (see "## Findings").
- A JavaScript value that may be `null` or `undefined` is an `Option`. Its
  truthiness is spelled out: `AuthContext.Flag` for booleans,
  `Wrappers.Given` for strings.

The central invariant is stock conservation, `Inventory.Marketplace.Valid()`.
For every tool, `quantity_available` plus the quantities held by its
non-cancelled bookings equals a fixed (ghost) stock. Booking creation,
confirmation, cancellation, `create_payment`, the corrected `verify_payment`
and webhook, and tool creation keep this invariant. The generic update and
delete endpoints of the booking and tool viewsets do not (see "## Left out").

Notes on the source's pricing and estimate:

- **Server total.** The server total is `rental_price * quantity +
  deposit_amount` (backend/apps/bookings/models.py:129-130). It does not
  multiply by a day count.
- **Client day count.** The client uses `Math.abs`, so the day count is never
  non-positive and reversed dates give the same estimate.
- **Empty dates.** When either date is empty, the client does not reset the
  estimate to 0. The effect just does not run, so duration and total keep
  their previous values (frontend/components/BookingModal.tsx:42-53).

## Model

| member | source | states |
|---|---|---|
| Users.NewUser | backend/apps/users/models.py:20-46 | a new user is a renter, unverified, active, neither staff nor superuser, with the given username and email |
| Users.ExactlyOneRole | backend/apps/users/models.py:63-71 | `is_provider` holds iff the type is provider, `is_renter` iff renter, and exactly one of them holds |
| Users.AppendFreeKeepsUnique | backend/apps/users/models.py:28-29 | appending a row whose username and email no row holds keeps both unique columns unique |
| Shops.Shop.constructor | backend/apps/shops/models.py:47-64 | a new shop has rating 0, no ratings, the basic tier, is active and has no subscription expiry |
| Shops.Shop.UpdateRating | backend/apps/shops/models.py:97-110 | the count becomes the number of reviews and the average their mean; no reviews reset both to 0; only these two fields change; ratings in 1..5 keep the average in 1..5 |
| Shops.MeanWithinRatingBounds | backend/apps/shops/models.py:101-105 | the mean of a non-empty list of ratings in 1..5 lies in 1..5 |
| Shops.SubscriptionLapsesForGood | backend/apps/shops/models.py:89-95 | a lapsed shop subscription stays lapsed at every later moment, an active one was active at every earlier moment, and the answer depends on the expiry alone |
| Tools.NewTool | backend/apps/tools/models.py:64-128 | field defaults: condition good, one unit available and in total, deposit 0, available, no images, no hourly or weekly price |
| Tools.NewToolValid | backend/apps/tools/models.py:78-117 | a new tool whose daily price meets the 0.01 minimum satisfies every field validator and is in stock |
| Inventory.Marketplace.Valid | backend/apps/bookings/serializers.py:81-82 | stock conservation: for every tool, the available quantity plus what its non-cancelled bookings hold is the tool's fixed stock; hence every available quantity lies between 0 and that stock |
| Inventory.Marketplace.AddTool | backend/apps/tools/views.py:73 | the new tool is appended with its whole quantity available, no booking changes, and conservation holds |
| Inventory.InStockIffUnitsUnheld | backend/apps/tools/models.py:146-149 | under conservation, a tool is in stock iff its live bookings hold less than its whole stock |
| Tools.RatingsOf | backend/apps/tools/models.py:182-184 | a shop's ratings are drawn from its reviews; when every review passes its 1..5 validator, every rating lies in 1..5 |
| Tools.OneReviewPerBooking | backend/apps/tools/models.py:156-160 | no two reviews name the same booking (the one-to-one column) |
| Tools.PutFreeBookingKeepsUnique | backend/apps/tools/models.py:156-160 | writing a review, appended or in place of row i, whose booking no other row reviews keeps the one-review-per-booking rule |
| Tools.ReviewTable.Create | backend/apps/tools/views.py:117-126 | a rating outside 1..5 or an already reviewed booking is 400 and changes nothing; otherwise the review is appended with the caller as reviewer, the rating of the shop it names is recomputed from all that shop's reviews, the shop's other fields stay, and one review per booking is kept |
| Tools.ReviewTable.Update | backend/apps/tools/models.py:201-208 | a missing row is 404; an invalid rating or a booking another row reviews is 400; otherwise that row alone is replaced, keeping its reviewer, the named shop's rating is recomputed, and one review per booking is kept |
| Tools.NamedShopRatingBounded | backend/apps/tools/models.py:182-208 | when all reviews are valid, any shop some review names has at least one rating and a mean in 1..5 |
| Tools.SavedShopRatingBounded | backend/apps/tools/models.py:182-208 | after a review of a shop is saved, the shop has at least one rating and its average lies in 1..5 |
| Bookings.NamesDistinct | backend/apps/bookings/models.py:12-29 | the stored status, payment-status and payment-method names are distinct, so each name identifies one choice |
| Bookings.TruncDiv | backend/apps/bookings/models.py:126 | Python `int()` of a quotient truncates toward zero, for either sign of the dividend |
| Bookings.DurationHours | backend/apps/bookings/models.py:125-126 | the duration is at least 1 hour, is the whole number of hours in the range when that is at least 1, and is 1 for ranges under two hours |
| Bookings.TotalAmount | backend/apps/bookings/models.py:129-130 | total minus deposit is rental price times quantity for a quantity of at least 1; with non-negative inputs the total is at least the deposit |
| Bookings.ZeroQuantityPricedAsOne | backend/apps/bookings/models.py:129 | a falsy quantity (0) is priced as a quantity of 1 |
| Bookings.TotalMonotoneInQuantity | backend/apps/bookings/models.py:129-130 | booking more units never lowers the total |
| Bookings.NewBooking | backend/apps/bookings/models.py:77-91 | a new booking is pending and unpaid, with no gateway ids, for the given renter, tool, shop, quantity and dates |
| Bookings.Save | backend/apps/bookings/models.py:121-132 | with both dates set, the duration and total are recomputed (duration at least 1, total at least the deposit for non-negative inputs); otherwise the booking is saved unchanged |
| BookingCreate.FieldCheck | backend/apps/bookings/serializers.py:35-42 | field-level errors name exactly the missing required fields and the out-of-range quantity, price or deposit |
| BookingCreate.Validate | backend/apps/bookings/serializers.py:44-73 | an unknown tool is rejected first, then a quantity (default 1) above the stock, then start not before end; acceptance implies all three checks pass |
| BookingCreate.Decide | backend/apps/bookings/serializers.py:44-88 | field errors win; otherwise the validation chain decides; an accepted quantity is between 1 and the tool's stock |
| BookingCreate.OmittedQuantityCrashesAsWritten | backend/apps/bookings/serializers.py:47-81 | a request that omits `quantity` passes validation but fails with a server error in `create` |
| BookingCreate.AsWrittenAgreesWithQuantity | backend/apps/bookings/serializers.py:75-88 | when the quantity is sent, the code as written and the corrected code decide alike |
| BookingCreate.CreatedBooking | backend/apps/bookings/serializers.py:75-88 | the appended booking: renter, tool, the tool's shop, quantity, both dates, price, deposit (0 when left out), method (Razorpay when left out), notes ('' when left out), pending, unpaid, no gateway ids, and the duration and total `Booking.save` computes |
| BookingCreate.AcceptedBookingPriced | backend/apps/bookings/serializers.py:44-88 | an accepted booking's total is its rental price times its quantity plus its deposit, at least the deposit, which is not negative; it lasts at least an hour |
| BookingCreate.Create | backend/apps/bookings/serializers.py:75-88 | on acceptance the tool's stock drops by exactly the booked quantity and exactly `CreatedBooking` is appended, and conservation holds; on rejection nothing changes |
| BookingApi.Queryset | backend/apps/bookings/views.py:32-41 | the caller sees exactly the visible bookings, each as many times as it is in the table: the provider's shops' bookings, or the renter's own bookings |
| BookingApi.QuerysetByRole | backend/apps/bookings/views.py:36-41 | a provider sees a booking iff they own its shop; a renter sees it iff they are its renter |
| BookingApi.Confirm | backend/apps/bookings/views.py:50-79 | invisible is 404, non-owner 403, non-pending 400; otherwise only the status becomes confirmed; stock is untouched |
| BookingApi.ConfirmForbiddenOnlyForRenters | backend/apps/bookings/views.py:55-59 | a visible booking whose shop the caller does not own is the caller's own booking as a renter |
| BookingApi.Cancel | backend/apps/bookings/views.py:82-107 | invisible is 404, strangers 403, returned or cancelled 400; otherwise the tool gets its quantity back, the status becomes cancelled, payment fields are unchanged and conservation holds |
| BookingApi.CreatePayment | backend/apps/bookings/views.py:112-150 | checks in order confirmed, not paid, Razorpay (each 400); 200 exactly when the booking passes `PaymentOrderAllowed` and the gateway returns an order; on success only the order id is stored |
| BookingApi.PaidAndActive | backend/apps/bookings/views.py:179-183 | the payment step sets paid, active and the payment id, and changes no other field |
| BookingApi.PromotingCancelledBreaksConservation | backend/apps/bookings/views.py:179-183 | promoting a cancelled booking, as the code does, counts its quantity as held again without taking it off the tool |
| BookingApi.PromotingLiveBookingKeepsHeld | backend/apps/bookings/views.py:179-183 | promoting a non-cancelled booking leaves every tool's held quantity unchanged |
| BookingApi.VerifyPayment | backend/apps/bookings/views.py:153-210 | missing payment id or signature, no stored order, or a bad signature is 400 with no change; a valid payment marks the booking paid and active; a cancelled booking is refused |
| BookingApi.NotificationTable.MarkRead | backend/apps/bookings/views.py:221-233 | the caller's own notification is marked read; another user's is 404 and nothing changes |
| BookingApi.NotificationTable.MarkAllRead | backend/apps/bookings/views.py:235-239 | every notification of the caller is marked read and all others are unchanged |
| PaymentWebhook.MatchIndices | backend/apps/payments/views.py:50 | the lookup by order id finds exactly the bookings carrying that order id, in table order |
| PaymentWebhook.Captured | backend/apps/payments/views.py:43-61 | only a `payment.captured` event with an order id can change bookings; an unknown order changes nothing; several matches are a 500 with no change; the only booking that can change is the one matching, unpaid and not cancelled, and it becomes paid and active with the event's payment id |
| PaymentWebhook.CapturedIdempotent | backend/apps/payments/views.py:52 | replaying the same event changes nothing more |
| PaymentWebhook.CapturedMarksPaid | backend/apps/payments/views.py:49-56 | an unpaid booking that alone matches the order id becomes paid and active with the payment id |
| PaymentWebhook.CapturedAsWritten | backend/apps/payments/views.py:43-61 | the handler as written, where a missing order id matches bookings whose order id is null |
| PaymentWebhook.CapturedWithoutOrderPaysCashBookingAsWritten | backend/apps/payments/views.py:45-56 | as written, an event without an order id pays a lone booking that never had an order; the corrected handler leaves it alone |
| PaymentWebhook.Post | backend/apps/payments/views.py:20-68 | no signature is 400 before anything else; no secret is 500; a bad signature is 400; otherwise the captured event is applied and conservation holds |
| ShopSubscriptions.NewShopSubscription | backend/apps/payments/models.py:43-47 | a new shop subscription defaults to active |
| ShopSubscriptions.InactiveStatusesNeverActive | backend/apps/payments/models.py:68-75 | cancelled and expired subscriptions are never active; an active one is active iff now is before expiry |
| ShopSubscriptions.NewRowActiveUntilExpiry | backend/apps/payments/models.py:43-75 | a fresh subscription is active exactly until it expires |
| ShopSubscriptions.FindBySubscriptionId | backend/apps/payments/models.py:40 | with unique subscription ids, the lookup finds the one row with that id or reports that none exists |
| Subscriptions.NewSubscription | backend/apps/subscriptions/models.py:17-22 | a new subscription is pending, costs 200.00 and carries the order id |
| Subscriptions.IsActiveBoundary | backend/apps/subscriptions/models.py:30-32 | active iff status active, an end date set and now before it; not active at the instant the end date equals now; a new subscription is never active |
| Subscriptions.Lookup | backend/apps/subscriptions/models.py:20 | with unique order ids, the lookup finds the only subscription for the order or none |
| SubscriptionApi.Activated | backend/apps/subscriptions/views.py:56-62 | activation sets active, the payment id, start now and end 30 days later, and keeps user, order and amount |
| SubscriptionApi.ActivatedActiveForThirtyDays | backend/apps/subscriptions/views.py:56-62 | an activated subscription is active exactly until 30 days after activation |
| SubscriptionApi.CreateOrderAsWritten | backend/apps/subscriptions/views.py:12-41 | as written: non-providers 403, an active subscription 400, anyone else 500, because the gateway helper is called with three arguments but takes one |
| SubscriptionApi.OrderResponse | backend/apps/subscriptions/views.py:12-41 | corrected: 200 iff a provider without an active subscription gets a fresh order id from the gateway; every other answer is the one the written code gives |
| SubscriptionApi.CreateOrderAsWrittenNeverSucceeds | backend/apps/subscriptions/views.py:24 | the written endpoint never answers 200; for a provider with no subscriptions it answers 500 where the corrected one answers 200 |
| SubscriptionApi.SubscriptionTable.CreateOrder | backend/apps/subscriptions/views.py:12-41 | the corrected endpoint: the response is `OrderResponse`; on 200 exactly one pending 200.00 subscription with the order id is appended, otherwise nothing changes |
| SubscriptionApi.SubscriptionTable.VerifyPayment | backend/apps/subscriptions/views.py:46-69 | a missing field is 400; a bad signature is 400 with no change; an unknown order is 404; otherwise only that subscription is activated for 30 days |
| ToolPermissions.ObjectPermissionSpec | backend/apps/tools/permissions.py:8-14 | safe methods are always allowed; a write is allowed iff the caller owns the tool's shop; the owner may do everything |
| ToolApi.PermissionsFor | backend/apps/tools/views.py:33-38 | list, retrieve and nearby are open; every other action needs authentication and ownership |
| ToolApi.SerializerFor | backend/apps/tools/views.py:40-44 | create uses the create serializer and every other action the plain one |
| ToolApi.AccessByAction | backend/apps/tools/views.py:33-38 | reading actions are open to anyone; create is allowed iff signed in (the object permission only runs on detail actions); update and destroy are allowed iff the caller owns the tool's shop |
| ToolApi.BaseQueryset | backend/apps/tools/views.py:24 | the base listing holds exactly the available tools, in table order |
| ToolApi.FirstShop | backend/apps/tools/views.py:57 | the first shop owned by the user, or none iff the user owns no shop |
| ToolApi.HasShopIffFirstShop | backend/apps/users/serializers.py:87-88 | `has_shop` agrees with the tool view's first-shop lookup |
| ToolApi.ImagesFor | backend/apps/tools/views.py:63-73 | the image list has the uploaded URL as its one element, or is empty when nothing was uploaded |
| ToolApi.GuardAsWritten | backend/apps/tools/views.py:53-59 | as written, every refusal is a server error, because the error class is not imported |
| ToolApi.Guard | backend/apps/tools/views.py:53-59 | a non-provider or a provider without a shop is refused with 400; otherwise creation proceeds |
| ToolApi.GuardAsWrittenRefusesWithServerError | backend/apps/tools/views.py:53-59 | the code as written refuses exactly the intended callers, but with 500 instead of 400 |
| ToolApi.PerformCreate | backend/apps/tools/views.py:46-73 | a refused caller changes nothing; otherwise one tool is appended to the user's first shop and conservation holds |
| UserSerializers.ValidateRegistration | backend/apps/users/serializers.py:28-51 | registration has no errors iff every required field is sent, the username and email are free, the user type is a valid choice, the password passes `validate_password` and the two passwords agree; field errors are reported before the mismatch, which is keyed `password` |
| UserSerializers.FieldErrors | backend/apps/users/serializers.py:28-43 | each field error under its key: a missing or blank required field, a taken username, a taken email, a refused password, an invalid user type |
| UserSerializers.UserFields | backend/apps/users/serializers.py:53-57 | `password_confirm` is removed and every other field is passed on unchanged |
| UserSerializers.RegisteredUser | backend/apps/users/serializers.py:53-57 | the stored row has the sent username and email, is a provider iff `provider` was sent as the user type, and otherwise has the model defaults |
| UserSerializers.CreatedPasswordConfirmed | backend/apps/users/serializers.py:45-57 | after a successful validation the created user's password is the confirmed one, any sent user type is a valid choice, and the row `create_user` stores keeps usernames and emails unique |
| UserApi.PermissionFor | backend/apps/users/views.py:24-28 | create is open; every other action needs authentication |
| UserApi.SerializerFor | backend/apps/users/views.py:30-36 | registration for create, profile for `me` and `update_profile`, the base serializer otherwise |
| UserApi.Queryset | backend/apps/users/views.py:17-22 | staff and superusers see every user; anyone else sees only themselves |
| UserApi.OrdinaryUsersSeeOnlyThemselves | backend/apps/users/views.py:17-22 | an ordinary user's listing holds only users with their id |
| UserApi.PartialUpdate | backend/apps/users/views.py:44-54 | 400 with the profile unchanged iff a sent username or email is blank or held by another user, the user type is invalid, or another field is malformed; otherwise 200 with `Merged` applied and `updated_at` refreshed to the save time |
| UserApi.Merged | backend/apps/users/views.py:47-53 | sent writable fields are overwritten; every other profile field is kept |
| UserApi.UpdateKeepsIdentitiesUnique | backend/apps/users/views.py:44-54 | with distinct ids, an accepted update leaves usernames and emails unique |
| UserApi.PartialUpdateKeepsReadOnly | backend/apps/users/serializers.py:77 | no update, accepted or refused, changes a read-only profile field other than the `auto_now` `updated_at`; an accepted empty update changes only `updated_at`, a refused one nothing |
| Setup.AdminDecision | backend/apps/users/setup_views.py:29-80 | in order: an existing superuser is 403, no configured secret 403, a wrong secret 403, missing fields 400, a short password 400, otherwise 201 |
| Setup.AdminResponse | backend/apps/users/setup_views.py:29-80 | the guard chain's answer, except 500 when it would create a user whose username or email a row already holds; 201 only for a free username and email |
| Setup.Superuser | backend/apps/users/setup_views.py:70-74 | the created account is an active staff superuser with the given username and email |
| Setup.CreateAdmin | backend/apps/users/setup_views.py:29-80 | the response is `AdminResponse`; only 201 adds a superuser, which keeps usernames and emails unique and refuses every later call; any other outcome, the 500 included, leaves the table unchanged |
| Setup.ProvidedSecret | backend/apps/users/setup_views.py:98-104 | the query-string secret takes precedence over the body secret |
| Setup.MigrateGate | backend/apps/users/setup_views.py:97-113 | migrate is allowed iff a secret is configured and the provided one equals it; otherwise 403 |
| Setup.QuerySecretTakesPrecedence | backend/apps/users/setup_views.py:98-104 | with a query secret present, the body secret does not affect the outcome |
| AdminDashboard.RevenueBounds | backend/apps/admin_dashboard/views.py:31-33 | revenue lies between 0 and the sum of all totals, and is 0 when nothing is paid |
| AdminDashboard.RevenueAppend | backend/apps/admin_dashboard/views.py:31-33 | one more booking adds its total to revenue iff it is paid |
| AdminDashboard.IsSuperUser | backend/apps/admin_dashboard/views.py:14-20 | the permission holds iff a user is signed in and is a superuser |
| AdminDashboard.AdminAllowed | backend/apps/admin_dashboard/views.py:22-23 | the admin views admit exactly the superusers; staff rights alone never admit |
| AdminDashboard.SetupAdminIsAdmin | backend/apps/admin_dashboard/views.py:15-23 | the account the setup endpoint creates is admitted; a newly registered user is not |
| AdminDashboard.Revenue | backend/apps/admin_dashboard/views.py:31-33 | revenue is 0 when nothing is paid and not negative when paid totals are not |
| AdminDashboard.CountSince | backend/apps/admin_dashboard/views.py:36-38 | the recent count is 0 iff nothing is recent and all iff everything is |
| AdminDashboard.CountSinceMonotone | backend/apps/admin_dashboard/views.py:36-38 | a later cutoff never counts more records |
| AdminDashboard.Gate | backend/apps/admin_dashboard/views.py:14-23 | the admin permission check answers 200 exactly for superusers, 401 exactly for anonymous callers, and 403 otherwise |
| AdminDashboard.StatsView | backend/apps/admin_dashboard/views.py:22-49 | the statistics are returned to a superuser only; anyone else gets the permission check's 401 or 403 and no data |
| AdminDashboard.AdminStats | backend/apps/admin_dashboard/views.py:25-49 | the totals are the table sizes, revenue is the paid total, and the new counts cover the last 30 days and never exceed the totals |
| AdminDashboard.VerifyToggled | backend/apps/admin_dashboard/views.py:58-63 | negates `is_verified` and leaves the other fields alone |
| AdminDashboard.ActiveToggled | backend/apps/admin_dashboard/views.py:65-70 | negates `is_active` and leaves the other fields alone |
| AdminDashboard.TogglesAreInvolutions | backend/apps/admin_dashboard/views.py:58-70 | each toggle applied twice restores the user, and the two commute |
| AdminDashboard.ToggleVerify | backend/apps/admin_dashboard/views.py:51-63 | a caller who is not a superuser gets 401 or 403 and nothing changes; for a superuser, an unknown user is 404; otherwise that user's flag is flipped, the new value is reported and no one else changes |
| AdminDashboard.ToggleActive | backend/apps/admin_dashboard/views.py:51-70 | a caller who is not a superuser gets 401 or 403 and nothing changes; for a superuser, an unknown user is 404; otherwise that user's flag is flipped, the new value is reported and no one else changes |
| Text.Lower | frontend/app/tools/page.tsx:49-52 | lower-casing maps every ASCII capital to its small letter and keeps the length |
| Text.Before | frontend/app/bookings/page.tsx:205 | the prefix before the first separator is a prefix with no separator, followed by the separator or the end |
| ClientUtils.BaseUrl | frontend/lib/utils.ts:12 | the configured base URL when non-empty, else `http://localhost:8000` |
| ClientUtils.StripApi | frontend/lib/utils.ts:14 | a trailing `/api/` or `/api` is removed and nothing else changes |
| ClientUtils.StripApiRoundTrip | frontend/lib/utils.ts:14 | appending `/api` or `/api/` to a base and stripping it gives the base back |
| ClientUtils.CleanPath | frontend/lib/utils.ts:15 | the path gains a leading slash iff it lacks one |
| ClientUtils.ImageUrl | frontend/lib/utils.ts:9-17 | an empty path gives ''; an `http` or `blob:` path is returned as is; otherwise the cleaned base is joined to the cleaned path |
| ClientUtils.LeadingSlashIrrelevant | frontend/lib/utils.ts:15-16 | a relative path with or without its leading slash gives the same URL |
| ClientUtils.ImageUrlIdempotent | frontend/lib/utils.ts:9-17 | with an `http` base, resolving an already resolved URL changes nothing |
| ClientUtils.IsAbsolute | frontend/lib/utils.ts:11 | a path starting with `http` or `blob:` is used as it is |
| ApiClient.Prepare | frontend/lib/api.ts:16-36 | the URL is base plus endpoint; JSON content type is added iff the body is not FormData and none was set; the bearer header is set iff a token is given; other headers pass through |
| ApiClient.ErrorMessage | frontend/lib/api.ts:41-44 | the message is `detail` when present, else the serialised body; an unparsable body gives "Request failed" |
| ApiClient.Query | frontend/lib/api.ts:124-126 | a query string, starting with '?', is appended iff parameters are given |
| ApiClient.Encode | frontend/lib/api.ts:87 | empty iff there are no parameters; otherwise it starts with the first `key=value` pair |
| ApiClient.ListPath | frontend/lib/api.ts:86-88 | `/api/<collection>/` (shops or tools) followed by the query string, and nothing after it without parameters |
| ApiClient.NearbyPath | frontend/lib/api.ts:129-130 | the nearby path carries the coordinates and a radius defaulting to 10 |
| ApiClient.ToolRequest | frontend/lib/api.ts:137-162 | FormData is sent unchanged without a content type; anything else as JSON text with the JSON content type; to the collection or the tool's URL |
| ApiClient.Normalise | frontend/app/bookings/page.tsx:51 | a listing is the array itself, else its `results`, else empty |
| AuthContext.FlagsOf | frontend/contexts/AuthContext.tsx:97-107 | authenticated iff a user is present; provider and renter follow the user type and never both hold; `hasShop` is the truthiness of `has_shop` |
| AuthContext.AuthProvider.constructor | frontend/contexts/AuthContext.tsx:32-34 | the provider starts with no user, no token and loading |
| AuthContext.AuthProvider.Logout | frontend/contexts/AuthContext.tsx:90-95 | both storage keys are removed and user and token are cleared, whatever the prior state |
| AuthContext.AuthProvider.Init | frontend/contexts/AuthContext.tsx:36-63 | no stored token ends loading with no user; a stored token is used to fetch the user; a failed fetch tries exactly one refresh when a refresh token is stored and logs out otherwise |
| AuthContext.AuthProvider.RefreshAccessToken | frontend/contexts/AuthContext.tsx:65-74 | a successful refresh stores only the new access token and fetches the user; a failure logs out |
| AuthContext.AuthProvider.Login | frontend/contexts/AuthContext.tsx:76-82 | a successful login stores both tokens, then fetches the user; a failed one changes nothing |
| AuthContext.AuthProvider.Register | frontend/contexts/AuthContext.tsx:84-88 | after a successful registration it logs in with the same username and password; a failed one changes nothing |
| BookingModal.CeilDiv | frontend/components/BookingModal.tsx:46 | the ceiling of a non-negative quotient: the least k with k times the divisor at least the dividend |
| BookingModal.DayCount | frontend/components/BookingModal.tsx:45-49 | the day count is the ceiling of the absolute range in days, at least 1, and 1 for a range of at most one day |
| BookingModal.DayCountSymmetric | frontend/components/BookingModal.tsx:45 | swapping start and end gives the same day count |
| BookingModal.Estimate | frontend/components/BookingModal.tsx:52 | the estimate is the server's total formula with the rental price as daily rate times days; it is at least the deposit |
| BookingModal.EstimateMonotoneInDays | frontend/components/BookingModal.tsx:52 | a longer booking never costs less |
| BookingModal.ToRequest | frontend/components/BookingModal.tsx:68-75 | the request carries the tool, quantity, dates, method and notes, and no rental price or deposit |
| BookingModal.FormRequestsLackRentalPrice | frontend/components/BookingModal.tsx:68-75 | every booking the modal sends is refused by the server with an error keyed `rental_price` |
| BookingModal.ToRequestPriced | frontend/components/BookingModal.tsx:68-75 | corrected: the same request with the rental price of one unit for all days and the tool's deposit |
| BookingModal.PricedFormRequestAccepted | frontend/components/BookingModal.tsx:46-75 | the corrected request for a valid existing tool with enough stock and ordered dates is accepted, and the saved total equals the form's estimate |
| BookingModal.Form.constructor | frontend/components/BookingModal.tsx:28-39 | empty dates, quantity 1, Razorpay, no notes, zero duration and total, not loading |
| BookingModal.Form.Recompute | frontend/components/BookingModal.tsx:41-54 | with both dates set, the duration becomes the day count and the total the estimate; otherwise both are kept |
| BookingModal.Form.Submit | frontend/components/BookingModal.tsx:58-86 | without a token it navigates to `/login` and sends nothing; otherwise it sends the form's payload and navigates to `/bookings` on success |
| AdminGuard.Redirect | frontend/components/admin/AdminGuard.tsx:11-19 | no redirect while loading; `/login` without a user; `/` for a user who is not a superuser |
| AdminGuard.Render | frontend/components/admin/AdminGuard.tsx:21-45 | a skeleton iff loading; the children iff the user is a superuser; nothing otherwise |
| AdminGuard.ChildrenIffNoRedirect | frontend/components/admin/AdminGuard.tsx:11-45 | the children render exactly when loading is over and no redirect is issued |
| AdminGuard.ProfileWithoutFlagLocksEveryoneOut | frontend/components/admin/AdminGuard.tsx:15-43 | a profile without `is_superuser` is sent to `/` and sees nothing |
| DashboardLayout.Redirect | frontend/app/dashboard/layout.tsx:12-19 | no redirect while loading; `/login` without a user; `/admin` for a superuser |
| DashboardLayout.Render | frontend/app/dashboard/layout.tsx:21-35 | a skeleton iff loading; the children iff a user who is not a superuser is present |
| DashboardLayout.DashboardAndAdminExclusive | frontend/app/dashboard/layout.tsx:12-35 | no user gets both the dashboard and the admin area; the dashboard renders iff loading is over and there is no redirect |
| DashboardLayout.BannerWithoutStatus | frontend/app/dashboard/layout.tsx:43-45 | a provider whose status is missing always sees the banner; a renter never does |
| DashboardLayout.ShowsBanner | frontend/app/dashboard/layout.tsx:43-45 | the banner shows for a provider whose subscription status is not `active` |
| DashboardPage.Rows | frontend/app/dashboard/page.tsx:55-56 | each row carries its booking's status name, payment-status name and total |
| DashboardPage.Redirect | frontend/app/dashboard/page.tsx:29-39 | once loaded: `/login`, then `/admin`, then `/bookings` for renters, then `/shops/new` for providers without a shop |
| DashboardPage.FetchDecision | frontend/app/dashboard/page.tsx:41-50 | data loads iff an authenticated provider has a token; it waits iff the token is missing |
| DashboardPage.NoWaitWithSessionToken | frontend/app/dashboard/page.tsx:41-50 | with a session invariant (a user implies a token) the page never waits forever |
| DashboardPage.CountIn | frontend/app/dashboard/page.tsx:60-61 | the count is 0 iff no row has a listed status |
| DashboardPage.CountInUnion | frontend/app/dashboard/page.tsx:60 | counting `active` or `confirmed` is the sum of the two separate counts |
| DashboardPage.StatsOf | frontend/app/dashboard/page.tsx:59-77 | revenue over paid rows, active and confirmed count, pending count, inventory size; active plus pending never exceeds the rows |
| DashboardPage.ClientRevenueMatchesServer | frontend/app/dashboard/page.tsx:59 | the client revenue equals the admin dashboard's paid-bookings revenue over the same bookings |
| DashboardPage.CountMatchesStatuses | frontend/app/dashboard/page.tsx:60-61 | the counts are 0 iff no booking has the corresponding statuses |
| DashboardPage.Page.constructor | frontend/app/dashboard/page.tsx:21-27 | loading, with all four counters 0 |
| DashboardPage.Page.DataEffect | frontend/app/dashboard/page.tsx:41-85 | a loading provider gets the stats of the fetched listings and stops loading; a failed fetch keeps the stats; others stop loading or wait |
| DashboardPage.Page.Render | frontend/app/dashboard/page.tsx:87-140 | a skeleton iff loading; the dashboard iff loaded and the user is a provider |
| BookingsPage.RowOf | frontend/app/bookings/page.tsx:40-57 | a row's names mirror the booking's status, payment status and method |
| BookingsPage.StatusColor | frontend/app/bookings/page.tsx:108-117 | the five known statuses get a style other than the fallback; any other status gets the fallback |
| BookingsPage.StatusColorsDistinct | frontend/app/bookings/page.tsx:108-117 | distinct booking statuses get distinct styles |
| BookingsPage.DisplayId | frontend/app/bookings/page.tsx:205 | the displayed id is the id's prefix before the first '-', and the whole id when there is none |
| BookingsPage.PayNowMatchesServer | frontend/app/bookings/page.tsx:247 | "Pay Now" is shown to a renter only on bookings that pass all three checks of `BookingApi.CreatePayment`; it is shown on exactly those that are also unpaid, so a confirmed Razorpay booking in `refunded` is accepted by the server but offered no button; never shown to a provider |
| BookingsPage.AuthorizeShownOnlyWhenConfirmable | frontend/app/bookings/page.tsx:256-265 | for a provider, "Authorize" appears iff the booking is pending, and only on bookings of the provider's own shop |
| BookingsPage.CancelShownOnlyWhenCancellable | frontend/app/bookings/page.tsx:256-272 | the cancel button appears only to a party the server lets cancel, on a booking the server still accepts |
| BookingsPage.ShowPayNow | frontend/app/bookings/page.tsx:247 | "Pay Now": confirmed, payment pending, a renter, paid by Razorpay |
| BookingsPage.ShowAuthorize | frontend/app/bookings/page.tsx:256-265 | "Authorize Request": a pending booking, for anyone but a renter |
| BookingsPage.ShowCancel | frontend/app/bookings/page.tsx:256-272 | the cancel button: any pending booking |
| BookingsPage.CancelLabel | frontend/app/bookings/page.tsx:271 | 'Abort Request' for a renter, 'Decline Request' otherwise |
| Navbar.LogoTarget | frontend/components/Navbar.tsx:45 | `/` when signed out, `/admin` for a superuser, `/dashboard` for a provider, `/tools` otherwise |
| Navbar.Links | frontend/components/Navbar.tsx:64-142 | Tools always; Bookings iff signed in and not a superuser; Admin iff a superuser; Deploy and Dashboard iff a provider who is not a superuser; Login and Join iff signed out |
| Navbar.LogoIsLinked | frontend/components/Navbar.tsx:45-142 | a signed-in user's logo target is also one of their links |
| Navbar.ConfirmLogout | frontend/components/Navbar.tsx:20-25 | confirming logout clears the session and storage keys, then navigates to `/`, where only the signed-out links remain |
| ToolsPage.Filter | frontend/app/tools/page.tsx:49-52 | a tool is kept iff its lower-cased name or description contains the lower-cased search |
| ToolsPage.FilterIsSubsequence | frontend/app/tools/page.tsx:49 | the filtered list is an order-preserving subsequence of the loaded tools |
| ToolsPage.EmptySearchKeepsAll | frontend/app/tools/page.tsx:49-52 | an empty search keeps every tool |
| ToolsPage.Badge | frontend/app/tools/page.tsx:137-141 | ACTIVE iff the quantity available is positive, else OFFLINE |
| ToolsPage.CardImage | frontend/app/tools/page.tsx:154-156 | the first image's resolved URL when there is one, else none |
| NewToolPage.Redirect | frontend/app/tools/new/page.tsx:49-57 | `/login`, then `/tools` for renters, then `/shops/new` for a provider without a shop; no redirect iff a provider with a shop |
| NewToolPage.Render | frontend/app/tools/new/page.tsx:115 | renders nothing iff there is no user |
| NewToolPage.FormFields | frontend/app/tools/new/page.tsx:78-95 | the five form fields in order, then `is_available` as 'true', then `category` only when selected, then `image` only when chosen |
| NewToolPage.Page.constructor | frontend/app/tools/new/page.tsx:21-30 | empty fields except quantity '1', no image, not submitting |
| NewToolPage.Page.Change | frontend/app/tools/new/page.tsx:59-62 | sets exactly the named field |
| NewToolPage.Page.ChangeImage | frontend/app/tools/new/page.tsx:64-70 | a chosen file replaces the image; no file keeps it |
| NewToolPage.Page.Submit | frontend/app/tools/new/page.tsx:72-113 | posts the FormData fields to the tools collection without a content type, navigates to `/tools` on success and ends not submitting |
| NewToolPage.UnredirectedProviderPassesGuard | frontend/app/tools/new/page.tsx:49-57 | a user the page does not redirect passes the server's create guard |

## Left out

- Stock decrement and restore run as atomic steps. The race between simultaneous requests is not modelled.
- Signature checks (booking, subscription and webhook HMAC) are boolean inputs. The Razorpay SDK, order creation and script loading are left out, and a created order id is an optional string input.
- The JSON parse of the webhook body is not modelled: an unparsable body gives 500 in the source, and the event arrives here already decoded.
- Notification creation in the booking views and signals is not part of this model; only `mark_read` and `mark_all_read` are.
- The `nearby` geographic bounding boxes use float arithmetic and are left out; only the client's nearby path builder is modelled.
- Decimal money is integer paise. The shop rating average is a Dafny `real` mean, not a two-digit Decimal.
- DashboardPage.ClientRevenueMatchesServer: the client sums `parseFloat` of the `total_amount` strings in floating point; the model adds exact integer paise, so float rounding of large sums is not captured.
- `timezone.now`, date parsing and `toISOString` are replaced by integer timestamps passed in as parameters.
- List ordering (`-created_at`) is not modelled; listings keep table order.
- A user's "first shop" is taken in table order, standing in for Django's default ordering.
- URL encoding in `URLSearchParams` is abstracted as an encoding function over the parameter pairs.
- Lower-casing covers ASCII letters only; Unicode case mapping is left out.
- Number and currency formatting, toasts, and all JSX and styling are left out.
- The categories fetch, the image preview URL and the `me` action's response body are left out.
- The uploaded image's storage is left out; `perform_create` receives the stored URL as a parameter.
- The client context exposes neither `isLoading` nor `refreshUser`, and the profile serializer emits neither `is_superuser` nor `subscription_status`. The guards take these as `Option` inputs that are `None` in practice.
- Tools.ReviewTable.Create: the tool branch of `Review.save` is a no-op in the source and is modelled as one. Whether the review's booking, shop and tool exist is not checked.
- Tools.ReviewTable.Update: when an update moves a review to another shop, the old shop's rating is not recomputed, as in the source. Whether the booking, shop and tool exist is not checked.
- The review `destroy` action is not modelled. In the source it deletes the row without recomputing the shop's rating (`Review.save` is not called on delete).
- The migrate endpoint's `call_command` is a foreign call; only its secret check is modelled.
- The generic `update`, `partial_update` and `destroy` actions of the booking viewset (backend/apps/bookings/views.py:15-48) are not modelled. Its serializer lets a client write `quantity`, `status` and `payment_status` (backend/apps/bookings/serializers.py:26-29), and a destroy drops a live booking without returning its stock, so these actions break stock conservation.
- The tool viewset's generic update (backend/apps/tools/views.py:21) is not modelled. It lets the owner write `quantity_available` (backend/apps/tools/serializers.py:37), which also breaks stock conservation.
- ValidateRegistration: Django's configured password validators are the boolean `passwordAccepted`; e-mail syntax, the username character set and the maximum field lengths are not checked.
- PartialUpdate: field formats other than the unique username and email and the user-type choice (e-mail syntax, lengths, coordinates, the image upload) are the boolean `fieldsValid`. The `auto_now` refresh of `updated_at` is modelled, with the save time passed in as the already rendered string `savedAt`.
- CreateAdmin: the e-mail normalisation of `create_superuser` (lower-casing the domain) is not modelled, so two addresses that differ only in the domain's case count as different.

## Findings

| source | as written | input that shows it | evidently intended | confidence | as-written member | corrected member |
|---|---|---|---|---|---|---|
| backend/apps/tools/views.py:54-59 | `serializers.ValidationError` is raised but `serializers` is never imported, so each refusal is a NameError and a 500 | a renter posting a new tool | refuse with 400 | high; not executed | ToolApi.GuardAsWrittenRefusesWithServerError | ToolApi.Guard |
| backend/apps/bookings/serializers.py:47-81 | `validate` defaults the quantity to 1, but `create` reads `validated_data['quantity']`, which is absent when the client omits it: KeyError, 500 | a valid request without `quantity` | book one unit | high; not executed | BookingCreate.OmittedQuantityCrashesAsWritten | BookingCreate.Decide |
| backend/apps/bookings/views.py:179-183 | `verify_payment` promotes any booking to paid and active, including a cancelled one whose stock was already returned; the webhook does the same at backend/apps/payments/views.py:52-56 | cancel a booking that has an order, then verify its payment | refuse a cancelled booking | medium; not executed | BookingApi.PromotingCancelledBreaksConservation | BookingApi.VerifyPayment |
| backend/apps/payments/views.py:45-56 | a captured event without an order id looks up `razorpay_order_id=None`, which matches bookings that never had an order | a signed `payment.captured` event with no `order_id` while one cash-on-return booking is unpaid | change nothing for an event without an order | medium; not executed | PaymentWebhook.CapturedWithoutOrderPaysCashBookingAsWritten | PaymentWebhook.Captured |
| backend/apps/subscriptions/views.py:24 | `create_razorpay_order` is called with an amount, a currency and notes, but it takes a single booking (backend/apps/payments/services.py:16): a TypeError, caught as a 500, and no subscription row is ever created | a provider without an active subscription ordering one | create a 200.00 INR order and a pending subscription | high; not executed | SubscriptionApi.CreateOrderAsWrittenNeverSucceeds | SubscriptionApi.SubscriptionTable.CreateOrder |
| frontend/components/BookingModal.tsx:68-75 | the form posts no `rental_price`, which the create serializer requires (backend/apps/bookings/serializers.py:39-42; the column has no default): every booking made from the form is refused with 400 | any booking submitted from a tool page | send the rental price the form's estimate is built from | high; not executed | BookingModal.FormRequestsLackRentalPrice | BookingModal.PricedFormRequestAccepted |
