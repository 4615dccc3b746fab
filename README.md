# Car-rental backend: a verified model of its store and handlers

This project models the request handlers of a car-rental backend built on
Express and Mongoose. Customers book cars that partners list. Partners confirm
bookings and assign drivers. Every party gets stored notifications and push
messages. The MongoDB database is an in-memory store (`Store.Database`): one
map per collection (bookings, cars, notifications, customers, drivers,
partners, users) from document id to record, and a counter that hands out
fresh ids. Each handler is a method that changes the store in place and
answers with a status code and a message (`Common.Response`). Its contract
states the whole new store in terms of the old one, so "nothing else changes"
is part of every contract. The pure parts are functions with lemmas about
them:

- the overlap predicate of the booking conflict check;
- the pre-save duration hook;
- the `Mon-DD-YYYY` date format, proved to read back without loss;
- the upload bucketing, the slot merges and the price bands;
- the push-dispatch classification.

Modules follow the source files:

- `Common`: ids, the caller (`Principal`), responses, and uploads (`FileField`).
- `Records`: the schemas in `models/*.js` and their validation.
- `Store`: the database.
- `PushService`: `services/NotificationServices.js`.
- `DateFormat`: the `formatDate` helper.
- One module per controller: `BookingController`, `CarController`,
  `NotificationController`, `CustomerController`, `DriverController` and
  `PartnerController`.

Conventions:

- An absent request string is `""`, which is falsy like the absent value.
- An id that may be undefined is an `Option<Id>`.
- A path id that must pass `ObjectId.isValid` is a `RawId`.
- Timestamps are integer milliseconds.
- These are parameters of the handlers:
  - the Firebase send, as a function `Sender` from a message to its outcome;
  - the image host's answers: the URL, or `None` or an error message where an
    upload threw;
  - the local-time getters and `Date#toString`.

Assumptions about Mongoose that the contracts rest on:

- Schema validation runs before a `pre('save')` hook.
- `save()` checks the enums and required paths of the whole document.
- `findByIdAndUpdate` runs no validators and drops keys whose value is
  undefined.
- `findById(undefined)` finds nothing.
- Fields outside the schema are dropped (strict mode).
- An error passed to `next` is answered with its `statusCode`, or with 500
  when it has none (a plain string).

Behaviour of the code that a reader might not expect, and that the model
follows:

- In `createBooking`, `assinDriver` and `updateDriverStatus` the push is
  awaited inside the handler's `try`, so a throwing push answers 500.
- In `updatePartnerStatus`, `assinDriver` and `updateDriverStatus`, an unknown
  booking ends in 500. The handler reads fields of the missing document before
  its not-found check, so the 404 branches are unreachable.

The conflict queries of `createBooking` filter on `pickUpDateTime` and
`returnDateTime`, but the booking schema stores `startDate` and `endDate`. As
written, the outcome depends on Mongoose's `strictQuery` option:

- With `strictQuery` off (the default from Mongoose 7), a range condition on a
  path no booking has matches nothing. No request is ever refused for a
  conflict, and overlapping bookings are stored.
- With `strictQuery` on, the unknown paths are dropped from the filter. Every
  booking of the car, or of the customer, then conflicts, whatever its dates.

`BookingController.CreationRejectionAsWritten` models both readings. The
handler and its lemmas use the evident intent: the overlap predicate applied
to the stored `startDate`/`endDate` (`CarConflict`, `CustomerConflict`). The
difference is recorded under "## Findings".

## Model

| member | source | states |
|---|---|---|
| Records.DurationInDays | models/booking.js:23-28 | the stored duration d satisfies (d-1)·86400000 < end-start ≤ d·86400000, i.e. it is the ceiling of the span in days |
| Records.DurationIsUnique | models/booking.js:25 | any d within those bounds equals DurationInDays, so the bounds determine the hook's value |
| Records.ApplyPreSave | models/booking.js:23-28 | the hook overwrites durationInDays with the span in days and changes no other field |
| Records.PreSaveIdempotent | models/booking.js:23-28 | running the hook twice gives the same document as running it once |
| Records.NewBooking | models/booking.js:3-19 | a new booking has no driver, no penalties, no rejection reason, and pending payment, booking and partner status |
| Records.RegistrationKeepsEmailsUnique | controllers/customer.controller.js:64-71 | adding a login record with an email the duplicate check found unused keeps login emails unique |
| Store.DeleteMany | controllers/notification.controller.js:154 | exactly the documents the filter does not match remain, unchanged |
| Store.DeleteById | controllers/customer.controller.js:336-338 | a document stays iff it was there and its id is not the given one, with its value unchanged; an undefined id deletes nothing |
| PushService.TruthyTokens | services/NotificationServices.js:13-15 | the filtered list is no longer than the input, holds no empty token, and holds exactly the non-empty tokens of the input |
| PushService.TruthyTokensAppend | services/NotificationServices.js:13-15 | filtering distributes over concatenation, so the surviving tokens keep their order |
| PushService.TruthyTokensKeepsTruthy | services/NotificationServices.js:13-15 | a list without empty tokens passes the filter unchanged |
| PushService.TruthyTokensIdempotent | services/NotificationServices.js:13-15 | filtering twice equals filtering once |
| PushService.Dispatch | services/NotificationServices.js:12-78 | falsy input throws "Device tokens are required" before any send; a non-empty filtered array gets one send per token, in order, and its result list holds, per token, the response or the error that send answered, a failure being recorded rather than thrown; any other truthy input gets exactly one send, returning its response or rethrowing its error; every message carries title, body, payload and priority "high" |
| PushService.ArrayNeverLacksTokens | services/NotificationServices.js:22-78 | an array never throws the missing-tokens error; it throws only when the filter emptied it and the single send is rejected |
| PushService.SendPushNotification | services/NotificationServices.js:3-79 | the filtering and the per-token loop return and send exactly what Dispatch describes |
| DateFormat.IntToString | controllers/booking.controller.js:188 | the decimal text of the year is non-empty |
| DateFormat.PadDay | controllers/booking.controller.js:188 | the day is written as exactly two digits whose value is the day |
| DateFormat.FormatDate | controllers/booking.controller.js:185-189 | the text is the month's three-letter name from the table, "-", the padded day, "-", the year |
| DateFormat.MonthNamesDistinct | controllers/booking.controller.js:187 | the twelve month names are distinct |
| DateFormat.ParseFormatDate | controllers/booking.controller.js:185-189 | a formatted date reads back as the year, month and day it came from, so formatting loses nothing |
| BookingController.Overlaps | controllers/booking.controller.js:47-53 | for a stored booking with start ≤ end, the two-disjunct test is exactly closed-interval intersection |
| BookingController.SecondDisjunctCanMatter | controllers/booking.controller.js:50-51 | for a stored booking whose end precedes its start, the second disjunct can hold when the first does not |
| BookingController.CarConflict | controllers/booking.controller.js:47-53 | intended reading: when every stored booking starts no later than it ends, the car conflicts iff one of its bookings intersects the requested closed interval |
| BookingController.CustomerConflict | controllers/booking.controller.js:63-69 | intended reading: without a caller id nothing conflicts; with well-ordered stored bookings, the customer conflicts iff one of their bookings intersects the requested interval |
| BookingController.CarConflictAsWritten | controllers/booking.controller.js:47-53 | the query as written: with strictQuery off no booking conflicts; with it on every intended conflict is caught (and every other booking of the car too) |
| BookingController.CustomerConflictAsWritten | controllers/booking.controller.js:63-69 | the customer query as written: nothing conflicts with strictQuery off or without a caller id; with it on every intended conflict is caught |
| BookingController.CreationRejection | controllers/booking.controller.js:32-76 | the checks run in order (car missing 404, partner missing 404, car overlap 400, customer overlap 400), and each answer holds exactly when its check is the first to fail |
| BookingController.CreationRejectionAsWritten | controllers/booking.controller.js:32-76 | the checks with the queries as written: the car and partner lookups answer as in CreationRejection; with strictQuery off a request that passes them is never refused; with it on it is refused as busy iff the car has any stored booking |
| BookingController.SavedBooking | controllers/booking.controller.js:79-93 | the new booking carries the caller as customer and the requested car, partner, locations, dates and rent; the duration is the hook's value; driverStatus is "pending" iff a driver is required, else "accepted"; it passes validation iff both locations are present |
| BookingController.CreateBooking | controllers/booking.controller.js:14-164 | a failed check writes nothing; on success exactly one booking and one "partner" notification with the new booking id are added, then the partner's devices are pushed and a throwing push answers 500 |
| BookingController.CarOverlapBlocks | controllers/booking.controller.js:47-53 | an overlapping booking of the same car rejects the request with 400 once car and partner exist |
| BookingController.CustomerOverlapBlocks | controllers/booking.controller.js:63-69 | an overlapping booking of the same customer rejects a request that passed the car checks |
| BookingController.OverlappingRequestScenario | controllers/booking.controller.js:47-53 | a concrete pair of two-day bookings one day apart conflicts |
| BookingController.LenientQueryMissesOverlap | controllers/booking.controller.js:47-53 | a car booked for days 1–3 is refused for days 2–4 by the intended check but not by the query as written with strictQuery off |
| BookingController.LenientQueryMissesCustomerOverlap | controllers/booking.controller.js:63-69 | an overlapping booking of the same customer is refused by the intended check but not by the query as written with strictQuery off |
| BookingController.StrictQueryBlocksDisjointBooking | controllers/booking.controller.js:47-53 | a booking of the car that ended before the requested interval refuses the request under strictQuery, while the intended check lets it through |
| BookingController.WithPayment | controllers/booking.controller.js:467-476 | paymentStatus is set, status becomes "booked" iff the new value is "completed", and no other field changes |
| BookingController.UpdateBookingPaymentStatus | controllers/booking.controller.js:462-484 | an unknown booking or a rejected save raises an error and changes nothing; otherwise only that booking is replaced by the updated one |
| BookingController.PaymentUpdateKeepsValidity | controllers/booking.controller.js:467-476 | on a valid booking, every payment status of the enum gives a booking that still validates |
| BookingController.WithStatusUpdate | controllers/booking.controller.js:642-649 | each sent status (partnerStatus, driverStatus, status) overwrites its field, an unsent one leaves it unchanged, and no other field changes; the driver's decision at lines 731-738 is the same update with partnerStatus unsent |
| BookingController.WithDriver | controllers/booking.controller.js:682-686 | only driverId changes |
| BookingController.StrayStatusBlocksPayment | controllers/booking.controller.js:642-649 | a status outside the enum, stored by an update without validators, makes every later payment update fail validation, except one to "completed", which replaces the status with "booked" |
| BookingController.UpdatePartnerStatus | controllers/booking.controller.js:635-673 | an unknown booking answers 500 and changes nothing; otherwise only partnerStatus and status of that booking change |
| BookingController.AssignDriver | controllers/booking.controller.js:675-722 | only driverId changes, then a notification to the driver and one to the customer are stored in that order, then both are pushed; each failing step answers 500 and keeps what was written |
| BookingController.UpdateDriverStatus | controllers/booking.controller.js:724-774 | only driverStatus and status change; one customer notification is stored and pushed; a missing driver or customer, or a throwing push, answers 500 |
| BookingController.FirstBookingOfDriver | controllers/booking.controller.js:504 | the result is the first stored booking whose driverId is the given id, or none when no booking has it |
| BookingController.DeleteBookingById | controllers/booking.controller.js:486-527 | a malformed id answers 400 and a missing match 404, both writing nothing; otherwise exactly one booking with that driverId is removed |
| BookingController.PartnerBookingIds | controllers/booking.controller.js:174-179 | the listed ids are bookings of the partner, below the bound and increasing |
| BookingController.PartnerBookingIdsComplete | controllers/booking.controller.js:174-179 | every booking of the partner below the bound is listed |
| BookingController.PartnerBookingIdsPrefix | controllers/booking.controller.js:174-179 | a lower bound lists a prefix of what a higher bound lists |
| BookingController.FirstPartnerBookings | controllers/booking.controller.js:174-195 | the listing is the first four bookings of the partner in store order, each with its dates formatted |
| BookingController.BookingsByPartner | controllers/booking.controller.js:166-202 | no caller id answers 400; otherwise at most four of the partner's bookings are listed, and 404 when there are none |
| NotificationController.AcceptedNotificationValidates | controllers/notification.controller.js:11-18 | a notification that passed the field guard always passes schema validation |
| NotificationController.NewNotification | controllers/notification.controller.js:9-43 | a falsy receiverId, senderId, title, body, type or bookingId raises an error and stores nothing; otherwise exactly one notification carrying the arguments is stored under a fresh id |
| NotificationController.CreateNotification | controllers/notification.controller.js:47-95 | a missing title or body answers 500 and stores nothing; otherwise the receiver is the caller, the type the caller's role, there is no sender, and an empty role fails validation with 500 |
| NotificationController.ReceivedBy | controllers/notification.controller.js:104-110 | exactly the notifications whose receiver is the given id |
| NotificationController.FetchPartnerBookingNotification | controllers/notification.controller.js:99-136 | no caller id answers 400; otherwise exactly the caller's notifications, and 404 iff there are none |
| NotificationController.DeleteAllPartnerNotifications | controllers/notification.controller.js:140-167 | 404 unless the caller is an existing partner; otherwise exactly the caller's notifications are removed |
| NotificationController.ClearingIsExact | controllers/notification.controller.js:154 | after clearing, the caller has no notifications left and every other notification is kept unchanged |
| CarController.BucketUploads | controllers/car.controller.js:66-113 | the loop over fields and files produces the buckets the specification function describes |
| CarController.AddUploadsImages | controllers/car.controller.js:82-88 | an image URL is in the bucket after a field iff it was there before or the field is an image field that uploaded it; earlier entries stay in front |
| CarController.BucketedImages | controllers/car.controller.js:66-113 | a URL ends up in images iff some image0–image3 field uploaded it successfully |
| CarController.UnknownKeyIgnored | controllers/car.controller.js:103-105 | a field whose name is none of the known keys changes no bucket |
| CarController.BankPassLastWins | controllers/car.controller.js:101-102 | the passbook photo is the last successful passbook upload |
| CarController.NewCar | controllers/car.controller.js:120-149 | the car takes the required details, 0 for missing seats and price, no mileage (its key is misspelt), availability "available", the fixed coordinates, the buckets and the caller as partner; it validates iff fuelType is present and the caller has an id |
| CarController.AddCar | controllers/car.controller.js:12-161 | missing details or a falsy required field answer 400 and store nothing; otherwise the built car is stored with 201, or 400 when it fails validation |
| CarController.MergedSlots | controllers/car.controller.js:281-351 | each slot takes the new upload when its field was sent, else the car's previous value at the same index, or nothing past the stored array |
| CarController.MergedMedia | controllers/car.controller.js:273-361 | without a file object every image and document array becomes empty and the passbook ""; with one, four image slots and two slots per document take upload-or-previous, and the passbook falls back to a field the car does not have |
| CarController.AssignDetails | controllers/car.controller.js:363-388 | the detail fields overwrite the car's, with mileage under its correct name; owner, availability and coordinates stay |
| CarController.UpdateCarDetails | controllers/car.controller.js:236-405 | missing details answer 500 and an unknown car 404; a throwing upload or a failed validation answers 500; each writes nothing; otherwise exactly that car is replaced by the merged one |
| CarController.UpdateWithoutFilesClearsMedia | controllers/car.controller.js:273-279 | an update sent without files wipes the car's images and documents |
| CarController.UpdateLosesUnsentPassbook | controllers/car.controller.js:354-359 | with files but no passbook upload the stored passbook is lost, and only four image slots remain |
| CarController.BandsPartition | controllers/car.controller.js:451-460 | every price lies in exactly one of the bands ≤ 50 and > 50 |
| CarController.CarsWhere | controllers/car.controller.js:463 | exactly the cars the query matches, unchanged |
| CarController.CostListingsSplitCars | controllers/car.controller.js:451-463 | the low-cost and normal-cost listings are disjoint and together hold every car |
| CarController.GetCarByCost | controllers/car.controller.js:434-473 | a missing filter and an unknown filter each answer 400; otherwise exactly the cars in the band |
| CarController.FilterCarsByCategory | controllers/car.controller.js:517-559 | the filter is checked before the category, each answering 404; an unknown filter adds no price bound; the result is exactly the category's cars in the band, 404 when empty |
| CarController.FilterCarsBySubCategory | controllers/car.controller.js:563-657 | filter, category and sub-category are checked in that order; the result is exactly the cars matching all three and the band, 404 when empty |
| CarController.DeleteCar | controllers/car.controller.js:407-432 | a malformed id answers 400; an existing car is removed with 200; a missing one answers 404; nothing else changes |
| CustomerController.NewCustomer | controllers/customer.controller.js:74-81 | the customer carries the sent fields and photo, with no address, history, identification or device tokens |
| CustomerController.RegisterCustomer | controllers/customer.controller.js:29-117 | missing fields answer 400, a failed upload or a duplicate email or phone 500, each storing nothing; otherwise one customer and one "customer" login record linked to it are stored |
| CustomerController.PlaceAt | controllers/customer.controller.js:242-244 | assigning an index sets it, keeps every other index, and fills any gap before it with nothing |
| CustomerController.PlaceIdImages | controllers/customer.controller.js:228-248 | the nested loop fails iff some upload throws, and otherwise yields the images after every upload in order |
| CustomerController.PlaceUploadsKeepsOthers | controllers/customer.controller.js:231-247 | one field's uploads change at most the first two images and grow the array to at most two entries |
| CustomerController.IdImagesKeepOthers | controllers/customer.controller.js:228-248 | all uploads together change at most the first two images; every later image is preserved |
| CustomerController.LastPhotoTakesItsSlot | controllers/customer.controller.js:241-245 | the last front photo is at index 0 and the last back photo at index 1 |
| CustomerController.UploadIdentification | controllers/customer.controller.js:177-260 | the ID type, the ID number and the customer are checked in that order, then the uploads; each failure changes nothing; otherwise only the caller's identification changes, with type and number overwritten and photos in their slots |
| CustomerController.RemoveCustomer | controllers/customer.controller.js:329-357 | the login record, the customer and the customer's bookings are deleted; 404 only when neither record existed, decided after the deletions |
| CustomerController.RemovalCascadesExactly | controllers/customer.controller.js:340 | no booking of the customer remains and every other booking is kept unchanged |
| CustomerController.DeleteAllNotification | controllers/customer.controller.js:387-401 | no caller id answers 400; otherwise exactly the caller's notifications are removed |
| DriverController.NewDriver | controllers/driver.controller.js:98-111 | the driver carries the sent fields and license photos, no profile photo, and the schema's default availability |
| DriverController.RegisterDriver | controllers/driver.controller.js:28-140 | the fields, then duplicates, then the two license uploads are checked, each failure storing nothing; otherwise one driver and one "driver" login record linked to it are stored |
| DriverController.GetAllDrivers | controllers/driver.controller.js:199-211 | exactly the available drivers, and 404 iff there are none |
| DriverController.RemoveDriver | controllers/driver.controller.js:213-241 | the login record, the driver and the driver's bookings are deleted; 404 only when neither record existed |
| DriverController.RemovalCascadesExactly | controllers/driver.controller.js:224 | no booking of the driver remains and every other booking is kept unchanged |
| DriverController.UpdateDriverStatus | controllers/driver.controller.js:243-258 | no caller id answers 400; otherwise only the caller's availability changes, and only when a value was sent |
| PartnerController.NewPartner | controllers/partner.controller.js:69-76 | the partner carries the sent fields, with empty fleet and drivers, no photo, no refresh token and terms not accepted |
| PartnerController.RegisterPartner | controllers/partner.controller.js:28-105 | missing fields answer 401 and a duplicate 500, each storing nothing; otherwise one partner and one "partner" login record linked to it are stored |
| PartnerController.RemovePartner | controllers/partner.controller.js:168-201 | the login record, the partner, the partner's bookings and its cars are deleted; 404 only when neither record existed, decided after the cascades |
| PartnerController.RemovalCascadesExactly | controllers/partner.controller.js:179-181 | no booking or car of the partner remains and every other one is kept unchanged |

## Findings

| source | as written | input that shows it | evidently intended | confidence | as-written member | corrected member |
|---|---|---|---|---|---|---|
| controllers/booking.controller.js:47-53 | the car's conflict filter constrains `pickUpDateTime`/`returnDateTime`, which no booking has | a stored booking of car c for days 1–3 and a request for c for days 2–4: with strictQuery off it is accepted and a second, overlapping booking is stored; with it on, a booking of c for days 10–12 refuses a request for days 20–22 | the overlap test on the stored `startDate`/`endDate` | high, not executed | BookingController.CarConflictAsWritten, BookingController.LenientQueryMissesOverlap, BookingController.StrictQueryBlocksDisjointBooking | BookingController.CarConflict, BookingController.CarOverlapBlocks |
| controllers/booking.controller.js:63-69 | the customer's conflict filter names the same absent paths | a customer with a booking for days 1–3 requests another car for days 2–4: with strictQuery off the request is accepted | the overlap test on the customer's stored `startDate`/`endDate` | high, not executed | BookingController.CustomerConflictAsWritten, BookingController.LenientQueryMissesCustomerOverlap | BookingController.CustomerConflict, BookingController.CustomerOverlapBlocks |

## Left out

- HTTP wiring (`app.js`, `routes/*.js`, `index.js` and its socket events): handlers are methods returning a `Response`. Response bodies beyond the message are not modelled; listings are returned beside the response.
- The payment webhook in `app.js`, which calls SHA-256 and base64 library code.
- Cloudinary, the temporary-file cleanup, multer and the Firebase setup: uploads and sends are parameters.
- Password hashing, JWT tokens and the login handlers: the stored password stands for its hash.
- `moment` parsing of the request dates: start and end arrive as milliseconds.
- The local-time `Date` getters and `Date#toString`: parameters of the handlers that format dates.
- The aggregation and `populate` joins, and the read-only listings by car, user, driver and id, as well as the list of all bookings: they only project fields.
- Concurrency: the check-then-insert race between a duplicate check and the insert is not modelled.
- Commented-out handlers and logging.
- The `createdAt`/`updatedAt` timestamps.
- Floating point: the exactness of `Math.ceil` on the quotient is assumed.
- Natural order: `findOneAndDelete` and `limit(4)` are taken to follow ascending id.
- A malformed id where `ObjectId.isValid` is not checked: the cast error it raises is not modelled, since ids are `Option<Id>`.
- An undefined id in the removal handlers' `findByIdAndDelete` and `deleteMany` filters is modelled as matching nothing. Mongoose may instead drop such a filter key and match every document.
- `models/driver.js` and `models/user.js` are not part of this model: driver and user fields come from the controllers, and the driver availability default is a parameter of the database.
- BookingController.CreationRejection: states the intended conflict checks, not the queries as written; CreationRejectionAsWritten states those (see "## Findings").
- BookingController.CreateBooking: writes according to the intended conflict checks; with the queries as written it would store an overlapping booking (strictQuery off) or refuse every further booking of the car (strictQuery on).
- BookingController.CarOverlapBlocks: holds for the intended check only; under the query as written with strictQuery off the overlapping request is accepted (LenientQueryMissesOverlap).
- BookingController.CustomerOverlapBlocks: holds for the intended check only; under the query as written with strictQuery off the request is accepted (LenientQueryMissesCustomerOverlap).
- Records.Car, Records.Booking: numeric fields (prices, `totalAmount`, `penalties`, mileage, year, seating capacity) are integers. Mongoose `Number` is a double, so a price of 49.5 or a rent of 1234.75 cannot be represented, and the price bands are stated for whole amounts only.
- BookingController.CustomerConflict: a caller without an id is taken to conflict with nothing.
- BookingController.UpdateBookingPaymentStatus: an absent `paymentStatus` is not modelled; the value is always a string.
- CarController.AddCar: a malformed `carDetails` JSON is not modelled. The validation message is kept only as its leading words, not the list of failing paths.
- CarController.DeleteCar: the answers "Car with id: … deleted successfully" and "Car with id: … not found" carry the id, which the model does not render as text. They are "Car deleted successfully" and "Car not found".
- CarController.UpdateCarDetails: a malformed `carDetails` JSON is not modelled, and neither is an upload field sent with more than one file, since only the first file is uploaded.
- CustomerController.RegisterCustomer: the required-field error is thrown outside the handler's `try`. The 400 assumes the framework forwards it, as Express 5 does.
- PartnerController.RegisterPartner: the required-field error is thrown outside the `try`, as for customers. Registration with a photo is not modelled: that path uses `fs` without importing it and fails with a reference error.
- DriverController.RegisterDriver: errors are forwarded as their message string, so their status is the framework's 500. The message of an upload error is a parameter.
