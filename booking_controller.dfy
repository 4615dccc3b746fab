/** The booking handlers: creation with its conflict checks, the payment,
    partner and driver status updates, driver assignment, deletion by driver
    and the by-partner listing. Each handler answers with a `Response`; the
    ones that push also return the messages they sent, in order. */
module BookingController {
  import opened Common
  import opened Records
  import opened Store
  import opened PushService
  import opened DateFormat
  import NotificationController

  // ------------------------------------------------------------ conflict checks

  /** The conflict filter of `createBooking`, applied to a stored booking
      `[s, e]` and the requested interval `[start, end]`. For a stored booking
      whose start is not after its end it is plain closed-interval
      intersection. */
  function Overlaps(s: int, e: int, start: int, end: int): (r: bool)
    ensures s <= e ==> (r <==> s <= end && start <= e)
  {
    (s <= end && e >= start) || (s >= start && e <= end)
  }

  /** The second disjunct is not redundant in general: a stored booking whose
      end precedes its start can conflict although the intervals, read as
      start to end, do not intersect. */
  lemma SecondDisjunctCanMatter()
    ensures exists s, e, start, end :: Overlaps(s, e, start, end) && !(s <= end && start <= e)
  {
    assert Overlaps(10, 1, 0, 5);
  }

  /** The intended car conflict: some stored booking of the car overlaps the
      requested interval. When every stored booking starts no later than it
      ends, this is closed-interval intersection. */
  function CarConflict(bookings: map<Id, Booking>, carId: Id, start: int, end: int): (r: bool)
    ensures (forall k :: k in bookings ==> bookings[k].startDate <= bookings[k].endDate) ==>
              (r <==> exists k :: k in bookings && bookings[k].carId == carId
                                  && bookings[k].startDate <= end && start <= bookings[k].endDate)
  {
    exists k :: k in bookings && bookings[k].carId == carId
                && Overlaps(bookings[k].startDate, bookings[k].endDate, start, end)
  }

  /** The intended customer conflict: some stored booking of the customer
      overlaps the requested interval. Without a caller id nothing matches,
      since every stored booking has a customer. */
  function CustomerConflict(bookings: map<Id, Booking>, customerId: Option<Id>, start: int, end: int): (r: bool)
    ensures customerId.None? ==> !r
    ensures (forall k :: k in bookings ==> bookings[k].startDate <= bookings[k].endDate) ==>
              (r <==> customerId.Some? &&
                      exists k :: k in bookings && bookings[k].customerId == customerId.value
                                  && bookings[k].startDate <= end && start <= bookings[k].endDate)
  {
    customerId.Some? &&
    exists k :: k in bookings && bookings[k].customerId == customerId.value
                && Overlaps(bookings[k].startDate, bookings[k].endDate, start, end)
  }

  /** The car's conflict query as `createBooking` writes it. Its range
      conditions name `pickUpDateTime` and `returnDateTime`, which no booking
      has: the schema stores `startDate` and `endDate`. With Mongoose's
      `strictQuery` off, a range condition on a path a document lacks matches
      nothing, so no booking conflicts. With it on, the unknown paths are
      dropped, the `$or` is left with two empty conditions, and every booking
      of the car conflicts whatever its dates. */
  function CarConflictAsWritten(bookings: map<Id, Booking>, carId: Id, start: int, end: int, strictQuery: bool)
    : (r: bool)
    ensures !strictQuery ==> !r
    ensures strictQuery && CarConflict(bookings, carId, start, end) ==> r
  {
    strictQuery && exists k :: k in bookings && bookings[k].carId == carId
  }

  /** The customer's conflict query as written, with the same two readings. */
  function CustomerConflictAsWritten(bookings: map<Id, Booking>, customerId: Option<Id>, start: int, end: int,
                                     strictQuery: bool): (r: bool)
    ensures !strictQuery ==> !r
    ensures strictQuery && CustomerConflict(bookings, customerId, start, end) ==> r
    ensures customerId.None? ==> !r
  {
    strictQuery && customerId.Some? && exists k :: k in bookings && bookings[k].customerId == customerId.value
  }

  // ------------------------------------------------------------ creation

  /** The body of a creation request. Dates are already parsed to milliseconds;
      an absent number is `None`, an absent string is empty. */
  datatype BookingRequest = BookingRequest(
    carId: Option<Id>,
    isDriverRequired: bool,
    partnerId: Option<Id>,
    pickUpLocation: string,
    returnLocation: string,
    durationInHours: Option<int>,
    start: int,
    end: int,
    totalRent: Option<int>)

  const CarNotFound: Response := Response(404, "Car not found")
  const PartnerNotFound: Response := Response(404, "Partner not found")
  const CarBusy: Response := Response(400, "Car is already booked during the specified time. Please choose another time.")
  const CustomerBusy: Response := Response(400, "You already have a booking during the specified time. Please choose another time.")
  const CreateFailed: Response := Response(500, "Failed to create booking")
  const BookingCreated: Response := Response(201, "Booking created and sent to partner for approval")

  /** The checks that run before anything is written, in their order: the
      first one that fails decides the answer. */
  function CreationRejection(s: State, customerId: Option<Id>, req: BookingRequest): (r: Option<Response>)
    ensures r == Some(CarNotFound) <==> !Found(s.cars, req.carId)
    ensures r == Some(PartnerNotFound) <==> Found(s.cars, req.carId) && !Found(s.partners, req.partnerId)
    ensures r == Some(CarBusy) <==>
              && Found(s.cars, req.carId) && Found(s.partners, req.partnerId)
              && CarConflict(s.bookings, req.carId.value, req.start, req.end)
    ensures r == Some(CustomerBusy) <==>
              && Found(s.cars, req.carId) && Found(s.partners, req.partnerId)
              && !CarConflict(s.bookings, req.carId.value, req.start, req.end)
              && CustomerConflict(s.bookings, customerId, req.start, req.end)
    ensures r.None? || r == Some(CarNotFound) || r == Some(PartnerNotFound) || r == Some(CarBusy) || r == Some(CustomerBusy)
  {
    if !Found(s.cars, req.carId) then Some(CarNotFound)
    else if !Found(s.partners, req.partnerId) then Some(PartnerNotFound)
    else if CarConflict(s.bookings, req.carId.value, req.start, req.end) then Some(CarBusy)
    else if CustomerConflict(s.bookings, customerId, req.start, req.end) then Some(CustomerBusy)
    else None
  }

  /** The checks of `createBooking` with the conflict queries as written. The
      lookups agree with `CreationRejection`; with `strictQuery` off no request
      is ever refused for a conflict, and with it on any stored booking of the
      car refuses it. */
  function CreationRejectionAsWritten(s: State, customerId: Option<Id>, req: BookingRequest, strictQuery: bool)
    : (r: Option<Response>)
    ensures !Found(s.cars, req.carId) || !Found(s.partners, req.partnerId) ==> r == CreationRejection(s, customerId, req)
    ensures !strictQuery ==> (r.None? <==> Found(s.cars, req.carId) && Found(s.partners, req.partnerId))
    ensures strictQuery && Found(s.cars, req.carId) && Found(s.partners, req.partnerId) ==>
              (r == Some(CarBusy) <==> exists k :: k in s.bookings && s.bookings[k].carId == req.carId.value)
  {
    if !Found(s.cars, req.carId) then Some(CarNotFound)
    else if !Found(s.partners, req.partnerId) then Some(PartnerNotFound)
    else if CarConflictAsWritten(s.bookings, req.carId.value, req.start, req.end, strictQuery) then Some(CarBusy)
    else if CustomerConflictAsWritten(s.bookings, customerId, req.start, req.end, strictQuery) then Some(CustomerBusy)
    else None
  }

  /** Whether `save()` accepts the new booking: the required customer id,
      duration (the caller's `durationInHours`, checked before the hook runs),
      amount and non-empty locations are all there. */
  predicate SaveAccepted(customerId: Option<Id>, req: BookingRequest)
  {
    customerId.Some? && req.durationInHours.Some? && req.totalRent.Some?
    && Present(req.pickUpLocation) && Present(req.returnLocation)
  }

  /** The booking as stored: the request's fields, the caller as customer, the
      schema defaults, and the duration in days that the hook derives from the
      dates in place of the caller's number. */
  function SavedBooking(customerId: Id, carId: Id, req: BookingRequest): (b: Booking)
    requires req.durationInHours.Some? && req.totalRent.Some?
    ensures b.customerId == customerId && b.carId == carId && b.partnerId == req.partnerId
    ensures b.pickupLocation == req.pickUpLocation && b.dropoffLocation == req.returnLocation
    ensures b.startDate == req.start && b.endDate == req.end && b.totalAmount == req.totalRent.value
    ensures b.durationInDays == DurationInDays(req.start, req.end)
    ensures b.driverStatus == (if req.isDriverRequired then "pending" else "accepted")
    ensures b.paymentStatus == b.status == b.partnerStatus == DefaultStatus
    ensures b.driverId.None? && b.penalties == 0 && b.driverRejectionReason.None?
    ensures BookingPassesValidation(b) <==> Present(req.pickUpLocation) && Present(req.returnLocation)
  {
    var driverStatus := if req.isDriverRequired then "pending" else "accepted";
    ApplyPreSave(NewBooking(customerId, carId, req.partnerId, req.pickUpLocation, req.returnLocation,
                            req.start, req.end, req.durationInHours.value, req.totalRent.value, driverStatus))
  }

  function PartnerAlertBody(partner: Partner, car: Car): string
  {
    "Hi " + partner.fullName + ", A customer has successfully booked your car " + car.brand + " " + car.model
    + ". Please check the booking details."
  }

  const PartnerPushTitle: string := "New Car Booking Alert"

  function PartnerPushBody(partner: Partner, car: Car): string
  {
    "Hello " + partner.fullName + ", a customer has successfully booked your car " + car.brand + " " + car.model
    + ". Please check the booking details."
  }

  /** The in-app notification the partner gets for a new booking. */
  function PartnerAlert(partnerId: Id, customerId: Id, partner: Partner, car: Car, bookingId: Id): Notification
  {
    Notification(Some(partnerId), Some(customerId), "New Booking Alert", PartnerAlertBody(partner, car),
                 Some(bookingId), "partner", false)
  }

  /** `createBooking`. A failed check answers and writes nothing. On success
      exactly one booking and one partner notification are added, then the
      partner's devices are pushed; a throwing push turns the answer into 500
      but the two records stay. */
  method CreateBooking(db: Database, caller: Principal, req: BookingRequest, send: Sender)
    returns (r: Response, sent: seq<Message>)
    requires db.Valid()
    modifies db
    ensures db.Valid()
    ensures var rejection := CreationRejection(old(db.Snapshot()), caller.linkedId, req);
            rejection.Some? ==> r == rejection.value && sent == [] && db.Snapshot() == old(db.Snapshot())
    ensures CreationRejection(old(db.Snapshot()), caller.linkedId, req).None? && !SaveAccepted(caller.linkedId, req) ==>
              r == CreateFailed && sent == [] && db.Snapshot() == old(db.Snapshot())
    ensures CreationRejection(old(db.Snapshot()), caller.linkedId, req).None? && SaveAccepted(caller.linkedId, req) ==>
              var s := old(db.Snapshot());
              var id := s.nextId;
              var car := s.cars[req.carId.value];
              var partner := s.partners[req.partnerId.value];
              var push := Dispatch(Many(partner.deviceTokens), PartnerPushTitle, PartnerPushBody(partner, car),
                                   Payload(id, "OPEN_PARTNER_BOOKING_REQUEST"), send);
              && db.Snapshot() == s.(bookings := s.bookings[id := SavedBooking(caller.linkedId.value, req.carId.value, req)],
                                     notifications := s.notifications[id + 1 := PartnerAlert(req.partnerId.value, caller.linkedId.value, partner, car, id)],
                                     nextId := id + 2)
              && sent == push.1
              && r == (if push.0.Thrown? then CreateFailed else BookingCreated)
  {
    ghost var before := db.Snapshot();
    var customerId := caller.linkedId;
    if !Found(db.cars, req.carId) {
      return CarNotFound, [];
    }
    var car := db.cars[req.carId.value];
    if !Found(db.partners, req.partnerId) {
      return PartnerNotFound, [];
    }
    var partner := db.partners[req.partnerId.value];
    if CarConflict(db.bookings, req.carId.value, req.start, req.end) {
      return CarBusy, [];
    }
    if CustomerConflict(db.bookings, customerId, req.start, req.end) {
      return CustomerBusy, [];
    }
    assert CreationRejection(before, customerId, req).None?;
    if !SaveAccepted(customerId, req) {
      return CreateFailed, [];
    }
    var booking := SavedBooking(customerId.value, req.carId.value, req);
    var id := db.NewId();
    db.bookings := db.bookings[id := booking];
    assert db.Snapshot() == before.(bookings := before.bookings[id := booking], nextId := id + 1);
    var alert := NotificationController.NewNotification(db, req.partnerId, customerId, "New Booking Alert",
                                                        PartnerAlertBody(partner, car), false, "partner", Some(id));
    assert alert.Ok?;
    assert db.Snapshot() == before.(bookings := before.bookings[id := booking],
                                    notifications := before.notifications[id + 1 := PartnerAlert(req.partnerId.value, customerId.value, partner, car, id)],
                                    nextId := id + 2);
    var outcome;
    outcome, sent := SendPushNotification(Many(partner.deviceTokens), PartnerPushTitle, PartnerPushBody(partner, car),
                                          Payload(id, "OPEN_PARTNER_BOOKING_REQUEST"), send);
    r := if outcome.Thrown? then CreateFailed else BookingCreated;
  }

  /** A stored booking of the same car whose interval intersects the requested
      one blocks the creation, once the car and the partner are found. */
  lemma CarOverlapBlocks(s: State, customerId: Option<Id>, req: BookingRequest, k: Id)
    requires Found(s.cars, req.carId) && Found(s.partners, req.partnerId)
    requires k in s.bookings && s.bookings[k].carId == req.carId.value
    requires s.bookings[k].startDate <= req.end && req.start <= s.bookings[k].endDate
    ensures CreationRejection(s, customerId, req) == Some(CarBusy)
  {
    assert Overlaps(s.bookings[k].startDate, s.bookings[k].endDate, req.start, req.end);
  }

  /** Likewise a stored booking of the same customer, when the car is free. */
  lemma CustomerOverlapBlocks(s: State, customerId: Id, req: BookingRequest, k: Id)
    requires Found(s.cars, req.carId) && Found(s.partners, req.partnerId)
    requires !CarConflict(s.bookings, req.carId.value, req.start, req.end)
    requires k in s.bookings && s.bookings[k].customerId == customerId
    requires s.bookings[k].startDate <= req.end && req.start <= s.bookings[k].endDate
    ensures CreationRejection(s, Some(customerId), req) == Some(CustomerBusy)
  {
    assert Overlaps(s.bookings[k].startDate, s.bookings[k].endDate, req.start, req.end);
  }

  /** A car booked from 1 May 2024 10:00 to 3 May 2024 10:00 (UTC, in
      milliseconds) cannot be booked from 2 May 09:00 to 4 May 09:00. */
  lemma OverlappingRequestScenario(s: State, customerId: Option<Id>, req: BookingRequest, k: Id)
    requires Found(s.cars, req.carId) && Found(s.partners, req.partnerId)
    requires k in s.bookings && s.bookings[k].carId == req.carId.value
    requires s.bookings[k].startDate == 1714557600000 && s.bookings[k].endDate == 1714730400000
    requires req.start == 1714640400000 && req.end == 1714813200000
    ensures CreationRejection(s, customerId, req) == Some(CarBusy)
  {
    CarOverlapBlocks(s, customerId, req, k);
  }

  const DayMs: int := 86400000

  /** The conflict query as written, with `strictQuery` off, lets a booking of
      the car for days 1 to 3 be followed by one for days 2 to 4, which the
      intended check refuses. */
  lemma LenientQueryMissesOverlap(s: State, customerId: Option<Id>, req: BookingRequest, k: Id)
    requires Found(s.cars, req.carId) && Found(s.partners, req.partnerId)
    requires k in s.bookings && s.bookings[k].carId == req.carId.value
    requires s.bookings[k].startDate == DayMs && s.bookings[k].endDate == 3 * DayMs
    requires req.start == 2 * DayMs && req.end == 4 * DayMs
    ensures CreationRejection(s, customerId, req) == Some(CarBusy)
    ensures CreationRejectionAsWritten(s, customerId, req, false).None?
  {
    CarOverlapBlocks(s, customerId, req, k);
  }

  /** Likewise for the customer: with `strictQuery` off an overlapping booking
      of the same customer does not refuse the request. */
  lemma LenientQueryMissesCustomerOverlap(s: State, customerId: Id, req: BookingRequest, k: Id)
    requires Found(s.cars, req.carId) && Found(s.partners, req.partnerId)
    requires !CarConflict(s.bookings, req.carId.value, req.start, req.end)
    requires k in s.bookings && s.bookings[k].customerId == customerId
    requires s.bookings[k].startDate <= req.end && req.start <= s.bookings[k].endDate
    ensures CreationRejection(s, Some(customerId), req) == Some(CustomerBusy)
    ensures CreationRejectionAsWritten(s, Some(customerId), req, false).None?
  {
    CustomerOverlapBlocks(s, customerId, req, k);
  }

  /** With `strictQuery` on, a booking of the car that ended before the
      requested interval begins refuses the request, which the intended check
      lets through. */
  lemma StrictQueryBlocksDisjointBooking(s: State, customerId: Option<Id>, req: BookingRequest, k: Id)
    requires Found(s.cars, req.carId) && Found(s.partners, req.partnerId)
    requires s.bookings.Keys == {k} && s.bookings[k].carId == req.carId.value
    requires s.bookings[k].startDate <= s.bookings[k].endDate < req.start <= req.end
    ensures CreationRejection(s, customerId, req).None?
    ensures CreationRejectionAsWritten(s, customerId, req, true) == Some(CarBusy)
  {
  }

  // ------------------------------------------------------------ payment status

  const PaymentFailed: string := "Failed to update payment status"

  /** The payment update applied to one booking: the payment status is set, and
      the booking status becomes "booked" exactly when the payment is
      "completed"; nothing else changes. */
  function WithPayment(b: Booking, paymentStatus: string): (r: Booking)
    ensures r.paymentStatus == paymentStatus
    ensures paymentStatus == "completed" ==> r.status == "booked"
    ensures paymentStatus != "completed" ==> r.status == b.status
    ensures r.(paymentStatus := b.paymentStatus, status := b.status) == b
  {
    if paymentStatus == "completed" then b.(paymentStatus := paymentStatus, status := "booked")
    else b.(paymentStatus := paymentStatus)
  }

  /** `updateBookingPaymentStatus`: throws for an unknown booking and for a
      document that `save()` rejects; otherwise stores the updated booking (the
      hook runs again) and returns it. */
  method UpdateBookingPaymentStatus(db: Database, bookingId: Option<Id>, paymentStatus: string)
    returns (r: Result<Booking>)
    requires db.Valid()
    modifies db
    ensures db.Valid()
    ensures !Found(old(db.bookings), bookingId) ==>
              r == Err(PaymentFailed) && db.Snapshot() == old(db.Snapshot())
    ensures Found(old(db.bookings), bookingId) ==>
              var s := old(db.Snapshot());
              var updated := WithPayment(s.bookings[bookingId.value], paymentStatus);
              if BookingPassesValidation(updated) then
                r == Ok(ApplyPreSave(updated)) && db.Snapshot() == s.(bookings := s.bookings[bookingId.value := r.value])
              else
                r == Err(PaymentFailed) && db.Snapshot() == s
  {
    if !Found(db.bookings, bookingId) {
      return Err(PaymentFailed);
    }
    var booking := db.bookings[bookingId.value];
    booking := booking.(paymentStatus := paymentStatus);
    if paymentStatus == "completed" {
      booking := booking.(status := "booked");
    }
    if !BookingPassesValidation(booking) {
      return Err(PaymentFailed);
    }
    booking := ApplyPreSave(booking);
    db.bookings := db.bookings[bookingId.value := booking];
    r := Ok(booking);
  }

  /** On a booking that passes validation, every payment status of the enum is
      accepted. */
  lemma PaymentUpdateKeepsValidity(b: Booking, paymentStatus: string)
    requires BookingPassesValidation(b) && paymentStatus in PaymentStatuses
    ensures BookingPassesValidation(WithPayment(b, paymentStatus))
  {
  }

  // ------------------------------------------------------------ partner and driver decisions

  const UpdateFailed: Response := Response(500, "Failed to update booking")
  const BookingUpdated: Response := Response(200, "Booking updated successfully")

  /** `findByIdAndUpdate(id, { partnerStatus, status })` and
      `findByIdAndUpdate(id, { driverStatus, status })`: each sent status
      overwrites its field, an absent one is left as it is, and no validator
      runs. */
  function WithStatusUpdate(b: Booking, partnerStatus: Option<string>, driverStatus: Option<string>,
                            status: Option<string>): (r: Booking)
    ensures r.partnerStatus == OrElse(partnerStatus, b.partnerStatus)
    ensures r.driverStatus == OrElse(driverStatus, b.driverStatus)
    ensures r.status == OrElse(status, b.status)
    ensures r.(partnerStatus := b.partnerStatus, driverStatus := b.driverStatus, status := b.status) == b
  {
    b.(partnerStatus := OrElse(partnerStatus, b.partnerStatus),
       driverStatus := OrElse(driverStatus, b.driverStatus),
       status := OrElse(status, b.status))
  }

  /** `findByIdAndUpdate(id, { driverId })`. */
  function WithDriver(b: Booking, driverId: Option<Id>): (r: Booking)
    ensures r.driverId == (if driverId.Some? then driverId else b.driverId)
    ensures r.(driverId := b.driverId) == b
  {
    if driverId.Some? then b.(driverId := driverId) else b
  }

  /** The status overwrites bypass the enum: a caller can store a booking
      status outside it, after which every payment update except "completed"
      (which replaces the status with "booked") is refused by `save()`. */
  lemma StrayStatusBlocksPayment(b: Booking, status: string, paymentStatus: string)
    requires status !in BookingStatuses
    ensures !BookingPassesValidation(WithStatusUpdate(b, None, None, Some(status)))
    ensures paymentStatus != "completed" ==>
              !BookingPassesValidation(WithPayment(WithStatusUpdate(b, None, None, Some(status)), paymentStatus))
    ensures BookingPassesValidation(b) && paymentStatus == "completed" ==>
              BookingPassesValidation(WithPayment(WithStatusUpdate(b, None, None, Some(status)), paymentStatus))
  {
  }

  /** `updatePartnerStatus`: an unknown booking fails with 500 (the handler
      reads the missing document's fields before its not-found check);
      otherwise exactly `partnerStatus` and `status` of that booking change. */
  method UpdatePartnerStatus(db: Database, bookingId: Option<Id>, partnerStatus: Option<string>, status: Option<string>)
    returns (r: Response)
    requires db.Valid()
    modifies db
    ensures db.Valid()
    ensures !Found(old(db.bookings), bookingId) ==> r == UpdateFailed && db.Snapshot() == old(db.Snapshot())
    ensures Found(old(db.bookings), bookingId) ==>
              var s := old(db.Snapshot());
              && r == BookingUpdated
              && db.Snapshot() == s.(bookings := s.bookings[bookingId.value := WithStatusUpdate(s.bookings[bookingId.value], partnerStatus, None, status)])
  {
    if !Found(db.bookings, bookingId) {
      return UpdateFailed;
    }
    var id := bookingId.value;
    db.bookings := db.bookings[id := WithStatusUpdate(db.bookings[id], partnerStatus, None, status)];
    r := BookingUpdated;
  }

  // ------------------------------------------------------------ the ride notices

  const RideTitle: string := "New Ride Assignment \U{1F697}"

  /** The driver's notice; `dateText` stands for `Date#toString` of the start. */
  function RideBody(b: Booking, dateText: int -> string): string
  {
    "You have been assigned to a new ride. Pickup at " + b.pickupLocation + " and drop-off at " + b.dropoffLocation
    + ". Start time: " + dateText(b.startDate) + "."
  }

  function ConfirmTitle(driver: Driver): string
  {
    "Your Booking Confirmed ," + driver.fullName + " Assigned to Your Ride \U{1F696}"
  }

  function ConfirmBody(driver: Driver, b: Booking): string
  {
    "Your driver, " + driver.fullName + ", is on the way. Pickup at " + b.pickupLocation + ". Contact: "
    + driver.phoneNumber + ".\""
  }

  function DriverRideNotice(driverId: Id, senderId: Option<Id>, b: Booking, bookingId: Id, dateText: int -> string): Notification
  {
    Notification(Some(driverId), senderId, RideTitle, RideBody(b, dateText), Some(bookingId), "driver", false)
  }

  function CustomerRideNotice(senderId: Option<Id>, driver: Driver, b: Booking, bookingId: Id): Notification
  {
    Notification(Some(b.customerId), senderId, ConfirmTitle(driver), ConfirmBody(driver, b), Some(bookingId), "customer", false)
  }

  /** `assinDriver`. After the booking is found its driver is set, and each
      later step that fails ends with 500 while everything written so far
      stays: a missing driver, a missing caller id (the first notification
      throws), a throwing push to the driver, a missing customer, a throwing
      push to the customer. Notifications go to the driver first, then the
      customer. */
  method AssignDriver(db: Database, caller: Principal, bookingId: Option<Id>, driverId: Option<Id>,
                      dateText: int -> string, send: Sender)
    returns (r: Response, sent: seq<Message>)
    requires db.Valid()
    modifies db
    ensures db.Valid()
    ensures !Found(old(db.bookings), bookingId) ==>
              r == UpdateFailed && sent == [] && db.Snapshot() == old(db.Snapshot())
    ensures Found(old(db.bookings), bookingId) ==>
              var s := old(db.Snapshot());
              var id := bookingId.value;
              var b := WithDriver(s.bookings[id], driverId);
              var afterUpdate := s.(bookings := s.bookings[id := b]);
              if !Found(s.drivers, driverId) || caller.linkedId.None? then
                r == UpdateFailed && sent == [] && db.Snapshot() == afterUpdate
              else
                var driver := s.drivers[driverId.value];
                var toDriver := Dispatch(Many(driver.deviceTokens), RideTitle, RideBody(b, dateText),
                                         Payload(id, "OPEN_DRIVER_BOOKING_REQUEST"), send);
                && db.Snapshot() == afterUpdate.(notifications := s.notifications[s.nextId := DriverRideNotice(driverId.value, caller.linkedId, b, id, dateText)]
                                                                             [s.nextId + 1 := CustomerRideNotice(caller.linkedId, driver, b, id)],
                                              nextId := s.nextId + 2)
                && (toDriver.0.Thrown? || b.customerId !in s.customers ==> r == UpdateFailed && sent == toDriver.1)
                && (!toDriver.0.Thrown? && b.customerId in s.customers ==>
                      var toCustomer := Dispatch(Many(s.customers[b.customerId].deviceTokens), ConfirmTitle(driver), ConfirmBody(driver, b),
                                                 Payload(id, "CUSTOMER_CONFIRMED_NOTIFICATION"), send);
                      && sent == toDriver.1 + toCustomer.1
                      && r == (if toCustomer.0.Thrown? then UpdateFailed else BookingUpdated))
  {
    if !Found(db.bookings, bookingId) {
      return UpdateFailed, [];
    }
    var id := bookingId.value;
    var booking := WithDriver(db.bookings[id], driverId);
    db.bookings := db.bookings[id := booking];
    if !Found(db.drivers, driverId) {
      return UpdateFailed, [];
    }
    var driver := db.drivers[driverId.value];
    var first := NotificationController.NewNotification(db, driverId, caller.linkedId, RideTitle, RideBody(booking, dateText),
                                                        false, "driver", bookingId);
    if first.Err? {
      return UpdateFailed, [];
    }
    var second := NotificationController.NewNotification(db, Some(booking.customerId), caller.linkedId, ConfirmTitle(driver),
                                                         ConfirmBody(driver, booking), false, "customer", bookingId);
    assert second.Ok?;
    var toDriver;
    toDriver, sent := SendPushNotification(Many(driver.deviceTokens), RideTitle, RideBody(booking, dateText),
                                           Payload(id, "OPEN_DRIVER_BOOKING_REQUEST"), send);
    if toDriver.Thrown? || booking.customerId !in db.customers {
      return UpdateFailed, sent;
    }
    var customer := db.customers[booking.customerId];
    var toCustomer, more := SendPushNotification(Many(customer.deviceTokens), ConfirmTitle(driver), ConfirmBody(driver, booking),
                                                 Payload(id, "CUSTOMER_CONFIRMED_NOTIFICATION"), send);
    sent := sent + more;
    r := if toCustomer.Thrown? then UpdateFailed else BookingUpdated;
  }

  /** `updateDriverStatus` (booking side): exactly `driverStatus` and `status`
      change; the driver is the caller. A missing driver, a missing customer
      or a throwing push ends with 500 and keeps what was written. Only the
      customer is notified. */
  method UpdateDriverStatus(db: Database, caller: Principal, bookingId: Option<Id>, driverStatus: Option<string>,
                            status: Option<string>, send: Sender)
    returns (r: Response, sent: seq<Message>)
    requires db.Valid()
    modifies db
    ensures db.Valid()
    ensures !Found(old(db.bookings), bookingId) ==>
              r == UpdateFailed && sent == [] && db.Snapshot() == old(db.Snapshot())
    ensures Found(old(db.bookings), bookingId) ==>
              var s := old(db.Snapshot());
              var id := bookingId.value;
              var b := WithStatusUpdate(s.bookings[id], None, driverStatus, status);
              var decided := s.(bookings := s.bookings[id := b]);
              if !Found(s.drivers, caller.linkedId) then
                r == UpdateFailed && sent == [] && db.Snapshot() == decided
              else
                var driver := s.drivers[caller.linkedId.value];
                && db.Snapshot() == decided.(notifications := s.notifications[s.nextId := CustomerRideNotice(caller.linkedId, driver, b, id)],
                                             nextId := s.nextId + 1)
                && (b.customerId !in s.customers ==> r == UpdateFailed && sent == [])
                && (b.customerId in s.customers ==>
                      var toCustomer := Dispatch(Many(s.customers[b.customerId].deviceTokens), ConfirmTitle(driver), ConfirmBody(driver, b),
                                                 Payload(id, "CUSTOMER_CONFIRMED_NOTIFICATION"), send);
                      && sent == toCustomer.1
                      && r == (if toCustomer.0.Thrown? then UpdateFailed else BookingUpdated))
  {
    if !Found(db.bookings, bookingId) {
      return UpdateFailed, [];
    }
    var id := bookingId.value;
    var booking := WithStatusUpdate(db.bookings[id], None, driverStatus, status);
    db.bookings := db.bookings[id := booking];
    if !Found(db.drivers, caller.linkedId) {
      return UpdateFailed, [];
    }
    var driver := db.drivers[caller.linkedId.value];
    var notice := NotificationController.NewNotification(db, Some(booking.customerId), caller.linkedId, ConfirmTitle(driver),
                                                         ConfirmBody(driver, booking), false, "customer", bookingId);
    assert notice.Ok?;
    if booking.customerId !in db.customers {
      return UpdateFailed, [];
    }
    var customer := db.customers[booking.customerId];
    var toCustomer;
    toCustomer, sent := SendPushNotification(Many(customer.deviceTokens), ConfirmTitle(driver), ConfirmBody(driver, booking),
                                             Payload(id, "CUSTOMER_CONFIRMED_NOTIFICATION"), send);
    r := if toCustomer.Thrown? then UpdateFailed else BookingUpdated;
  }

  // ------------------------------------------------------------ deletion by driver

  /** The booking `findOneAndDelete({ driverId })` picks: the first in id
      order. */
  method FirstBookingOfDriver(db: Database, driverId: Id) returns (k: Option<Id>)
    requires db.Valid()
    ensures k.Some? ==> k.value in db.bookings && db.bookings[k.value].driverId == Some(driverId)
    ensures k.Some? ==> forall j :: j in db.bookings && j < k.value ==> db.bookings[j].driverId != Some(driverId)
    ensures k.None? ==> forall j :: j in db.bookings ==> db.bookings[j].driverId != Some(driverId)
  {
    var i := 0;
    while i < db.nextId
      invariant i <= db.nextId
      invariant forall j :: j in db.bookings && j < i ==> db.bookings[j].driverId != Some(driverId)
    {
      if i in db.bookings && db.bookings[i].driverId == Some(driverId) {
        return Some(i);
      }
      i := i + 1;
    }
    return None;
  }

  /** `deleteBookingById`, whose path parameter is a driver id: 400 for a
      malformed id, 404 with nothing removed when no booking has that driver,
      otherwise exactly one such booking is removed. */
  method DeleteBookingById(db: Database, driverId: RawId) returns (r: Response)
    requires db.Valid()
    modifies db
    ensures db.Valid()
    ensures driverId.Malformed? ==>
              r == Response(400, "Invalid Booking ID format") && db.Snapshot() == old(db.Snapshot())
    ensures driverId.WellFormed? && (forall j :: j in old(db.bookings) ==> old(db.bookings)[j].driverId != Some(driverId.id)) ==>
              r == Response(404, "Booking not found with the provided ID") && db.Snapshot() == old(db.Snapshot())
    ensures driverId.WellFormed? && (exists j :: j in old(db.bookings) && old(db.bookings)[j].driverId == Some(driverId.id)) ==>
              var s := old(db.Snapshot());
              && r == Response(200, "Booking deleted successfully")
              && exists k :: k in s.bookings && s.bookings[k].driverId == Some(driverId.id)
                             && (forall j :: j in s.bookings && j < k ==> s.bookings[j].driverId != Some(driverId.id))
                             && db.Snapshot() == s.(bookings := s.bookings - {k})
  {
    if driverId.Malformed? {
      return Response(400, "Invalid Booking ID format");
    }
    var k := FirstBookingOfDriver(db, driverId.id);
    if k.None? {
      return Response(404, "Booking not found with the provided ID");
    }
    db.bookings := db.bookings - {k.value};
    r := Response(200, "Booking deleted successfully");
  }

  // ------------------------------------------------------------ listing by partner

  /** How many bookings the by-partner listing returns at most. */
  const ListingLimit: nat := 4

  /** A booking as the listing returns it: the document with both dates
      replaced by their formatted text. */
  datatype ListedBooking = ListedBooking(id: Id, booking: Booking, startDate: string, endDate: string)

  function Listed(id: Id, b: Booking, dates: int -> DateParts): ListedBooking
  {
    ListedBooking(id, b, FormatDate(dates(b.startDate)), FormatDate(dates(b.endDate)))
  }

  /** The ids below `n` of the partner's bookings, in increasing order. */
  function PartnerBookingIds(bookings: map<Id, Booking>, partnerId: Id, n: nat): (ids: seq<Id>)
    ensures forall i :: 0 <= i < |ids| ==> ids[i] < n && ids[i] in bookings && bookings[ids[i]].partnerId == Some(partnerId)
    ensures forall i, j :: 0 <= i < j < |ids| ==> ids[i] < ids[j]
    decreases n
  {
    if n == 0 then []
    else
      var earlier := PartnerBookingIds(bookings, partnerId, n - 1);
      if n - 1 in bookings && bookings[n - 1].partnerId == Some(partnerId) then earlier + [n - 1] else earlier
  }

  /** Every booking of the partner below `n` is listed. */
  lemma {:induction false} PartnerBookingIdsComplete(bookings: map<Id, Booking>, partnerId: Id, n: nat, k: Id)
    requires k < n && k in bookings && bookings[k].partnerId == Some(partnerId)
    ensures k in PartnerBookingIds(bookings, partnerId, n)
    decreases n
  {
    if k < n - 1 {
      PartnerBookingIdsComplete(bookings, partnerId, n - 1, k);
    }
  }

  /** Scanning further only appends. */
  lemma {:induction false} PartnerBookingIdsPrefix(bookings: map<Id, Booking>, partnerId: Id, m: nat, n: nat)
    requires m <= n
    ensures PartnerBookingIds(bookings, partnerId, m) <= PartnerBookingIds(bookings, partnerId, n)
    decreases n
  {
    if m < n {
      PartnerBookingIdsPrefix(bookings, partnerId, m, n - 1);
    }
  }

  const NoBookings: Response := Response(404, "No Bookings Found!")

  /** The scan behind the listing's `limit(4)`: the first bookings of the
      partner below `n`, in id order, at most four of them; each is then
      mapped to its listed form. */
  method FirstPartnerBookings(bookings: map<Id, Booking>, partnerId: Id, n: nat, dates: int -> DateParts)
    returns (listing: seq<ListedBooking>)
    ensures var ids := PartnerBookingIds(bookings, partnerId, n);
            && |listing| == (if |ids| < ListingLimit then |ids| else ListingLimit)
            && (forall i :: 0 <= i < |listing| ==> listing[i] == Listed(ids[i], bookings[ids[i]], dates))
  {
    ghost var all := PartnerBookingIds(bookings, partnerId, n);
    var ids: seq<Id> := [];
    var i := 0;
    while i < n && |ids| < ListingLimit
      invariant i <= n
      invariant ids == PartnerBookingIds(bookings, partnerId, i)
      invariant ids <= all
      invariant |ids| <= ListingLimit
    {
      PartnerBookingIdsPrefix(bookings, partnerId, i + 1, n);
      if i in bookings && bookings[i].partnerId == Some(partnerId) {
        ids := ids + [i];
      }
      i := i + 1;
    }
    listing := seq(|ids|, j requires 0 <= j < |ids| => Listed(ids[j], bookings[ids[j]], dates));
  }

  /** `getBookingByPartner`: the first four of the caller's bookings in id order,
      dates formatted; 400 without a caller id, 404 when there are none. */
  method BookingsByPartner(db: Database, caller: Principal, dates: int -> DateParts)
    returns (r: Response, listing: seq<ListedBooking>)
    ensures caller.linkedId.None? ==> r == Response(400, "Invalid or missing PartnerId") && listing == []
    ensures caller.linkedId.Some? ==>
              var ids := PartnerBookingIds(db.bookings, caller.linkedId.value, db.nextId);
              && |listing| == (if |ids| < ListingLimit then |ids| else ListingLimit)
              && (forall i :: 0 <= i < |listing| ==> listing[i] == Listed(ids[i], db.bookings[ids[i]], dates))
              && (listing == [] ==> r == NoBookings)
              && (listing != [] ==> r == Response(200, "All Bookings Fetched"))
  {
    if caller.linkedId.None? {
      return Response(400, "Invalid or missing PartnerId"), [];
    }
    listing := FirstPartnerBookings(db.bookings, caller.linkedId.value, db.nextId, dates);
    if listing == [] {
      r := NoBookings;
    } else {
      r := Response(200, "All Bookings Fetched");
    }
  }
}
