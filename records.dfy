/** The documents of the seven collections, with the schema rules that `save()`
    enforces: required fields, enum domains, defaults, and the booking schema's
    pre-save hook that derives `durationInDays`. Timestamps are integer
    milliseconds. */
module Records {
  import opened Common

  // ---------------------------------------------------------------- Booking

  /** Milliseconds in a day: 1000 * 60 * 60 * 24. */
  const Day: int := 86400000

  const PaymentStatuses: set<string> := {"pending", "completed", "refunded"}
  const BookingStatuses: set<string> := {"pending", "ongoing", "booked", "completed", "cancelled"}
  const PartnerStatuses: set<string> := {"pending", "confirmed", "rejected"}
  const DriverStatuses: set<string> := {"pending", "accepted", "rejected"}

  /** The default of every status field of a new booking. */
  const DefaultStatus: string := "pending"

  /** A booking document. The four status fields are strings rather than enums
      because updates through `findByIdAndUpdate` bypass the schema's enum
      validators and may store any value. */
  datatype Booking = Booking(
    customerId: Id,
    carId: Id,
    driverId: Option<Id>,
    partnerId: Option<Id>,
    pickupLocation: string,
    dropoffLocation: string,
    startDate: int,
    endDate: int,
    durationInDays: int,
    totalAmount: int,
    paymentStatus: string,
    status: string,
    penalties: int,
    partnerStatus: string,
    driverStatus: string,
    driverRejectionReason: Option<string>)

  /** What schema validation demands of a booking before it is written: the
      required strings are non-empty and each status lies in its enum. (The
      required ids, dates and numbers are always present in this model.) */
  predicate BookingPassesValidation(b: Booking)
  {
    && Present(b.pickupLocation)
    && Present(b.dropoffLocation)
    && b.paymentStatus in PaymentStatuses
    && b.status in BookingStatuses
    && b.partnerStatus in PartnerStatuses
    && b.driverStatus in DriverStatuses
  }

  /** `Math.ceil((endDate - startDate) / Day)`, the whole number of days an
      interval spans, rounded up. */
  function DurationInDays(startDate: int, endDate: int): (d: int)
    ensures (d - 1) * Day < endDate - startDate <= d * Day
  {
    -((startDate - endDate) / Day)
  }

  /** The bounds in DurationInDays's contract determine it: no other number of
      days satisfies them. */
  lemma DurationIsUnique(startDate: int, endDate: int, d: int)
    requires (d - 1) * Day < endDate - startDate <= d * Day
    ensures d == DurationInDays(startDate, endDate)
  {
    var e := DurationInDays(startDate, endDate);
    assert (e - 1) * Day < d * Day && (d - 1) * Day < e * Day;
  }

  /** The pre-save hook: whatever the caller put in `durationInDays`, the stored
      value is derived from the two dates (which a saved booking always has). */
  function ApplyPreSave(b: Booking): (r: Booking)
    ensures r.durationInDays == DurationInDays(b.startDate, b.endDate)
    ensures r.(durationInDays := b.durationInDays) == b
  {
    b.(durationInDays := DurationInDays(b.startDate, b.endDate))
  }

  /** Running the hook twice stores the same document as running it once. */
  lemma PreSaveIdempotent(b: Booking)
    ensures ApplyPreSave(ApplyPreSave(b)) == ApplyPreSave(b)
  {
  }

  /** A new booking document: the caller's fields plus the schema defaults
      (every status "pending", no penalties, no driver, no rejection reason). */
  function NewBooking(customerId: Id, carId: Id, partnerId: Option<Id>,
                      pickupLocation: string, dropoffLocation: string,
                      startDate: int, endDate: int, durationInDays: int,
                      totalAmount: int, driverStatus: string): (b: Booking)
    ensures b.driverId.None? && b.penalties == 0 && b.driverRejectionReason.None?
    ensures b.paymentStatus == b.status == b.partnerStatus == DefaultStatus
    ensures driverStatus in DriverStatuses ==>
              (BookingPassesValidation(b) <==> Present(pickupLocation) && Present(dropoffLocation))
  {
    Booking(customerId, carId, None, partnerId, pickupLocation, dropoffLocation,
            startDate, endDate, durationInDays, totalAmount,
            DefaultStatus, DefaultStatus, 0, DefaultStatus, driverStatus, None)
  }

  // ---------------------------------------------------------------- Car

  /** The fixed coordinates every new car gets (longitude/latitude pair as
      written in the handler). */
  const DefaultCoordinates: seq<real> := [12.9716, 77.5946]

  const CarAvailabilities: set<string> := {"available", "unavailable", "in_maintenance"}

  /** Document images. A slot is `None` where the stored array has a hole or an
      `undefined` entry. */
  datatype Docs = Docs(
    ownerDoc: seq<Option<string>>,
    carDoc: seq<Option<string>>,
    vehiclelic: seq<Option<string>>,
    bankPass: Option<string>)

  datatype Car = Car(
    brand: string,
    model: string,
    year: int,
    seats: int,
    fuelType: string,
    pricePerDay: int,
    registrationNumber: string,
    mileage: Option<int>,
    color: string,
    description: string,
    availabilityStatus: string,
    coordinates: seq<real>,
    features: seq<string>,
    images: seq<Option<string>>,
    docs: Docs,
    partnerId: Option<Id>,
    pickupLocation: string,
    dropoffLocation: string,
    category: string,
    subCategory: string,
    transmissionType: string)

  /** Schema validation of a car: the required strings are non-empty (an
      empty string fails a required String path), the owner is set and the
      availability lies in its enum. Required numbers are always present here. */
  predicate CarPassesValidation(c: Car)
  {
    && Present(c.brand) && Present(c.model) && Present(c.fuelType)
    && Present(c.pickupLocation) && Present(c.dropoffLocation)
    && Present(c.category) && Present(c.subCategory)
    && c.partnerId.Some?
    && c.availabilityStatus in CarAvailabilities
  }

  // ---------------------------------------------------------------- Notification

  datatype Notification = Notification(
    receiverId: Option<Id>,
    senderId: Option<Id>,
    title: string,
    body: string,
    bookingId: Option<Id>,
    kind: string,
    isRead: bool)

  /** title, body and type are required by the schema; the ids are not. */
  predicate NotificationPassesValidation(n: Notification)
  {
    Present(n.title) && Present(n.body) && Present(n.kind)
  }

  // ---------------------------------------------------------------- Accounts

  datatype Identification = Identification(
    idType: Option<string>,
    idNumber: Option<string>,
    idImages: seq<Option<string>>)

  const IdTypes: seq<string> := ["Passport", "National ID"]

  datatype Customer = Customer(
    fullName: string,
    email: string,
    password: string,
    phoneNumber: string,
    address: Option<string>,
    imgUrl: Option<string>,
    bookingHistory: seq<Id>,
    identification: Option<Identification>,
    deviceTokens: seq<string>)

  /** The driver schema is not part of this model; these are the fields the
      driver handlers read and write. */
  datatype Driver = Driver(
    fullName: string,
    email: string,
    phoneNumber: string,
    password: string,
    address: string,
    licenseNumber: string,
    licenseExpiryDate: string,
    licenseFrontImgUrl: Option<string>,
    licenseBackImgUrl: Option<string>,
    imgUrl: Option<string>,
    availabilityStatus: bool,
    deviceTokens: seq<string>)

  datatype Partner = Partner(
    fullName: string,
    email: string,
    phoneNumber: string,
    address: string,
    password: string,
    fleet: seq<Id>,
    drivers: seq<Id>,
    imgUrl: Option<string>,
    refreshToken: Option<string>,
    termsAccepted: bool,
    deviceTokens: seq<string>)

  /** A login record. The user schema is not part of this model; these are the
      fields the registration handlers write. */
  datatype User = User(email: string, password: string, role: string, linkedId: Id)

  /** `User.findOne({ email })` finds a login record. */
  predicate EmailInUse(users: map<Id, User>, email: string)
  {
    exists k :: k in users && users[k].email == email
  }

  /** No two login records share an email. */
  predicate UniqueUserEmails(users: map<Id, User>)
  {
    forall a, b :: a in users && b in users && users[a].email == users[b].email ==> a == b
  }

  /** The duplicate check before a registration keeps emails unique: adding a
      login record under a fresh id and an unused email. */
  lemma RegistrationKeepsEmailsUnique(users: map<Id, User>, id: Id, u: User)
    requires UniqueUserEmails(users) && !EmailInUse(users, u.email) && id !in users
    ensures UniqueUserEmails(users[id := u])
  {
    var after := users[id := u];
    forall a, b | a in after && b in after && after[a].email == after[b].email
      ensures a == b
    {
      if a != id && b != id {
        assert users[a].email == users[b].email;
      }
    }
  }
}
