/** The driver handlers: registration, the list of available drivers, account
    removal with its cascade over bookings, and the driver's own
    availability switch. Registration errors are passed on as their message
    alone, which the framework answers with status 500. */
module DriverController {
  import opened Common
  import opened Records
  import opened Store

  const AlreadyRegistered: string := "Email or phone number already registered"
  const FieldsRequired: string := "All Fields are required"

  /** The duplicate check: a driver with the same email or phone number, or a
      login record with the same email. */
  predicate DriverTaken(drivers: map<Id, Driver>, users: map<Id, User>, email: string, phoneNumber: string)
  {
    || (exists k :: k in drivers && (drivers[k].email == email || drivers[k].phoneNumber == phoneNumber))
    || EmailInUse(users, email)
  }

  /** The six fields registration demands. */
  predicate RegistrationComplete(fullName: string, email: string, phoneNumber: string, password: string,
                                 licenseNumber: string, licenseExpiryDate: string)
  {
    Present(fullName) && Present(email) && Present(phoneNumber) && Present(password)
    && Present(licenseNumber) && Present(licenseExpiryDate)
  }

  /** The URL of an optional upload that did not fail. */
  function UploadedUrl(upload: Option<Result<string>>): Option<string>
  {
    if upload.Some? && upload.value.Ok? then Some(upload.value.value) else None
  }

  /** The driver a registration stores: the license photos that were sent, no
      profile photo, the schema's default availability. */
  function NewDriver(fullName: string, email: string, phoneNumber: string, password: string, address: string,
                     licenseNumber: string, licenseExpiryDate: string, front: Option<string>, back: Option<string>,
                     available: bool): (d: Driver)
    ensures d.fullName == fullName && d.email == email && d.phoneNumber == phoneNumber && d.password == password
    ensures d.licenseNumber == licenseNumber && d.licenseExpiryDate == licenseExpiryDate && d.address == address
    ensures d.licenseFrontImgUrl == front && d.licenseBackImgUrl == back && d.imgUrl.None?
    ensures d.availabilityStatus == available && d.deviceTokens == []
  {
    Driver(fullName, email, phoneNumber, password, address, licenseNumber, licenseExpiryDate, front, back, None, available, [])
  }

  /** `registerDriver`: the fields, then duplicates, then the front and the back
      license uploads; any failure stores nothing. On success one driver and
      one login record with role "driver" pointing at it are stored. */
  method RegisterDriver(db: Database, fullName: string, email: string, phoneNumber: string, password: string,
                        address: string, licenseNumber: string, licenseExpiryDate: string,
                        licenseFront: Option<Result<string>>, licenseBack: Option<Result<string>>)
    returns (r: Response)
    requires db.Valid()
    modifies db
    ensures db.Valid()
    ensures !RegistrationComplete(fullName, email, phoneNumber, password, licenseNumber, licenseExpiryDate) ==>
              r == Response(500, FieldsRequired) && db.Snapshot() == old(db.Snapshot())
    ensures RegistrationComplete(fullName, email, phoneNumber, password, licenseNumber, licenseExpiryDate) ==>
              var s := old(db.Snapshot());
              if DriverTaken(s.drivers, s.users, email, phoneNumber) then
                r == Response(500, AlreadyRegistered) && db.Snapshot() == s
              else if licenseFront.Some? && licenseFront.value.Err? then
                r == Response(500, licenseFront.value.error) && db.Snapshot() == s
              else if licenseBack.Some? && licenseBack.value.Err? then
                r == Response(500, licenseBack.value.error) && db.Snapshot() == s
              else
                var d := NewDriver(fullName, email, phoneNumber, password, address, licenseNumber, licenseExpiryDate,
                                   UploadedUrl(licenseFront), UploadedUrl(licenseBack), db.driverAvailabilityDefault);
                && r == Response(201, "Driver registered successfully")
                && db.Snapshot() == s.(drivers := s.drivers[s.nextId := d],
                                       users := s.users[s.nextId + 1 := User(email, password, "driver", s.nextId)],
                                       nextId := s.nextId + 2)
  {
    if !RegistrationComplete(fullName, email, phoneNumber, password, licenseNumber, licenseExpiryDate) {
      return Response(500, FieldsRequired);
    }
    if DriverTaken(db.drivers, db.users, email, phoneNumber) {
      return Response(500, AlreadyRegistered);
    }
    if licenseFront.Some? && licenseFront.value.Err? {
      return Response(500, licenseFront.value.error);
    }
    if licenseBack.Some? && licenseBack.value.Err? {
      return Response(500, licenseBack.value.error);
    }
    ghost var before := db.Snapshot();
    var d := NewDriver(fullName, email, phoneNumber, password, address, licenseNumber, licenseExpiryDate,
                       UploadedUrl(licenseFront), UploadedUrl(licenseBack), db.driverAvailabilityDefault);
    var driverId := db.NewId();
    var userId := db.NewId();
    db.drivers := db.drivers[driverId := d];
    db.users := db.users[userId := User(email, password, "driver", driverId)];
    assert db.Snapshot() == before.(drivers := before.drivers[driverId := d],
                                    users := before.users[userId := User(email, password, "driver", driverId)],
                                    nextId := driverId + 2);
    r := Response(201, "Driver registered successfully");
  }

  /** `getAllDrivers`: exactly the available drivers, 404 when there are none. */
  method GetAllDrivers(db: Database) returns (r: Response, found: map<Id, Driver>)
    ensures forall k :: k in found <==> k in db.drivers && db.drivers[k].availabilityStatus
    ensures forall k :: k in found ==> found[k] == db.drivers[k]
    ensures found == map[] ==> r == Response(404, "No drivers found")
    ensures found != map[] ==> r == Response(201, "driver found Successfully")
  {
    found := map k | k in db.drivers && db.drivers[k].availabilityStatus :: db.drivers[k];
    if found == map[] {
      r := Response(404, "No drivers found");
    } else {
      r := Response(201, "driver found Successfully");
    }
  }

  /** True of a booking assigned to the driver `driverId`. */
  predicate BookingOfDriver(driverId: Option<Id>, b: Booking)
  {
    driverId.Some? && b.driverId == driverId
  }

  /** `removeDriver`: the login record, the driver and the driver's bookings are
      deleted in that order; only afterwards is the 404 decided, when neither
      the login record nor the driver existed. */
  method RemoveDriver(db: Database, caller: Principal) returns (r: Response)
    requires db.Valid()
    modifies db
    ensures db.Valid()
    ensures var s := old(db.Snapshot());
            db.Snapshot() == s.(users := DeleteById(s.users, caller.userId),
                                drivers := DeleteById(s.drivers, caller.linkedId),
                                bookings := DeleteMany(s.bookings, b => BookingOfDriver(caller.linkedId, b)))
    ensures !Found(old(db.users), caller.userId) && !Found(old(db.drivers), caller.linkedId) ==>
              r == Response(404, "User not found")
    ensures Found(old(db.users), caller.userId) || Found(old(db.drivers), caller.linkedId) ==>
              r == Response(200, "User, driver, and related bookings removed successfully.")
  {
    var userFound := Found(db.users, caller.userId);
    db.users := DeleteById(db.users, caller.userId);
    var driverFound := Found(db.drivers, caller.linkedId);
    db.drivers := DeleteById(db.drivers, caller.linkedId);
    var driverId := caller.linkedId;
    db.bookings := DeleteMany(db.bookings, b => BookingOfDriver(driverId, b));
    if !userFound && !driverFound {
      return Response(404, "User not found");
    }
    r := Response(200, "User, driver, and related bookings removed successfully.");
  }

  /** After a removal no booking is assigned to the driver any more, and every
      other booking is kept unchanged. */
  lemma RemovalCascadesExactly(bookings: map<Id, Booking>, driverId: Id)
    ensures var rest := DeleteMany(bookings, b => BookingOfDriver(Some(driverId), b));
            && (forall k :: k in rest ==> rest[k].driverId != Some(driverId))
            && (forall k :: k in bookings && bookings[k].driverId != Some(driverId) ==> k in rest && rest[k] == bookings[k])
  {
  }

  /** `updateDriverStatus`: 400 without a caller id; otherwise only the caller's
      availability changes, and only when a value was sent (an absent value is
      dropped from the update). A missing driver is still answered 200. */
  method UpdateDriverStatus(db: Database, caller: Principal, availability: Option<bool>) returns (r: Response)
    requires db.Valid()
    modifies db
    ensures db.Valid()
    ensures caller.linkedId.None? ==> r == Response(400, "invalid driver") && db.Snapshot() == old(db.Snapshot())
    ensures caller.linkedId.Some? ==>
              var s := old(db.Snapshot());
              var id := caller.linkedId.value;
              && r == Response(200, "driver status updated!")
              && if id in s.drivers && availability.Some? then
                   db.Snapshot() == s.(drivers := s.drivers[id := s.drivers[id].(availabilityStatus := availability.value)])
                 else
                   db.Snapshot() == s
  {
    if caller.linkedId.None? {
      return Response(400, "invalid driver");
    }
    var id := caller.linkedId.value;
    if id in db.drivers && availability.Some? {
      db.drivers := db.drivers[id := db.drivers[id].(availabilityStatus := availability.value)];
    }
    r := Response(200, "driver status updated!");
  }
}
