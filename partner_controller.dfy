/** The partner handlers: registration and account removal, whose cascade
    covers the partner's bookings and cars. */
module PartnerController {
  import opened Common
  import opened Records
  import opened Store

  const AlreadyRegistered: string := "Email or phone number already registered"

  /** The duplicate check: a partner with the same email or phone number, or a
      login record with the same email. */
  predicate PartnerTaken(partners: map<Id, Partner>, users: map<Id, User>, email: string, phoneNumber: string)
  {
    || (exists k :: k in partners && (partners[k].email == email || partners[k].phoneNumber == phoneNumber))
    || EmailInUse(users, email)
  }

  /** The partner a registration stores: empty fleet and driver lists, no photo,
      no refresh token, terms not accepted. */
  function NewPartner(fullName: string, email: string, phoneNumber: string, password: string, address: string): (p: Partner)
    ensures p.fullName == fullName && p.email == email && p.phoneNumber == phoneNumber
    ensures p.password == password && p.address == address
    ensures p.fleet == [] && p.drivers == [] && p.imgUrl.None? && p.refreshToken.None?
    ensures !p.termsAccepted && p.deviceTokens == []
  {
    Partner(fullName, email, phoneNumber, address, password, [], [], None, None, false, [])
  }

  /** `registerPartner` without a photo: the four fields, then duplicates; any
      failure stores nothing. On success one partner and one login record with
      role "partner" pointing at it are stored. */
  method RegisterPartner(db: Database, fullName: string, email: string, phoneNumber: string, password: string,
                         address: string)
    returns (r: Response)
    requires db.Valid()
    modifies db
    ensures db.Valid()
    ensures !(Present(fullName) && Present(email) && Present(phoneNumber) && Present(password)) ==>
              r == Response(401, "All Field are Required") && db.Snapshot() == old(db.Snapshot())
    ensures Present(fullName) && Present(email) && Present(phoneNumber) && Present(password) ==>
              var s := old(db.Snapshot());
              if PartnerTaken(s.partners, s.users, email, phoneNumber) then
                r == Response(500, AlreadyRegistered) && db.Snapshot() == s
              else
                && r == Response(201, "Partner Register Successfully")
                && db.Snapshot() == s.(partners := s.partners[s.nextId := NewPartner(fullName, email, phoneNumber, password, address)],
                                       users := s.users[s.nextId + 1 := User(email, password, "partner", s.nextId)],
                                       nextId := s.nextId + 2)
  {
    if !(Present(fullName) && Present(email) && Present(phoneNumber) && Present(password)) {
      return Response(401, "All Field are Required");
    }
    if PartnerTaken(db.partners, db.users, email, phoneNumber) {
      return Response(500, AlreadyRegistered);
    }
    ghost var before := db.Snapshot();
    var p := NewPartner(fullName, email, phoneNumber, password, address);
    var partnerId := db.NewId();
    var userId := db.NewId();
    db.partners := db.partners[partnerId := p];
    db.users := db.users[userId := User(email, password, "partner", partnerId)];
    assert db.Snapshot() == before.(partners := before.partners[partnerId := p],
                                    users := before.users[userId := User(email, password, "partner", partnerId)],
                                    nextId := partnerId + 2);
    r := Response(201, "Partner Register Successfully");
  }

  predicate BookingOfPartner(partnerId: Option<Id>, b: Booking)
  {
    partnerId.Some? && b.partnerId == partnerId
  }

  predicate CarOfPartner(partnerId: Option<Id>, c: Car)
  {
    partnerId.Some? && c.partnerId == partnerId
  }

  /** `removePartner`: the login record, the partner, the partner's bookings and
      the partner's cars are deleted in that order; only afterwards is the 404
      decided, when neither the login record nor the partner existed. */
  method RemovePartner(db: Database, caller: Principal) returns (r: Response)
    requires db.Valid()
    modifies db
    ensures db.Valid()
    ensures var s := old(db.Snapshot());
            db.Snapshot() == s.(users := DeleteById(s.users, caller.userId),
                                partners := DeleteById(s.partners, caller.linkedId),
                                bookings := DeleteMany(s.bookings, b => BookingOfPartner(caller.linkedId, b)),
                                cars := DeleteMany(s.cars, c => CarOfPartner(caller.linkedId, c)))
    ensures !Found(old(db.users), caller.userId) && !Found(old(db.partners), caller.linkedId) ==>
              r == Response(404, "User not found")
    ensures Found(old(db.users), caller.userId) || Found(old(db.partners), caller.linkedId) ==>
              r == Response(200, "User, Partner, and related bookings and Cars removed successfully.")
  {
    var userFound := Found(db.users, caller.userId);
    db.users := DeleteById(db.users, caller.userId);
    var partnerFound := Found(db.partners, caller.linkedId);
    db.partners := DeleteById(db.partners, caller.linkedId);
    var partnerId := caller.linkedId;
    db.bookings := DeleteMany(db.bookings, b => BookingOfPartner(partnerId, b));
    db.cars := DeleteMany(db.cars, c => CarOfPartner(partnerId, c));
    if !userFound && !partnerFound {
      return Response(404, "User not found");
    }
    r := Response(200, "User, Partner, and related bookings and Cars removed successfully.");
  }

  /** After a removal the partner owns no car and no booking, and every car and
      booking of someone else is kept unchanged. */
  lemma RemovalCascadesExactly(bookings: map<Id, Booking>, cars: map<Id, Car>, partnerId: Id)
    ensures var restBookings := DeleteMany(bookings, b => BookingOfPartner(Some(partnerId), b));
            var restCars := DeleteMany(cars, c => CarOfPartner(Some(partnerId), c));
            && (forall k :: k in restBookings ==> restBookings[k].partnerId != Some(partnerId))
            && (forall k :: k in restCars ==> restCars[k].partnerId != Some(partnerId))
            && (forall k :: k in bookings && bookings[k].partnerId != Some(partnerId) ==> k in restBookings && restBookings[k] == bookings[k])
            && (forall k :: k in cars && cars[k].partnerId != Some(partnerId) ==> k in restCars && restCars[k] == cars[k])
  {
  }
}
