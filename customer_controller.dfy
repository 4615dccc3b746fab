/** The customer handlers: registration, the identification upload with its
    two photo slots, account removal with its cascade over bookings, and
    clearing the customer's notifications. */
module CustomerController {
  import opened Common
  import opened Records
  import opened Store
  import NotificationController

  // ------------------------------------------------------------ registerCustomer

  const AlreadyRegistered: string := "Email or phone number already registered"

  /** The message of every error `registerCustomer` catches. */
  function ErrorRegistering(message: string): string
  {
    "Error registering user: " + message
  }

  /** The duplicate check: a customer with the same email or phone number, or a
      login record with the same email. */
  predicate CustomerTaken(customers: map<Id, Customer>, users: map<Id, User>, email: string, phoneNumber: string)
  {
    || (exists k :: k in customers && (customers[k].email == email || customers[k].phoneNumber == phoneNumber))
    || EmailInUse(users, email)
  }

  /** The customer a registration stores: no address, no booking history, no
      identification, no device tokens. */
  function NewCustomer(fullName: string, email: string, password: string, phoneNumber: string,
                       imgUrl: Option<string>): (c: Customer)
    ensures c.fullName == fullName && c.email == email && c.phoneNumber == phoneNumber && c.password == password
    ensures c.imgUrl == imgUrl && c.address.None? && c.identification.None?
    ensures c.bookingHistory == [] && c.deviceTokens == []
  {
    Customer(fullName, email, password, phoneNumber, None, imgUrl, [], None, [])
  }

  /** `registerCustomer`. The optional photo is uploaded before the duplicate
      check; `photo` is its URL, or the message of the upload's error. On
      success one customer and one login record with role "customer" pointing
      at it are stored. */
  method RegisterCustomer(db: Database, fullName: string, email: string, phoneNumber: string, password: string,
                          photo: Option<Result<string>>)
    returns (r: Response)
    requires db.Valid()
    modifies db
    ensures db.Valid()
    ensures !(Present(fullName) && Present(email) && Present(phoneNumber) && Present(password)) ==>
              r == Response(400, "All fields are required") && db.Snapshot() == old(db.Snapshot())
    ensures Present(fullName) && Present(email) && Present(phoneNumber) && Present(password) ==>
              var s := old(db.Snapshot());
              if photo.Some? && photo.value.Err? then
                r == Response(500, ErrorRegistering(photo.value.error)) && db.Snapshot() == s
              else if CustomerTaken(s.customers, s.users, email, phoneNumber) then
                r == Response(500, ErrorRegistering(AlreadyRegistered)) && db.Snapshot() == s
              else
                var imgUrl := if photo.Some? then Some(photo.value.value) else None;
                && r == Response(201, "User registered successfully")
                && db.Snapshot() == s.(customers := s.customers[s.nextId := NewCustomer(fullName, email, password, phoneNumber, imgUrl)],
                                       users := s.users[s.nextId + 1 := User(email, password, "customer", s.nextId)],
                                       nextId := s.nextId + 2)
  {
    if !(Present(fullName) && Present(email) && Present(phoneNumber) && Present(password)) {
      return Response(400, "All fields are required");
    }
    var imgUrl: Option<string> := None;
    if photo.Some? {
      if photo.value.Err? {
        return Response(500, ErrorRegistering(photo.value.error));
      }
      imgUrl := Some(photo.value.value);
    }
    if CustomerTaken(db.customers, db.users, email, phoneNumber) {
      return Response(500, ErrorRegistering(AlreadyRegistered));
    }
    ghost var before := db.Snapshot();
    var customer := NewCustomer(fullName, email, password, phoneNumber, imgUrl);
    var customerId := db.NewId();
    var userId := db.NewId();
    db.customers := db.customers[customerId := customer];
    db.users := db.users[userId := User(email, password, "customer", customerId)];
    assert db.Snapshot() == before.(customers := before.customers[customerId := customer],
                                    users := before.users[userId := User(email, password, "customer", customerId)],
                                    nextId := customerId + 2);
    r := Response(201, "User registered successfully");
  }

  // ------------------------------------------------------------ uploadIdentification

  const FrontPhotoKey: string := "front_photo"
  const BackPhotoKey: string := "back_photo"

  /** `images[index] = url` on a JavaScript array: past the end the array grows,
      and the indices skipped over hold nothing. */
  function PlaceAt(images: seq<Option<string>>, index: nat, url: string): (r: seq<Option<string>>)
    ensures |r| == if index < |images| then |images| else index + 1
    ensures r[index] == Some(url)
    ensures forall j :: 0 <= j < |images| && j != index ==> r[j] == images[j]
    ensures forall j :: |images| <= j < index ==> r[j].None?
  {
    if index < |images| then images[index := Some(url)]
    else images + seq(index - |images|, _ => None) + [Some(url)]
  }

  /** The `if` on the field name for one upload: the front photo goes to index
      0, the back photo to index 1, any other field is ignored. */
  function PlaceUpload(images: seq<Option<string>>, key: string, url: string): seq<Option<string>>
  {
    if key == FrontPhotoKey then PlaceAt(images, 0, url)
    else if key == BackPhotoKey then PlaceAt(images, 1, url)
    else images
  }

  function PlaceUploads(images: seq<Option<string>>, key: string, uploads: seq<Option<string>>): seq<Option<string>>
    decreases |uploads|
  {
    if uploads == [] then images
    else
      var earlier := PlaceUploads(images, key, uploads[..|uploads| - 1]);
      match uploads[|uploads| - 1]
      case None => earlier
      case Some(url) => PlaceUpload(earlier, key, url)
  }

  /** The identification images after every file of every field, in order. */
  function IdImagesAfter(images: seq<Option<string>>, files: seq<FileField>): seq<Option<string>>
    decreases |files|
  {
    if files == [] then images
    else PlaceUploads(IdImagesAfter(images, files[..|files| - 1]), files[|files| - 1].key, files[|files| - 1].uploads)
  }

  /** Every upload succeeded. */
  predicate AllUploaded(files: seq<FileField>)
  {
    forall i, j :: 0 <= i < |files| && 0 <= j < |files[i].uploads| ==> files[i].uploads[j].Some?
  }

  /** The nested loop of `uploadIdentification`: `None` as soon as an upload
      throws, otherwise the updated images. */
  method PlaceIdImages(current: seq<Option<string>>, files: seq<FileField>) returns (r: Option<seq<Option<string>>>)
    ensures r.None? <==> !AllUploaded(files)
    ensures r.Some? ==> r.value == IdImagesAfter(current, files)
  {
    var images := current;
    for i := 0 to |files|
      invariant AllUploaded(files[..i])
      invariant images == IdImagesAfter(current, files[..i])
    {
      var field := files[i];
      ghost var start := images;
      for j := 0 to |field.uploads|
        invariant forall m :: 0 <= m < j ==> field.uploads[m].Some?
        invariant images == PlaceUploads(start, field.key, field.uploads[..j])
      {
        assert field.uploads[..j + 1][..j] == field.uploads[..j];
        match field.uploads[j] {
          case None =>
            assert files[i].uploads[j].None?;
            return None;
          case Some(url) =>
            images := PlaceUpload(images, field.key, url);
        }
      }
      assert field.uploads[..|field.uploads|] == field.uploads;
      assert files[..i + 1][..i] == files[..i];
      assert forall a :: 0 <= a < i ==> files[..i + 1][a] == files[..i][a];
    }
    assert files[..|files|] == files;
    r := Some(images);
  }

  lemma {:induction false} PlaceUploadsKeepsOthers(images: seq<Option<string>>, key: string, uploads: seq<Option<string>>)
    ensures var r := PlaceUploads(images, key, uploads);
            && |images| <= |r| <= (if |images| < 2 then 2 else |images|)
            && forall j :: 2 <= j < |images| ==> r[j] == images[j]
    decreases |uploads|
  {
    if uploads != [] {
      PlaceUploadsKeepsOthers(images, key, uploads[..|uploads| - 1]);
    }
  }

  /** Only the first two images can change, and the array grows to at most two
      entries. */
  lemma {:induction false} IdImagesKeepOthers(images: seq<Option<string>>, files: seq<FileField>)
    ensures var r := IdImagesAfter(images, files);
            && |images| <= |r| <= (if |images| < 2 then 2 else |images|)
            && forall j :: 2 <= j < |images| ==> r[j] == images[j]
    decreases |files|
  {
    if files != [] {
      var init := files[..|files| - 1];
      IdImagesKeepOthers(images, init);
      PlaceUploadsKeepsOthers(IdImagesAfter(images, init), files[|files| - 1].key, files[|files| - 1].uploads);
    }
  }

  /** A front photo uploaded last is at index 0, a back photo uploaded last at
      index 1. */
  lemma LastPhotoTakesItsSlot(images: seq<Option<string>>, files: seq<FileField>, key: string,
                              uploads: seq<Option<string>>, url: string)
    requires key == FrontPhotoKey || key == BackPhotoKey
    requires uploads != [] && uploads[|uploads| - 1] == Some(url)
    ensures var r := IdImagesAfter(images, files + [FileField(key, uploads)]);
            (if key == FrontPhotoKey then |r| > 0 && r[0] == Some(url) else |r| > 1 && r[1] == Some(url))
  {
    var all := files + [FileField(key, uploads)];
    assert all[..|all| - 1] == files;
  }

  const IdUpdateFailed: string := "An error occurred while updating identification details."

  /** The images the handler starts from: none when the customer has no
      identification yet. */
  function CurrentIdImages(c: Customer): seq<Option<string>>
  {
    if c.identification.None? then [] else c.identification.value.idImages
  }

  /** `uploadIdentification`: the ID type, then the ID number, then the
      customer are checked, each failure changing nothing; an upload that
      throws changes nothing either. Otherwise only the caller's identification
      changes: type and number overwritten, photos placed in their slots. */
  method UploadIdentification(db: Database, caller: Principal, idType: string, idNumber: string, files: seq<FileField>)
    returns (r: Response)
    requires db.Valid()
    modifies db
    ensures db.Valid()
    ensures idType !in IdTypes ==> r == Response(400, "Invalid ID type provided.") && db.Snapshot() == old(db.Snapshot())
    ensures idType in IdTypes && !Present(idNumber) ==>
              r == Response(400, "ID number is required.") && db.Snapshot() == old(db.Snapshot())
    ensures idType in IdTypes && Present(idNumber) && !Found(old(db.customers), caller.linkedId) ==>
              r == Response(404, "Customer not exist") && db.Snapshot() == old(db.Snapshot())
    ensures idType in IdTypes && Present(idNumber) && Found(old(db.customers), caller.linkedId) ==>
              var s := old(db.Snapshot());
              var id := caller.linkedId.value;
              if !AllUploaded(files) then
                r == Response(500, IdUpdateFailed) && db.Snapshot() == s
              else
                var ident := Identification(Some(idType), Some(idNumber), IdImagesAfter(CurrentIdImages(s.customers[id]), files));
                && r == Response(200, "Identification details updated successfully.")
                && db.Snapshot() == s.(customers := s.customers[id := s.customers[id].(identification := Some(ident))])
  {
    if idType !in IdTypes {
      return Response(400, "Invalid ID type provided.");
    }
    if !Present(idNumber) {
      return Response(400, "ID number is required.");
    }
    if !Found(db.customers, caller.linkedId) {
      return Response(404, "Customer not exist");
    }
    var id := caller.linkedId.value;
    var customer := db.customers[id];
    var images := PlaceIdImages(CurrentIdImages(customer), files);
    if images.None? {
      return Response(500, IdUpdateFailed);
    }
    var ident := Identification(Some(idType), Some(idNumber), images.value);
    db.customers := db.customers[id := customer.(identification := Some(ident))];
    r := Response(200, "Identification details updated successfully.");
  }

  // ------------------------------------------------------------ removeCustomer

  /** True of a booking made by the customer `customerId`. */
  predicate BookingOfCustomer(customerId: Option<Id>, b: Booking)
  {
    customerId == Some(b.customerId)
  }

  /** `removeCustomer`: the login record, the customer and the customer's
      bookings are deleted in that order; only afterwards is the 404 decided,
      when neither the login record nor the customer existed. */
  method RemoveCustomer(db: Database, caller: Principal) returns (r: Response)
    requires db.Valid()
    modifies db
    ensures db.Valid()
    ensures var s := old(db.Snapshot());
            db.Snapshot() == s.(users := DeleteById(s.users, caller.userId),
                                customers := DeleteById(s.customers, caller.linkedId),
                                bookings := DeleteMany(s.bookings, b => BookingOfCustomer(caller.linkedId, b)))
    ensures !Found(old(db.users), caller.userId) && !Found(old(db.customers), caller.linkedId) ==>
              r == Response(404, "User not found")
    ensures Found(old(db.users), caller.userId) || Found(old(db.customers), caller.linkedId) ==>
              r == Response(200, "User, customer, and related bookings removed successfully.")
  {
    var userFound := Found(db.users, caller.userId);
    db.users := DeleteById(db.users, caller.userId);
    var customerFound := Found(db.customers, caller.linkedId);
    db.customers := DeleteById(db.customers, caller.linkedId);
    var customerId := caller.linkedId;
    db.bookings := DeleteMany(db.bookings, b => BookingOfCustomer(customerId, b));
    if !userFound && !customerFound {
      return Response(404, "User not found");
    }
    r := Response(200, "User, customer, and related bookings removed successfully.");
  }

  /** After a removal none of the customer's bookings is left, and every other
      booking is kept unchanged. */
  lemma RemovalCascadesExactly(bookings: map<Id, Booking>, customerId: Id)
    ensures var rest := DeleteMany(bookings, b => BookingOfCustomer(Some(customerId), b));
            && (forall k :: k in rest ==> rest[k].customerId != customerId)
            && (forall k :: k in bookings && bookings[k].customerId != customerId ==> k in rest && rest[k] == bookings[k])
  {
  }

  // ------------------------------------------------------------ deleteAllNotification

  /** `deleteAllNotification`: 400 without a caller id, otherwise exactly the
      caller's notifications are removed. */
  method DeleteAllNotification(db: Database, caller: Principal) returns (r: Response)
    requires db.Valid()
    modifies db
    ensures db.Valid()
    ensures caller.linkedId.None? ==> r == Response(400, "partnerId is required") && db.Snapshot() == old(db.Snapshot())
    ensures caller.linkedId.Some? ==>
              var s := old(db.Snapshot());
              && r == Response(200, "Notifications deleted successfully")
              && db.Snapshot() == s.(notifications := DeleteMany(s.notifications, n => NotificationController.AddressedTo(caller.linkedId.value, n)))
  {
    if caller.linkedId.None? {
      return Response(400, "partnerId is required");
    }
    var receiverId := caller.linkedId.value;
    db.notifications := DeleteMany(db.notifications, n => NotificationController.AddressedTo(receiverId, n));
    r := Response(200, "Notifications deleted successfully");
  }
}
