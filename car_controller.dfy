/** The car handlers: adding a car (required fields, sorting the uploaded files
    into image and document buckets, defaults), updating one (a per-slot
    keep-or-replace merge of the images and documents), the price-band and
    category filters, and deletion. Uploaded files are given by the URL the
    image host returned for each, or `None` where the upload failed. */
module CarController {
  import opened Common
  import opened Records
  import opened Store

  /** The parsed `carDetails` of a request. An absent string is empty, an absent
      list is empty, an absent number is `None`. `mileage` and `color` are
      stored as the car's `carMileagePerHour` and `carColor`. */
  datatype CarDetails = CarDetails(
    carName: string,
    carModel: string,
    carYear: Option<int>,
    seatingCapacity: Option<int>,
    fuelType: string,
    dailyRentalPrice: Option<int>,
    mileage: Option<int>,
    color: string,
    description: string,
    features: seq<string>,
    category: string,
    subcategory: string,
    pickupLocation: string,
    dropoffLocation: string,
    registrationNumber: string,
    transmissionType: string)

  /** JavaScript truthiness of an optional number: absent and 0 are falsy. */
  predicate TruthyNumber(n: Option<int>)
  {
    n.Some? && n.value != 0
  }

  // ------------------------------------------------------------ buckets

  const ImageKeys: set<string> := {"image0", "image1", "image2", "image3"}
  const OwnerDocKeys: set<string> := {"idfront", "idback"}
  const CarDocKeys: set<string> := {"cardocumentfront", "cardocumentback"}
  const LicenseKeys: set<string> := {"vechilelicensefront", "vechilelicenseback"}
  const BankPassKey: string := "bankpassbookphoto"

  /** The URLs collected while walking the uploaded files. */
  datatype Buckets = Buckets(
    images: seq<Option<string>>,
    ownerDoc: seq<Option<string>>,
    carDoc: seq<Option<string>>,
    vehiclelic: seq<Option<string>>,
    bankPass: string)

  const EmptyBuckets: Buckets := Buckets([], [], [], [], "")

  /** The `switch` on the field name for one successful upload. */
  function AddUpload(b: Buckets, key: string, url: string): Buckets
  {
    if key in ImageKeys then b.(images := b.images + [Some(url)])
    else if key in OwnerDocKeys then b.(ownerDoc := b.ownerDoc + [Some(url)])
    else if key in CarDocKeys then b.(carDoc := b.carDoc + [Some(url)])
    else if key in LicenseKeys then b.(vehiclelic := b.vehiclelic + [Some(url)])
    else if key == BankPassKey then b.(bankPass := url)
    else b
  }

  /** The files of one field, in order; a failed upload is skipped. */
  function AddUploads(b: Buckets, key: string, uploads: seq<Option<string>>): Buckets
    decreases |uploads|
  {
    if uploads == [] then b
    else
      var earlier := AddUploads(b, key, uploads[..|uploads| - 1]);
      match uploads[|uploads| - 1]
      case None => earlier
      case Some(url) => AddUpload(earlier, key, url)
  }

  /** All fields, in order. */
  function Bucketed(files: seq<FileField>): Buckets
    decreases |files|
  {
    if files == [] then EmptyBuckets
    else AddUploads(Bucketed(files[..|files| - 1]), files[|files| - 1].key, files[|files| - 1].uploads)
  }

  /** The nested loop of `addCar` over the fields and their files. */
  method BucketUploads(files: seq<FileField>) returns (b: Buckets)
    ensures b == Bucketed(files)
  {
    b := EmptyBuckets;
    for i := 0 to |files|
      invariant b == Bucketed(files[..i])
    {
      var field := files[i];
      ghost var start := b;
      for j := 0 to |field.uploads|
        invariant b == AddUploads(start, field.key, field.uploads[..j])
      {
        assert field.uploads[..j + 1][..j] == field.uploads[..j];
        match field.uploads[j] {
          case None =>
          case Some(url) => b := AddUpload(b, field.key, url);
        }
      }
      assert field.uploads[..|field.uploads|] == field.uploads;
      assert files[..i + 1][..i] == files[..i];
    }
    assert files[..|files|] == files;
  }

  /** What one field adds to the images: its successful uploads, in order, if
      its name is an image key. */
  lemma {:induction false} AddUploadsImages(b: Buckets, key: string, uploads: seq<Option<string>>, url: string)
    ensures Some(url) in AddUploads(b, key, uploads).images <==>
              Some(url) in b.images || (key in ImageKeys && Some(url) in uploads)
    ensures b.images <= AddUploads(b, key, uploads).images
    decreases |uploads|
  {
    if uploads != [] {
      var init := uploads[..|uploads| - 1];
      AddUploadsImages(b, key, init, url);
      assert uploads == init + [uploads[|uploads| - 1]];
      var earlier := AddUploads(b, key, init);
      if key in ImageKeys && uploads[|uploads| - 1].Some? {
        var last := AddUploads(b, key, uploads).images;
        assert last == earlier.images + [uploads[|uploads| - 1]];
      }
    }
  }

  /** An image URL ends up in `images` exactly when some field with an image
      key uploaded it successfully; later fields only append. */
  lemma {:induction false} BucketedImages(files: seq<FileField>, url: string)
    ensures Some(url) in Bucketed(files).images <==>
              exists i :: 0 <= i < |files| && files[i].key in ImageKeys && Some(url) in files[i].uploads
    decreases |files|
  {
    if files != [] {
      var init := files[..|files| - 1];
      var last := files[|files| - 1];
      BucketedImages(init, url);
      AddUploadsImages(Bucketed(init), last.key, last.uploads, url);
      if Some(url) in Bucketed(files).images {
        if Some(url) in Bucketed(init).images {
          var i :| 0 <= i < |init| && init[i].key in ImageKeys && Some(url) in init[i].uploads;
          assert files[i] == init[i];
        } else {
          assert files[|files| - 1] == last;
        }
      } else {
        forall i | 0 <= i < |files| && files[i].key in ImageKeys
          ensures Some(url) !in files[i].uploads
        {
          if i < |init| {
            assert files[i] == init[i];
          }
        }
      }
    }
  }

  /** Fields whose name is not one of the known keys change nothing. */
  lemma {:induction false} UnknownKeyIgnored(b: Buckets, key: string, uploads: seq<Option<string>>)
    requires key !in ImageKeys && key !in OwnerDocKeys && key !in CarDocKeys && key !in LicenseKeys && key != BankPassKey
    ensures AddUploads(b, key, uploads) == b
    decreases |uploads|
  {
    if uploads != [] {
      UnknownKeyIgnored(b, key, uploads[..|uploads| - 1]);
    }
  }

  /** The bank passbook photo is the last successful one. */
  lemma BankPassLastWins(files: seq<FileField>, uploads: seq<Option<string>>, url: string)
    requires uploads != [] && uploads[|uploads| - 1] == Some(url)
    ensures Bucketed(files + [FileField(BankPassKey, uploads)]).bankPass == url
  {
    var all := files + [FileField(BankPassKey, uploads)];
    assert all[..|all| - 1] == files;
  }

  // ------------------------------------------------------------ addCar

  const DetailsMissing: string := "carDetails is missing or empty"
  const RequiredMissing: string := "Missing required fields in car details."
  /** The leading words of the validation error Mongoose raises. */
  const CarValidationFailed: string := "Car validation failed"

  /** The guard of `addCar` on the details. */
  predicate RequiredPresent(d: CarDetails)
  {
    Present(d.carName) && Present(d.carModel) && TruthyNumber(d.carYear) && Present(d.category)
    && Present(d.subcategory) && Present(d.pickupLocation) && Present(d.dropoffLocation)
  }

  /** The car `addCar` builds. The mileage is sent under a misspelt key that the
      schema drops, so it is never stored; the availability is the schema
      default and the coordinates are fixed. */
  function NewCar(d: CarDetails, partnerId: Option<Id>, b: Buckets): (c: Car)
    requires RequiredPresent(d)
    ensures c.brand == d.carName && c.model == d.carModel && c.year == d.carYear.value
    ensures c.seats == OrElse(d.seatingCapacity, 0) && c.pricePerDay == OrElse(d.dailyRentalPrice, 0)
    ensures c.mileage.None? && c.availabilityStatus == "available" && c.coordinates == DefaultCoordinates
    ensures c.partnerId == partnerId && c.images == b.images
    ensures c.docs == Docs(b.ownerDoc, b.carDoc, b.vehiclelic, Some(b.bankPass))
    ensures CarPassesValidation(c) <==> Present(d.fuelType) && partnerId.Some?
  {
    Car(d.carName, d.carModel, d.carYear.value, OrElse(d.seatingCapacity, 0), d.fuelType,
        OrElse(d.dailyRentalPrice, 0), d.registrationNumber, None, d.color, d.description,
        "available", DefaultCoordinates, d.features, b.images,
        Docs(b.ownerDoc, b.carDoc, b.vehiclelic, Some(b.bankPass)), partnerId,
        d.pickupLocation, d.dropoffLocation, d.category, d.subcategory, d.transmissionType)
  }

  /** `addCar`: every failure answers 400 and stores nothing; on success one car
      owned by the caller is added. */
  method AddCar(db: Database, caller: Principal, details: Option<CarDetails>, files: seq<FileField>)
    returns (r: Response)
    requires db.Valid()
    modifies db
    ensures db.Valid()
    ensures details.None? ==> r == Response(400, DetailsMissing) && db.Snapshot() == old(db.Snapshot())
    ensures details.Some? && !RequiredPresent(details.value) ==>
              r == Response(400, RequiredMissing) && db.Snapshot() == old(db.Snapshot())
    ensures details.Some? && RequiredPresent(details.value) ==>
              var s := old(db.Snapshot());
              var car := NewCar(details.value, caller.linkedId, Bucketed(files));
              if CarPassesValidation(car) then
                r == Response(201, "Car added successfully.") && db.Snapshot() == s.(cars := s.cars[s.nextId := car], nextId := s.nextId + 1)
              else
                r == Response(400, CarValidationFailed) && db.Snapshot() == s
  {
    if details.None? {
      return Response(400, DetailsMissing);
    }
    var d := details.value;
    if !RequiredPresent(d) {
      return Response(400, RequiredMissing);
    }
    var buckets := BucketUploads(files);
    var car := NewCar(d, caller.linkedId, buckets);
    if !CarPassesValidation(car) {
      return Response(400, CarValidationFailed);
    }
    var id := db.NewId();
    db.cars := db.cars[id := car];
    r := Response(201, "Car added successfully.");
  }

  // ------------------------------------------------------------ updateCarDetails

  const ImageSlots: seq<string> := ["image0", "image1", "image2", "image3"]
  const OwnerDocSlots: seq<string> := ["idfront", "idback"]
  const CarDocSlots: seq<string> := ["cardocumentfront", "cardocumentback"]
  const LicenseSlots: seq<string> := ["vechilelicensefront", "vechilelicenseback"]

  /** The value at index `i` of a stored array; `None` past its end. */
  function Slot(s: seq<Option<string>>, i: nat): Option<string>
  {
    if i < |s| then s[i] else None
  }

  /** The uploads of an update, by field name: the first file's URL, or `None`
      when its upload threw. */
  type Uploads = map<string, Option<string>>

  /** A slot takes its new upload when that field was sent, else keeps the
      stored value at the same index. */
  function SlotValue(files: Uploads, key: string, current: seq<Option<string>>, i: nat): Option<string>
  {
    if key in files then files[key] else Slot(current, i)
  }

  /** The slots of one array, assigned one by one: a sent field's upload, or
      else the car's previous value at that index, or nothing past the stored
      array. */
  function MergedSlots(files: Uploads, keys: seq<string>, current: seq<Option<string>>): (merged: seq<Option<string>>)
    ensures |merged| == |keys|
    ensures forall i :: 0 <= i < |keys| && keys[i] in files ==> merged[i] == files[keys[i]]
    ensures forall i :: 0 <= i < |keys| && keys[i] !in files && i < |current| ==> merged[i] == current[i]
    ensures forall i :: |current| <= i < |keys| && keys[i] !in files ==> merged[i].None?
  {
    seq(|keys|, i requires 0 <= i < |keys| => SlotValue(files, keys[i], current, i))
  }

  /** True when one of the uploads the handler performs threw. */
  predicate UploadThrew(files: Uploads)
  {
    exists k :: k in files && (k in ImageKeys || k in OwnerDocKeys || k in CarDocKeys || k in LicenseKeys || k == BankPassKey)
                && files[k].None?
  }

  /** The images and documents after the merge. Without a file object every
      array is replaced by an empty one and the passbook by ""; with one, the
      passbook falls back to a car field that does not exist (`undefined`). */
  function MergedMedia(files: Option<Uploads>, car: Car): (m: (seq<Option<string>>, Docs))
    ensures files.None? ==> m == ([], Docs([], [], [], Some("")))
    ensures files.Some? ==>
              && |m.0| == 4 && |m.1.ownerDoc| == 2 && |m.1.carDoc| == 2 && |m.1.vehiclelic| == 2
              && (forall i :: 0 <= i < 4 ==> m.0[i] == SlotValue(files.value, ImageSlots[i], car.images, i))
              && (forall i :: 0 <= i < 2 ==> m.1.ownerDoc[i] == SlotValue(files.value, OwnerDocSlots[i], car.docs.ownerDoc, i))
              && (forall i :: 0 <= i < 2 ==> m.1.carDoc[i] == SlotValue(files.value, CarDocSlots[i], car.docs.carDoc, i))
              && (forall i :: 0 <= i < 2 ==> m.1.vehiclelic[i] == SlotValue(files.value, LicenseSlots[i], car.docs.vehiclelic, i))
              && m.1.bankPass == (if BankPassKey in files.value then files.value[BankPassKey] else None)
  {
    if files.None? then ([], Docs([], [], [], Some("")))
    else
      var f := files.value;
      (MergedSlots(f, ImageSlots, car.images),
       Docs(MergedSlots(f, OwnerDocSlots, car.docs.ownerDoc), MergedSlots(f, CarDocSlots, car.docs.carDoc),
            MergedSlots(f, LicenseSlots, car.docs.vehiclelic),
            if BankPassKey in f then f[BankPassKey] else None))
  }

  /** The effect of `Object.assign`: every detail field overwrites the car's,
      including the correctly spelt mileage; the owner, the availability, the
      coordinates stay. */
  function AssignDetails(car: Car, d: CarDetails, media: (seq<Option<string>>, Docs)): (c: Car)
    requires d.carYear.Some? && d.seatingCapacity.Some? && d.dailyRentalPrice.Some?
    ensures c.partnerId == car.partnerId && c.availabilityStatus == car.availabilityStatus
    ensures c.coordinates == car.coordinates && c.mileage == d.mileage
    ensures c.images == media.0 && c.docs == media.1
  {
    Car(d.carName, d.carModel, d.carYear.value, d.seatingCapacity.value, d.fuelType, d.dailyRentalPrice.value,
        d.registrationNumber, d.mileage, d.color, d.description, car.availabilityStatus, car.coordinates,
        d.features, media.0, media.1, car.partnerId, d.pickupLocation, d.dropoffLocation,
        d.category, d.subcategory, d.transmissionType)
  }

  /** The required numbers are sent; an absent one is assigned as `undefined`
      and fails validation. */
  predicate NumbersPresent(d: CarDetails)
  {
    d.carYear.Some? && d.seatingCapacity.Some? && d.dailyRentalPrice.Some?
  }

  const UpdateFailed: Response := Response(500, "Failed to update car details")

  /** `updateCarDetails`: 500 without details, 404 for an unknown car, 500 when
      an upload throws or the merged car fails validation; otherwise exactly
      that car is replaced by the merged one. */
  method UpdateCarDetails(db: Database, carId: Option<Id>, details: Option<CarDetails>, files: Option<Uploads>)
    returns (r: Response)
    requires db.Valid()
    modifies db
    ensures db.Valid()
    ensures details.None? ==> r == UpdateFailed && db.Snapshot() == old(db.Snapshot())
    ensures details.Some? && !Found(old(db.cars), carId) ==>
              r == Response(404, "Car not found") && db.Snapshot() == old(db.Snapshot())
    ensures details.Some? && Found(old(db.cars), carId) && files.Some? && UploadThrew(files.value) ==>
              r == UpdateFailed && db.Snapshot() == old(db.Snapshot())
    ensures details.Some? && Found(old(db.cars), carId) && !(files.Some? && UploadThrew(files.value)) ==>
              var s := old(db.Snapshot());
              var d := details.value;
              var car := s.cars[carId.value];
              if NumbersPresent(d) && CarPassesValidation(AssignDetails(car, d, MergedMedia(files, car))) then
                && r == Response(200, "Car details updated successfully")
                && db.Snapshot() == s.(cars := s.cars[carId.value := AssignDetails(car, d, MergedMedia(files, car))])
              else
                r == UpdateFailed && db.Snapshot() == s
  {
    if details.None? {
      return UpdateFailed;
    }
    var d := details.value;
    if !Found(db.cars, carId) {
      return Response(404, "Car not found");
    }
    var car := db.cars[carId.value];
    var images: seq<Option<string>> := [];
    var docs := Docs([], [], [], Some(""));
    if files.Some? {
      var f := files.value;
      if UploadThrew(f) {
        return UpdateFailed;
      }
      images := MergedSlots(f, ImageSlots, car.images);
      var ownerDoc := MergedSlots(f, OwnerDocSlots, car.docs.ownerDoc);
      var carDoc := MergedSlots(f, CarDocSlots, car.docs.carDoc);
      var vehiclelic := MergedSlots(f, LicenseSlots, car.docs.vehiclelic);
      var bankPass := if BankPassKey in f then f[BankPassKey] else None;
      docs := Docs(ownerDoc, carDoc, vehiclelic, bankPass);
    }
    assert (images, docs) == MergedMedia(files, car);
    if !NumbersPresent(d) {
      return UpdateFailed;
    }
    var updated := AssignDetails(car, d, (images, docs));
    if !CarPassesValidation(updated) {
      return UpdateFailed;
    }
    db.cars := db.cars[carId.value := updated];
    r := Response(200, "Car details updated successfully");
  }

  /** Sending the update without any file object wipes every stored image and
      document, whatever the car had. */
  lemma UpdateWithoutFilesClearsMedia(car: Car)
    ensures MergedMedia(None, car).0 == [] && MergedMedia(None, car).1.ownerDoc == []
  {
  }

  /** With a file object, a passbook photo that is not re-uploaded is lost, and
      images past the fourth are dropped. */
  lemma UpdateLosesUnsentPassbook(files: Uploads, car: Car)
    requires BankPassKey !in files
    ensures MergedMedia(Some(files), car).1.bankPass.None?
    ensures |MergedMedia(Some(files), car).0| == 4
  {
  }

  // ------------------------------------------------------------ price bands and filters

  const PriceThreshold: int := 50

  /** The price constraint a cost filter adds: at most 50 for "low_cost", above
      50 for "normal_cost", none for any other value. */
  predicate InBand(filter: string, pricePerDay: int)
  {
    if filter == "low_cost" then pricePerDay <= PriceThreshold
    else if filter == "normal_cost" then pricePerDay > PriceThreshold
    else true
  }

  /** Every price lies in exactly one of the two bands. */
  lemma BandsPartition(pricePerDay: int)
    ensures InBand("low_cost", pricePerDay) != InBand("normal_cost", pricePerDay)
  {
  }

  function CarsWhere(cars: map<Id, Car>, keep: Car -> bool): (found: map<Id, Car>)
    ensures forall k :: k in found <==> k in cars && keep(cars[k])
    ensures forall k :: k in found ==> found[k] == cars[k]
  {
    map k | k in cars && keep(cars[k]) :: cars[k]
  }

  /** The two cost listings split the cars: no car is in both, and every car is
      in one of them. */
  lemma CostListingsSplitCars(cars: map<Id, Car>)
    ensures var low := CarsWhere(cars, (c: Car) => InBand("low_cost", c.pricePerDay));
            var normal := CarsWhere(cars, (c: Car) => InBand("normal_cost", c.pricePerDay));
            && low.Keys !! normal.Keys
            && low.Keys + normal.Keys == cars.Keys
  {
    var low := CarsWhere(cars, (c: Car) => InBand("low_cost", c.pricePerDay));
    var normal := CarsWhere(cars, (c: Car) => InBand("normal_cost", c.pricePerDay));
    forall k | k in cars
      ensures k in low.Keys + normal.Keys
    {
      BandsPartition(cars[k].pricePerDay);
    }
  }

  /** `getCarByCost`. */
  method GetCarByCost(db: Database, filter: string) returns (r: Response, found: map<Id, Car>)
    ensures !Present(filter) ==> r == Response(400, "Filter parameter is required.") && found == map[]
    ensures Present(filter) && filter != "low_cost" && filter != "normal_cost" ==>
              r == Response(400, "Invalid filter value.") && found == map[]
    ensures filter == "low_cost" || filter == "normal_cost" ==>
              && r.code == 200
              && (forall k :: k in found <==> k in db.cars && InBand(filter, db.cars[k].pricePerDay))
              && (forall k :: k in found ==> found[k] == db.cars[k])
  {
    if !Present(filter) {
      return Response(400, "Filter parameter is required."), map[];
    }
    if filter != "low_cost" && filter != "normal_cost" {
      return Response(400, "Invalid filter value."), map[];
    }
    found := CarsWhere(db.cars, (c: Car) => InBand(filter, c.pricePerDay));
    r := Response(200, "");
  }

  const SelectCostType: Response := Response(404, "Please select costType first!")
  const SelectCategory: Response := Response(404, "Please select category first!")

  /** `filterCarsByCategory`: the filter is checked before the category; the
      result is the cars of that category in the band, 404 when empty. */
  method FilterCarsByCategory(db: Database, category: string, filter: string)
    returns (r: Response, found: map<Id, Car>)
    ensures !Present(filter) ==> r == SelectCostType && found == map[]
    ensures Present(filter) && !Present(category) ==> r == SelectCategory && found == map[]
    ensures Present(filter) && Present(category) ==>
              && (forall k :: k in found <==> k in db.cars && db.cars[k].category == category
                                               && InBand(filter, db.cars[k].pricePerDay))
              && (forall k :: k in found ==> found[k] == db.cars[k])
              && (found == map[] ==> r == Response(404, "No cars found for the selected category"))
              && (found != map[] ==> r.code == 200)
  {
    if !Present(filter) {
      return SelectCostType, map[];
    }
    if !Present(category) {
      return SelectCategory, map[];
    }
    found := CarsWhere(db.cars, (c: Car) => c.category == category && InBand(filter, c.pricePerDay));
    if found == map[] {
      r := Response(404, "No cars found for the selected category");
    } else {
      r := Response(200, "");
    }
  }

  /** `filterCarsBySubCategory`: filter, category and sub-category are checked
      in that order; the result matches all three. */
  method FilterCarsBySubCategory(db: Database, subCategory: string, category: string, filter: string)
    returns (r: Response, found: map<Id, Car>)
    ensures !Present(filter) ==> r == SelectCostType && found == map[]
    ensures Present(filter) && !Present(category) ==> r == SelectCategory && found == map[]
    ensures Present(filter) && Present(category) && !Present(subCategory) ==>
              r == Response(404, "Please select Subcategory first!") && found == map[]
    ensures Present(filter) && Present(category) && Present(subCategory) ==>
              && (forall k :: k in found <==> k in db.cars && db.cars[k].subCategory == subCategory
                                               && db.cars[k].category == category
                                               && InBand(filter, db.cars[k].pricePerDay))
              && (forall k :: k in found ==> found[k] == db.cars[k])
              && (found == map[] ==> r == Response(404, "No cars found for the selected subcategory"))
              && (found != map[] ==> r.code == 200)
  {
    if !Present(filter) {
      return SelectCostType, map[];
    }
    if !Present(category) {
      return SelectCategory, map[];
    }
    if !Present(subCategory) {
      return Response(404, "Please select Subcategory first!"), map[];
    }
    found := CarsWhere(db.cars, (c: Car) => c.subCategory == subCategory && c.category == category && InBand(filter, c.pricePerDay));
    if found == map[] {
      r := Response(404, "No cars found for the selected subcategory");
    } else {
      r := Response(200, "");
    }
  }

  /** `deleteCar`: 400 for a malformed id, otherwise the car is removed when it
      exists (200) and nothing changes when it does not (404). */
  method DeleteCar(db: Database, carId: RawId) returns (r: Response)
    requires db.Valid()
    modifies db
    ensures db.Valid()
    ensures carId.Malformed? ==> r == Response(400, "Invalid car ID format.") && db.Snapshot() == old(db.Snapshot())
    ensures carId.WellFormed? && carId.id !in old(db.cars) ==>
              r == Response(404, "Car not found") && db.Snapshot() == old(db.Snapshot())
    ensures carId.WellFormed? && carId.id in old(db.cars) ==>
              r == Response(200, "Car deleted successfully")
              && db.Snapshot() == old(db.Snapshot()).(cars := old(db.cars) - {carId.id})
  {
    if carId.Malformed? {
      return Response(400, "Invalid car ID format.");
    }
    if carId.id !in db.cars {
      return Response(404, "Car not found");
    }
    db.cars := db.cars - {carId.id};
    r := Response(200, "Car deleted successfully");
  }
}
