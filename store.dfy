/** The database, held in memory: one map per collection from document id to
    document, and the counter that hands out fresh ids. Handlers change it in
    place; `Snapshot` is its value, used to say what a handler changed and
    what it left alone. */
module Store {
  import opened Common
  import opened Records

  datatype State = State(
    bookings: map<Id, Booking>,
    cars: map<Id, Car>,
    notifications: map<Id, Notification>,
    customers: map<Id, Customer>,
    drivers: map<Id, Driver>,
    partners: map<Id, Partner>,
    users: map<Id, User>,
    nextId: nat)

  /** Every id in use is below the counter, so the counter is always fresh. */
  ghost predicate IdsBelowCounter(s: State)
  {
    && (forall k :: k in s.bookings ==> k < s.nextId)
    && (forall k :: k in s.cars ==> k < s.nextId)
    && (forall k :: k in s.notifications ==> k < s.nextId)
    && (forall k :: k in s.customers ==> k < s.nextId)
    && (forall k :: k in s.drivers ==> k < s.nextId)
    && (forall k :: k in s.partners ==> k < s.nextId)
    && (forall k :: k in s.users ==> k < s.nextId)
  }

  /** `deleteMany(filter)`: the documents the filter does not match, unchanged. */
  function DeleteMany<V>(m: map<Id, V>, matches: V -> bool): (r: map<Id, V>)
    ensures forall k :: k in r <==> k in m && !matches(m[k])
    ensures forall k :: k in r ==> r[k] == m[k]
  {
    map k | k in m && !matches(m[k]) :: m[k]
  }

  /** `findByIdAndDelete(id)` where the id may be undefined (then nothing is
      deleted). */
  function DeleteById<V>(m: map<Id, V>, id: Option<Id>): (r: map<Id, V>)
    ensures forall k :: k in r <==> k in m && id != Some(k)
    ensures forall k :: k in r ==> r[k] == m[k]
  {
    if id.Some? then m - {id.value} else m
  }

  /** `findById(id)` where the id may be undefined: true when a document comes back. */
  predicate Found<V>(m: map<Id, V>, id: Option<Id>)
  {
    id.Some? && id.value in m
  }

  class Database {
    var bookings: map<Id, Booking>
    var cars: map<Id, Car>
    var notifications: map<Id, Notification>
    var customers: map<Id, Customer>
    var drivers: map<Id, Driver>
    var partners: map<Id, Partner>
    var users: map<Id, User>
    var nextId: nat

    /** The driver schema's default for `availabilityStatus`; that schema is not
        part of this model, so the value is a parameter. */
    const driverAvailabilityDefault: bool

    ghost function Snapshot(): State
      reads this
    {
      State(bookings, cars, notifications, customers, drivers, partners, users, nextId)
    }

    ghost predicate Valid()
      reads this
    {
      IdsBelowCounter(Snapshot())
    }

    constructor (driverAvailabilityDefault: bool)
      ensures Valid()
      ensures Snapshot() == State(map[], map[], map[], map[], map[], map[], map[], 0)
      ensures this.driverAvailabilityDefault == driverAvailabilityDefault
    {
      bookings, cars, notifications := map[], map[], map[];
      customers, drivers, partners, users := map[], map[], map[], map[];
      nextId := 0;
      this.driverAvailabilityDefault := driverAvailabilityDefault;
    }

    /** A new ObjectId, distinct from every id in use. */
    method NewId() returns (id: Id)
      requires Valid()
      modifies this`nextId
      ensures id == old(nextId) && nextId == id + 1
      ensures Valid()
      ensures id !in bookings && id !in cars && id !in notifications && id !in customers
      ensures id !in drivers && id !in partners && id !in users
    {
      id := nextId;
      nextId := nextId + 1;
    }
  }
}
