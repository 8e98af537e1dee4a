/**
 * The relational store the services work against: the booking table, the
 * property table and the user table, with the ids the store generates
 * (JPA `GenerationType.IDENTITY`). `Db` is its value; `Database` is the
 * mutable store the service methods change.
 */
module Persistence {
  import opened Exceptions
  import opened Entities
  import opened BookingRepository

  datatype Db = Db(
    bookings: Store,
    properties: map<Id, Property>,
    users: map<Id, User>,
    nextBookingId: Id,
    nextPropertyId: Id)

  /**
   * What the store guarantees: every row is keyed by its id, generated ids
   * are fresh, and every reference (a booking's property and user, a
   * property's manager and owner) resolves (the foreign keys).
   */
  ghost predicate ValidDb(db: Db)
  {
    && KeyedById(db.bookings)
    && (forall id | id in db.bookings ::
          id < db.nextBookingId && db.bookings[id].propertyId in db.properties && db.bookings[id].userId in db.users)
    && (forall id | id in db.properties ::
          db.properties[id].id == id && id < db.nextPropertyId &&
          db.properties[id].managerId in db.users && db.properties[id].ownerId in db.users)
    && (forall id | id in db.users :: db.users[id].id == id)
  }

  /** The store after a successful operation, and what the operation returned. */
  datatype Committed<T> = Committed(db: Db, value: T)

  /**
   * A method realizes the specification of its operation when it returns
   * what the specification returns and leaves the store as the
   * specification says: the committed store on success, the store it
   * started from when the operation throws.
   */
  ghost predicate Realizes<T>(spec: Result<Committed<T>>, before: Db, after: Db, r: Result<T>)
  {
    match spec
    case Ok(c) => r == Ok(c.value) && after == c.db
    case Err(e) => r == Err(e) && after == before
  }

  class Database {
    var bookings: Store
    var properties: map<Id, Property>
    var users: map<Id, User>
    var nextBookingId: Id
    var nextPropertyId: Id

    function State(): Db
      reads this
    {
      Db(bookings, properties, users, nextBookingId, nextPropertyId)
    }

    ghost predicate Valid()
      reads this
    {
      ValidDb(State())
    }

    /** An empty booking and property store over a table of registered users. */
    constructor (registered: map<Id, User>)
      requires forall id | id in registered :: registered[id].id == id
      ensures Valid()
      ensures State() == Db(map[], map[], registered, 1, 1)
    {
      bookings, properties, users := map[], map[], registered;
      nextBookingId, nextPropertyId := 1, 1;
    }

    /** `save` of a new booking: the store assigns the next id. */
    method SaveNewBooking(b: Booking) returns (saved: Booking)
      modifies this
      ensures saved == b.(id := old(nextBookingId))
      ensures State() == old(State()).(bookings := old(bookings)[saved.id := saved], nextBookingId := old(nextBookingId) + 1)
    {
      saved := b.(id := nextBookingId);
      bookings := bookings[saved.id := saved];
      nextBookingId := nextBookingId + 1;
    }

    /** `save` of a managed booking: its row is overwritten. */
    method SaveBooking(b: Booking)
      modifies this
      ensures State() == old(State()).(bookings := old(bookings)[b.id := b])
    {
      bookings := bookings[b.id := b];
    }

    /** `delete` of a booking: its row is removed. */
    method DeleteBooking(b: Booking)
      modifies this
      ensures State() == old(State()).(bookings := old(bookings) - {b.id})
    {
      bookings := bookings - {b.id};
    }

    /** `deleteAll`: the rows of all the given bookings are removed. */
    method DeleteAllBookings(bs: set<Booking>)
      modifies this
      ensures State() == old(State()).(bookings := old(bookings) - (set b | b in bs :: b.id))
    {
      bookings := bookings - (set b | b in bs :: b.id);
    }

    /** `save` of a new property: the store assigns the next id. */
    method SaveNewProperty(p: Property) returns (saved: Property)
      modifies this
      ensures saved == p.(id := old(nextPropertyId))
      ensures State() == old(State()).(properties := old(properties)[saved.id := saved], nextPropertyId := old(nextPropertyId) + 1)
    {
      saved := p.(id := nextPropertyId);
      properties := properties[saved.id := saved];
      nextPropertyId := nextPropertyId + 1;
    }
  }
}
