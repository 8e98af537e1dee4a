/**
 * The property service: the lookup the booking service uses, property
 * creation, and the count of a property's ACTIVE bookings that its
 * response carries.
 */
module PropertyService {
  import opened Exceptions
  import opened Entities
  import opened Dtos
  import opened BookingRepository
  import opened Persistence
  import opened UserService

  const MsgPropertyNotFound := "Property not found"

  /** `findById`: the stored property, or `EntityNotFoundException` when there is none. */
  function FindById(properties: map<Id, Property>, id: Id): (r: Result<Property>)
    ensures r.Ok? <==> id in properties
    ensures r.Ok? ==> r.value == properties[id]
    ensures r.Err? ==> r.error == EntityNotFoundException(MsgPropertyNotFound)
  {
    if id in properties then Ok(properties[id]) else Err(EntityNotFoundException(MsgPropertyNotFound))
  }

  /** The number of bookings in the list with the given status (the stream's `filter(...).count()`). */
  function CountWithStatus(bookings: seq<Booking>, status: BookingStatus): (n: nat)
    ensures n <= |bookings|
    ensures n == 0 <==> forall i | 0 <= i < |bookings| :: bookings[i].status != status
    ensures n == |bookings| <==> forall i | 0 <= i < |bookings| :: bookings[i].status == status
  {
    if bookings == [] then 0
    else (if bookings[0].status == status then 1 else 0) + CountWithStatus(bookings[1..], status)
  }

  /**
   * `getBookingsFromPropertyWithStatus`: 0 for a null or empty back-reference
   * list, otherwise the number of its bookings with the status.
   */
  function GetBookingsFromPropertyWithStatus(bookings: Option<seq<Booking>>, status: BookingStatus): (count: nat)
    ensures bookings.None? || bookings == Some([]) ==> count == 0
    ensures bookings.Some? ==> count <= |bookings.value|
    ensures count > 0 <==> bookings.Some? && exists i | 0 <= i < |bookings.value| :: bookings.value[i].status == status
    ensures bookings.Some? ==> count == CountWithStatus(bookings.value, status)
  {
    if bookings.None? || |bookings.value| == 0 then 0 else CountWithStatus(bookings.value, status)
  }

  lemma {:induction false} CountAppend(a: seq<Booking>, b: seq<Booking>, status: BookingStatus)
    ensures CountWithStatus(a + b, status) == CountWithStatus(a, status) + CountWithStatus(b, status)
  {
    if a == [] {
      assert a + b == b;
    } else {
      assert (a + b)[0] == a[0];
      assert (a + b)[1..] == a[1..] + b;
      CountAppend(a[1..], b, status);
    }
  }

  /** Every booking has exactly one of the three statuses, so the three counts add up to the list's length. */
  lemma {:induction false} CountPartition(bookings: seq<Booking>)
    ensures CountWithStatus(bookings, ACTIVE) + CountWithStatus(bookings, BLOCKED) + CountWithStatus(bookings, CANCELED)
            == |bookings|
  {
    if bookings != [] {
      CountPartition(bookings[1..]);
    }
  }

  /** On a list without repetitions the count is the number of distinct bookings with the status. */
  lemma {:induction false} CountIsSizeOfMatchingSet(bookings: seq<Booking>, status: BookingStatus)
    requires forall i, j | 0 <= i < j < |bookings| :: bookings[i] != bookings[j]
    ensures CountWithStatus(bookings, status) == |set b | b in bookings && b.status == status|
  {
    if bookings != [] {
      var rest := bookings[1..];
      CountIsSizeOfMatchingSet(rest, status);
      assert bookings[0] !in rest by {
        forall k | 0 <= k < |rest| ensures rest[k] != bookings[0] {
          assert rest[k] == bookings[k + 1];
        }
      }
      MatchingSetOfCons(bookings, status);
    }
  }

  lemma MatchingSetOfCons(bookings: seq<Booking>, status: BookingStatus)
    requires bookings != [] && bookings[0] !in bookings[1..]
    ensures |set b | b in bookings && b.status == status|
            == (if bookings[0].status == status then 1 else 0) + |set b | b in bookings[1..] && b.status == status|
  {
    var rest := bookings[1..];
    var all := set b | b in bookings && b.status == status;
    var tail := set b | b in rest && b.status == status;
    var head: set<Booking> := if bookings[0].status == status then {bookings[0]} else {};
    assert bookings == [bookings[0]] + rest;
    assert all == head + tail;
    assert head !! tail;
  }

  /**
   * The active count over the property's back-reference list (every stored
   * booking of the property, each once) equals the number of bookings the
   * repository holds for that property with that status.
   */
  lemma CountMatchesRepository(store: Store, propertyId: Id, bookings: seq<Booking>, status: BookingStatus)
    requires forall i, j | 0 <= i < j < |bookings| :: bookings[i] != bookings[j]
    requires forall b :: b in bookings <==> Stored(store, b) && b.propertyId == propertyId
    ensures GetBookingsFromPropertyWithStatus(Some(bookings), status)
            == |FindByPropertyIdAndStatus(store, propertyId, status)|
  {
    CountIsSizeOfMatchingSet(bookings, status);
    assert (set b | b in bookings && b.status == status) == FindByPropertyIdAndStatus(store, propertyId, status);
  }

  /** `create`: look up the manager, then the owner, and store a new property referring to both. */
  function CreateSpec(db: Db, dto: PropertyDto): (r: Result<Committed<Property>>)
    ensures r.Ok? ==> r.value.value.id in r.value.db.properties && r.value.db.properties[r.value.value.id] == r.value.value
    ensures r.Ok? ==> r.value.db.users == db.users && r.value.db.bookings == db.bookings
  {
    var manager :- FindUserById(db.users, dto.managerId);
    var owner :- FindUserById(db.users, dto.ownerId);
    var prop := Property(db.nextPropertyId, dto.description, manager.id, owner.id);
    Ok(Committed(db.(properties := db.properties[prop.id := prop], nextPropertyId := db.nextPropertyId + 1), prop))
  }

  /**
   * Creation fails exactly when the manager id or the owner id is unknown
   * (the manager is looked up first); on success it adds one property,
   * under a fresh id, whose manager and owner are the users looked up, and
   * changes nothing else.
   */
  lemma CreateSpecEffect(db: Db, dto: PropertyDto)
    requires ValidDb(db)
    ensures var r := CreateSpec(db, dto);
            && (r.Ok? <==> dto.managerId in db.users && dto.ownerId in db.users)
            && (dto.managerId !in db.users ==> r == Err(EntityNotFoundException(MsgUserNotFound)))
            && (r.Ok? ==>
                  && r.value.value.managerId == db.users[dto.managerId].id
                  && r.value.value.ownerId == db.users[dto.ownerId].id
                  && r.value.value.description == dto.description
                  && r.value.value.id !in db.properties
                  && r.value.db == db.(properties := db.properties[r.value.value.id := r.value.value],
                                       nextPropertyId := db.nextPropertyId + 1)
                  && ValidDb(r.value.db))
  {
  }

  /** `create`, step by step against the store. */
  method Create(db: Database, dto: PropertyDto) returns (r: Result<Property>)
    requires db.Valid()
    modifies db
    ensures db.Valid()
    ensures Realizes(CreateSpec(old(db.State()), dto), old(db.State()), db.State(), r)
  {
    CreateSpecEffect(db.State(), dto);
    var manager :- FindUserById(db.users, dto.managerId);
    var owner :- FindUserById(db.users, dto.ownerId);
    var prop := db.SaveNewProperty(Property(0, dto.description, manager.id, owner.id));
    r := Ok(prop);
  }
}
