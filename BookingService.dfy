/**
 * The booking lifecycle: create, update, cancel, rebook and delete a
 * booking, and create an administrative block.
 *
 * Each operation is given twice. `<Op>Spec` is the pure transition: it
 * runs the checks in the order the service runs them and yields either
 * the first exception thrown or the committed store and the saved booking.
 * The method of the same name performs the operation step by step against
 * the mutable `Database` and is proved to realize its specification: same
 * result, and the store untouched when an exception is thrown.
 *
 * The service keeps private copies of several validator checks. Where the
 * copy is identical (guest-only, the availability and date checks, the
 * already-canceled and changing-to-BLOCKED checks, the active-or-blocked
 * check and the eviction of canceled bookings) the validator's definition
 * is used. The two copies that differ (permission to block and permission
 * to change a booking, which here throw BAD_REQUEST and, for the first, a
 * different message) are defined below.
 */
module BookingService {
  import opened Exceptions
  import opened Entities
  import opened Dtos
  import opened BookingRepository
  import opened Persistence
  import opened UserService
  import PS = PropertyService
  import V = BookingValidatorService

  const MsgBookingNotFound := "Booking not found"
  const MsgMustBeCanceledToRebook := "The booking must be canceled to rebook"
  const MsgBlockNotAllowed := "This user is not able to create a block for this property"

  /** `findBookingById`: the stored booking, or `EntityNotFoundException` when there is none. */
  function FindBookingById(store: Store, id: Id): (r: Result<Booking>)
    ensures r.Ok? <==> id in store
    ensures r.Ok? ==> r.value == store[id]
    ensures r.Err? ==> r.error == EntityNotFoundException(MsgBookingNotFound)
  {
    if id in store then Ok(store[id]) else Err(EntityNotFoundException(MsgBookingNotFound))
  }

  /** The service's `validateUserHasPermissionToBlock`: BAD_REQUEST unless the user manages or owns the property. */
  function ValidateUserHasPermissionToBlock(user: User, property: Property): (o: Outcome)
    ensures o.Fail? <==> user.id != property.managerId && user.id != property.ownerId
    ensures o.Fail? ==> o.error == BadRequest(MsgBlockNotAllowed)
  {
    if !V.VerifyUserHasPermissionToBlock(property, user) then Fail(BadRequest(MsgBlockNotAllowed)) else Pass
  }

  /**
   * The service's `validateUserCanUpdateBooking`: BAD_REQUEST unless the
   * user is the booking's guest or the manager or the owner of the
   * booking's property.
   */
  function ValidateUserCanUpdateBooking(userId: Id, booking: Booking, property: Property): (o: Outcome)
    requires property.id == booking.propertyId
    ensures o.Fail? <==> userId != booking.userId && userId != property.managerId && userId != property.ownerId
    ensures o.Fail? ==> o.error == BadRequest(V.MsgCannotChange)
  {
    var userConditionsToCancel := [userId == booking.userId, userId == property.managerId, userId == property.ownerId];
    if true !in userConditionsToCancel then Fail(BadRequest(V.MsgCannotChange)) else Pass
  }

  /**
   * The service's two permission checks reject exactly the users the
   * validator's reject; only the HTTP status (and, for blocks, the
   * message) of the exception differs.
   */
  lemma ServiceGuardsRejectLikeValidator(user: User, userId: Id, booking: Booking, property: Property)
    requires property.id == booking.propertyId
    ensures ValidateUserHasPermissionToBlock(user, property).Fail? == V.ValidateUserHasPermissionToBlock(user, property).Fail?
    ensures ValidateUserHasPermissionToBlock(user, property).Fail? ==>
              ValidateUserHasPermissionToBlock(user, property).error.httpStatus == BAD_REQUEST &&
              V.ValidateUserHasPermissionToBlock(user, property).error.httpStatus == FORBIDDEN
    ensures ValidateUserCanUpdateBooking(userId, booking, property).Fail? ==
              V.ValidateUserCanUpdateBooking(userId, booking, property).Fail?
    ensures ValidateUserCanUpdateBooking(userId, booking, property).Fail? ==>
              ValidateUserCanUpdateBooking(userId, booking, property).error ==
              V.ValidateUserCanUpdateBooking(userId, booking, property).error.(httpStatus := BAD_REQUEST)
  {
  }

  /** The property a stored booking refers to (the JPA `booking.getProperty()`). */
  function PropertyOf(db: Db, booking: Booking): (p: Property)
    requires ValidDb(db) && booking.id in db.bookings && db.bookings[booking.id] == booking
    ensures p == db.properties[booking.propertyId] && p.id == booking.propertyId
  {
    db.properties[booking.propertyId]
  }

  // ---------------------------------------------------------------------
  // The transitions
  // ---------------------------------------------------------------------

  /**
   * `createBooking`: look up the user and the property, admit only a GUEST,
   * run the availability check (excluding the payload's id) and the date
   * check, then insert a new ACTIVE booking under a fresh id.
   */
  function CreateBookingSpec(db: Db, dto: BookingDto): (r: Result<Committed<Booking>>)
    ensures r.Ok? ==> r.value.value.id in r.value.db.bookings && r.value.db.bookings[r.value.value.id] == r.value.value
    ensures r.Ok? ==> r.value.db.users == db.users && r.value.db.properties == db.properties
  {
    var user :- FindUserById(db.users, dto.userId);
    var property :- PS.FindById(db.properties, dto.propertyId);
    :- V.ValidateUserInformedIsTypeGuest(user);
    :- V.ValidateBookingPersistence(db.bookings, dto.id, dto.startDate, dto.endDate, property.id);
    var booking := Booking(db.nextBookingId, dto.startDate, dto.endDate, property.id, ACTIVE, user.id);
    Ok(Committed(db.(bookings := db.bookings[booking.id := booking], nextBookingId := db.nextBookingId + 1), booking))
  }

  /** `delete`: remove the booking with the id, whoever asks; only an unknown id fails. */
  function DeleteSpec(db: Db, id: Id): (r: Result<Committed<()>>)
    ensures r.Ok? <==> id in db.bookings
    ensures r.Ok? && KeyedById(db.bookings) ==> r.value.db.bookings == db.bookings - {id}
    ensures r.Ok? ==> r.value.db.users == db.users && r.value.db.properties == db.properties
  {
    var booking :- FindBookingById(db.bookings, id);
    Ok(Committed(db.(bookings := db.bookings - {booking.id}), ()))
  }

  /**
   * `update`: look up the booking, the payload's user and the payload's
   * property; check the payload's user against the booking as stored, then
   * the change to BLOCKED, then availability (excluding the payload's id)
   * and dates; finally copy user, property, dates and status from the
   * payload into the booking.
   */
  function UpdateSpec(db: Db, id: Id, dto: BookingDto): (r: Result<Committed<Booking>>)
    requires ValidDb(db)
    ensures r.Ok? ==> r.value.value.id in r.value.db.bookings && r.value.db.bookings[r.value.value.id] == r.value.value
    ensures r.Ok? ==> r.value.db.users == db.users && r.value.db.properties == db.properties
  {
    var booking :- FindBookingById(db.bookings, id);
    var user :- FindUserById(db.users, dto.userId);
    var prop :- PS.FindById(db.properties, dto.propertyId);
    :- ValidateUserCanUpdateBooking(dto.userId, booking, PropertyOf(db, booking));
    :- V.ValidateBookingStatusChangingToBlocked(dto.status, booking);
    :- V.ValidateBookingPersistence(db.bookings, dto.id, dto.startDate, dto.endDate, prop.id);
    var updated := booking.(userId := user.id, propertyId := prop.id, startDate := dto.startDate,
                            endDate := dto.endDate, status := dto.status);
    Ok(Committed(db.(bookings := db.bookings[updated.id := updated]), updated))
  }

  /**
   * `cancelBooking`: look up the booking, refuse one already CANCELED, check
   * the user, and set the status to CANCELED.
   */
  function CancelBookingSpec(db: Db, payload: CancelBookingDto): (r: Result<Committed<Booking>>)
    requires ValidDb(db)
    ensures r.Ok? ==> r.value.value.id in r.value.db.bookings && r.value.db.bookings[r.value.value.id] == r.value.value
    ensures r.Ok? ==> r.value.db.users == db.users && r.value.db.properties == db.properties
  {
    var booking :- FindBookingById(db.bookings, payload.bookingId);
    :- V.ValidateBookingIsAlreadyCanceled(booking);
    :- ValidateUserCanUpdateBooking(payload.userId, booking, PropertyOf(db, booking));
    var canceled := booking.(status := CANCELED);
    Ok(Committed(db.(bookings := db.bookings[canceled.id := canceled]), canceled))
  }

  /**
   * `rebookCanceledBooking`: only a CANCELED booking can be rebooked; after
   * the user check and the availability and date checks (on the booking's
   * own property, excluding the payload's id), it takes the payload's dates
   * and becomes ACTIVE again.
   */
  function RebookCanceledBookingSpec(db: Db, id: Id, payload: BookingDto): (r: Result<Committed<Booking>>)
    requires ValidDb(db)
    ensures r.Ok? ==> r.value.value.id in r.value.db.bookings && r.value.db.bookings[r.value.value.id] == r.value.value
    ensures r.Ok? ==> r.value.db.users == db.users && r.value.db.properties == db.properties
  {
    var booking :- FindBookingById(db.bookings, id);
    if booking.status == CANCELED then
      :- ValidateUserCanUpdateBooking(payload.userId, booking, PropertyOf(db, booking));
      :- V.ValidateBookingPersistence(db.bookings, payload.id, payload.startDate, payload.endDate, booking.propertyId);
      var rebooked := booking.(startDate := payload.startDate, endDate := payload.endDate, status := ACTIVE);
      Ok(Committed(db.(bookings := db.bookings[rebooked.id := rebooked]), rebooked))
    else
      Err(BadRequest(MsgMustBeCanceledToRebook))
  }

  /**
   * `createBlock`: look up the user and the property, admit only its
   * manager or owner, refuse when an ACTIVE or BLOCKED booking holds the
   * block's start or end, delete the CANCELED bookings that do, and insert
   * a BLOCKED booking under a fresh id. The block's dates are not checked.
   */
  function CreateBlockSpec(db: Db, dto: BlockDto): (r: Result<Committed<Booking>>)
    requires ValidDb(db)
    ensures r.Ok? ==> r.value.value.id in r.value.db.bookings && r.value.db.bookings[r.value.value.id] == r.value.value
    ensures r.Ok? ==> r.value.db.users == db.users && r.value.db.properties == db.properties
  {
    var user :- FindUserById(db.users, dto.userId);
    var property :- PS.FindById(db.properties, dto.propertyId);
    :- ValidateUserHasPermissionToBlock(user, property);
    :- V.ValidatePropertyHasActiveOrBlockedBookings(db.bookings, dto);
    var kept := V.EvictCanceledBookings(db.bookings, dto);
    var block := Booking(db.nextBookingId, dto.startDate, dto.endDate, property.id, BLOCKED, user.id);
    Ok(Committed(db.(bookings := kept[block.id := block], nextBookingId := db.nextBookingId + 1), block))
  }

  // ---------------------------------------------------------------------
  // What each transition does
  // ---------------------------------------------------------------------

  /**
   * Creation fails on an unknown user, then on an unknown property, then on
   * a user who is not a GUEST, before any availability or date check; it
   * succeeds exactly when all checks pass, and then inserts exactly one
   * ACTIVE booking with the requested dates, property and user under an id
   * not yet in the store.
   */
  lemma CreateBookingSpecEffect(db: Db, dto: BookingDto)
    requires ValidDb(db)
    ensures var r := CreateBookingSpec(db, dto);
            && (dto.userId !in db.users ==> r == Err(EntityNotFoundException(MsgUserNotFound)))
            && (dto.userId in db.users && dto.propertyId !in db.properties ==>
                  r == Err(EntityNotFoundException(PS.MsgPropertyNotFound)))
            && (dto.userId in db.users && dto.propertyId in db.properties && db.users[dto.userId].userType != GUEST ==>
                  r == Err(BadRequest(V.MsgOnlyGuest)))
            && (dto.userId in db.users && dto.propertyId in db.properties && db.users[dto.userId].userType == GUEST &&
                V.ValidateBookingPersistence(db.bookings, dto.id, dto.startDate, dto.endDate, dto.propertyId).Fail? ==>
                  r == Err(V.ValidateBookingPersistence(db.bookings, dto.id, dto.startDate, dto.endDate, dto.propertyId).error))
            && (r.Ok? <==>
                  && dto.userId in db.users && dto.propertyId in db.properties
                  && db.users[dto.userId].userType == GUEST
                  && V.ValidateBookingPersistence(db.bookings, dto.id, dto.startDate, dto.endDate, dto.propertyId).Pass?)
            && (r.Ok? ==>
                  && r.value.value == Booking(db.nextBookingId, dto.startDate, dto.endDate, dto.propertyId, ACTIVE, dto.userId)
                  && r.value.value.id !in db.bookings
                  && r.value.db == db.(bookings := db.bookings[r.value.value.id := r.value.value],
                                       nextBookingId := db.nextBookingId + 1)
                  && ValidDb(r.value.db))
  {
    var r := CreateBookingSpec(db, dto);
    if r.Ok? {
      assert db.nextBookingId !in db.bookings;
    }
  }

  /** Deletion fails exactly on an unknown id; otherwise it removes that one row and changes nothing else. */
  lemma DeleteSpecEffect(db: Db, id: Id)
    requires ValidDb(db)
    ensures var r := DeleteSpec(db, id);
            && (r.Ok? <==> id in db.bookings)
            && (r.Err? ==> r.error == EntityNotFoundException(MsgBookingNotFound))
            && (r.Ok? ==> r.value.db == db.(bookings := db.bookings - {id}) && ValidDb(r.value.db))
  {
  }

  /**
   * Update fails on an unknown booking, user or property, in that order;
   * then on a user who is neither the stored booking's guest nor its
   * property's manager or owner (whatever property the payload names);
   * then on a request to turn a booking that is not BLOCKED into a BLOCKED
   * one; then on the availability and date checks for the payload's
   * property. On success the row keeps its id and takes user, property,
   * dates and status from the payload.
   */
  lemma UpdateSpecEffect(db: Db, id: Id, dto: BookingDto)
    requires ValidDb(db)
    ensures var r := UpdateSpec(db, id, dto);
            && (id !in db.bookings ==> r == Err(EntityNotFoundException(MsgBookingNotFound)))
            && (id in db.bookings && dto.userId !in db.users ==> r == Err(EntityNotFoundException(MsgUserNotFound)))
            && (id in db.bookings && dto.userId in db.users && dto.propertyId !in db.properties ==>
                  r == Err(EntityNotFoundException(PS.MsgPropertyNotFound)))
            && (id in db.bookings && dto.userId in db.users && dto.propertyId in db.properties ==>
                  var b := db.bookings[id];
                  var p := db.properties[b.propertyId];
                  && (dto.userId != b.userId && dto.userId != p.managerId && dto.userId != p.ownerId ==>
                        r == Err(BadRequest(V.MsgCannotChange)))
                  && ((dto.userId == b.userId || dto.userId == p.managerId || dto.userId == p.ownerId) &&
                      dto.status == BLOCKED && b.status != BLOCKED ==>
                        r == Err(BadRequest(V.MsgCannotBlock)))
                  && ((dto.userId == b.userId || dto.userId == p.managerId || dto.userId == p.ownerId) &&
                      !(dto.status == BLOCKED && b.status != BLOCKED) &&
                      V.ValidateBookingPersistence(db.bookings, dto.id, dto.startDate, dto.endDate, dto.propertyId).Fail? ==>
                        r == Err(V.ValidateBookingPersistence(db.bookings, dto.id, dto.startDate, dto.endDate, dto.propertyId).error))
                  && (r.Ok? <==>
                        && (dto.userId == b.userId || dto.userId == p.managerId || dto.userId == p.ownerId)
                        && !(dto.status == BLOCKED && b.status != BLOCKED)
                        && V.ValidateBookingPersistence(db.bookings, dto.id, dto.startDate, dto.endDate, dto.propertyId).Pass?))
            && (r.Ok? ==>
                  && r.value.value == Booking(id, dto.startDate, dto.endDate, dto.propertyId, dto.status, dto.userId)
                  && r.value.db == db.(bookings := db.bookings[id := r.value.value])
                  && ValidDb(r.value.db))
  {
  }

  /**
   * Cancellation fails on an unknown booking, then on one already CANCELED,
   * then on a user who is neither its guest nor its property's manager or
   * owner; on success only the status of that one row changes, to
   * CANCELED.
   */
  lemma CancelBookingSpecEffect(db: Db, payload: CancelBookingDto)
    requires ValidDb(db)
    ensures var r := CancelBookingSpec(db, payload);
            && (payload.bookingId !in db.bookings ==> r == Err(EntityNotFoundException(MsgBookingNotFound)))
            && (payload.bookingId in db.bookings ==>
                  var b := db.bookings[payload.bookingId];
                  var p := db.properties[b.propertyId];
                  && (b.status == CANCELED ==> r == Err(BadRequest(V.MsgAlreadyCanceled)))
                  && (b.status != CANCELED &&
                      payload.userId != b.userId && payload.userId != p.managerId && payload.userId != p.ownerId ==>
                        r == Err(BadRequest(V.MsgCannotChange)))
                  && (r.Ok? <==>
                        b.status != CANCELED &&
                        (payload.userId == b.userId || payload.userId == p.managerId || payload.userId == p.ownerId))
                  && (r.Ok? ==>
                        && r.value.value == b.(status := CANCELED)
                        && r.value.db == db.(bookings := db.bookings[payload.bookingId := b.(status := CANCELED)])
                        && ValidDb(r.value.db)))
  {
  }

  /**
   * Rebooking fails on an unknown booking, then on one that is not
   * CANCELED, then on the user check, then on the availability and date
   * checks for the booking's own property; on success the row takes the
   * payload's dates and becomes ACTIVE, keeping its id, user and property.
   */
  lemma RebookCanceledBookingSpecEffect(db: Db, id: Id, payload: BookingDto)
    requires ValidDb(db)
    ensures var r := RebookCanceledBookingSpec(db, id, payload);
            && (id !in db.bookings ==> r == Err(EntityNotFoundException(MsgBookingNotFound)))
            && (id in db.bookings ==>
                  var b := db.bookings[id];
                  var p := db.properties[b.propertyId];
                  && (b.status != CANCELED ==> r == Err(BadRequest(MsgMustBeCanceledToRebook)))
                  && (b.status == CANCELED &&
                      payload.userId != b.userId && payload.userId != p.managerId && payload.userId != p.ownerId ==>
                        r == Err(BadRequest(V.MsgCannotChange)))
                  && (b.status == CANCELED &&
                      (payload.userId == b.userId || payload.userId == p.managerId || payload.userId == p.ownerId) &&
                      V.ValidateBookingPersistence(db.bookings, payload.id, payload.startDate, payload.endDate,
                                                   b.propertyId).Fail? ==>
                        r == Err(V.ValidateBookingPersistence(db.bookings, payload.id, payload.startDate, payload.endDate,
                                                              b.propertyId).error))
                  && (r.Ok? <==>
                        && b.status == CANCELED
                        && (payload.userId == b.userId || payload.userId == p.managerId || payload.userId == p.ownerId)
                        && V.ValidateBookingPersistence(db.bookings, payload.id, payload.startDate, payload.endDate,
                                                        b.propertyId).Pass?)
                  && (r.Ok? ==>
                        && r.value.value == b.(startDate := payload.startDate, endDate := payload.endDate, status := ACTIVE)
                        && r.value.db == db.(bookings := db.bookings[id := r.value.value])
                        && ValidDb(r.value.db)))
  {
  }

  /**
   * Block creation fails on an unknown user, then on an unknown property,
   * then on a user who neither manages nor owns the property, and only
   * then on an ACTIVE or BLOCKED booking of the property holding the
   * block's start or end. On success exactly the CANCELED bookings holding
   * the block's start or end are deleted and one BLOCKED booking with the
   * block's dates is inserted under a fresh id.
   */
  lemma CreateBlockSpecEffect(db: Db, dto: BlockDto)
    requires ValidDb(db)
    ensures var r := CreateBlockSpec(db, dto);
            && (dto.userId !in db.users ==> r == Err(EntityNotFoundException(MsgUserNotFound)))
            && (dto.userId in db.users && dto.propertyId !in db.properties ==>
                  r == Err(EntityNotFoundException(PS.MsgPropertyNotFound)))
            && (dto.userId in db.users && dto.propertyId in db.properties ==>
                  var p := db.properties[dto.propertyId];
                  && (dto.userId != p.managerId && dto.userId != p.ownerId ==> r == Err(BadRequest(MsgBlockNotAllowed)))
                  && ((dto.userId == p.managerId || dto.userId == p.ownerId) &&
                      (exists id | id in db.bookings :: Blocking(db.bookings[id], dto.propertyId, dto.startDate, dto.endDate))
                      ==> r == Err(BadRequest(V.MsgHasActiveOrBlocked)))
                  && (r.Ok? <==>
                        (dto.userId == p.managerId || dto.userId == p.ownerId) &&
                        forall id | id in db.bookings :: !Blocking(db.bookings[id], dto.propertyId, dto.startDate, dto.endDate)))
            && (r.Ok? ==>
                  var block := Booking(db.nextBookingId, dto.startDate, dto.endDate, dto.propertyId, BLOCKED, dto.userId);
                  && r.value.value == block
                  && block.id !in db.bookings
                  && r.value.db == db.(bookings := V.EvictCanceledBookings(db.bookings, dto)[block.id := block],
                                       nextBookingId := db.nextBookingId + 1)
                  && ValidDb(r.value.db))
  {
    var r := CreateBlockSpec(db, dto);
    if r.Ok? {
      var kept := V.EvictCanceledBookings(db.bookings, dto);
      assert forall id | id in kept :: id in db.bookings && kept[id] == db.bookings[id];
      assert db.nextBookingId !in db.bookings;
    }
  }

  // ---------------------------------------------------------------------
  // The operations against the store
  // ---------------------------------------------------------------------

  /** `createBooking`. */
  method CreateBooking(db: Database, dto: BookingDto) returns (r: Result<Booking>)
    requires db.Valid()
    modifies db
    ensures db.Valid()
    ensures Realizes(CreateBookingSpec(old(db.State()), dto), old(db.State()), db.State(), r)
  {
    CreateBookingSpecEffect(db.State(), dto);
    var user :- FindUserById(db.users, dto.userId);
    var property :- PS.FindById(db.properties, dto.propertyId);
    :- V.ValidateUserInformedIsTypeGuest(user);
    :- V.ValidateBookingPersistence(db.bookings, dto.id, dto.startDate, dto.endDate, property.id);
    var booking := db.SaveNewBooking(Booking(0, dto.startDate, dto.endDate, property.id, ACTIVE, user.id));
    r := Ok(booking);
  }

  /** `delete`. */
  method Delete(db: Database, id: Id) returns (r: Result<()>)
    requires db.Valid()
    modifies db
    ensures db.Valid()
    ensures Realizes(DeleteSpec(old(db.State()), id), old(db.State()), db.State(), r)
  {
    DeleteSpecEffect(db.State(), id);
    var bookingToBeDeleted :- FindBookingById(db.bookings, id);
    db.DeleteBooking(bookingToBeDeleted);
    r := Ok(());
  }

  /** `update`: the setters on the managed booking, then `save`. */
  method Update(db: Database, id: Id, dto: BookingDto) returns (r: Result<Booking>)
    requires db.Valid()
    modifies db
    ensures db.Valid()
    ensures Realizes(UpdateSpec(old(db.State()), id, dto), old(db.State()), db.State(), r)
  {
    UpdateSpecEffect(db.State(), id, dto);
    var booking :- FindBookingById(db.bookings, id);
    var user :- FindUserById(db.users, dto.userId);
    var prop :- PS.FindById(db.properties, dto.propertyId);
    :- ValidateUserCanUpdateBooking(dto.userId, booking, db.properties[booking.propertyId]);
    :- V.ValidateBookingStatusChangingToBlocked(dto.status, booking);
    :- V.ValidateBookingPersistence(db.bookings, dto.id, dto.startDate, dto.endDate, prop.id);
    booking := booking.(userId := user.id);
    booking := booking.(propertyId := prop.id);
    booking := booking.(startDate := dto.startDate);
    booking := booking.(endDate := dto.endDate);
    booking := booking.(status := dto.status);
    db.SaveBooking(booking);
    r := Ok(booking);
  }

  /** `cancelBooking`: `setStatus(CANCELED)` on the managed booking, then `save`. */
  method CancelBooking(db: Database, payload: CancelBookingDto) returns (r: Result<Booking>)
    requires db.Valid()
    modifies db
    ensures db.Valid()
    ensures Realizes(CancelBookingSpec(old(db.State()), payload), old(db.State()), db.State(), r)
  {
    CancelBookingSpecEffect(db.State(), payload);
    var booking :- FindBookingById(db.bookings, payload.bookingId);
    :- V.ValidateBookingIsAlreadyCanceled(booking);
    :- ValidateUserCanUpdateBooking(payload.userId, booking, db.properties[booking.propertyId]);
    booking := booking.(status := CANCELED);
    db.SaveBooking(booking);
    r := Ok(booking);
  }

  /** `rebookCanceledBooking`: the new dates and `setStatus(ACTIVE)` on the managed booking, then `save`. */
  method RebookCanceledBooking(db: Database, id: Id, payload: BookingDto) returns (r: Result<Booking>)
    requires db.Valid()
    modifies db
    ensures db.Valid()
    ensures Realizes(RebookCanceledBookingSpec(old(db.State()), id, payload), old(db.State()), db.State(), r)
  {
    RebookCanceledBookingSpecEffect(db.State(), id, payload);
    var booking :- FindBookingById(db.bookings, id);
    if booking.status == CANCELED {
      :- ValidateUserCanUpdateBooking(payload.userId, booking, db.properties[booking.propertyId]);
      :- V.ValidateBookingPersistence(db.bookings, payload.id, payload.startDate, payload.endDate, booking.propertyId);
      booking := booking.(startDate := payload.startDate);
      booking := booking.(endDate := payload.endDate);
      booking := booking.(status := ACTIVE);
      db.SaveBooking(booking);
      r := Ok(booking);
    } else {
      r := Err(BadRequest(MsgMustBeCanceledToRebook));
    }
  }

  /** `createBlock`: the checks, the eviction of covered CANCELED bookings, then `save` of the new block. */
  method CreateBlock(db: Database, dto: BlockDto) returns (r: Result<Booking>)
    requires db.Valid()
    modifies db
    ensures db.Valid()
    ensures Realizes(CreateBlockSpec(old(db.State()), dto), old(db.State()), db.State(), r)
  {
    CreateBlockSpecEffect(db.State(), dto);
    var user :- FindUserById(db.users, dto.userId);
    var property :- PS.FindById(db.properties, dto.propertyId);
    :- ValidateUserHasPermissionToBlock(user, property);
    :- V.ValidatePropertyHasActiveOrBlockedBookings(db.bookings, dto);
    V.ValidatePropertyHasCanceledBookings(db, dto);
    var block := db.SaveNewBooking(Booking(0, dto.startDate, dto.endDate, property.id, BLOCKED, user.id));
    r := Ok(block);
  }
}
