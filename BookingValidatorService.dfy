/**
 * The booking validator: checks that either pass or throw
 * `BusinessException`, and the one check with a side effect, which
 * deletes the canceled bookings a new block covers.
 */
module BookingValidatorService {
  import opened Exceptions
  import opened Entities
  import opened Dtos
  import opened BookingRepository
  import opened Persistence

  const MsgOnlyGuest := "Only users of type GUEST can request a booking!"
  const MsgNotAvailable := "Booking not available for this property in this date."
  const MsgBadDates := "StartDate must be before EndDate"
  const MsgAlreadyCanceled := "The Booking is already canceled"
  const MsgMustBeCanceled := "The booking must be canceled perform this action"
  const MsgCannotBlock := "It's not possible to Block this booking"
  const MsgBlockForbidden := "This user is not able to create/update a block for this property"
  const MsgHasActiveOrBlocked := "The property has active bookings or blocks between these dates"
  const MsgCannotChange := "User not able to change this booking"
  const MsgMustBeBlocked := "The booking must be with status Blocked to be deleted"

  /** `validateUserInformedIsTypeGuest`: only a GUEST passes. */
  function ValidateUserInformedIsTypeGuest(user: User): (o: Outcome)
    ensures o.Fail? <==> user.userType != GUEST
    ensures o.Fail? ==> o.error == BadRequest(MsgOnlyGuest)
  {
    if user.userType != GUEST then Fail(BadRequest(MsgOnlyGuest)) else Pass
  }

  /**
   * `validateBlocksFromProperty`: fails when some ACTIVE or BLOCKED booking
   * of the property holds the requested start or end and none of those
   * bookings has the given id. A matching booking with that id therefore
   * lets the check pass even when other bookings match too; a null id
   * (`None`) equals no id.
   */
  function ValidateBlocksFromProperty(store: Store, bookingId: Option<Id>, startDate: Day, endDate: Day, propertyId: Id): (o: Outcome)
    ensures o.Fail? <==>
              && (exists id | id in store :: Blocking(store[id], propertyId, startDate, endDate))
              && (forall id | id in store && Blocking(store[id], propertyId, startDate, endDate) ::
                    bookingId != Some(store[id].id))
    ensures o.Fail? ==> o.error == BadRequest(MsgNotAvailable)
  {
    var blocks := FindBlocksFromPropertyBetweenDates(store, propertyId, startDate, endDate);
    if blocks != {} && (forall b | b in blocks :: bookingId != Some(b.id)) then Fail(BadRequest(MsgNotAvailable))
    else Pass
  }

  /** `validateBookingDates`: the start must not be after the end. */
  function ValidateBookingDates(startDate: Day, endDate: Day): (o: Outcome)
    ensures o.Fail? <==> endDate < startDate
    ensures o.Fail? ==> o.error == BadRequest(MsgBadDates)
  {
    if startDate > endDate then Fail(BadRequest(MsgBadDates)) else Pass
  }

  /**
   * `validateBookingPersistence`: the availability check, then the date
   * check. It fails when either fails, and when both would, the
   * availability error is the one raised.
   */
  function ValidateBookingPersistence(store: Store, bookingId: Option<Id>, startDate: Day, endDate: Day, propertyId: Id): (o: Outcome)
    ensures o.Fail? <==> ValidateBlocksFromProperty(store, bookingId, startDate, endDate, propertyId).Fail? || endDate < startDate
    ensures ValidateBlocksFromProperty(store, bookingId, startDate, endDate, propertyId).Fail? ==>
              o.error == BadRequest(MsgNotAvailable)
    ensures ValidateBlocksFromProperty(store, bookingId, startDate, endDate, propertyId).Pass? && endDate < startDate ==>
              o.error == BadRequest(MsgBadDates)
  {
    var available := ValidateBlocksFromProperty(store, bookingId, startDate, endDate, propertyId);
    if available.Fail? then available else ValidateBookingDates(startDate, endDate)
  }

  /** `validateBookingIsAlreadyCanceled`: a CANCELED booking fails. */
  function ValidateBookingIsAlreadyCanceled(booking: Booking): (o: Outcome)
    ensures o.Fail? <==> booking.status == CANCELED
    ensures o.Fail? ==> o.error == BadRequest(MsgAlreadyCanceled)
  {
    if booking.status == CANCELED then Fail(BadRequest(MsgAlreadyCanceled)) else Pass
  }

  /** `validateBookingMustBeCanceledToRebook`: anything but a CANCELED booking fails. */
  function ValidateBookingMustBeCanceledToRebook(booking: Booking): (o: Outcome)
    ensures o.Fail? <==> booking.status != CANCELED
    ensures o.Fail? ==> o.error == BadRequest(MsgMustBeCanceled)
  {
    if booking.status != CANCELED then Fail(BadRequest(MsgMustBeCanceled)) else Pass
  }

  /** For any booking exactly one of the two cancellation checks throws. */
  lemma ExactlyOneCancellationCheckFails(booking: Booking)
    ensures ValidateBookingIsAlreadyCanceled(booking).Fail? != ValidateBookingMustBeCanceledToRebook(booking).Fail?
  {
  }

  /**
   * `validateBookingStatusChangingToBlocked`: a request that would turn a
   * booking that is not BLOCKED into a BLOCKED one fails; every other
   * requested status passes.
   */
  function ValidateBookingStatusChangingToBlocked(status: BookingStatus, booking: Booking): (o: Outcome)
    ensures o.Fail? <==> status == BLOCKED && booking.status != BLOCKED
    ensures o.Fail? ==> o.error == BadRequest(MsgCannotBlock)
  {
    var statusChanged := booking.status != status;
    if status == BLOCKED && statusChanged then Fail(BadRequest(MsgCannotBlock)) else Pass
  }

  /** `verifyUserHasPermissionToBlock`: the user is the property's manager or its owner. */
  function VerifyUserHasPermissionToBlock(property: Property, user: User): (allowed: bool)
    ensures allowed <==> user.id == property.managerId || user.id == property.ownerId
  {
    user.id in [property.managerId, property.ownerId]
  }

  /** `validateUserHasPermissionToBlock`: FORBIDDEN unless the user manages or owns the property. */
  function ValidateUserHasPermissionToBlock(user: User, property: Property): (o: Outcome)
    ensures o.Fail? <==> user.id != property.managerId && user.id != property.ownerId
    ensures o.Fail? ==> o.error == BusinessException(MsgBlockForbidden, FORBIDDEN)
  {
    if !VerifyUserHasPermissionToBlock(property, user) then Fail(BusinessException(MsgBlockForbidden, FORBIDDEN))
    else Pass
  }

  /** The bookings of the block's property, with a status in the list, that hold the block's start or end. */
  function FindBookingsFromPropertyBetweenDatesWithStatus(store: Store, block: BlockDto, statuses: set<BookingStatus>): (r: set<Booking>)
    ensures forall b | b in r ::
              Stored(store, b) && b.propertyId == block.propertyId && b.status in statuses &&
              MatchesRange(b, block.startDate, block.endDate)
    ensures forall id | id in store && store[id].propertyId == block.propertyId && store[id].status in statuses &&
                        MatchesRange(store[id], block.startDate, block.endDate) ::
              store[id] in r
  {
    FindBookingsFromPropertyBetweenDates(store, block.propertyId, block.startDate, block.endDate, statuses)
  }

  /**
   * `validatePropertyHasActiveOrBlockedBookings`: fails exactly when some
   * ACTIVE or BLOCKED booking of the block's property holds the block's
   * start or end. Being a function, it cannot change the store.
   */
  function ValidatePropertyHasActiveOrBlockedBookings(store: Store, block: BlockDto): (o: Outcome)
    ensures o.Fail? <==> exists id | id in store :: Blocking(store[id], block.propertyId, block.startDate, block.endDate)
    ensures o.Fail? ==> o.error == BadRequest(MsgHasActiveOrBlocked)
  {
    var hasActiveBookingsThatDates := FindBookingsFromPropertyBetweenDatesWithStatus(store, block, {ACTIVE, BLOCKED}) != {};
    if hasActiveBookingsThatDates then Fail(BadRequest(MsgHasActiveOrBlocked)) else Pass
  }

  /** A CANCELED booking of the block's property that holds the block's start or end. */
  predicate EvictedBy(b: Booking, block: BlockDto)
  {
    b.propertyId == block.propertyId && b.status == CANCELED && MatchesRange(b, block.startDate, block.endDate)
  }

  /**
   * The store after the eviction `validatePropertyHasCanceledBookings`
   * performs: exactly the CANCELED bookings of the block's property that
   * hold the block's start or end are gone; every other row is kept as it
   * was, and nothing is deleted when there are none.
   */
  function EvictCanceledBookings(store: Store, block: BlockDto): (r: Store)
    requires KeyedById(store)
    ensures KeyedById(r)
    ensures forall id | id in store :: id in r <==> !EvictedBy(store[id], block)
    ensures forall id | id in r :: id in store && r[id] == store[id]
    ensures (forall id | id in store :: !EvictedBy(store[id], block)) ==> r == store
  {
    var canceledBookings := FindBookingsFromPropertyBetweenDatesWithStatus(store, block, {CANCELED});
    if canceledBookings == {} then store
    else
      CanceledIdsAreEvicted(store, block);
      store - (set b | b in canceledBookings :: b.id)
  }

  /**
   * Eviction follows the range query, so a CANCELED booking lying strictly
   * inside the block's range is kept, as is every booking of another
   * property or with another status.
   */
  lemma EvictionKeepsContainedAndUnrelated(store: Store, block: BlockDto, id: Id)
    requires KeyedById(store) && id in store
    requires StrictlyInside(store[id], block.startDate, block.endDate) ||
             store[id].propertyId != block.propertyId || store[id].status != CANCELED
    ensures id in EvictCanceledBookings(store, block)
    ensures EvictCanceledBookings(store, block)[id] == store[id]
  {
  }

  lemma CanceledIdsAreEvicted(store: Store, block: BlockDto)
    requires KeyedById(store)
    ensures var canceledBookings := FindBookingsFromPropertyBetweenDatesWithStatus(store, block, {CANCELED});
            forall id | id in store :: id in (set b | b in canceledBookings :: b.id) <==> EvictedBy(store[id], block)
  {
    var canceledBookings := FindBookingsFromPropertyBetweenDatesWithStatus(store, block, {CANCELED});
    forall id | id in store
      ensures id in (set b | b in canceledBookings :: b.id) <==> EvictedBy(store[id], block)
    {
      if id in (set b | b in canceledBookings :: b.id) {
        var b :| b in canceledBookings && b.id == id;
        StoredUnderItsId(store, b);
      }
    }
  }

  /**
   * `validatePropertyHasCanceledBookings`: never throws; deletes the
   * CANCELED bookings the block covers (with a `deleteAll` only when there
   * are some) and changes nothing else.
   */
  method ValidatePropertyHasCanceledBookings(db: Database, block: BlockDto)
    requires db.Valid()
    modifies db
    ensures db.Valid()
    ensures db.State() == old(db.State()).(bookings := EvictCanceledBookings(old(db.bookings), block))
  {
    var canceledBookings := FindBookingsFromPropertyBetweenDatesWithStatus(db.bookings, block, {CANCELED});
    if canceledBookings != {} {
      db.DeleteAllBookings(canceledBookings);
    }
  }

  /**
   * `validateUserCanUpdateBooking`: FORBIDDEN unless the user is the
   * booking's guest or the manager or the owner of its property.
   */
  function ValidateUserCanUpdateBooking(userId: Id, booking: Booking, property: Property): (o: Outcome)
    requires property.id == booking.propertyId
    ensures o.Fail? <==> userId != booking.userId && userId != property.managerId && userId != property.ownerId
    ensures o.Fail? ==> o.error == BusinessException(MsgCannotChange, FORBIDDEN)
  {
    var userConditionsToAllow := [userId == booking.userId, userId == property.managerId, userId == property.ownerId];
    if true !in userConditionsToAllow then Fail(BusinessException(MsgCannotChange, FORBIDDEN)) else Pass
  }

  /** `validateBookingIsBlocked`: anything but a BLOCKED booking fails. */
  function ValidateBookingIsBlocked(booking: Booking): (o: Outcome)
    ensures o.Fail? <==> booking.status != BLOCKED
    ensures o.Fail? ==> o.error == BadRequest(MsgMustBeBlocked)
  {
    if booking.status != BLOCKED then Fail(BadRequest(MsgMustBeBlocked)) else Pass
  }
}
