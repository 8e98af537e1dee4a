/**
 * What the booking lifecycle guarantees across operations, and what it
 * does not: the availability guarantee a successful create gives, the
 * cancel/rebook cycle, the integration scenario of the repository's own
 * test suite, and the inputs that show where "no two ACTIVE or BLOCKED
 * bookings of a property overlap" fails to hold.
 */
module BookingServiceProperties {
  import opened Exceptions
  import opened Entities
  import opened Dtos
  import opened BookingRepository
  import opened Persistence
  import opened BookingService
  import V = BookingValidatorService

  /** A booking that occupies its property: ACTIVE or BLOCKED. */
  predicate Occupies(b: Booking)
  {
    b.status == ACTIVE || b.status == BLOCKED
  }

  /** No two occupying bookings of the same property intersect. */
  ghost predicate NoOverlap(store: Store)
  {
    forall i, j | i in store && j in store && i != j ::
      store[i].propertyId == store[j].propertyId && Occupies(store[i]) && Occupies(store[j]) ==>
        !Overlaps(store[i], store[j].startDate, store[j].endDate)
  }

  // ---------------------------------------------------------------------
  // Admission
  // ---------------------------------------------------------------------

  /**
   * What a successful create guarantees about the store it was admitted
   * against: the dates are in order, and either no ACTIVE or BLOCKED
   * booking of the property holds the new start or end, or one of those
   * that does carries the payload's id.
   */
  lemma CreateAdmission(db: Db, dto: BookingDto)
    requires ValidDb(db)
    ensures CreateBookingSpec(db, dto).Ok? ==>
              && dto.startDate <= dto.endDate
              && ((forall id | id in db.bookings :: !Blocking(db.bookings[id], dto.propertyId, dto.startDate, dto.endDate))
                  || (exists id | id in db.bookings ::
                        Blocking(db.bookings[id], dto.propertyId, dto.startDate, dto.endDate) && dto.id == Some(id)))
  {
    CreateBookingSpecEffect(db, dto);
  }

  /**
   * When the payload carries no id, or an id no stored booking has, a
   * successful create leaves no ACTIVE or BLOCKED booking of the property
   * holding the new start or end.
   */
  lemma CreateWithFreshPayloadIdFindsRangeFree(db: Db, dto: BookingDto)
    requires ValidDb(db)
    requires dto.id.None? || dto.id.value !in db.bookings
    ensures CreateBookingSpec(db, dto).Ok? ==>
              forall id | id in db.bookings :: !Blocking(db.bookings[id], dto.propertyId, dto.startDate, dto.endDate)
  {
    CreateAdmission(db, dto);
  }

  /**
   * A request whose start is after its end never succeeds as a create, an
   * update or a rebook: if the availability check lets it through, the
   * date check refuses it.
   */
  lemma InvertedDatesAlwaysRejected(db: Db, id: Id, dto: BookingDto)
    requires ValidDb(db)
    requires dto.endDate < dto.startDate
    ensures CreateBookingSpec(db, dto).Err?
    ensures UpdateSpec(db, id, dto).Err?
    ensures RebookCanceledBookingSpec(db, id, dto).Err?
  {
    CreateBookingSpecEffect(db, dto);
    UpdateSpecEffect(db, id, dto);
    RebookCanceledBookingSpecEffect(db, id, dto);
  }

  /**
   * Creating with a payload id that no stored booking has keeps the store
   * free of overlaps, provided no ACTIVE or BLOCKED booking of the property
   * lies strictly inside the requested range (the case the range query
   * cannot see).
   */
  lemma CreatePreservesNoOverlap(db: Db, dto: BookingDto)
    requires ValidDb(db) && NoOverlap(db.bookings)
    requires dto.id.None? || dto.id.value !in db.bookings
    requires forall id | id in db.bookings && db.bookings[id].propertyId == dto.propertyId && Occupies(db.bookings[id]) ::
               !StrictlyInside(db.bookings[id], dto.startDate, dto.endDate)
    ensures CreateBookingSpec(db, dto).Ok? ==> NoOverlap(CreateBookingSpec(db, dto).value.db.bookings)
  {
    var r := CreateBookingSpec(db, dto);
    if r.Ok? {
      CreateBookingSpecEffect(db, dto);
      CreateWithFreshPayloadIdFindsRangeFree(db, dto);
      var b := r.value.value;
      var after := r.value.db.bookings;
      forall id | id in db.bookings && db.bookings[id].propertyId == dto.propertyId && Occupies(db.bookings[id])
        ensures !Overlaps(db.bookings[id], b.startDate, b.endDate) && !Overlaps(b, db.bookings[id].startDate, db.bookings[id].endDate)
      {
        MatchesRangeIsOverlapMinusContainment(db.bookings[id], dto.startDate, dto.endDate);
      }
      forall i, j | i in after && j in after && i != j
        ensures after[i].propertyId == after[j].propertyId && Occupies(after[i]) && Occupies(after[j]) ==>
                  !Overlaps(after[i], after[j].startDate, after[j].endDate)
      {
        if i != b.id && j != b.id {
          assert after[i] == db.bookings[i] && after[j] == db.bookings[j];
        }
      }
    }
  }

  // ---------------------------------------------------------------------
  // Cancel and rebook
  // ---------------------------------------------------------------------

  /** A booking just canceled cannot be canceled again. */
  lemma CancelTwiceFails(db: Db, payload: CancelBookingDto)
    requires ValidDb(db)
    requires CancelBookingSpec(db, payload).Ok?
    ensures ValidDb(CancelBookingSpec(db, payload).value.db)
    ensures CancelBookingSpec(CancelBookingSpec(db, payload).value.db, payload) == Err(BadRequest(V.MsgAlreadyCanceled))
  {
    CancelBookingSpecEffect(db, payload);
    CancelBookingSpecEffect(CancelBookingSpec(db, payload).value.db, payload);
  }

  /**
   * The user who canceled a booking can rebook it: the rebook then
   * succeeds exactly when the new dates pass the availability and date
   * checks, and gives back the original booking, ACTIVE (even if it had
   * been a block), with the new dates.
   */
  lemma CancelThenRebook(db: Db, payload: CancelBookingDto, rebook: BookingDto)
    requires ValidDb(db)
    requires CancelBookingSpec(db, payload).Ok?
    requires rebook.userId == payload.userId
    ensures var after := CancelBookingSpec(db, payload).value.db;
            var b := db.bookings[payload.bookingId];
            && ValidDb(after)
            && (RebookCanceledBookingSpec(after, payload.bookingId, rebook).Ok? <==>
                  V.ValidateBookingPersistence(after.bookings, rebook.id, rebook.startDate, rebook.endDate, b.propertyId).Pass?)
            && (RebookCanceledBookingSpec(after, payload.bookingId, rebook).Ok? ==>
                  RebookCanceledBookingSpec(after, payload.bookingId, rebook).value.value ==
                  b.(startDate := rebook.startDate, endDate := rebook.endDate, status := ACTIVE))
  {
    CancelBookingSpecEffect(db, payload);
    var after := CancelBookingSpec(db, payload).value.db;
    RebookCanceledBookingSpecEffect(after, payload.bookingId, rebook);
  }

  /** Rebooking a booking that was never canceled fails, whatever the payload. */
  lemma RebookRequiresCancellation(db: Db, id: Id, payload: BookingDto)
    requires ValidDb(db)
    requires id in db.bookings && db.bookings[id].status != CANCELED
    ensures RebookCanceledBookingSpec(db, id, payload) == Err(BadRequest(MsgMustBeCanceledToRebook))
    ensures V.ValidateBookingMustBeCanceledToRebook(db.bookings[id]).Fail?
  {
    RebookCanceledBookingSpecEffect(db, id, payload);
  }

  // ---------------------------------------------------------------------
  // The integration scenario
  // ---------------------------------------------------------------------

  /**
   * The initial data of the integration tests: user 1 is a GUEST, user 2
   * a MANAGER, user 3 an OWNER; properties 1, 2 and 3 are managed by
   * user 2 and owned by user 3; booking 1 is ACTIVE on property 1 for days 1..5
   * (December 1 to 5 of one year, as day numbers).
   */
  function Scenario(): Db
  {
    Db(
      map[1 := Booking(1, 1, 5, 1, ACTIVE, 1)],
      map[1 := Property(1, "property 1", 2, 3), 2 := Property(2, "property 2", 2, 3), 3 := Property(3, "property 3", 2, 3)],
      map[1 := User(1, "guest", GUEST), 2 := User(2, "manager", MANAGER), 3 := User(3, "owner", OWNER)],
      2, 4)
  }

  lemma ScenarioIsValid()
    ensures ValidDb(Scenario())
  {
  }

  /** A block over days 4..6 is refused while booking 1 is ACTIVE: day 4 lies in its range. */
  lemma ScenarioBlockOverActiveBookingRefused()
    ensures ValidDb(Scenario())
    ensures CreateBlockSpec(Scenario(), BlockDto(1, 4, 6, 2)) == Err(BadRequest(V.MsgHasActiveOrBlocked))
  {
    ScenarioIsValid();
    CreateBlockSpecEffect(Scenario(), BlockDto(1, 4, 6, 2));
    assert Blocking(Scenario().bookings[1], 1, 4, 6);
  }

  /** The guest cancels booking 1. */
  function ScenarioCanceled(): Db
  {
    Scenario().(bookings := map[1 := Booking(1, 1, 5, 1, CANCELED, 1)])
  }

  lemma ScenarioCancel()
    ensures ValidDb(Scenario())
    ensures CancelBookingSpec(Scenario(), CancelBookingDto(1, 1)) == Ok(Committed(ScenarioCanceled(), Booking(1, 1, 5, 1, CANCELED, 1)))
  {
    ScenarioIsValid();
    CancelBookingSpecEffect(Scenario(), CancelBookingDto(1, 1));
    assert Scenario().bookings[1 := Booking(1, 1, 5, 1, CANCELED, 1)] == ScenarioCanceled().bookings;
  }

  /** After the block over days 1..4 by the manager: booking 1 is gone, block 2 is stored. */
  function ScenarioBlocked(): Db
  {
    Scenario().(bookings := map[2 := Booking(2, 1, 4, 1, BLOCKED, 2)], nextBookingId := 3)
  }

  /**
   * With booking 1 canceled, the manager's block over days 1..4 succeeds
   * and deletes booking 1, while the guest's identical request is refused
   * with BAD_REQUEST.
   */
  lemma ScenarioBlockOverCanceledBooking()
    ensures ValidDb(ScenarioCanceled())
    ensures CreateBlockSpec(ScenarioCanceled(), BlockDto(1, 1, 4, 2)) ==
              Ok(Committed(ScenarioBlocked(), Booking(2, 1, 4, 1, BLOCKED, 2)))
    ensures CreateBlockSpec(ScenarioCanceled(), BlockDto(1, 1, 4, 1)) == Err(BusinessException(MsgBlockNotAllowed, BAD_REQUEST))
    ensures FindBookingById(ScenarioBlocked().bookings, 1).Err?
  {
    var db := ScenarioCanceled();
    assert ValidDb(db);
    var dto := BlockDto(1, 1, 4, 2);
    CreateBlockSpecEffect(db, dto);
    CreateBlockSpecEffect(db, BlockDto(1, 1, 4, 1));
    var kept := V.EvictCanceledBookings(db.bookings, dto);
    assert V.EvictedBy(db.bookings[1], dto);
    assert kept == map[];
  }

  /** The owner may then block days 6..7, which no stored booking touches. */
  lemma ScenarioOwnerBlocks()
    ensures ValidDb(ScenarioBlocked())
    ensures CreateBlockSpec(ScenarioBlocked(), BlockDto(1, 6, 7, 3)).Ok?
    ensures CreateBlockSpec(ScenarioBlocked(), BlockDto(1, 6, 7, 3)).value.value == Booking(3, 6, 7, 1, BLOCKED, 3)
  {
    var db := ScenarioBlocked();
    assert ValidDb(db);
    CreateBlockSpecEffect(db, BlockDto(1, 6, 7, 3));
  }

  /**
   * On property 2 the guest's booking of days 8..9 is created ACTIVE, while
   * the manager's and the owner's identical requests are refused as
   * non-guests before availability is looked at.
   */
  lemma ScenarioOnlyGuestsBook()
    ensures ValidDb(Scenario())
    ensures CreateBookingSpec(Scenario(), BookingDto(None, 8, 9, 2, ACTIVE, 1)).Ok?
    ensures CreateBookingSpec(Scenario(), BookingDto(None, 8, 9, 2, ACTIVE, 1)).value.value == Booking(2, 8, 9, 2, ACTIVE, 1)
    ensures CreateBookingSpec(Scenario(), BookingDto(None, 8, 9, 2, ACTIVE, 2)) == Err(BadRequest(V.MsgOnlyGuest))
    ensures CreateBookingSpec(Scenario(), BookingDto(None, 8, 9, 2, ACTIVE, 3)) == Err(BadRequest(V.MsgOnlyGuest))
  {
    ScenarioIsValid();
    CreateBookingSpecEffect(Scenario(), BookingDto(None, 8, 9, 2, ACTIVE, 1));
    CreateBookingSpecEffect(Scenario(), BookingDto(None, 8, 9, 2, ACTIVE, 2));
    CreateBookingSpecEffect(Scenario(), BookingDto(None, 8, 9, 2, ACTIVE, 3));
  }

  // ---------------------------------------------------------------------
  // Where the no-overlap property fails
  // ---------------------------------------------------------------------

  /**
   * The containment gap: with booking 1 (days 1..5) stored, the guest can
   * book days 0..6, which contains it, because neither day 0 nor day 6
   * lies in booking 1's range. The store then holds two overlapping ACTIVE
   * bookings of property 1.
   */
  lemma ContainmentGapAdmitsOverlap()
    ensures ValidDb(Scenario()) && NoOverlap(Scenario().bookings)
    ensures CreateBookingSpec(Scenario(), BookingDto(None, 0, 6, 1, ACTIVE, 1)).Ok?
    ensures !NoOverlap(CreateBookingSpec(Scenario(), BookingDto(None, 0, 6, 1, ACTIVE, 1)).value.db.bookings)
  {
    ScenarioIsValid();
    var dto := BookingDto(None, 0, 6, 1, ACTIVE, 1);
    CreateBookingSpecEffect(Scenario(), dto);
    var after := CreateBookingSpec(Scenario(), dto).value.db.bookings;
    assert after[1] == Booking(1, 1, 5, 1, ACTIVE, 1) && after[2] == Booking(2, 0, 6, 1, ACTIVE, 1);
  }

  /**
   * The containment gap for blocks: the manager can block days 0..6 around
   * the ACTIVE booking 1 (days 1..5), leaving an ACTIVE booking and a
   * BLOCKED one that overlap.
   */
  lemma ContainmentGapAdmitsOverlappingBlock()
    ensures ValidDb(Scenario())
    ensures CreateBlockSpec(Scenario(), BlockDto(1, 0, 6, 2)).Ok?
    ensures !NoOverlap(CreateBlockSpec(Scenario(), BlockDto(1, 0, 6, 2)).value.db.bookings)
  {
    ScenarioIsValid();
    var dto := BlockDto(1, 0, 6, 2);
    CreateBlockSpecEffect(Scenario(), dto);
    var after := CreateBlockSpec(Scenario(), dto).value.db.bookings;
    var kept := V.EvictCanceledBookings(Scenario().bookings, dto);
    assert 1 in kept;
    assert after[1] == Booking(1, 1, 5, 1, ACTIVE, 1) && after[2] == Booking(2, 0, 6, 1, BLOCKED, 2);
  }

  /** The scenario with a second booking of the guest on property 1, days 10..12, already CANCELED. */
  function ScenarioWithCanceled(): Db
  {
    Scenario().(bookings := map[1 := Booking(1, 1, 5, 1, ACTIVE, 1), 2 := Booking(2, 10, 12, 1, CANCELED, 1)],
                nextBookingId := 3)
  }

  /**
   * The containment gap for rebooking: the canceled booking 2 can be
   * rebooked over days 0..6, around the ACTIVE booking 1, leaving two
   * overlapping ACTIVE bookings.
   */
  lemma ContainmentGapAdmitsOverlappingRebook()
    ensures ValidDb(ScenarioWithCanceled())
    ensures RebookCanceledBookingSpec(ScenarioWithCanceled(), 2, BookingDto(None, 0, 6, 1, ACTIVE, 1)).Ok?
    ensures !NoOverlap(RebookCanceledBookingSpec(ScenarioWithCanceled(), 2, BookingDto(None, 0, 6, 1, ACTIVE, 1)).value.db.bookings)
  {
    var db := ScenarioWithCanceled();
    assert ValidDb(db);
    var dto := BookingDto(None, 0, 6, 1, ACTIVE, 1);
    RebookCanceledBookingSpecEffect(db, 2, dto);
    var after := RebookCanceledBookingSpec(db, 2, dto).value.db.bookings;
    assert after[1] == Booking(1, 1, 5, 1, ACTIVE, 1) && after[2] == Booking(2, 0, 6, 1, ACTIVE, 1);
  }

  /**
   * Self-exclusion uses the payload's id, not the id of the booking being
   * updated: moving booking 1 to days 2..6 without an id in the payload is
   * refused because booking 1 itself holds day 2; with its id in the
   * payload the same move goes through, and so does a move without an id
   * to days 10..12, which booking 1 does not hold.
   */
  lemma UpdateWithoutPayloadIdConflictsWithItself()
    ensures ValidDb(Scenario())
    ensures UpdateSpec(Scenario(), 1, BookingDto(None, 2, 6, 1, ACTIVE, 1)) == Err(BadRequest(V.MsgNotAvailable))
    ensures UpdateSpec(Scenario(), 1, BookingDto(Some(1), 2, 6, 1, ACTIVE, 1)).Ok?
    ensures UpdateSpec(Scenario(), 1, BookingDto(None, 10, 12, 1, ACTIVE, 1)).Ok?
  {
    ScenarioIsValid();
    assert Blocking(Scenario().bookings[1], 1, 2, 6);
    UpdateSpecEffect(Scenario(), 1, BookingDto(None, 2, 6, 1, ACTIVE, 1));
    UpdateSpecEffect(Scenario(), 1, BookingDto(Some(1), 2, 6, 1, ACTIVE, 1));
    UpdateSpecEffect(Scenario(), 1, BookingDto(None, 10, 12, 1, ACTIVE, 1));
  }

  /**
   * Self-exclusion by the payload's id: a create whose payload carries
   * booking 1's id is admitted over days 4..6 although booking 1 holds
   * day 4, and the store then holds two overlapping ACTIVE bookings.
   */
  lemma PayloadIdMasksConflict()
    ensures V.ValidateBookingPersistence(Scenario().bookings, None, 4, 6, 1).Fail?
    ensures CreateBookingSpec(Scenario(), BookingDto(Some(1), 4, 6, 1, ACTIVE, 1)).Ok?
    ensures !NoOverlap(CreateBookingSpec(Scenario(), BookingDto(Some(1), 4, 6, 1, ACTIVE, 1)).value.db.bookings)
  {
    ScenarioIsValid();
    var dto := BookingDto(Some(1), 4, 6, 1, ACTIVE, 1);
    assert Blocking(Scenario().bookings[1], 1, 4, 6);
    CreateBookingSpecEffect(Scenario(), dto);
    var after := CreateBookingSpec(Scenario(), dto).value.db.bookings;
    assert after[1] == Booking(1, 1, 5, 1, ACTIVE, 1) && after[2] == Booking(2, 4, 6, 1, ACTIVE, 1);
  }

  /**
   * Blocks skip the date check: the manager's block from day 9 back to day
   * 8 is stored, while the guest's booking with the same dates is refused
   * with the date error.
   */
  lemma BlockSkipsDateCheck()
    ensures ValidDb(Scenario())
    ensures CreateBlockSpec(Scenario(), BlockDto(1, 9, 8, 2)).Ok?
    ensures CreateBlockSpec(Scenario(), BlockDto(1, 9, 8, 2)).value.value == Booking(2, 9, 8, 1, BLOCKED, 2)
    ensures CreateBookingSpec(Scenario(), BookingDto(None, 9, 8, 1, ACTIVE, 1)) == Err(BadRequest(V.MsgBadDates))
  {
    ScenarioIsValid();
    CreateBlockSpecEffect(Scenario(), BlockDto(1, 9, 8, 2));
    CreateBookingSpecEffect(Scenario(), BookingDto(None, 9, 8, 1, ACTIVE, 1));
  }
}
