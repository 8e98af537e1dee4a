/**
 * The booking repository's derived queries, as pure filters over the store
 * (a map from id to booking). The two JPQL range queries are the whole
 * notion of availability in the source: a stored booking is reported when
 * the requested start date or the requested end date lies inside the
 * booking's closed range. That is weaker than interval intersection: a
 * booking lying strictly inside the requested range is never reported.
 */
module BookingRepository {
  import opened Entities

  type Store = map<Id, Booking>

  /** The store is keyed by the entity's own id. */
  ghost predicate KeyedById(store: Store)
  {
    forall id | id in store :: store[id].id == id
  }

  /** The booking is a row of the store, under some key. */
  ghost predicate Stored(store: Store, b: Booking)
  {
    exists id | id in store :: store[id] == b
  }

  /** In a store keyed by id, every stored booking is found under its own id. */
  lemma StoredUnderItsId(store: Store, b: Booking)
    requires KeyedById(store) && Stored(store, b)
    ensures b.id in store && store[b.id] == b
  {
    var k :| k in store && store[k] == b;
  }

  /** `:day BETWEEN b.startDate AND b.endDate` (inclusive at both ends). */
  predicate Covers(b: Booking, day: Day)
  {
    b.startDate <= day <= b.endDate
  }

  /** The range test of both JPQL queries: the requested start or the requested end lies in the booking. */
  predicate MatchesRange(b: Booking, startDate: Day, endDate: Day)
  {
    Covers(b, startDate) || Covers(b, endDate)
  }

  /** Closed-interval intersection, the reference notion of overlap. */
  predicate Overlaps(b: Booking, startDate: Day, endDate: Day)
  {
    b.startDate <= endDate && startDate <= b.endDate
  }

  /** The booking lies strictly inside the requested range. */
  predicate StrictlyInside(b: Booking, startDate: Day, endDate: Day)
  {
    startDate < b.startDate && b.endDate < endDate
  }

  /** A booking that `findBlocksFromPropertyBetweenDates` reports for this property and range. */
  predicate Blocking(b: Booking, propertyId: Id, startDate: Day, endDate: Day)
  {
    b.propertyId == propertyId && b.status in {ACTIVE, BLOCKED} && MatchesRange(b, startDate, endDate)
  }

  /** Derived query: the bookings of a property with a given status. */
  function FindByPropertyIdAndStatus(store: Store, propertyId: Id, status: BookingStatus): (r: set<Booking>)
    ensures forall b | b in r :: Stored(store, b) && b.propertyId == propertyId && b.status == status
    ensures forall id | id in store && store[id].propertyId == propertyId && store[id].status == status ::
              store[id] in r
  {
    set id | id in store && store[id].propertyId == propertyId && store[id].status == status :: store[id]
  }

  /** `findBookingsFromPropertyBetweenDates`: the property's bookings with a status in the list whose range holds the requested start or end. */
  function FindBookingsFromPropertyBetweenDates(
    store: Store, propertyId: Id, startDate: Day, endDate: Day, statuses: set<BookingStatus>): (r: set<Booking>)
    ensures forall b | b in r ::
              Stored(store, b) && b.propertyId == propertyId && b.status in statuses && MatchesRange(b, startDate, endDate)
    ensures forall id | id in store && store[id].propertyId == propertyId && store[id].status in statuses &&
                        MatchesRange(store[id], startDate, endDate) ::
              store[id] in r
  {
    set id | id in store && store[id].propertyId == propertyId && store[id].status in statuses &&
             (store[id].startDate <= startDate <= store[id].endDate || store[id].startDate <= endDate <= store[id].endDate)
      :: store[id]
  }

  /** `findBlocksFromPropertyBetweenDates`: the same query with the status list fixed to ACTIVE and BLOCKED. */
  function FindBlocksFromPropertyBetweenDates(store: Store, propertyId: Id, startDate: Day, endDate: Day): (r: set<Booking>)
    ensures r == FindBookingsFromPropertyBetweenDates(store, propertyId, startDate, endDate, {ACTIVE, BLOCKED})
    ensures forall b | b in r :: Stored(store, b) && Blocking(b, propertyId, startDate, endDate)
    ensures forall id | id in store && Blocking(store[id], propertyId, startDate, endDate) :: store[id] in r
  {
    set id | id in store && store[id].propertyId == propertyId &&
             (store[id].status == ACTIVE || store[id].status == BLOCKED) &&
             (store[id].startDate <= startDate <= store[id].endDate || store[id].startDate <= endDate <= store[id].endDate)
      :: store[id]
  }

  /**
   * For a well-ordered request the range test is exactly "overlaps and is
   * not strictly inside": it never reports a disjoint booking, and the
   * only overlapping bookings it misses are the ones the request contains.
   */
  lemma MatchesRangeIsOverlapMinusContainment(b: Booking, startDate: Day, endDate: Day)
    requires startDate <= endDate
    ensures MatchesRange(b, startDate, endDate) <==>
            Overlaps(b, startDate, endDate) && !StrictlyInside(b, startDate, endDate)
  {
  }

  /** A stored booking strictly inside the requested range is never returned, whatever statuses are asked for. */
  lemma ContainedBookingNotReported(
    store: Store, id: Id, propertyId: Id, startDate: Day, endDate: Day, statuses: set<BookingStatus>)
    requires id in store && StrictlyInside(store[id], startDate, endDate)
    ensures store[id] !in FindBookingsFromPropertyBetweenDates(store, propertyId, startDate, endDate, statuses)
    ensures store[id] !in FindBlocksFromPropertyBetweenDates(store, propertyId, startDate, endDate)
  {
  }

  /** Every overlapping booking of the property with a listed status that the request does not contain is returned. */
  lemma OverlappingBookingReported(
    store: Store, id: Id, propertyId: Id, startDate: Day, endDate: Day, statuses: set<BookingStatus>)
    requires id in store && store[id].propertyId == propertyId && store[id].status in statuses
    requires Overlaps(store[id], startDate, endDate) && !StrictlyInside(store[id], startDate, endDate)
    ensures store[id] in FindBookingsFromPropertyBetweenDates(store, propertyId, startDate, endDate, statuses)
  {
  }

  /**
   * The integration test's case: an ACTIVE booking of days 1..5 is reported
   * for a request of days 4..6 (ranges inclusive), but a booking of days
   * 2..3 is missed by a request of days 1..4 even though they overlap.
   */
  lemma RangeQueryExamples()
    ensures var b1 := Booking(1, 1, 5, 1, ACTIVE, 1);
            FindBlocksFromPropertyBetweenDates(map[1 := b1], 1, 4, 6) == {b1}
    ensures var b2 := Booking(2, 2, 3, 1, ACTIVE, 1);
            Overlaps(b2, 1, 4) && FindBlocksFromPropertyBetweenDates(map[2 := b2], 1, 1, 4) == {}
  {
    var b1 := Booking(1, 1, 5, 1, ACTIVE, 1);
    var r := FindBlocksFromPropertyBetweenDates(map[1 := b1], 1, 4, 6);
    forall b | b in r ensures b == b1 {
      var id :| id in map[1 := b1] && map[1 := b1][id] == b;
    }
  }
}
