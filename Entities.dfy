/**
 * The persistent entities. Ids are the store-generated keys (Java `Long`);
 * dates are day numbers (a `LocalDate` as its epoch day), so
 * `isAfter` is `>` and JPQL `BETWEEN` is `<= ... <=`. The JPA relationships
 * are kept as the id of the referenced entity.
 */
module Entities {

  type Id = int
  type Day = int

  datatype UserType = GUEST | MANAGER | OWNER

  datatype BookingStatus = ACTIVE | BLOCKED | CANCELED

  datatype User = User(id: Id, email: string, userType: UserType)

  /** A bookable property with exactly one manager and one owner. */
  datatype Property = Property(id: Id, description: string, managerId: Id, ownerId: Id)

  /** A reservation (or an administrative block) of a property by a user for the closed range [startDate, endDate]. */
  datatype Booking = Booking(
    id: Id,
    startDate: Day,
    endDate: Day,
    propertyId: Id,
    status: BookingStatus,
    userId: Id)
}
