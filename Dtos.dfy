/**
 * The request payloads the services take, as plain records. The bean
 * validation annotations on them are not modelled; the fields they make
 * mandatory are non-optional here, and `BookingDTO.id`, which nothing
 * makes mandatory, is an `Option`.
 */
module Dtos {
  import opened Exceptions
  import opened Entities

  /**
   * Payload of create, update and rebook. `id` is the client-supplied id the
   * overlap check excludes; `status` is only read by update.
   */
  datatype BookingDto = BookingDto(
    id: Option<Id>,
    startDate: Day,
    endDate: Day,
    propertyId: Id,
    status: BookingStatus,
    userId: Id)

  datatype BlockDto = BlockDto(propertyId: Id, startDate: Day, endDate: Day, userId: Id)

  datatype CancelBookingDto = CancelBookingDto(userId: Id, bookingId: Id)

  datatype PropertyDto = PropertyDto(description: string, managerId: Id, ownerId: Id)
}
