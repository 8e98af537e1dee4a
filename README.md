# booking-api: the availability and lifecycle engine in Dafny

This project models the core of the booking-api Spring service. That core has four parts:

- **Availability.** The two JPQL range queries decide whether a date range of a property is taken.
- **Guards.** The checks of `BookingValidatorService` and the private copies of them in `BookingService`.
- **Lifecycle.** `BookingService` creates, updates, cancels, rebooks and deletes bookings, and creates blocks.
- **Active count.** `PropertyService` counts a property's ACTIVE bookings.

The state is one store with three tables: bookings, properties and registered users. The store also holds the next id it will generate. Dates are day numbers.

There is one module per source file:

- `BookingRepository`: the queries, as filters over `map<Id, Booking>`.
- `BookingValidatorService`: the validator's checks, each a function that passes or throws. `validatePropertyHasCanceledBookings` changes the store, so it is a method.
- `PropertyService` and `UserService`.
- `BookingService`: the lifecycle.

Every lifecycle operation appears twice:

- a pure transition, `<Op>Spec`, that runs the checks in the service's order;
- a method of the same name that does the work step by step on the mutable `Persistence.Database`.

Each method is proved to *realize* its transition. It returns what the transition returns. When an exception is thrown, the store is left exactly as it was. `<Op>SpecEffect` lemmas say what each transition does, and all of them preserve the store's integrity (`Persistence.ValidDb`). `BookingServiceProperties` relates operations to one another. It also replays the repository's integration scenario, and it shows the inputs where two occupying bookings of one property end up overlapping.

A booking is *occupying* when its status is ACTIVE or BLOCKED.

### Notable behaviour of the code

Each of these is modelled as the code has it and stated as a lemma:

- **Range query.** A stored booking is reported when the requested start or the requested end lies in its range. So a booking strictly inside the requested range is never seen. Create, rebook and block can therefore produce overlapping occupying bookings (`ContainmentGapAdmitsOverlap`, `ContainmentGapAdmitsOverlappingRebook`, `ContainmentGapAdmitsOverlappingBlock`).
- **Self-exclusion.** The overlap check excludes the id in the request payload, not the id of the booking being changed. A payload carrying the id of a booking the range query reports skips every conflict, including those with other bookings (`PayloadIdMasksConflict`). An update whose payload carries no id and names the booking's own property is refused as unavailable when the booking is ACTIVE or BLOCKED and its current range holds the new start or end, provided the permission and status checks pass (`UpdateWithoutPayloadIdConflictsWithItself`).
- **Blocks and dates.** `createBlock` never checks that the start comes before the end (`BlockSkipsDateCheck`).
- **Delete.** `delete` checks no permission at all (`DeleteSpecEffect`).
- **Status of permission errors.** The service's own permission checks throw BAD_REQUEST. The validator's versions throw FORBIDDEN (`ServiceGuardsRejectLikeValidator`).
- **Eviction.** Block creation deletes the CANCELED bookings that hold the block's start or end. A CANCELED booking strictly inside the block is kept (`EvictionKeepsContainedAndUnrelated`).

## Model

| member | source | states |
|---|---|---|
| BookingRepository.FindByPropertyIdAndStatus | src/main/java/com/bookingapi/bookingapi/repository/BookingRepository.java:15-16 | It returns exactly the stored bookings with that property id and that status. |
| BookingRepository.FindBlocksFromPropertyBetweenDates | src/main/java/com/bookingapi/bookingapi/repository/BookingRepository.java:18-20 | It returns exactly the stored ACTIVE or BLOCKED bookings of the property whose closed range holds the requested start or end. It equals the general query with the status list {ACTIVE, BLOCKED}. |
| BookingRepository.FindBookingsFromPropertyBetweenDates | src/main/java/com/bookingapi/bookingapi/repository/BookingRepository.java:22-24 | Every result is a stored booking of the property, with a listed status, whose range holds the requested start or end. Every stored booking meeting those conditions is returned. |
| BookingRepository.StoredUnderItsId | src/main/java/com/bookingapi/bookingapi/repository/BookingRepository.java:13 | In a table keyed by id, a booking found in the table is the row under its own id. |
| BookingRepository.MatchesRangeIsOverlapMinusContainment | src/main/java/com/bookingapi/bookingapi/repository/BookingRepository.java:18 | For start <= end, the query's range test holds exactly when the booking overlaps the request and does not lie strictly inside it. |
| BookingRepository.ContainedBookingNotReported | src/main/java/com/bookingapi/bookingapi/repository/BookingRepository.java:22 | Neither query returns a booking that lies strictly inside the requested range, whatever statuses are asked for. |
| BookingRepository.OverlappingBookingReported | src/main/java/com/bookingapi/bookingapi/repository/BookingRepository.java:22 | An overlapping booking of the property, with a listed status, that the request does not contain is returned. |
| BookingRepository.RangeQueryExamples | src/test/java/com/bookingapi/bookingapi/controller/BookingControllerIntegrationTest.java:79-91 | A booking of days 1..5 is reported for days 4..6. A booking of days 2..3 overlaps days 1..4 but is not reported. |
| Persistence.Database.SaveNewBooking | src/main/java/com/bookingapi/bookingapi/service/BookingService.java:39 | `save` of a new booking stores it under the next generated id and advances the counter. Nothing else changes. |
| Persistence.Database.SaveBooking | src/main/java/com/bookingapi/bookingapi/service/BookingService.java:86 | `save` of a managed booking overwrites its row. Nothing else changes. |
| Persistence.Database.DeleteBooking | src/main/java/com/bookingapi/bookingapi/service/BookingService.java:46 | `delete` removes the booking's row. Nothing else changes. |
| Persistence.Database.DeleteAllBookings | src/main/java/com/bookingapi/bookingapi/service/validator/BookingValidatorService.java:80 | `deleteAll` removes the rows of all the given bookings. Nothing else changes. |
| Persistence.Database.SaveNewProperty | src/main/java/com/bookingapi/bookingapi/service/PropertyService.java:32 | `save` of a new property stores it under the next generated id. Nothing else changes. |
| UserService.FindUserById | src/main/java/com/bookingapi/bookingapi/service/UserService.java:37-39 | It returns the stored user with the id. It fails with EntityNotFoundException "User not found" exactly when there is none. |
| PropertyService.FindById | src/main/java/com/bookingapi/bookingapi/service/PropertyService.java:51-53 | It returns the stored property with the id. It fails with "Property not found" exactly when there is none. |
| PropertyService.CountWithStatus | src/main/java/com/bookingapi/bookingapi/service/PropertyService.java:48 | The count never exceeds the list length. It is 0 exactly when no booking has the status, and the full length exactly when all do. |
| PropertyService.GetBookingsFromPropertyWithStatus | src/main/java/com/bookingapi/bookingapi/service/PropertyService.java:46-49 | A null or empty list gives 0. The count never exceeds the list length. It is positive exactly when some listed booking has the status. For a present list the value is the number of listed bookings with the status. |
| PropertyService.CountAppend | src/main/java/com/bookingapi/bookingapi/service/PropertyService.java:48 | The count over two lists joined is the sum of their counts. |
| PropertyService.CountPartition | src/main/java/com/bookingapi/bookingapi/service/PropertyService.java:46-49 | The ACTIVE, BLOCKED and CANCELED counts add up to the list's length. |
| PropertyService.CountIsSizeOfMatchingSet | src/main/java/com/bookingapi/bookingapi/service/PropertyService.java:46-49 | On a list without repeats, the count is the number of distinct bookings with the status. |
| PropertyService.CountMatchesRepository | src/main/java/com/bookingapi/bookingapi/service/PropertyService.java:40-49 | When the property's list holds each of its stored bookings once, the active count equals the size of `findByPropertyIdAndStatus` for that property. |
| PropertyService.CreateSpec | src/main/java/com/bookingapi/bookingapi/service/PropertyService.java:25-33 | On success the returned property is stored under its id, and the users and bookings are unchanged. |
| PropertyService.CreateSpecEffect | src/main/java/com/bookingapi/bookingapi/service/PropertyService.java:25-33 | Creation fails exactly when the manager id or the owner id is unknown, and the manager is checked first. On success, one property is added under a fresh id, with the users looked up as manager and owner. The new store is the old one with exactly that row added and the property id counter advanced by one. |
| PropertyService.Create | src/main/java/com/bookingapi/bookingapi/service/PropertyService.java:25-33 | The method realizes the create transition and keeps the store valid. |
| BookingValidatorService.ValidateUserInformedIsTypeGuest | src/main/java/com/bookingapi/bookingapi/service/validator/BookingValidatorService.java:27-31 | It throws exactly when the user is not a GUEST, with "Only users of type GUEST can request a booking!". |
| BookingValidatorService.ValidateBlocksFromProperty | src/main/java/com/bookingapi/bookingapi/service/validator/BookingValidatorService.java:119-125 | It throws "Booking not available..." exactly when some occupying booking of the property holds the start or the end, and none of those bookings has the given id. |
| BookingValidatorService.ValidateBookingDates | src/main/java/com/bookingapi/bookingapi/service/validator/BookingValidatorService.java:113-117 | It throws "StartDate must be before EndDate" exactly when the end is before the start. |
| BookingValidatorService.ValidateBookingPersistence | src/main/java/com/bookingapi/bookingapi/service/validator/BookingValidatorService.java:33-37 | It fails exactly when the availability check or the date check fails. The availability error wins when both would fail. |
| BookingValidatorService.ValidateBookingIsAlreadyCanceled | src/main/java/com/bookingapi/bookingapi/service/validator/BookingValidatorService.java:39-43 | It throws exactly when the booking is CANCELED. |
| BookingValidatorService.ValidateBookingMustBeCanceledToRebook | src/main/java/com/bookingapi/bookingapi/service/validator/BookingValidatorService.java:45-49 | It throws exactly when the booking is not CANCELED. |
| BookingValidatorService.ExactlyOneCancellationCheckFails | src/main/java/com/bookingapi/bookingapi/service/validator/BookingValidatorService.java:39-49 | For every booking, exactly one of the two cancellation checks throws. |
| BookingValidatorService.ValidateBookingStatusChangingToBlocked | src/main/java/com/bookingapi/bookingapi/service/validator/BookingValidatorService.java:51-57 | It throws exactly when the requested status is BLOCKED and the current status differs. |
| BookingValidatorService.VerifyUserHasPermissionToBlock | src/main/java/com/bookingapi/bookingapi/service/validator/BookingValidatorService.java:107-111 | It holds exactly when the user is the property's manager or its owner. |
| BookingValidatorService.ValidateUserHasPermissionToBlock | src/main/java/com/bookingapi/bookingapi/service/validator/BookingValidatorService.java:59-64 | It throws FORBIDDEN exactly when the user neither manages nor owns the property. |
| BookingValidatorService.FindBookingsFromPropertyBetweenDatesWithStatus | src/main/java/com/bookingapi/bookingapi/service/validator/BookingValidatorService.java:102-105 | It is the range query applied to the block's property and dates: it returns exactly the stored bookings of that property, with a listed status, whose range holds the block's start or end. |
| BookingValidatorService.ValidatePropertyHasActiveOrBlockedBookings | src/main/java/com/bookingapi/bookingapi/service/validator/BookingValidatorService.java:66-72 | It throws exactly when some occupying booking of the block's property holds the block's start or end. As a function, it cannot change the store. |
| BookingValidatorService.EvictCanceledBookings | src/main/java/com/bookingapi/bookingapi/service/validator/BookingValidatorService.java:74-82 | Exactly the CANCELED bookings of the property that hold the block's start or end are removed. Every other row is kept unchanged. The store is unchanged when there are none. |
| BookingValidatorService.EvictionKeepsContainedAndUnrelated | src/main/java/com/bookingapi/bookingapi/service/validator/BookingValidatorService.java:75-76 | A CANCELED booking strictly inside the block is not evicted. Neither is a booking of another property or with another status. |
| BookingValidatorService.CanceledIdsAreEvicted | src/main/java/com/bookingapi/bookingapi/service/validator/BookingValidatorService.java:75-80 | The ids `deleteAll` removes are exactly those of the stored bookings the block evicts. |
| BookingValidatorService.ValidatePropertyHasCanceledBookings | src/main/java/com/bookingapi/bookingapi/service/validator/BookingValidatorService.java:74-82 | It never throws. The store afterwards is the evicted store, with the other tables and the counters unchanged. |
| BookingValidatorService.ValidateUserCanUpdateBooking | src/main/java/com/bookingapi/bookingapi/service/validator/BookingValidatorService.java:84-94 | It throws FORBIDDEN exactly when the user is not the booking's guest, nor its property's manager, nor its owner. |
| BookingValidatorService.ValidateBookingIsBlocked | src/main/java/com/bookingapi/bookingapi/service/validator/BookingValidatorService.java:96-100 | It throws exactly when the booking is not BLOCKED. |
| BookingService.FindBookingById | src/main/java/com/bookingapi/bookingapi/service/BookingService.java:76-78 | It returns the stored booking. It fails with "Booking not found" exactly when there is none. |
| BookingService.ValidateUserHasPermissionToBlock | src/main/java/com/bookingapi/bookingapi/service/BookingService.java:144-148 | It throws BAD_REQUEST "...create a block..." exactly when the user neither manages nor owns the property. |
| BookingService.ValidateUserCanUpdateBooking | src/main/java/com/bookingapi/bookingapi/service/BookingService.java:157-167 | It throws BAD_REQUEST exactly when the user is not the booking's guest, nor its property's manager, nor its owner. |
| BookingService.ServiceGuardsRejectLikeValidator | src/main/java/com/bookingapi/bookingapi/service/BookingService.java:144-167 | The service's permission checks reject the same users as the validator's. Only the HTTP status (and, for blocks, the message) differs. |
| BookingService.CreateBookingSpec | src/main/java/com/bookingapi/bookingapi/service/BookingService.java:32-42 | On success the returned booking is stored under its id, and the users and properties are unchanged. |
| BookingService.DeleteSpec | src/main/java/com/bookingapi/bookingapi/service/BookingService.java:44-47 | Delete succeeds exactly when the id is stored. In a table keyed by id it removes exactly that row. Users and properties are unchanged. |
| BookingService.UpdateSpec | src/main/java/com/bookingapi/bookingapi/service/BookingService.java:49-57 | On success the returned booking is stored under its id, and the users and properties are unchanged. |
| BookingService.CancelBookingSpec | src/main/java/com/bookingapi/bookingapi/service/BookingService.java:80-89 | On success the returned booking is stored under its id, and the users and properties are unchanged. |
| BookingService.RebookCanceledBookingSpec | src/main/java/com/bookingapi/bookingapi/service/BookingService.java:91-101 | On success the returned booking is stored under its id, and the users and properties are unchanged. |
| BookingService.CreateBlockSpec | src/main/java/com/bookingapi/bookingapi/service/BookingService.java:59-69 | On success the returned block is stored under its id, and the users and properties are unchanged. |
| BookingService.CreateBookingSpecEffect | src/main/java/com/bookingapi/bookingapi/service/BookingService.java:32-42 | Create fails on an unknown user, then an unknown property, then a non-GUEST, all before the availability and date checks, whose own error is then the result. It succeeds exactly when every check passes. It then inserts exactly one ACTIVE booking with the requested dates, property and user under a fresh id. |
| BookingService.DeleteSpecEffect | src/main/java/com/bookingapi/bookingapi/service/BookingService.java:44-47 | Delete fails only on an unknown id, whoever asks. Otherwise it removes that one row. |
| BookingService.UpdateSpecEffect | src/main/java/com/bookingapi/bookingapi/service/BookingService.java:49-57 | Update fails on lookups, then on the permission check against the booking as stored ("User not able to change this booking"), then on a change to BLOCKED ("It's not possible to Block this booking"), then on availability and dates with the persistence check's own error. On success the row keeps its id and copies user, property, dates and status from the payload. |
| BookingService.CancelBookingSpecEffect | src/main/java/com/bookingapi/bookingapi/service/BookingService.java:80-89 | Cancel fails on an unknown or already CANCELED booking, then on permission with "User not able to change this booking". On success only that row's status changes, to CANCELED. |
| BookingService.RebookCanceledBookingSpecEffect | src/main/java/com/bookingapi/bookingapi/service/BookingService.java:91-101 | Rebook fails unless the booking is CANCELED, then on permission with "User not able to change this booking", then on availability and dates for the booking's own property, with the persistence check's own error. On success the row takes the new dates and becomes ACTIVE, keeping its user and property. |
| BookingService.CreateBlockSpecEffect | src/main/java/com/bookingapi/bookingapi/service/BookingService.java:59-69 | Block creation fails on lookups, then on permission, and only then on an occupying booking holding the start or end. On success exactly the covered CANCELED bookings are deleted and one BLOCKED booking is inserted under a fresh id. |
| BookingService.CreateBooking | src/main/java/com/bookingapi/bookingapi/service/BookingService.java:32-42 | The method realizes the create transition. When it throws, the store is unchanged. |
| BookingService.Delete | src/main/java/com/bookingapi/bookingapi/service/BookingService.java:44-47 | The method realizes the delete transition. |
| BookingService.Update | src/main/java/com/bookingapi/bookingapi/service/BookingService.java:103-111 | The setters and `save` realize the update transition. When it throws, the store is unchanged. |
| BookingService.CancelBooking | src/main/java/com/bookingapi/bookingapi/service/BookingService.java:80-89 | The method realizes the cancel transition. |
| BookingService.RebookCanceledBooking | src/main/java/com/bookingapi/bookingapi/service/BookingService.java:150-155 | The setters and `save` realize the rebook transition. |
| BookingService.CreateBlock | src/main/java/com/bookingapi/bookingapi/service/BookingService.java:59-69 | Eviction followed by `save` of the block realizes the block transition. When a check throws, the store is unchanged. |
| BookingServiceProperties.CreateAdmission | src/main/java/com/bookingapi/bookingapi/service/BookingService.java:195-218 | After a successful create, start <= end. Also, either no occupying booking of the property holds the start or end, or one that does carries the payload id. |
| BookingServiceProperties.CreateWithFreshPayloadIdFindsRangeFree | src/main/java/com/bookingapi/bookingapi/service/BookingService.java:212-218 | With no payload id, or an unused one, a successful create found no occupying booking holding its start or end. |
| BookingServiceProperties.InvertedDatesAlwaysRejected | src/main/java/com/bookingapi/bookingapi/service/BookingService.java:195-210 | A request with start > end fails as a create, an update and a rebook. |
| BookingServiceProperties.CreatePreservesNoOverlap | src/main/java/com/bookingapi/bookingapi/service/BookingService.java:32-42 | Suppose the store has no overlapping occupying bookings, the payload id is unused, and nothing occupying lies strictly inside the request. Then a successful create keeps the store free of overlaps. |
| BookingServiceProperties.CancelTwiceFails | src/main/java/com/bookingapi/bookingapi/service/BookingService.java:169-173 | Canceling a just-canceled booking fails with "The Booking is already canceled". |
| BookingServiceProperties.CancelThenRebook | src/main/java/com/bookingapi/bookingapi/service/BookingService.java:91-101 | After a cancel, the same user's rebook succeeds exactly when availability and dates pass. It gives back the booking ACTIVE with the new dates. |
| BookingServiceProperties.RebookRequiresCancellation | src/main/java/com/bookingapi/bookingapi/service/BookingService.java:93-99 | Rebooking a booking that is not CANCELED fails with "The booking must be canceled to rebook". |
| BookingServiceProperties.ScenarioBlockOverActiveBookingRefused | src/test/java/com/bookingapi/bookingapi/controller/BookingControllerIntegrationTest.java:79-91 | The manager's block over days 4..6 is refused while booking 1 (days 1..5) is ACTIVE. |
| BookingServiceProperties.ScenarioCancel | src/test/java/com/bookingapi/bookingapi/controller/BookingControllerIntegrationTest.java:96-98 | The guest's cancel of booking 1 sets its status to CANCELED. |
| BookingServiceProperties.ScenarioBlockOverCanceledBooking | src/test/java/com/bookingapi/bookingapi/controller/BookingControllerIntegrationTest.java:93-128 | After the cancel, the manager's block over days 1..4 succeeds and booking 1 is gone. The guest's identical block is refused with BAD_REQUEST. |
| BookingServiceProperties.ScenarioOwnerBlocks | src/test/java/com/bookingapi/bookingapi/controller/BookingControllerIntegrationTest.java:130-148 | The owner's block over days 6..7 then succeeds as a BLOCKED booking. |
| BookingServiceProperties.ScenarioOnlyGuestsBook | src/test/java/com/bookingapi/bookingapi/controller/BookingControllerIntegrationTest.java:150-196 | On property 2, the guest's booking is created ACTIVE. The manager's and the owner's identical requests are refused as non-guests. |
| BookingServiceProperties.ContainmentGapAdmitsOverlap | src/main/java/com/bookingapi/bookingapi/repository/BookingRepository.java:18 | A guest can book days 0..6 around an ACTIVE booking of days 1..5, leaving two overlapping ACTIVE bookings. |
| BookingServiceProperties.ContainmentGapAdmitsOverlappingBlock | src/main/java/com/bookingapi/bookingapi/repository/BookingRepository.java:18 | A manager can block days 0..6 around an ACTIVE booking of days 1..5, leaving an ACTIVE and a BLOCKED booking that overlap. |
| BookingServiceProperties.ContainmentGapAdmitsOverlappingRebook | src/main/java/com/bookingapi/bookingapi/repository/BookingRepository.java:18 | A CANCELED booking can be rebooked over days 0..6 around an ACTIVE booking of days 1..5, leaving two overlapping ACTIVE bookings. |
| BookingServiceProperties.UpdateWithoutPayloadIdConflictsWithItself | src/main/java/com/bookingapi/bookingapi/service/BookingService.java:215 | Moving a booking to a range it already holds in part is refused as unavailable when the payload carries no id, and admitted when the payload carries the booking's own id. A move without an id to a range the booking does not touch is admitted. |
| BookingServiceProperties.PayloadIdMasksConflict | src/main/java/com/bookingapi/bookingapi/service/BookingService.java:215 | A create whose payload carries an overlapping booking's id is admitted, leaving two overlapping ACTIVE bookings. |
| BookingServiceProperties.BlockSkipsDateCheck | src/main/java/com/bookingapi/bookingapi/service/BookingService.java:59-69 | A block from day 9 back to day 8 is stored, while a booking with the same dates is refused with the date error. |

## Left out

- Controllers, HTTP routing, JSON mapping and the exception handler are left out. Exceptions are values that carry their message and the HTTP status `BusinessException` holds.
- Bean-validation annotations on the request payloads (`@NotNull`, `@Future`, `@FutureOrPresent`) are left out. They depend on the clock and on the Spring validator. Fields they make mandatory, and the block payload's optional dates, are non-null here, so a null date or status, and the resulting `NullPointerException`, are not modelled.
- Response DTOs are not built. `buildBookingResponse` and `buildPropertyResponseDTO` are projections of the saved entity. The operations return the saved `Booking` or `Property`, and `findBookingResponseDTOById` is `FindBookingById`.
- `PropertyService.findAll` is left out: it only maps the response projection over all properties. Of `UserService`, only the lookup is modelled.
- `updateBlock`, `deleteBlock`, `delete(id, userId)` and the booking `details` field appear only in controllers and tests. Their bodies are not part of this model.
- Bookings are values, and the JPA entity graph is kept as ids. A setter followed by `save` becomes an overwrite of the row. Aliasing between managed entities is not modelled. In `BookingService` as written, every setter runs after all the checks, so no half-updated entity is ever visible.
- Query results are sets. The order and duplicates of the returned `List` are not modelled, and no caller depends on them.
- Generated ids are unbounded integers, so `Long` overflow is not modelled. Transactions and concurrent requests are out of scope, including the race between two simultaneous creates.
- `PropertyService.CountMatchesRepository` assumes the property's back-reference list holds each of its stored bookings once. JPA maintains that list; the model does not.
- The service's private copies of the guest-only, availability, date, already-canceled, changing-to-BLOCKED, active-or-blocked and canceled-eviction checks, and its `verifyUserHasPermissionToBlock` and `findBookingsFromPropertyBetweenDatesWithStatus`, are identical to the validator's, so the transitions use the validator's definitions (BookingService.java:113-142, 169-173, 195-229).
