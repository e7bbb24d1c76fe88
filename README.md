# Air reservation service — Dafny model

This project models `AirReservationService`, the business logic of a small
airline-ticket reservation API. The service works over four stores: users,
passengers, airline tickets (each with an ordered list of flight legs) and
reservations. It offers five operations:

- **findUserFavoritePlaceTickets** validates the ticket type against the two
  supported values, one-way (`편도`) and round-trip (`왕복`). It then looks up
  the user and returns the tickets whose arrival location is the user's
  favourite travel place and whose type is the requested one. An empty match
  is an error.
- **makeReservation** checks, in order, that the ticket exists, that the user
  has a passenger, and that the ticket has flight legs. It then appends one
  reservation and returns the truncated prices, charges, tax and total price.
- **findUserFlightSumPrice** sums the flight prices and the charges over
  everything a user has reserved.
- **findByTicketType** lists the tickets of one type as DTOs and returns a
  page of them. It always returns the first page, whatever page index was
  requested, because it builds its page request with `PageRequest.ofSize`.
  The model keeps this behaviour and proves it (`PageIndexIgnored`).
- **findArrivalLocationByUsername** returns the distinct arrival locations of
  the flight legs a user, found by user name, has reserved.

Layout:

- `entities.dfy` (module `Entities`) holds the records, the response shapes,
  the error kinds (`InvalidValue`, `NotFound`, `NotAccept`) and `IntValue`,
  which is `Double.intValue()` as truncation toward zero.
- `repository.dfy` (module `Repository`) holds the repository queries the
  service calls. Each is a pure function over the stored rows, with the
  meaning of its derived-query name or its JPQL.
- `service.dfy` (module `Service`) holds the class `AirReservationService`.
  Its fields are the four stores. `MakeReservation` is the one method that
  changes state: it may modify only `reservations`, and `Valid()` (keys
  match records, a passenger's user is the stored user row, ticket ids are
  unique, every reservation refers to a stored passenger and ticket)
  is preserved. The read-only operations are functions that read the object,
  except `FindByTicketType`, which is a method because the source builds its
  list in a loop.

Modelling choices:

- Money amounts (`Double` in the source) are `real`. Truncation toward zero
  is written out in `IntValue`.
- `LocalDateTime` values are abstract integer instants; the service only
  copies them.
- The ticket store is a sequence. Query results follow its order, which the
  model fixes; the source leaves that order to the database (see "Left out").
  Users are a map by user id. Passengers are a map by the id of their user,
  which is the lookup `findPassengerByUserUserId` performs.
- The generated `TicketMapper` is not part of this model. It is the
  parameter `toTicket` of `FindUserFavoritePlaceTickets`, applied to each
  matched ticket in order.
- A failure of the reservation insert is the parameter `saveRejected`.
- The price-and-charge query selects the legs of the user's reserved tickets.
  The arrival-location query selects each flight leg's own arrival location
  (`f.arrivalLocation` in the JPQL), not the ticket's.

## Model

| member | source | states |
|---|---|---|
| `Entities.IntValue` | src/main/java/com/github/supercodingspring/service/AirReservationService.java:94-97 | The integer is the truncation toward zero of the amount: within one unit of it, never above it for a non-negative amount, never below it for a negative one. |
| `Entities.OfSize` | src/main/java/com/github/supercodingspring/service/AirReservationService.java:132-133 | A request built from a page size alone keeps that size and has offset 0. |
| `Repository.Select` | src/main/java/com/github/supercodingspring/repository/airlineTicket/AirlineTicketJpaRepository.java:13-15 | A filtered query returns exactly the stored rows that satisfy the condition, no more than are stored. |
| `Repository.SelectAppend` | src/main/java/com/github/supercodingspring/repository/airlineTicket/AirlineTicketJpaRepository.java:13-15 | Filtering keeps store order: filtering a concatenation concatenates the filtered parts. |
| `Repository.FindTicketById` | src/main/java/com/github/supercodingspring/service/AirReservationService.java:70 | A found ticket is stored and has the requested id; nothing is found exactly when no stored ticket has that id. |
| `Repository.FindAirlineTicketsByArrivalLocationAndTicketType` | src/main/java/com/github/supercodingspring/repository/airlineTicket/AirlineTicketJpaRepository.java:13 | A ticket is in the result if and only if it is stored, arrives at the given place and has the given type. |
| `Repository.FindByTicketType` | src/main/java/com/github/supercodingspring/repository/airlineTicket/AirlineTicketJpaRepository.java:15 | A ticket is in the result if and only if it is stored and has the given type. |
| `Repository.PricesAndCharges` | src/main/java/com/github/supercodingspring/repository/reservations/ReservationJpaRepository.java:14-18 | One (price, charge) row per flight leg, row i taken from leg i. |
| `Repository.FindFlightPriceAndCharge` | src/main/java/com/github/supercodingspring/repository/reservations/ReservationJpaRepository.java:14-20 | Every leg of every reservation by the user contributes its (price, charge) row, built by the projection `PriceAndCharge`; a user with no reservations gets no rows. |
| `Repository.FindFlightPriceAndChargeSound` | src/main/java/com/github/supercodingspring/repository/reservations/ReservationJpaRepository.java:14-20 | Every row the query returns is the (price, charge) of a leg of some reservation by that user. |
| `Repository.FindFlightPriceAndChargeSingle` | src/main/java/com/github/supercodingspring/repository/reservations/ReservationJpaRepository.java:14-19 | A single reservation yields exactly one row per leg of its ticket, in leg order, when it belongs to the user, and no row otherwise; with the append lemma this fixes the rows and their multiplicity for any reservation list. |
| `Repository.FindFlightPriceAndChargeAppend` | src/main/java/com/github/supercodingspring/repository/reservations/ReservationJpaRepository.java:14-20 | The rows for a concatenation of reservation lists are the rows of each part, concatenated, so each reservation contributes independently. |
| `Repository.FindArrivalLocationByUsername` | src/main/java/com/github/supercodingspring/repository/reservations/ReservationJpaRepository.java:25-30 | A location is in the result if and only if it is the arrival location of some leg of some reservation by a user with that name; duplicates collapse. |
| `Service.SumsMakeCost` | src/main/java/com/github/supercodingspring/service/AirReservationService.java:107-111 | Summing prices (`FlightSum`) and charges (`ChargeSum`) separately and adding the sums equals summing each row's price plus charge. |
| `Service.CostAppend` | src/main/java/com/github/supercodingspring/service/AirReservationService.java:107-111 | The total cost is additive over concatenated row lists. |
| `Service.SumAfterAppend` | src/main/java/com/github/supercodingspring/service/AirReservationService.java:85-88 | Appending one reservation raises its own user's total by the cost of its ticket's legs and leaves every other user's total unchanged. |
| `Service.IntValues` | src/main/java/com/github/supercodingspring/service/AirReservationService.java:94-95 | The integer list has the input's length and element i is the truncation toward zero of amount i; it is applied to the leg prices (`FlightPrices`) and leg charges (`FlightCharges`). |
| `Service.AirReservationService.constructor` | src/main/java/com/github/supercodingspring/service/AirReservationService.java:33-37 | The service wraps a store holding the given users, passengers, tickets and reservations; a store whose keys match its records, whose passengers embed the stored user row, whose ticket ids are unique and whose reservations refer to stored passengers and tickets is valid. |
| `Service.AirReservationService.FindUserFavoritePlaceTickets` | src/main/java/com/github/supercodingspring/service/AirReservationService.java:39-60 | An unsupported ticket type gives InvalidValue whether or not the user exists; a missing user gives NotFound; otherwise the call fails with NotFound exactly when no stored ticket matches the favourite place and type, and a success is never empty and maps each matching ticket, in store order. |
| `Service.AirReservationService.MakeReservation` | src/main/java/com/github/supercodingspring/service/AirReservationService.java:62-100 | A missing ticket, a missing passenger or an empty leg list gives NotFound, and a rejected insert gives NotAccept; every failure leaves the reservations unchanged. A success appends exactly Reservation(passenger, ticket), keeps the store valid, sets the success flag, returns per-leg truncated prices and charges and the truncated tax and total, and raises only that user's cost total, by the ticket's cost. |
| `Service.AirReservationService.FindUserFlightSumPrice` | src/main/java/com/github/supercodingspring/service/AirReservationService.java:102-112 | The result is the sum over the user's rows of price plus charge, and 0 when the user has no reservations, with no error. |
| `Service.AirReservationService.FindByTicketType` | src/main/java/com/github/supercodingspring/service/AirReservationService.java:116-137 | The page holds the first min(pageSize, n) of the n tickets of the type, each copied field by field in order by `ToDto` (flightId from ticketId, departAt from departureAt, arrivalAt from returnAt, both locations); the total is n and the page is page 0. |
| `Service.AirReservationService.PageIndexIgnored` | src/main/java/com/github/supercodingspring/service/AirReservationService.java:132-136 | Two requests with the same page size and any page indexes get identical pages, and that page is page 0. |
| `Service.AirReservationService.FindArrivalLocationByUsername` | src/main/java/com/github/supercodingspring/service/AirReservationService.java:139-141 | A location is returned if and only if some stored reservation by a user with that name has a leg arriving there. |

## Left out

- The REST controller (`AirReservationController.java`): routing, status codes and the conversion of the location set to a list carry no logic.
- Transactions (`@Transactional` with manager `tmJpa2`) and the persistence exceptions behind `save`: the insert is a single atomic append, and its failure is the parameter `saveRejected`.
- The generated `TicketMapper` is not part of this model; it is the opaque parameter `toTicket`, so the fields of the `Ticket` view are not modelled.
- IEEE-754 `Double` behaviour: rounding in the stream sums, and `Double.intValue` on NaN, infinities or values beyond the `int` range. Amounts are exact reals.
- Exception message texts: only the error kind is kept.
- `ContentDto` is unused by the service and is not modelled.
- Page sizes below one: `PageRequest` rejects them before the service runs, so the paged listing requires a page size of at least one.
- Order of query results: none of the four repository queries has an ORDER BY, so the source leaves the order of their rows to the database. The model fixes it as store order. `FindByTicketType` (which tickets form the first page), `PageIndexIgnored` (equal pages) and `FindUserFavoritePlaceTickets` (the order of the mapped tickets) rely on that fixed order; the sum and the location set do not.
- Null values: ids in a reservation request and money amounts are never null in the model. In the source, a null ticket id makes `findById` throw an illegal-argument error rather than NotFound. A null amount throws a null-pointer error, in `makeReservation` after the reservation has been saved and in `findUserFlightSumPrice`.
