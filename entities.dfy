/** The records the reservation service reads and writes, its response
    shapes, and the error kinds it raises. */
module Entities {

  /** The three exceptions the service throws, without their message texts. */
  datatype Error = InvalidValue | NotFound | NotAccept

  /** A service call either returns a value or throws one of the errors above. */
  datatype Result<+T> = Success(value: T) | Failure(error: Error)

  /** What `findById` on a repository returns. */
  datatype Option<+T> = None | Some(value: T)

  /** A `LocalDateTime`, kept as an abstract instant; the service only copies it. */
  type DateTime = int

  datatype User = User(userId: int, userName: string, likeTravelPlace: string)

  /** A passenger is linked one-to-one to a user. */
  datatype Passenger = Passenger(passengerId: int, user: User)

  /** One leg of a ticket; its amounts are `Double`s in the source. */
  datatype Flight = Flight(flightId: int, arrivalLocation: string, flightPrice: real, charge: real)

  datatype AirlineTicket = AirlineTicket(
    ticketId: int,
    ticketType: string,
    departureLocation: string,
    arrivalLocation: string,
    departureAt: DateTime,
    returnAt: DateTime,
    tax: real,
    totalPrice: real,
    flightList: seq<Flight>)

  datatype Reservation = Reservation(passenger: Passenger, airlineTicket: AirlineTicket)

  /** The projection row of the price-and-charge query. */
  datatype FlightPriceAndCharge = FlightPriceAndCharge(flightPrice: real, charge: real)

  datatype ReservationRequest = ReservationRequest(userId: int, airlineTicketId: int)

  datatype ReservationResult = ReservationResult(
    prices: seq<int>,
    charges: seq<int>,
    tax: int,
    totalPrice: int,
    success: bool)

  datatype AirLineTicketDto = AirLineTicketDto(
    flightId: int,
    departAt: DateTime,
    arrivalAt: DateTime,
    departureLocation: string,
    arrivalLocation: string)

  /** A page request: zero-based page index and page size. */
  datatype Pageable = Pageable(pageNumber: nat, pageSize: nat) {
    /** The index of the first element of the requested page. */
    function Offset(): nat {
      pageNumber * pageSize
    }
  }

  /** `PageRequest.ofSize(size)`: a request for the FIRST page of that size. */
  function OfSize(size: nat): (p: Pageable)
    ensures p.pageSize == size && p.Offset() == 0
  {
    Pageable(0, size)
  }

  /** A page of results together with the request it answers and the total count. */
  datatype Page<+T> = Page(content: seq<T>, pageable: Pageable, totalElements: nat)

  /** `Double.intValue()`: truncation toward zero. */
  function IntValue(x: real): (n: int)
    ensures 0.0 <= x ==> n as real <= x < n as real + 1.0
    ensures x < 0.0 ==> n as real - 1.0 < x <= n as real
  {
    if 0.0 <= x then x.Floor else -((-x).Floor)
  }

  function Min(a: int, b: int): int {
    if a <= b then a else b
  }
}
