/** The airline reservation service: ticket search by favourite place,
    reservation, cost totals, paged listing by type, and arrival locations
    by user name, over an in-memory store. */
module Service {
  import opened Entities
  import opened Repository

  /** The two supported ticket types: one-way and round-trip. */
  const TicketTypes: set<string> := {"편도", "왕복"}

  /** `mapToDouble(getFlightPrice).sum()` over the price-and-charge rows. */
  function FlightSum(rows: seq<FlightPriceAndCharge>): real {
    if rows == [] then 0.0 else rows[0].flightPrice + FlightSum(rows[1..])
  }

  /** `mapToDouble(getCharge).sum()` over the price-and-charge rows. */
  function ChargeSum(rows: seq<FlightPriceAndCharge>): real {
    if rows == [] then 0.0 else rows[0].charge + ChargeSum(rows[1..])
  }

  /** Reference definition of a user's cost: what each row costs, price plus charge, summed. */
  function Cost(rows: seq<FlightPriceAndCharge>): real {
    if rows == [] then 0.0 else rows[0].flightPrice + rows[0].charge + Cost(rows[1..])
  }

  /** Summing prices and charges separately and adding the two sums gives the total cost. */
  lemma {:induction false} SumsMakeCost(rows: seq<FlightPriceAndCharge>)
    ensures FlightSum(rows) + ChargeSum(rows) == Cost(rows)
  {
    if rows != [] {
      SumsMakeCost(rows[1..]);
    }
  }

  /** Cost is additive over concatenation. */
  lemma {:induction false} CostAppend(a: seq<FlightPriceAndCharge>, b: seq<FlightPriceAndCharge>)
    ensures Cost(a + b) == Cost(a) + Cost(b)
  {
    if a == [] {
      assert a + b == b;
    } else {
      assert (a + b)[1..] == a[1..] + b;
      CostAppend(a[1..], b);
    }
  }

  /** The cost of a ticket: the price and the charge of each of its flight legs. */
  function TicketCost(flights: seq<Flight>): real {
    Cost(PricesAndCharges(flights))
  }

  /** Appending a reservation adds its ticket's cost to its own user's total
      and leaves every other user's total unchanged. */
  lemma SumAfterAppend(rs: seq<Reservation>, res: Reservation)
    ensures forall uid :: Cost(FindFlightPriceAndCharge(rs + [res], uid))
              == Cost(FindFlightPriceAndCharge(rs, uid))
                 + (if res.passenger.user.userId == uid then TicketCost(res.airlineTicket.flightList) else 0.0)
  {
    forall uid
      ensures Cost(FindFlightPriceAndCharge(rs + [res], uid))
           == Cost(FindFlightPriceAndCharge(rs, uid))
              + (if res.passenger.user.userId == uid then TicketCost(res.airlineTicket.flightList) else 0.0)
    {
      FindFlightPriceAndChargeAppend(rs, [res], uid);
      FindFlightPriceAndChargeSingle(res, uid);
      var own := if res.passenger.user.userId == uid then PricesAndCharges(res.airlineTicket.flightList) else [];
      CostAppend(FindFlightPriceAndCharge(rs, uid), own);
    }
  }

  /** Element-wise `Double::intValue`. */
  function IntValues(xs: seq<real>): (r: seq<int>)
    ensures |r| == |xs|
    ensures forall i :: 0 <= i < |xs| ==> r[i] == IntValue(xs[i])
  {
    if xs == [] then [] else [IntValue(xs[0])] + IntValues(xs[1..])
  }

  /** `map(Flight::getFlightPrice)`: the price of each leg, in leg order. */
  function FlightPrices(flights: seq<Flight>): seq<real> {
    seq(|flights|, i requires 0 <= i < |flights| => flights[i].flightPrice)
  }

  /** `map(Flight::getCharge)`: the charge of each leg, in leg order. */
  function FlightCharges(flights: seq<Flight>): seq<real> {
    seq(|flights|, i requires 0 <= i < |flights| => flights[i].charge)
  }

  /** The list view of a ticket used by the paged listing. */
  function ToDto(t: AirlineTicket): AirLineTicketDto {
    AirLineTicketDto(t.ticketId, t.departureAt, t.returnAt, t.departureLocation, t.arrivalLocation)
  }

  class AirReservationService {
    /** The user table, by user id. */
    var users: map<int, User>
    /** The passenger table, by the id of the user each passenger belongs to. */
    var passengers: map<int, Passenger>
    /** The ticket table, in store order. */
    var tickets: seq<AirlineTicket>
    /** The reservation table; the service only ever appends to it. */
    var reservations: seq<Reservation>

    /** A reservation refers to a stored passenger and a stored ticket. */
    ghost predicate Booked(res: Reservation)
      reads this
    {
      && res.passenger.user.userId in passengers
      && passengers[res.passenger.user.userId] == res.passenger
      && FindTicketById(tickets, res.airlineTicket.ticketId) == Some(res.airlineTicket)
    }

    /** Keys agree with the records they index, a passenger's user is the stored user row,
        ticket ids are unique, and reservations are referentially intact. */
    ghost predicate Valid()
      reads this
    {
      && (forall id :: id in users ==> users[id].userId == id)
      && (forall id :: id in passengers ==> passengers[id].user.userId == id)
      && (forall id :: id in passengers ==> id in users && passengers[id].user == users[id])
      && (forall i, j :: 0 <= i < j < |tickets| ==> tickets[i].ticketId != tickets[j].ticketId)
      && (forall res :: res in reservations ==> Booked(res))
    }

    /** A service over a store that already holds the given users, passengers,
        tickets and reservations, as the store keeps them consistent. */
    constructor (users: map<int, User>, passengers: map<int, Passenger>, tickets: seq<AirlineTicket>,
                 reservations: seq<Reservation>)
      requires forall id :: id in users ==> users[id].userId == id
      requires forall id :: id in passengers ==> passengers[id].user.userId == id
      requires forall id :: id in passengers ==> id in users && passengers[id].user == users[id]
      requires forall i, j :: 0 <= i < j < |tickets| ==> tickets[i].ticketId != tickets[j].ticketId
      requires forall res :: res in reservations ==>
                 && res.passenger.user.userId in passengers
                 && passengers[res.passenger.user.userId] == res.passenger
                 && FindTicketById(tickets, res.airlineTicket.ticketId) == Some(res.airlineTicket)
      ensures Valid()
      ensures this.users == users && this.passengers == passengers
      ensures this.tickets == tickets && this.reservations == reservations
    {
      this.users := users;
      this.passengers := passengers;
      this.tickets := tickets;
      this.reservations := reservations;
    }

    /** The tickets that match a user's favourite place and the requested type,
        each passed through the ticket mapper `toTicket`. */
    function FindUserFavoritePlaceTickets<T>(userId: int, ticketType: string, toTicket: AirlineTicket -> T)
      : (r: Result<seq<T>>)
      reads this
      ensures ticketType !in TicketTypes ==> r == Failure(InvalidValue)
      ensures ticketType in TicketTypes && userId !in users ==> r == Failure(NotFound)
      ensures r.Failure? ==> r.error in {InvalidValue, NotFound}
      ensures ticketType in TicketTypes && userId in users ==>
                (r.Failure? <==> forall t :: t in tickets ==>
                   t.arrivalLocation != users[userId].likeTravelPlace || t.ticketType != ticketType)
      ensures r.Success? ==> r.value != [] && userId in users
      ensures r.Success? ==>
                var matched := FindAirlineTicketsByArrivalLocationAndTicketType(
                  tickets, users[userId].likeTravelPlace, ticketType);
                && |r.value| == |matched|
                && (forall i :: 0 <= i < |matched| ==> r.value[i] == toTicket(matched[i]))
    {
      if ticketType !in TicketTypes then Failure(InvalidValue)
      else if userId !in users then Failure(NotFound)
      else
        var likePlace := users[userId].likeTravelPlace;
        var airlineTickets := FindAirlineTicketsByArrivalLocationAndTicketType(tickets, likePlace, ticketType);
        if airlineTickets == [] then
          assert forall t :: t in tickets ==> t.arrivalLocation != likePlace || t.ticketType != ticketType;
          Failure(NotFound)
        else
          assert airlineTickets[0] in airlineTickets;
          Success(seq(|airlineTickets|, i requires 0 <= i < |airlineTickets| => toTicket(airlineTickets[i])))
    }

    /** Reserves ticket `request.airlineTicketId` for the passenger of user
        `request.userId`. `saveRejected` stands for the store refusing the insert. */
    method MakeReservation(request: ReservationRequest, saveRejected: bool) returns (r: Result<ReservationResult>)
      requires Valid()
      modifies this`reservations
      ensures Valid()
      ensures var found := FindTicketById(tickets, request.airlineTicketId);
              && (found.None? ==> r == Failure(NotFound))
              && (found.Some? && request.userId !in passengers ==> r == Failure(NotFound))
              && (found.Some? && request.userId in passengers && found.value.flightList == [] ==>
                    r == Failure(NotFound))
              && (found.Some? && request.userId in passengers && found.value.flightList != [] && saveRejected ==>
                    r == Failure(NotAccept))
      ensures r.Failure? ==> reservations == old(reservations)
      ensures r.Success? <==>
                && FindTicketById(tickets, request.airlineTicketId).Some?
                && request.userId in passengers
                && FindTicketById(tickets, request.airlineTicketId).value.flightList != []
                && !saveRejected
      ensures r.Success? ==>
                var ticket := FindTicketById(tickets, request.airlineTicketId).value;
                && reservations == old(reservations) + [Reservation(passengers[request.userId], ticket)]
                && r.value.success
                && |r.value.prices| == |r.value.charges| == |ticket.flightList|
                && (forall i :: 0 <= i < |ticket.flightList| ==>
                      r.value.prices[i] == IntValue(ticket.flightList[i].flightPrice)
                      && r.value.charges[i] == IntValue(ticket.flightList[i].charge))
                && r.value.tax == IntValue(ticket.tax)
                && r.value.totalPrice == IntValue(ticket.totalPrice)
                && FindUserFlightSumPrice(request.userId)
                   == old(FindUserFlightSumPrice(request.userId)) + TicketCost(ticket.flightList)
                && (forall uid :: uid != request.userId ==>
                      FindUserFlightSumPrice(uid) == old(FindUserFlightSumPrice(uid)))
    {
      var found := FindTicketById(tickets, request.airlineTicketId);
      if found.None? {
        return Failure(NotFound);
      }
      var airlineTicket := found.value;
      if request.userId !in passengers {
        return Failure(NotFound);
      }
      var passenger := passengers[request.userId];
      var flightList := airlineTicket.flightList;
      if flightList == [] {
        return Failure(NotFound);
      }
      var isSuccess := false;
      var reservation := Reservation(passenger, airlineTicket);
      if saveRejected {
        return Failure(NotAccept);
      }
      ghost var before := reservations;
      reservations := reservations + [reservation];
      isSuccess := true;
      SumAfterAppend(before, reservation);

      var prices := IntValues(FlightPrices(flightList));
      var charges := IntValues(FlightCharges(flightList));
      var tax := IntValue(airlineTicket.tax);
      var totalPrice := IntValue(airlineTicket.totalPrice);
      r := Success(ReservationResult(prices, charges, tax, totalPrice, isSuccess));
    }

    /** The total of flight prices plus charges over everything user `userId` has reserved. */
    function FindUserFlightSumPrice(userId: int): (r: real)
      reads this
      ensures r == Cost(FindFlightPriceAndCharge(reservations, userId))
      ensures (forall res :: res in reservations ==> res.passenger.user.userId != userId) ==> r == 0.0
    {
      var rows := FindFlightPriceAndCharge(reservations, userId);
      var flightSum := FlightSum(rows);
      var chargeSum := ChargeSum(rows);
      SumsMakeCost(rows);
      flightSum + chargeSum
    }

    /** Lists the tickets of type `ticketType` as DTOs and returns one page of them.
        The page index of `pageable` is not used: the page is always the first. */
    method FindByTicketType(ticketType: string, pageable: Pageable) returns (page: Page<AirLineTicketDto>)
      requires pageable.pageSize >= 1
      ensures var matched := Repository.FindByTicketType(tickets, ticketType);
              && page.totalElements == |matched|
              && |page.content| == Min(pageable.pageSize, |matched|)
              && (forall i :: 0 <= i < |page.content| ==>
                    && page.content[i].flightId == matched[i].ticketId
                    && page.content[i].departAt == matched[i].departureAt
                    && page.content[i].arrivalAt == matched[i].returnAt
                    && page.content[i].departureLocation == matched[i].departureLocation
                    && page.content[i].arrivalLocation == matched[i].arrivalLocation)
      ensures page.pageable == Pageable(0, pageable.pageSize)
    {
      var airlineTickets := Repository.FindByTicketType(tickets, ticketType);
      var airLineTicketDtos: seq<AirLineTicketDto> := [];
      for k := 0 to |airlineTickets|
        invariant |airLineTicketDtos| == k
        invariant forall i :: 0 <= i < k ==> airLineTicketDtos[i] == ToDto(airlineTickets[i])
      {
        airLineTicketDtos := airLineTicketDtos + [ToDto(airlineTickets[k])];
      }
      var pageRequest := OfSize(pageable.pageSize);
      var start := pageRequest.Offset();
      var end := Min(start + pageRequest.pageSize, |airLineTicketDtos|);
      page := Page(airLineTicketDtos[start..end], pageRequest, |airLineTicketDtos|);
    }

    /** Two requests that differ only in their page index get the same page. */
    method PageIndexIgnored(ticketType: string, first: Pageable, other: Pageable)
      returns (a: Page<AirLineTicketDto>, b: Page<AirLineTicketDto>)
      requires first.pageSize == other.pageSize >= 1
      ensures a == b
      ensures a.pageable.pageNumber == 0
    {
      a := FindByTicketType(ticketType, first);
      b := FindByTicketType(ticketType, other);
      assert a.content == b.content;
    }

    /** The distinct arrival locations of the flights reserved by users named `username`. */
    function FindArrivalLocationByUsername(username: string): (r: set<string>)
      reads this
      ensures forall loc :: loc in r <==>
                exists res, f :: res in reservations && res.passenger.user.userName == username
                              && f in res.airlineTicket.flightList && f.arrivalLocation == loc
    {
      Repository.FindArrivalLocationByUsername(reservations, username)
    }
  }
}
