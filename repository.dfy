/** The queries the service issues against the store. Each is a pure
    function over the stored rows; its meaning is that of the derived-query
    name or the JPQL it stands for. Query results keep store order. */
module Repository {
  import opened Entities

  /** The elements of `s` that satisfy `p`, in the order of `s`. */
  function Select<T>(s: seq<T>, p: T -> bool): (r: seq<T>)
    ensures |r| <= |s|
    ensures forall x :: x in r ==> x in s && p(x)
    ensures forall x :: x in s && p(x) ==> x in r
  {
    if s == [] then [] else (if p(s[0]) then [s[0]] else []) + Select(s[1..], p)
  }

  /** Selection keeps order: selecting from a concatenation concatenates the selections. */
  lemma {:induction false} SelectAppend<T>(a: seq<T>, b: seq<T>, p: T -> bool)
    ensures Select(a + b, p) == Select(a, p) + Select(b, p)
  {
    if a == [] {
      assert a + b == b;
    } else {
      assert (a + b)[1..] == a[1..] + b;
      SelectAppend(a[1..], b, p);
    }
  }

  /** `findById` over the ticket table: the first ticket with that id, if any. */
  function FindTicketById(tickets: seq<AirlineTicket>, id: int): (r: Option<AirlineTicket>)
    ensures r.Some? ==> r.value in tickets && r.value.ticketId == id
    ensures r.None? <==> forall t :: t in tickets ==> t.ticketId != id
  {
    if tickets == [] then None
    else if tickets[0].ticketId == id then Some(tickets[0])
    else FindTicketById(tickets[1..], id)
  }

  /** `findAirlineTicketsByArrivalLocationAndTicketType`. */
  function FindAirlineTicketsByArrivalLocationAndTicketType(
    tickets: seq<AirlineTicket>, likePlace: string, ticketType: string): (r: seq<AirlineTicket>)
    ensures forall t :: t in r <==> t in tickets && t.arrivalLocation == likePlace && t.ticketType == ticketType
  {
    Select(tickets, (t: AirlineTicket) => t.arrivalLocation == likePlace && t.ticketType == ticketType)
  }

  /** `findByTicketType`. */
  function FindByTicketType(tickets: seq<AirlineTicket>, ticketType: string): (r: seq<AirlineTicket>)
    ensures forall t :: t in r <==> t in tickets && t.ticketType == ticketType
  {
    Select(tickets, (t: AirlineTicket) => t.ticketType == ticketType)
  }

  /** The projection `new FlightPriceAndCharge(f.flightPrice, f.charge)` of one leg. */
  function PriceAndCharge(f: Flight): FlightPriceAndCharge {
    FlightPriceAndCharge(f.flightPrice, f.charge)
  }

  /** One price-and-charge row per flight leg, in leg order. */
  function PricesAndCharges(flights: seq<Flight>): (r: seq<FlightPriceAndCharge>)
    ensures |r| == |flights|
    ensures forall i :: 0 <= i < |flights| ==> r[i] == PriceAndCharge(flights[i])
  {
    if flights == [] then [] else [PriceAndCharge(flights[0])] + PricesAndCharges(flights[1..])
  }

  /** `findFlightPriceAndCharge`: for every reservation whose passenger is the
      user `userId`, one row per flight leg of the reserved ticket. */
  function FindFlightPriceAndCharge(rs: seq<Reservation>, userId: int): (r: seq<FlightPriceAndCharge>)
    ensures (forall res :: res in rs ==> res.passenger.user.userId != userId) ==> r == []
    ensures forall res, f :: res in rs && res.passenger.user.userId == userId && f in res.airlineTicket.flightList
              ==> PriceAndCharge(f) in r
  {
    if rs == [] then []
    else
      (if rs[0].passenger.user.userId == userId then PricesAndCharges(rs[0].airlineTicket.flightList) else [])
      + FindFlightPriceAndCharge(rs[1..], userId)
  }

  /** Every row of the price-and-charge query comes from a leg of one of the user's reservations. */
  lemma {:induction false} FindFlightPriceAndChargeSound(rs: seq<Reservation>, userId: int, row: FlightPriceAndCharge)
    requires row in FindFlightPriceAndCharge(rs, userId)
    ensures exists res, f :: res in rs && res.passenger.user.userId == userId
                          && f in res.airlineTicket.flightList && row == PriceAndCharge(f)
  {
    var own := if rs[0].passenger.user.userId == userId then PricesAndCharges(rs[0].airlineTicket.flightList) else [];
    if row in own {
      var i :| 0 <= i < |own| && own[i] == row;
      assert rs[0] in rs && rs[0].airlineTicket.flightList[i] in rs[0].airlineTicket.flightList;
    } else {
      FindFlightPriceAndChargeSound(rs[1..], userId, row);
      var res, f :| res in rs[1..] && res.passenger.user.userId == userId
                  && f in res.airlineTicket.flightList && row == PriceAndCharge(f);
      assert res in rs;
    }
  }

  /** One reservation yields exactly one row per leg of its ticket when it is the
      user's, and no row otherwise. With FindFlightPriceAndChargeAppend this fixes
      the rows of any reservation list, multiplicity included. */
  lemma FindFlightPriceAndChargeSingle(res: Reservation, userId: int)
    ensures FindFlightPriceAndCharge([res], userId)
         == if res.passenger.user.userId == userId then PricesAndCharges(res.airlineTicket.flightList) else []
  {
  }

  /** The rows of a concatenation of reservation lists are the concatenated rows. */
  lemma {:induction false} FindFlightPriceAndChargeAppend(a: seq<Reservation>, b: seq<Reservation>, userId: int)
    ensures FindFlightPriceAndCharge(a + b, userId)
         == FindFlightPriceAndCharge(a, userId) + FindFlightPriceAndCharge(b, userId)
  {
    if a == [] {
      assert a + b == b;
    } else {
      assert (a + b)[1..] == a[1..] + b;
      FindFlightPriceAndChargeAppend(a[1..], b, userId);
    }
  }

  /** The arrival locations of a ticket's flight legs. */
  function Destinations(flights: seq<Flight>): set<string> {
    set f | f in flights :: f.arrivalLocation
  }

  /** `findArrivalLocationByUsername`: the DISTINCT arrival locations of the
      flight legs of every reservation made by a user with that name. */
  function FindArrivalLocationByUsername(rs: seq<Reservation>, username: string): (r: set<string>)
    ensures forall loc :: loc in r <==>
              exists res :: res in rs && res.passenger.user.userName == username
                         && loc in Destinations(res.airlineTicket.flightList)
  {
    if rs == [] then {}
    else
      (if rs[0].passenger.user.userName == username then Destinations(rs[0].airlineTicket.flightList) else {})
      + FindArrivalLocationByUsername(rs[1..], username)
  }
}
