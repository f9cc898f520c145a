/**
 * The client-side flight service: it builds the query for the flight API,
 * falls back to a fixed list of three mock flights when the API fails, times
 * out or answers with nothing, and normalises every record (defaults for
 * missing fields, a computed duration, a class-based price when none is given,
 * a cosmetic on-time rate).
 *
 * The HTTP call itself is an input: `fetched` is `None` when the request
 * failed or timed out, otherwise the array the API answered with.
 */
module FlightApi {
  import opened Wrappers
  import opened JsOps
  import opened Flights

  function MockFlight(airline: string, iata: string, dep: string, arr: string, amount: int): Flight {
    Flight(Some(Airline(airline)), Some(FlightCode(iata)),
           Some(Endpoint(Some("Mumbai (BOM)"), dep)), Some(Endpoint(Some("Delhi (DEL)"), arr)),
           Some("scheduled"), Some(Km(1150)), Some(Price(amount, "INR")), None, None, None)
  }

  /** The fallback data set. */
  const MockFlights: seq<Flight> := [
    MockFlight("Air India", "AI101", "2024-01-15T10:30:00+00:00", "2024-01-15T12:45:00+00:00", 8500),
    MockFlight("IndiGo", "6E202", "2024-01-15T11:15:00+00:00", "2024-01-15T13:20:00+00:00", 7200),
    MockFlight("Vistara", "UK805", "2024-01-15T14:00:00+00:00", "2024-01-15T16:15:00+00:00", 9500)
  ]

  const BasePrice := 5000

  /** `generatePrice(travelClass)`: 5000 INR times the class multiplier, rounded down. */
  function GeneratePrice(travelClass: string): (p: Price)
    ensures p.currency == "INR"
    ensures p.amount * 10 == BasePrice * ClassMultiplierTenths(travelClass)
  {
    Price(BasePrice * ClassMultiplierTenths(travelClass) / 10, "INR")
  }

  lemma GeneratePriceTable(other: string)
    requires other !in {"ECONOMY", "BUSINESS", "FIRST"}
    ensures GeneratePrice("ECONOMY").amount == 5000
    ensures GeneratePrice("BUSINESS").amount == 12500
    ensures GeneratePrice("FIRST").amount == 20000
    ensures GeneratePrice(other).amount == 5000
  {
  }

  /** `out` is `src` when `src` is present and the default otherwise (`src || default`). */
  predicate Defaulted<T(==)>(src: Option<T>, out: Option<T>, default: T) {
    if src.Some? then out == src else out == Some(default)
  }

  /** Every field the views read is present. */
  predicate Populated(f: Flight) {
    f.airline.Some? && f.flight.Some? && f.departure.Some? && f.arrival.Some?
    && f.flightStatus.Some? && f.distance.Some? && f.price.Some? && f.duration.Some? && f.onTimeRate.Some?
  }

  /** The default endpoint of a record that has none. */
  const UnknownEndpoint := Endpoint(Some("N/A"), "N/A")

  /**
   * One step of `processFlightData`: fills the missing fields, keeps the present ones,
   * prices the record from the travel class when it has no price, and computes the
   * duration from the record's original timestamps.
   */
  function Normalize(f: Flight, travelClass: string, random: real, parse: DateParser): (g: Flight)
    requires 0.0 <= random < 1.0
    ensures Populated(g)
    ensures Defaulted(f.airline, g.airline, Airline("Unknown Airline"))
    ensures Defaulted(f.flight, g.flight, FlightCode("N/A"))
    ensures Defaulted(f.departure, g.departure, UnknownEndpoint)
    ensures Defaulted(f.arrival, g.arrival, UnknownEndpoint)
    ensures Defaulted(f.distance, g.distance, KmUnknown)
    ensures Defaulted(f.price, g.price, GeneratePrice(travelClass))
    ensures g.flightStatus == if f.flightStatus.Some? && f.flightStatus.value != "" then f.flightStatus else Some("Unknown")
    ensures g.duration == Some(CalculateDuration(DepartureText(f), ArrivalText(f), parse))
    ensures 80 <= g.onTimeRate.value <= 100
    ensures g.travelClass == f.travelClass
  {
    Flight(
      airline := if f.airline.Some? then f.airline else Some(Airline("Unknown Airline")),
      flight := if f.flight.Some? then f.flight else Some(FlightCode("N/A")),
      departure := if f.departure.Some? then f.departure else Some(UnknownEndpoint),
      arrival := if f.arrival.Some? then f.arrival else Some(UnknownEndpoint),
      flightStatus := if f.flightStatus.Some? && f.flightStatus.value != "" then f.flightStatus else Some("Unknown"),
      distance := if f.distance.Some? then f.distance else Some(KmUnknown),
      price := if f.price.Some? then f.price else Some(GeneratePrice(travelClass)),
      duration := Some(CalculateDuration(DepartureText(f), ArrivalText(f), parse)),
      onTimeRate := Some(OnTimeRate(random)),
      travelClass := f.travelClass)
  }

  /**
   * `processFlightData(flights, searchParams)`: one normalised record per input record,
   * in the same order; `randoms[i]` is the draw made for record `i`.
   */
  function ProcessFlightData(flights: seq<Flight>, travelClass: string, randoms: seq<real>, parse: DateParser): (r: seq<Flight>)
    requires |randoms| == |flights| && ValidRandoms(randoms)
    ensures |r| == |flights|
    ensures forall i | 0 <= i < |r| :: r[i] == Normalize(flights[i], travelClass, randoms[i], parse)
  {
    if flights == [] then []
    else [Normalize(flights[0], travelClass, randoms[0], parse)]
         + ProcessFlightData(flights[1..], travelClass, randoms[1..], parse)
  }

  /** The query string of the API request, as (name, value) pairs in insertion order. */
  function SearchQuery(p: SearchParams): (q: seq<(string, string)>)
    ensures |q| >= 3 && q[0].0 == "from" && q[1].0 == "to" && q[2] == ("departure", p.departure)
    ensures ToLower(q[0].1) == ToLower(p.from) && ToLower(q[1].1) == ToLower(p.to)
    ensures forall i | 0 <= i < |q[0].1| :: !('a' <= q[0].1[i] <= 'z')
    ensures forall i | 0 <= i < |q[1].1| :: !('a' <= q[1].1[i] <= 'z')
    ensures |q| == 4 <==> p.returnDate != "" && p.tripType == RoundTrip
    ensures |q| == 4 ==> q[3] == ("return", p.returnDate)
    ensures |q| <= 4
  {
    UpperThenLower(p.from);
    UpperThenLower(p.to);
    [("from", ToUpper(p.from)), ("to", ToUpper(p.to)), ("departure", p.departure)]
    + (if p.returnDate != "" && p.tripType == RoundTrip then [("return", p.returnDate)] else [])
  }

  /** Upper-casing loses nothing that lower-casing keeps. */
  lemma UpperThenLower(s: string)
    ensures ToLower(ToUpper(s)) == ToLower(s)
  {
    assert forall i | 0 <= i < |s| :: ToLower(ToUpper(s))[i] == ToLower(s)[i];
  }

  /** `!data || data.length === 0`: the API gave nothing usable. */
  predicate UsesMock(fetched: Option<seq<Flight>>) {
    fetched.None? || fetched.value == []
  }

  /**
   * `searchFlights(searchParams)`: the processed API answer, or the processed mock list
   * when the request failed, timed out or returned an empty array.
   */
  function SearchFlights(p: SearchParams, fetched: Option<seq<Flight>>, randoms: seq<real>, parse: DateParser): (r: seq<Flight>)
    requires ValidRandoms(randoms)
    requires |randoms| == if UsesMock(fetched) then |MockFlights| else |fetched.value|
    ensures UsesMock(fetched) ==> r == ProcessFlightData(MockFlights, p.travelClass, randoms, parse) && |r| == 3
    ensures !UsesMock(fetched) ==> r == ProcessFlightData(fetched.value, p.travelClass, randoms, parse)
    ensures forall i | 0 <= i < |r| :: Populated(r[i])
    ensures !UsesMock(fetched) ==> forall i | 0 <= i < |r| :: r[i].price.value == fetched.value[i].price.GetOr(GeneratePrice(p.travelClass))
  {
    var data := if UsesMock(fetched) then MockFlights else fetched.value;
    ProcessFlightData(data, p.travelClass, randoms, parse)
  }

  /** The fallback list keeps the mock prices: no mock record is re-priced by travel class. */
  lemma MockPricesKept(p: SearchParams, randoms: seq<real>, parse: DateParser)
    requires ValidRandoms(randoms) && |randoms| == 3
    ensures var r := SearchFlights(p, None, randoms, parse);
      r[0].price.value.amount == 8500 && r[1].price.value.amount == 7200 && r[2].price.value.amount == 9500
  {
  }
}
