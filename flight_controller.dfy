/**
 * The admin panel's flight controller: it validates the search query, serves
 * five mock flights relabelled with the searched cities, synthesises a return
 * leg for each when a return date is given, looks a mock flight up by its
 * code, and prices a list of served flights per passenger and travel class.
 *
 * Express's request and response objects are left out: a handler's answer is
 * a `Result` whose error carries the HTTP status.
 */
module FlightController {
  import opened Wrappers
  import opened JsOps
  import opened Flights

  datatype Leg = Leg(airport: string, scheduled: string)

  /** A record of the mock table. */
  datatype MockRecord = MockRecord(airline: string, iata: string, departure: Leg, arrival: Leg, amount: int)

  /** A record as `getFlights` serves it. */
  datatype ServedFlight = ServedFlight(
    airline: string, iata: string, departure: Leg, arrival: Leg,
    status: string, km: int, amount: int, duration: string, onTimeRate: int)

  datatype HttpError = HttpError(status: int, message: string)

  /** The query of `GET /flights`; an absent or empty parameter is "". */
  datatype FlightsQuery = FlightsQuery(from: string, to: string, departure: string, returnDate: string)

  function Mock(airline: string, iata: string, dep: string, arr: string, amount: int): MockRecord {
    MockRecord(airline, iata, Leg("Mumbai (BOM)", dep), Leg("Delhi (DEL)", arr), amount)
  }

  const Mocks: seq<MockRecord> := [
    Mock("Air India", "AI101", "2024-01-15T10:30:00+00:00", "2024-01-15T12:45:00+00:00", 8500),
    Mock("IndiGo", "6E202", "2024-01-15T11:15:00+00:00", "2024-01-15T13:20:00+00:00", 7200),
    Mock("Vistara", "UK805", "2024-01-15T14:00:00+00:00", "2024-01-15T16:15:00+00:00", 9500),
    Mock("SpiceJet", "SG301", "2024-01-15T16:45:00+00:00", "2024-01-15T19:00:00+00:00", 6800),
    Mock("GoAir", "G8123", "2024-01-15T20:30:00+00:00", "2024-01-15T22:45:00+00:00", 7500)
  ]

  /** `${city} (${city.toUpperCase()})`. */
  function Label(city: string): (s: string)
    ensures Includes(s, city)
  {
    IncludesConcat([], city, " (" + ToUpper(city) + ")");
    assert [] + city + (" (" + ToUpper(city) + ")") == city + " (" + ToUpper(city) + ")";
    city + " (" + ToUpper(city) + ")"
  }

  /** `s.slice(10)`: everything after the date part of an ISO timestamp. */
  function TimePart(s: string): (t: string)
    ensures |s| >= 10 ==> s == s[..10] + t
    ensures |s| < 10 ==> t == []
  {
    if |s| >= 10 then s[10..] else []
  }

  /** The duration of a served record matches its own departure and arrival times. */
  predicate DurationConsistent(f: ServedFlight, parse: DateParser) {
    f.duration == CalculateDuration(f.departure.scheduled, f.arrival.scheduled, parse)
  }

  /** The outbound record served for mock `m`: the airports carry the searched cities. */
  function Outbound(m: MockRecord, q: FlightsQuery, random: real, parse: DateParser): (f: ServedFlight)
    requires 0.0 <= random < 1.0
    ensures f.departure == Leg(Label(q.from), m.departure.scheduled)
    ensures f.arrival == Leg(Label(q.to), m.arrival.scheduled)
    ensures f.iata == m.iata && f.amount == m.amount && f.airline == m.airline
    ensures f.status == "scheduled" && f.km == 1150 && 80 <= f.onTimeRate <= 100
    ensures DurationConsistent(f, parse)
  {
    ServedFlight(m.airline, m.iata,
                 Leg(Label(q.from), m.departure.scheduled), Leg(Label(q.to), m.arrival.scheduled),
                 "scheduled", 1150, m.amount,
                 CalculateDuration(m.departure.scheduled, m.arrival.scheduled, parse), OnTimeRate(random))
  }

  /**
   * The return leg exactly as the controller builds it: airports swapped, the return
   * date spliced in front of each time, an "R" after the code -- and the duration
   * computed with the arrival time passed as the departure time.
   */
  function ReturnLegAsWritten(o: ServedFlight, returnDate: string, parse: DateParser): (r: ServedFlight)
    ensures r.departure == Leg(o.arrival.airport, returnDate + TimePart(o.departure.scheduled))
    ensures r.arrival == Leg(o.departure.airport, returnDate + TimePart(o.arrival.scheduled))
    ensures r.iata == o.iata + "R"
    ensures r.airline == o.airline && r.amount == o.amount && r.onTimeRate == o.onTimeRate
    ensures r.status == o.status && r.km == o.km
    ensures r.duration == CalculateDuration(r.arrival.scheduled, r.departure.scheduled, parse)
  {
    var dep := returnDate + TimePart(o.departure.scheduled);
    var arr := returnDate + TimePart(o.arrival.scheduled);
    o.(departure := Leg(o.arrival.airport, dep),
       arrival := Leg(o.departure.airport, arr),
       iata := o.iata + "R",
       duration := CalculateDuration(arr, dep, parse))
  }

  /** The return leg with its duration measured from its own departure to its own arrival. */
  function ReturnLeg(o: ServedFlight, returnDate: string, parse: DateParser): (r: ServedFlight)
    ensures r.departure == Leg(o.arrival.airport, returnDate + TimePart(o.departure.scheduled))
    ensures r.arrival == Leg(o.departure.airport, returnDate + TimePart(o.arrival.scheduled))
    ensures r.iata == o.iata + "R"
    ensures r.airline == o.airline && r.amount == o.amount && r.onTimeRate == o.onTimeRate
    ensures r.status == o.status && r.km == o.km
    ensures DurationConsistent(r, parse)
  {
    var dep := returnDate + TimePart(o.departure.scheduled);
    var arr := returnDate + TimePart(o.arrival.scheduled);
    o.(departure := Leg(o.arrival.airport, dep),
       arrival := Leg(o.departure.airport, arr),
       iata := o.iata + "R",
       duration := CalculateDuration(dep, arr, parse))
  }

  /**
   * The as-written return leg reports the duration of the outbound flight run backwards:
   * whenever both times parse and the return departs before it arrives, its text is
   * that of a negative difference.
   */
  lemma ReturnLegAsWrittenIsReversed(o: ServedFlight, returnDate: string, parse: DateParser)
    requires returnDate != ""
    requires var r := ReturnLeg(o, returnDate, parse);
      parse(r.departure.scheduled).Some? && parse(r.arrival.scheduled).Some?
      && parse(r.departure.scheduled).value.epochMs < parse(r.arrival.scheduled).value.epochMs
    ensures var r := ReturnLeg(o, returnDate, parse);
      var d := parse(r.arrival.scheduled).value.epochMs - parse(r.departure.scheduled).value.epochMs;
      ReturnLegAsWritten(o, returnDate, parse).duration == DurationText(-d)
      && ReturnLegAsWritten(o, returnDate, parse).duration[0] == '-'
      && r.duration == DurationText(d)
      && !DurationConsistent(ReturnLegAsWritten(o, returnDate, parse), parse)
  {
    var r := ReturnLeg(o, returnDate, parse);
    var d := parse(r.arrival.scheduled).value.epochMs - parse(r.departure.scheduled).value.epochMs;
    ReversedDurationIsNegative(d);
    assert DurationText(d)[0] != '-';
  }

  /** Splicing a date of the same length in front of a timestamp's time part replaces its date. */
  lemma SplicedTime(t: string, outbound: string, spliced: string)
    requires t == outbound && |outbound| >= 10 && |spliced| >= 10
    requires outbound[10..] == spliced[10..]
    ensures spliced[..10] + TimePart(t) == spliced
  {
    assert spliced == spliced[..10] + spliced[10..];
  }

  lemma ExampleReturnTimes(o: ServedFlight, parse: DateParser)
    requires o.departure.scheduled == "2024-01-15T10:30:00+00:00" && o.arrival.scheduled == "2024-01-15T12:45:00+00:00"
    ensures ReturnLeg(o, "2024-01-20", parse).departure.scheduled == "2024-01-20T10:30:00+00:00"
    ensures ReturnLeg(o, "2024-01-20", parse).arrival.scheduled == "2024-01-20T12:45:00+00:00"
  {
    SplicedTime(o.departure.scheduled, "2024-01-15T10:30:00+00:00", "2024-01-20T10:30:00+00:00");
    SplicedTime(o.arrival.scheduled, "2024-01-15T12:45:00+00:00", "2024-01-20T12:45:00+00:00");
  }

  /** The first mock flight and its return on 2024-01-20, under a parser that reads those two times. */
  lemma ReturnLegAsWrittenExample(o: ServedFlight, parse: DateParser)
    requires o.departure.scheduled == "2024-01-15T10:30:00+00:00" && o.arrival.scheduled == "2024-01-15T12:45:00+00:00"
    requires parse("2024-01-20T10:30:00+00:00") == Some(Instant(1705746600000, 10))
    requires parse("2024-01-20T12:45:00+00:00") == Some(Instant(1705754700000, 12))
    ensures ReturnLegAsWritten(o, "2024-01-20", parse).duration == "-3h -15m"
    ensures ReturnLeg(o, "2024-01-20", parse).duration == "2h 15m"
  {
    ExampleReturnTimes(o, parse);
    ReturnLegAsWrittenIsReversed(o, "2024-01-20", parse);
    DurationTextExamples();
  }

  function Outbounds(ms: seq<MockRecord>, q: FlightsQuery, randoms: seq<real>, parse: DateParser): (fs: seq<ServedFlight>)
    requires |randoms| == |ms| && ValidRandoms(randoms)
    ensures |fs| == |ms|
    ensures forall i | 0 <= i < |fs| :: fs[i] == Outbound(ms[i], q, randoms[i], parse)
  {
    if ms == [] then [] else [Outbound(ms[0], q, randoms[0], parse)] + Outbounds(ms[1..], q, randoms[1..], parse)
  }

  function ReturnLegs(os: seq<ServedFlight>, returnDate: string, parse: DateParser): (rs: seq<ServedFlight>)
    ensures |rs| == |os|
    ensures forall i | 0 <= i < |rs| :: rs[i] == ReturnLeg(os[i], returnDate, parse)
  {
    if os == [] then [] else [ReturnLeg(os[0], returnDate, parse)] + ReturnLegs(os[1..], returnDate, parse)
  }

  /** The list `getFlights` serves for the records `ms`: each record relabelled, then their return legs when a return date is given. */
  function Serve(ms: seq<MockRecord>, q: FlightsQuery, randoms: seq<real>, parse: DateParser): (fs: seq<ServedFlight>)
    requires |randoms| == |ms| && ValidRandoms(randoms)
    ensures |fs| == if q.returnDate == "" then |ms| else 2 * |ms|
    ensures fs[..|ms|] == Outbounds(ms, q, randoms, parse)
    ensures q.returnDate != "" ==> fs[|ms|..] == ReturnLegs(fs[..|ms|], q.returnDate, parse)
  {
    var outbound := Outbounds(ms, q, randoms, parse);
    if q.returnDate == "" then
      assert outbound[..|ms|] == outbound;
      outbound
    else
      var legs := ReturnLegs(outbound, q.returnDate, parse);
      assert (outbound + legs)[..|ms|] == outbound;
      assert (outbound + legs)[|ms|..] == legs;
      outbound + legs
  }

  /**
   * Every outbound record keeps its record's code, airline and price, carries the searched
   * cities, and has the rate it drew; every served record is scheduled, 1150 km long, rated
   * 80..100 and has a duration that matches its own times.
   */
  lemma ServedOutbounds(ms: seq<MockRecord>, q: FlightsQuery, randoms: seq<real>, parse: DateParser, fs: seq<ServedFlight>)
    requires |randoms| == |ms| && ValidRandoms(randoms) && fs == Serve(ms, q, randoms, parse)
    ensures forall i | 0 <= i < |ms| ::
      fs[i].iata == ms[i].iata && fs[i].airline == ms[i].airline && fs[i].amount == ms[i].amount
      && fs[i].departure == Leg(Label(q.from), ms[i].departure.scheduled)
      && fs[i].arrival == Leg(Label(q.to), ms[i].arrival.scheduled)
      && fs[i].onTimeRate == OnTimeRate(randoms[i])
      && fs[i].status == "scheduled" && fs[i].km == 1150 && DurationConsistent(fs[i], parse)
  {
    forall i | 0 <= i < |ms|
      ensures fs[i] == Outbound(ms[i], q, randoms[i], parse)
    {
      assert fs[i] == fs[..|ms|][i];
    }
  }

  /**
   * With a return date, return leg `i` is built from outbound record `i`: the code gains an
   * "R", the airports swap, the return date replaces each time's date, and the airline,
   * price, status, distance and rate carry over.
   */
  lemma ServedReturns(ms: seq<MockRecord>, q: FlightsQuery, randoms: seq<real>, parse: DateParser, fs: seq<ServedFlight>)
    requires |randoms| == |ms| && ValidRandoms(randoms) && fs == Serve(ms, q, randoms, parse)
    requires q.returnDate != ""
    ensures forall j | |ms| <= j < 2 * |ms| ::
      fs[j] == ReturnLeg(fs[j - |ms|], q.returnDate, parse)
      && fs[j].iata == ms[j - |ms|].iata + "R" && fs[j].airline == ms[j - |ms|].airline
      && fs[j].amount == ms[j - |ms|].amount && fs[j].onTimeRate == fs[j - |ms|].onTimeRate
      && fs[j].status == "scheduled" && fs[j].km == 1150
      && fs[j].departure == Leg(Label(q.to), q.returnDate + TimePart(ms[j - |ms|].departure.scheduled))
      && fs[j].arrival == Leg(Label(q.from), q.returnDate + TimePart(ms[j - |ms|].arrival.scheduled))
      && DurationConsistent(fs[j], parse)
  {
    ServedOutbounds(ms, q, randoms, parse, fs);
    forall j | |ms| <= j < 2 * |ms|
      ensures fs[j] == ReturnLeg(fs[j - |ms|], q.returnDate, parse)
    {
      assert fs[j] == fs[|ms|..][j - |ms|];
      assert fs[j - |ms|] == fs[..|ms|][j - |ms|];
    }
  }

  /**
   * `getFlights`: 400 when `from`, `to` or `departure` is missing; otherwise the five
   * relabelled mock flights, followed by their five return legs when a return date is given.
   * `randoms[i]` is the on-time-rate draw for mock `i`.
   */
  function GetFlights(q: FlightsQuery, randoms: seq<real>, parse: DateParser): (r: Result<seq<ServedFlight>, HttpError>)
    requires |randoms| == |Mocks| && ValidRandoms(randoms)
    ensures r.Err? <==> q.from == "" || q.to == "" || q.departure == ""
    ensures r.Err? ==> r.error.status == 400
    ensures r.Ok? ==> |r.value| == if q.returnDate == "" then 5 else 10
    ensures r.Ok? ==> r.value == Serve(Mocks, q, randoms, parse)
    ensures r.Ok? ==> r.value[..5] == Outbounds(Mocks, q, randoms, parse)
    ensures r.Ok? && q.returnDate != "" ==> r.value[5..] == ReturnLegs(r.value[..5], q.returnDate, parse)
  {
    if q.from == "" || q.to == "" || q.departure == "" then
      Err(HttpError(400, "Missing required parameters: from, to, departure"))
    else
      Ok(Serve(Mocks, q, randoms, parse))
  }

  /**
   * What `getFlights` serves, record by record: mock `i` relabelled, keeping its code,
   * airline and price, at index `i`, and its return leg at index `5 + i`; every record
   * is scheduled, 1150 km long, rated 80..100, with a duration that matches its times.
   */
  lemma GetFlightsServesMocks(q: FlightsQuery, randoms: seq<real>, parse: DateParser, fs: seq<ServedFlight>)
    requires |randoms| == |Mocks| && ValidRandoms(randoms)
    requires GetFlights(q, randoms, parse) == Ok(fs)
    ensures forall i | 0 <= i < 5 ::
      fs[i].iata == Mocks[i].iata && fs[i].airline == Mocks[i].airline && fs[i].amount == Mocks[i].amount
      && fs[i].departure == Leg(Label(q.from), Mocks[i].departure.scheduled)
      && fs[i].arrival == Leg(Label(q.to), Mocks[i].arrival.scheduled)
      && fs[i].onTimeRate == OnTimeRate(randoms[i])
    ensures q.returnDate != "" ==> forall i | 0 <= i < 5 ::
      fs[5 + i] == ReturnLeg(fs[i], q.returnDate, parse) && fs[5 + i].iata == Mocks[i].iata + "R"
    ensures forall i | 0 <= i < |fs| ::
      fs[i].status == "scheduled" && fs[i].km == 1150 && 80 <= fs[i].onTimeRate <= 100
      && DurationConsistent(fs[i], parse)
  {
    var ms := Mocks;
    assert |ms| == 5;
    assert fs == Serve(ms, q, randoms, parse);
    ServedOutbounds(ms, q, randoms, parse, fs);
    if q.returnDate != "" {
      ServedReturns(ms, q, randoms, parse, fs);
      forall i | 0 <= i < 5
        ensures fs[5 + i] == ReturnLeg(fs[i], q.returnDate, parse) && fs[5 + i].iata == ms[i].iata + "R"
      {
        var j := 5 + i;
        assert |ms| <= j < 2 * |ms| && j - |ms| == i;
      }
    }
  }

  /** The index of the first record with code `id`, if any (`Array.prototype.findIndex`). */
  function FindByIata(ms: seq<MockRecord>, id: string): (k: Option<nat>)
    ensures k.Some? ==> k.value < |ms| && ms[k.value].iata == id && forall j | 0 <= j < k.value :: ms[j].iata != id
    ensures k.None? ==> forall j | 0 <= j < |ms| :: ms[j].iata != id
  {
    if ms == [] then None
    else if ms[0].iata == id then Some(0)
    else match FindByIata(ms[1..], id)
      case Some(k) => Some(k + 1)
      case None => None
  }

  /** `getFlightById`: the first mock record whose code is `id`, or 404. */
  function GetFlightById(id: string): (r: Result<MockRecord, HttpError>)
    ensures r.Ok? <==> exists i | 0 <= i < |Mocks| :: Mocks[i].iata == id
    ensures r.Ok? ==> r.value in Mocks && r.value.iata == id
    ensures r.Err? ==> r.error.status == 404
  {
    match FindByIata(Mocks, id)
    case Some(k) => Ok(Mocks[k])
    case None => Err(HttpError(404, "Flight not found"))
  }

  /** The codes `getFlights` makes up for return legs cannot be looked up. */
  lemma ReturnCodesNotFound(i: nat)
    requires i < |Mocks|
    ensures GetFlightById(Mocks[i].iata + "R").Err?
  {
    var id := Mocks[i].iata + "R";
    forall j | 0 <= j < |Mocks| ensures Mocks[j].iata != id {
      assert |Mocks[j].iata| == 5 && |id| == 6;
    }
  }

  // ---------------------------------------------------------------------------
  // searchFlights: the filter and pricing transform
  // ---------------------------------------------------------------------------

  /** A served flight priced for a party: `amount` is `NaN` (None) when `passengers` does not parse. */
  datatype PricedFlight = PricedFlight(
    flight: ServedFlight, amount: Option<real>, perPerson: real, passengers: Option<int>, travelClass: string)

  /** The query parameters `searchFlights` reads on top of those of `getFlights`; "" is absent. */
  datatype SearchQuery = SearchQuery(maxPrice: string, airline: string, passengers: Option<string>, travelClass: Option<string>)

  /** `!maxPrice || flight.price.amount <= parseInt(maxPrice)`: a `NaN` ceiling keeps nothing. */
  predicate UnderMaxPrice(f: ServedFlight, maxPrice: string) {
    maxPrice == "" || (ParseInt(maxPrice).Some? && f.amount <= ParseInt(maxPrice).value)
  }

  /** `!airline || name.toLowerCase().includes(airline.toLowerCase())`. */
  predicate AirlineMatches(f: ServedFlight, airline: string) {
    airline == "" || Includes(ToLower(f.airline), ToLower(airline))
  }

  /** `flight.price?.amount || 5000` times the class multiplier. */
  function PerPerson(f: ServedFlight, travelClass: string): (p: real)
    ensures f.amount != 0 ==> p == (f.amount as real) * (ClassMultiplierTenths(travelClass) as real) / 10.0
    ensures f.amount == 0 ==> p == 500.0 * (ClassMultiplierTenths(travelClass) as real)
  {
    var base := if f.amount != 0 then f.amount else 5000;
    (base as real) * (ClassMultiplierTenths(travelClass) as real) / 10.0
  }

  /** `perPerson * parseInt(passengers)`: `NaN` (None) when the passenger count does not parse. */
  function Total(perPerson: real, passengers: Option<int>): (t: Option<real>)
    ensures t.Some? <==> passengers.Some?
  {
    if passengers.Some? then Some(perPerson * (passengers.value as real)) else None
  }

  function Price(f: ServedFlight, passengers: string, travelClass: string): (p: PricedFlight)
    ensures p.flight == f && p.travelClass == travelClass && p.perPerson == PerPerson(f, travelClass)
    ensures p.passengers == ParseInt(passengers)
    ensures p.amount == Total(p.perPerson, p.passengers)
  {
    var n := ParseInt(passengers);
    var per := PerPerson(f, travelClass);
    PricedFlight(f, Total(per, n), per, n, travelClass)
  }

  function PriceAll(fs: seq<ServedFlight>, passengers: string, travelClass: string): (ps: seq<PricedFlight>)
    ensures |ps| == |fs|
    ensures forall i | 0 <= i < |ps| :: ps[i] == Price(fs[i], passengers, travelClass)
  {
    if fs == [] then [] else [Price(fs[0], passengers, travelClass)] + PriceAll(fs[1..], passengers, travelClass)
  }

  /**
   * The transform of `searchFlights` over a list of served flights: keep those under the
   * price ceiling whose airline matches, in order, and price each for the party
   * (`passengers` defaults to 1 and the class to ECONOMY when absent).
   */
  function SearchTransform(flights: seq<ServedFlight>, q: SearchQuery): (r: seq<PricedFlight>)
    ensures |r| <= |flights|
    ensures forall i | 0 <= i < |r| ::
      r[i].flight in flights && UnderMaxPrice(r[i].flight, q.maxPrice) && AirlineMatches(r[i].flight, q.airline)
    ensures forall f | f in flights && UnderMaxPrice(f, q.maxPrice) && AirlineMatches(f, q.airline) ::
      exists i | 0 <= i < |r| :: r[i].flight == f
    ensures forall i | 0 <= i < |r| ::
      r[i].travelClass == q.travelClass.GetOr("ECONOMY")
      && r[i].passengers == ParseInt(q.passengers.GetOr("1"))
      && r[i].perPerson == PerPerson(r[i].flight, q.travelClass.GetOr("ECONOMY"))
      && r[i].amount == Total(r[i].perPerson, r[i].passengers)
  {
    SearchTransformKeeps(flights, q);
    PriceAll(Kept(flights, q), q.passengers.GetOr("1"), q.travelClass.GetOr("ECONOMY"))
  }

  function Kept(flights: seq<ServedFlight>, q: SearchQuery): seq<ServedFlight> {
    var byPrice := if q.maxPrice != "" then Filter(PriceTest(q), flights) else flights;
    if q.airline != "" then Filter(AirlineTest(q), byPrice) else byPrice
  }

  function PriceTest(q: SearchQuery): ServedFlight -> bool {
    (f: ServedFlight) => UnderMaxPrice(f, q.maxPrice)
  }

  function AirlineTest(q: SearchQuery): ServedFlight -> bool {
    (f: ServedFlight) => AirlineMatches(f, q.airline)
  }

  /** Whether the search keeps a served flight: under the ceiling and of a matching airline. */
  function SearchTest(q: SearchQuery): ServedFlight -> bool {
    (f: ServedFlight) => UnderMaxPrice(f, q.maxPrice) && AirlineMatches(f, q.airline)
  }

  /** The two filters in a row, each skipped when its parameter is absent, are one filter by both tests. */
  lemma KeptIsFilter(flights: seq<ServedFlight>, q: SearchQuery)
    ensures Kept(flights, q) == Filter(SearchTest(q), flights)
  {
    var p, a, both := PriceTest(q), AirlineTest(q), SearchTest(q);
    if q.maxPrice != "" && q.airline != "" {
      FilterCompose(p, a, flights);
      FilterSameTest(x => p(x) && a(x), both, flights);
    } else if q.maxPrice != "" {
      FilterSameTest(p, both, flights);
    } else if q.airline != "" {
      FilterSameTest(a, both, flights);
    } else {
      FilterAllPass(both, flights);
    }
  }

  lemma {:induction false} FlightsOfPriceAll(fs: seq<ServedFlight>, passengers: string, travelClass: string)
    ensures FlightsOf(PriceAll(fs, passengers, travelClass)) == fs
  {
    var ps := PriceAll(fs, passengers, travelClass);
    assert forall i | 0 <= i < |fs| :: FlightsOf(ps)[i] == fs[i];
  }

  /** The flights of a search result, in order. */
  function FlightsOf(ps: seq<PricedFlight>): (fs: seq<ServedFlight>)
    ensures |fs| == |ps|
    ensures forall i | 0 <= i < |fs| :: fs[i] == ps[i].flight
  {
    if ps == [] then [] else [ps[0].flight] + FlightsOf(ps[1..])
  }

  /**
   * The search keeps the order and the multiplicity of the served list: its flights are
   * exactly the served flights under the ceiling whose airline matches, as they come.
   */
  lemma SearchTransformInOrder(flights: seq<ServedFlight>, q: SearchQuery)
    ensures FlightsOf(SearchTransform(flights, q)) == Filter(SearchTest(q), flights)
  {
    KeptIsFilter(flights, q);
    FlightsOfPriceAll(Kept(flights, q), q.passengers.GetOr("1"), q.travelClass.GetOr("ECONOMY"));
  }

  lemma SearchTransformKeeps(flights: seq<ServedFlight>, q: SearchQuery)
    ensures forall f :: f in Kept(flights, q) <==> f in flights && UnderMaxPrice(f, q.maxPrice) && AirlineMatches(f, q.airline)
  {
    var p := PriceTest(q);
    var a := AirlineTest(q);
    var byPrice := if q.maxPrice != "" then Filter(p, flights) else flights;
    forall f ensures f in Kept(flights, q) <==> f in flights && UnderMaxPrice(f, q.maxPrice) && AirlineMatches(f, q.airline) {
      FilterMembership(p, flights, f);
      FilterMembership(a, byPrice, f);
    }
  }

  /** A `maxPrice` that `parseInt` reads as `NaN` filters every flight out. */
  lemma NaNCeilingKeepsNothing(flights: seq<ServedFlight>, q: SearchQuery)
    requires q.maxPrice != "" && ParseInt(q.maxPrice).None?
    ensures SearchTransform(flights, q) == []
  {
  }

  /** Business class for two at 8000 a head: 2.5 times the fare per person, twice that in all. */
  lemma PricingBusinessForTwo(f: ServedFlight)
    requires f.amount == 8000
    ensures Price(f, "2", "BUSINESS").perPerson == 20000.0
    ensures Price(f, "2", "BUSINESS").amount == Some(40000.0)
  {
    assert ParseInt("2") == Some(2) by {
      assert IntToString(2) == "2";
      ParseIntOfIntToString(2);
    }
    assert ClassMultiplierTenths("BUSINESS") == 25;
    assert PerPerson(f, "BUSINESS") == 20000.0;
  }

  /** A flight without a price is priced from the 5000 default: first class for one costs 20000. */
  lemma PricingMissingPrice(g: ServedFlight)
    requires g.amount == 0
    ensures Price(g, "1", "FIRST").amount == Some(20000.0)
  {
    assert ParseInt("1") == Some(1) by {
      assert IntToString(1) == "1";
      ParseIntOfIntToString(1);
    }
    assert ClassMultiplierTenths("FIRST") == 40;
    assert PerPerson(g, "FIRST") == 20000.0;
  }

  /** A party size that does not parse leaves the per-person price and makes the total `NaN`. */
  lemma PricingUnreadableParty(f: ServedFlight)
    requires f.amount == 8000
    ensures Price(f, "two", "ECONOMY").amount.None?
    ensures Price(f, "two", "ECONOMY").perPerson == 8000.0
  {
    assert TrimStart("two") == "two";
  }
}
