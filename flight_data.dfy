/**
 * The records the booking flow passes around -- flight records, search
 * criteria, parsed instants -- and the two calculations every layer shares:
 * the travel-class multiplier table and the formatted flight duration.
 */
module Flights {
  import opened Wrappers
  import opened JsOps

  /** What `new Date(text)` yields: epoch milliseconds and the hour in the local time zone. */
  datatype Instant = Instant(epochMs: int, localHour: int)

  /**
   * The host's date parser (`new Date(text)`), an input of the model: `None` is an
   * "Invalid Date", whose time value is `NaN`.
   */
  type DateParser = string -> Option<Instant>

  datatype Airline = Airline(name: string)
  datatype FlightCode = FlightCode(iata: string)

  /** One end of a leg; an empty `scheduled` text is a missing timestamp. */
  datatype Endpoint = Endpoint(airport: Option<string>, scheduled: string)

  datatype Price = Price(amount: int, currency: string)
  datatype Distance = Km(km: int) | KmUnknown

  /** A flight record as the client handles it; every field may be missing in raw data. */
  datatype Flight = Flight(
    airline: Option<Airline>,
    flight: Option<FlightCode>,
    departure: Option<Endpoint>,
    arrival: Option<Endpoint>,
    flightStatus: Option<string>,
    distance: Option<Distance>,
    price: Option<Price>,
    duration: Option<string>,
    onTimeRate: Option<int>,
    travelClass: Option<string>)

  /**
   * The criteria the search form hands to the results view. Numbers that may be
   * missing or `NaN` in the source (`travellers`) are 0 here: both are falsy.
   */
  datatype SearchParams = SearchParams(
    from: string,
    to: string,
    departure: string,
    returnDate: string,
    tripType: string,
    travellers: int,
    travelClass: string,
    fareType: string)

  const RoundTrip := "ROUND_TRIP"

  /** `flight.price?.amount || 0`. */
  function AmountOr0(f: Flight): int {
    if f.price.Some? then f.price.value.amount else 0
  }

  /** `flight.departure?.scheduled` with a missing endpoint read as a missing text. */
  function DepartureText(f: Flight): string {
    if f.departure.Some? then f.departure.value.scheduled else ""
  }

  function ArrivalText(f: Flight): string {
    if f.arrival.Some? then f.arrival.value.scheduled else ""
  }

  /** `flight.flight?.iata`: the identity the views select by. */
  function Iata(f: Flight): Option<string> {
    if f.flight.Some? then Some(f.flight.value.iata) else None
  }

  // ---------------------------------------------------------------------------
  // Travel-class multipliers: { ECONOMY: 1, BUSINESS: 2.5, FIRST: 4 }[c] || 1
  // ---------------------------------------------------------------------------

  /** The class multiplier in tenths, so that 2.5 stays exact. */
  function ClassMultiplierTenths(travelClass: string): (t: nat)
    ensures t in {10, 25, 40}
    ensures t != 10 ==> travelClass in {"BUSINESS", "FIRST"}
  {
    if travelClass == "BUSINESS" then 25 else if travelClass == "FIRST" then 40 else 10
  }

  /** `generateOnTimeRate()` given the value `Math.random()` returned. */
  function OnTimeRate(random: real): (rate: int)
    requires 0.0 <= random < 1.0
    ensures 80 <= rate <= 100
  {
    (random * 21.0).Floor + 80
  }

  /** Every draw of `Math.random()` lies in [0, 1). */
  predicate ValidRandoms(randoms: seq<real>) {
    forall i | 0 <= i < |randoms| :: 0.0 <= randoms[i] < 1.0
  }

  // ---------------------------------------------------------------------------
  // Duration text
  // ---------------------------------------------------------------------------

  /**
   * `Math.floor(d / 3600000)` and `Math.floor((d % 3600000) / 60000)` with JavaScript's
   * truncating `%`. For a non-negative difference this is the usual hours-and-minutes
   * split; for a negative one the hours are rounded down but the minutes keep the sign of `d`.
   */
  function DurationParts(d: int): (hm: (int, int))
    ensures hm.0 * 3600000 <= d < hm.0 * 3600000 + 3600000
    ensures d >= 0 ==> 0 <= hm.1 < 60 && hm.0 * 3600000 + hm.1 * 60000 <= d < hm.0 * 3600000 + hm.1 * 60000 + 60000
    ensures d < 0 ==> -60 <= hm.1 <= 0
  {
    var h := d / 3600000;
    var r := JsRem(d, 3600000);
    assert d >= 0 ==> d == h * 3600000 + r;
    (h, r / 60000)
  }

  /** `${hours}h ${minutes}m`. */
  function DurationText(d: int): (r: string)
    ensures |r| > 0 && (r[0] == '-' <==> d < 0)
  {
    var hm := DurationParts(d);
    IntToString(hm.0) + "h " + IntToString(hm.1) + "m"
  }

  /**
   * `calculateDuration(departureTime, arrivalTime)`: "N/A" when either text is missing,
   * "NaNh NaNm" when either does not parse, otherwise the text of arrival minus departure.
   */
  function CalculateDuration(departureTime: string, arrivalTime: string, parse: DateParser): (r: string)
    ensures departureTime == "" || arrivalTime == "" ==> r == "N/A"
    ensures departureTime != "" && arrivalTime != "" && parse(departureTime).Some? && parse(arrivalTime).Some? ==>
      r == DurationText(parse(arrivalTime).value.epochMs - parse(departureTime).value.epochMs)
    ensures departureTime != "" && arrivalTime != "" && (parse(departureTime).None? || parse(arrivalTime).None?) ==>
      r == "NaNh NaNm"
  {
    if departureTime == "" || arrivalTime == "" then "N/A"
    else if parse(departureTime).Some? && parse(arrivalTime).Some? then
      DurationText(parse(arrivalTime).value.epochMs - parse(departureTime).value.epochMs)
    else "NaNh NaNm"
  }

  /** For a whole number of minutes, the two parts add back up to the difference. */
  lemma DurationPartsRecombine(d: int)
    requires d >= 0 && d % 60000 == 0
    ensures DurationParts(d).0 * 60 + DurationParts(d).1 == d / 60000
  {
    var hm := DurationParts(d);
    assert hm.0 * 3600000 + hm.1 * 60000 == d;
  }

  /** A leg measured backwards (arrival before departure) always reads as negative hours. */
  lemma ReversedDurationIsNegative(d: int)
    requires d > 0
    ensures DurationParts(-d).0 < 0
    ensures DurationText(-d)[0] == '-'
  {
  }

  /** The text of a 2 h 15 min leg, and of the same leg measured backwards. */
  lemma DurationTextExamples()
    ensures DurationText(8100000) == "2h 15m"
    ensures DurationText(-8100000) == "-3h -15m"
  {
    assert DurationParts(8100000) == (2, 15);
    assert DurationParts(-8100000) == (-3, -15);
    assert NatToString(2) == "2";
    assert NatToString(15) == NatToString(1) + [DigitChar(5)] == "15";
    assert NatToString(3) == "3";
  }
}
