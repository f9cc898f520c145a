/**
 * The results page: it splits the fetched flights into outbound and return
 * legs, runs each list through the filter panel's criteria (when the filter
 * direction covers it) and sorts it, totals the fare of the selected legs,
 * applies the demo promo code and hands the selection over to the booking page.
 */
module FlightResults {
  import opened Wrappers
  import opened JsOps
  import opened Flights
  import opened SearchFilter

  // ---------------------------------------------------------------------------
  // Outbound and return legs
  // ---------------------------------------------------------------------------

  /** `endpoint?.airport?.includes(city)`. */
  predicate LabelIncludes(e: Option<Endpoint>, city: string) {
    e.Some? && e.value.airport.Some? && Includes(e.value.airport.value, city)
  }

  /** `isOutboundFlight`: leaves from the searched origin for the searched destination. */
  predicate IsOutbound(f: Flight, p: SearchParams)
    ensures IsOutbound(f, p) ==> f.departure.Some? && f.departure.value.airport.Some?
                                 && f.arrival.Some? && f.arrival.value.airport.Some?
    ensures p.from == "" && p.to == "" ==>
      (IsOutbound(f, p) <==> f.departure.Some? && f.departure.value.airport.Some?
                             && f.arrival.Some? && f.arrival.value.airport.Some?)
  {
    LabelIncludes(f.departure, p.from) && LabelIncludes(f.arrival, p.to)
  }

  /** `isReturnFlight`: on a round trip, leaves from the destination for the origin. */
  predicate IsReturn(f: Flight, p: SearchParams)
    ensures IsReturn(f, p) ==> p.tripType == RoundTrip
    ensures IsReturn(f, p) ==> f.departure.Some? && f.departure.value.airport.Some?
                               && f.arrival.Some? && f.arrival.value.airport.Some?
  {
    p.tripType == RoundTrip && LabelIncludes(f.departure, p.to) && LabelIncludes(f.arrival, p.from)
  }

  /** A return leg is exactly an outbound leg of the reversed search, on a round trip. */
  lemma ReturnIsReversedOutbound(f: Flight, p: SearchParams)
    ensures IsReturn(f, p) <==> p.tripType == RoundTrip && IsOutbound(f, p.(from := p.to, to := p.from))
  {
  }

  /** A leg between two labels that name the searched cities is recognised, whichever way the label is written. */
  lemma LabelledLegIsOutbound(f: Flight, p: SearchParams, a: string, b: string, c: string, d: string)
    requires f.departure.Some? && f.departure.value.airport == Some(a + p.from + b)
    requires f.arrival.Some? && f.arrival.value.airport == Some(c + p.to + d)
    ensures IsOutbound(f, p)
  {
    IncludesConcat(a, p.from, b);
    IncludesConcat(c, p.to, d);
  }

  // ---------------------------------------------------------------------------
  // Departure and arrival hours
  // ---------------------------------------------------------------------------

  /**
   * `getHour(text)`: `null` for a missing text, `NaN` for one the host cannot parse,
   * otherwise the local hour.
   */
  datatype Hour = NullHour | NaNHour | LocalHour(h: int)

  function GetHour(text: string, parse: DateParser): (h: Hour)
    ensures text == "" <==> h.NullHour?
    ensures h.NaNHour? <==> text != "" && parse(text).None?
  {
    if text == "" then NullHour
    else match parse(text)
      case Some(i) => LocalHour(i.localHour)
      case None => NaNHour
  }

  /** `timeSlotRanges[slot]`: the half-open hour range of a slot. */
  function SlotRange(slot: string): (r: Option<(int, int)>)
    ensures r.Some? ==> 0 <= r.value.0 < r.value.1 <= 24
  {
    if slot == "before6" then Some((0, 6))
    else if slot == "6to12" then Some((6, 12))
    else if slot == "12to18" then Some((12, 18))
    else if slot == "after18" then Some((18, 24))
    else None
  }

  /** `hour >= start && hour < end`, where `null` compares as 0 and `NaN` compares false. */
  predicate InSlot(h: Hour, slot: string) {
    SlotRange(slot).Some? &&
    match h
    case NullHour => SlotRange(slot).value.0 <= 0 < SlotRange(slot).value.1
    case NaNHour => false
    case LocalHour(x) => SlotRange(slot).value.0 <= x < SlotRange(slot).value.1
  }

  /** `slots.some(slot => ...)`. */
  predicate AnySlot(h: Hour, slots: seq<string>) {
    exists i | 0 <= i < |slots| :: InSlot(h, slots[i])
  }

  /** Every hour of the day lies in exactly one of the four slots the panel offers. */
  lemma SlotsPartitionTheDay(x: int)
    requires 0 <= x < 24
    ensures InSlot(LocalHour(x), "before6") || InSlot(LocalHour(x), "6to12")
         || InSlot(LocalHour(x), "12to18") || InSlot(LocalHour(x), "after18")
    ensures !(InSlot(LocalHour(x), "before6") && InSlot(LocalHour(x), "6to12"))
    ensures !(InSlot(LocalHour(x), "6to12") && InSlot(LocalHour(x), "12to18"))
    ensures !(InSlot(LocalHour(x), "12to18") && InSlot(LocalHour(x), "after18"))
  {
  }

  /** A flight with no time falls in the first slot only, because `null` compares as 0. */
  lemma MissingTimeIsMidnight(slots: seq<string>, parse: DateParser)
    ensures AnySlot(GetHour("", parse), slots) <==> "before6" in slots
  {
    if "before6" in slots {
      var i :| 0 <= i < |slots| && slots[i] == "before6";
      assert InSlot(NullHour, slots[i]);
    }
  }

  // ---------------------------------------------------------------------------
  // The filter chain
  // ---------------------------------------------------------------------------

  /** `filters.airlines.includes(f.airline?.name)` once an airline is ticked. */
  predicate AirlineOk(f: Flight, fs: Filters)
    ensures fs.airlines == [] ==> AirlineOk(f, fs)
    ensures fs.airlines != [] && AirlineOk(f, fs) ==> f.airline.Some?
  {
    fs.airlines == [] || (f.airline.Some? && f.airline.value.name in fs.airlines)
  }

  /** The stops filter looks at the selection only: with "nonstop" it keeps all, without it none. */
  predicate StopsOk(fs: Filters)
    ensures fs.stops == [] ==> StopsOk(fs)
  {
    fs.stops == [] || "nonstop" in fs.stops
  }

  /** `f.departure?.airport?.includes(filters.depAirport)` once an airport is chosen. */
  predicate AirportOk(f: Flight, fs: Filters)
    ensures fs.depAirport == "" ==> AirportOk(f, fs)
    ensures fs.depAirport != "" && AirportOk(f, fs) ==> f.departure.Some? && f.departure.value.airport.Some?
  {
    fs.depAirport == "" || LabelIncludes(f.departure, fs.depAirport)
  }

  /** `price >= MIN_PRICE && price <= filters.price`, a missing price reading as 0. */
  predicate PriceOk(f: Flight, fs: Filters)
    ensures PriceOk(f, fs) ==> f.price.Some?
  {
    MinPrice <= AmountOr0(f) <= Ceiling(fs.price)
  }

  /** Some ticked departure slot holds the departure hour; a time the host cannot parse is in none. */
  predicate DepTimeOk(f: Flight, fs: Filters, parse: DateParser)
    ensures fs.depTime == [] ==> DepTimeOk(f, fs, parse)
    ensures fs.depTime != [] && DepTimeOk(f, fs, parse) && DepartureText(f) != "" ==> parse(DepartureText(f)).Some?
  {
    fs.depTime == [] || AnySlot(GetHour(DepartureText(f), parse), fs.depTime)
  }

  predicate ArrTimeOk(f: Flight, fs: Filters, parse: DateParser)
    ensures fs.arrTime == [] ==> ArrTimeOk(f, fs, parse)
    ensures fs.arrTime != [] && ArrTimeOk(f, fs, parse) && ArrivalText(f) != "" ==> parse(ArrivalText(f)).Some?
  {
    fs.arrTime == [] || AnySlot(GetHour(ArrivalText(f), parse), fs.arrTime)
  }

  /** `flight.travelClass === filterClass || !flight.travelClass`, when a class is chosen. */
  predicate ClassOk(f: Flight, filterClass: string)
    ensures filterClass == "all" ==> ClassOk(f, filterClass)
    ensures f.travelClass.None? ==> ClassOk(f, filterClass)
  {
    filterClass == "all" || f.travelClass.None? || f.travelClass.value == "" || f.travelClass.value == filterClass
  }

  /** A flight passes every criterion of the panel. */
  predicate Passes(f: Flight, fs: Filters, filterClass: string, parse: DateParser)
    ensures Passes(f, fs, filterClass, parse) ==> f.price.Some? && MinPrice <= f.price.value.amount <= Ceiling(fs.price)
  {
    AirlineOk(f, fs) && StopsOk(fs) && AirportOk(f, fs) && PriceOk(f, fs)
    && DepTimeOk(f, fs, parse) && ArrTimeOk(f, fs, parse) && ClassOk(f, filterClass)
  }

  /** The successive `filtered = filtered.filter(...)` steps of `filterFlights`, each under its own guard. */
  function Chain(s: seq<Flight>, fs: Filters, filterClass: string, parse: DateParser): (r: seq<Flight>)
    ensures |r| <= |s|
  {
    RangeSteps(ChoiceSteps(s, fs), fs, filterClass, parse)
  }

  /** The airline, stops and airport steps. */
  function ChoiceSteps(s: seq<Flight>, fs: Filters): seq<Flight> {
    var s1 := if fs.airlines != [] then Filter((f: Flight) => AirlineOk(f, fs), s) else s;
    var s2 := if fs.stops != [] then Filter((f: Flight) => StopsOk(fs), s1) else s1;
    if fs.depAirport != "" then Filter((f: Flight) => AirportOk(f, fs), s2) else s2
  }

  /** The price, departure-time, arrival-time and class steps. */
  function RangeSteps(s3: seq<Flight>, fs: Filters, filterClass: string, parse: DateParser): seq<Flight> {
    var s4 := Filter((f: Flight) => PriceOk(f, fs), s3);
    var s5 := if fs.depTime != [] then Filter((f: Flight) => DepTimeOk(f, fs, parse), s4) else s4;
    var s6 := if fs.arrTime != [] then Filter((f: Flight) => ArrTimeOk(f, fs, parse), s5) else s5;
    if filterClass != "all" then Filter((f: Flight) => ClassOk(f, filterClass), s6) else s6
  }

  /** One guarded step keeps each element as often as before if it passes, and drops it otherwise. */
  lemma GuardedStepCount(guard: bool, p: Flight -> bool, s: seq<Flight>, x: Flight)
    requires !guard ==> forall y :: p(y)
    ensures multiset(if guard then Filter(p, s) else s)[x] == if p(x) then multiset(s)[x] else 0
  {
    if guard {
      FilterCount(p, s, x);
    }
  }

  /**
   * The chain keeps every flight that passes all criteria, as often as it occurs, and
   * no other: its result is a permutation of the passing part of its input.
   */
  lemma ChainCount(s: seq<Flight>, fs: Filters, filterClass: string, parse: DateParser, x: Flight)
    ensures multiset(Chain(s, fs, filterClass, parse))[x] == if Passes(x, fs, filterClass, parse) then multiset(s)[x] else 0
  {
    ChoiceStepsCount(s, fs, x);
    RangeStepsCount(ChoiceSteps(s, fs), fs, filterClass, parse, x);
  }

  lemma ChoiceStepsCount(s: seq<Flight>, fs: Filters, x: Flight)
    ensures multiset(ChoiceSteps(s, fs))[x] == if AirlineOk(x, fs) && StopsOk(fs) && AirportOk(x, fs) then multiset(s)[x] else 0
  {
    var s1 := if fs.airlines != [] then Filter((f: Flight) => AirlineOk(f, fs), s) else s;
    GuardedStepCount(fs.airlines != [], (f: Flight) => AirlineOk(f, fs), s, x);
    var s2 := if fs.stops != [] then Filter((f: Flight) => StopsOk(fs), s1) else s1;
    GuardedStepCount(fs.stops != [], (f: Flight) => StopsOk(fs), s1, x);
    GuardedStepCount(fs.depAirport != "", (f: Flight) => AirportOk(f, fs), s2, x);
  }

  lemma RangeStepsCount(s3: seq<Flight>, fs: Filters, filterClass: string, parse: DateParser, x: Flight)
    ensures multiset(RangeSteps(s3, fs, filterClass, parse))[x] ==
      if PriceOk(x, fs) && DepTimeOk(x, fs, parse) && ArrTimeOk(x, fs, parse) && ClassOk(x, filterClass) then multiset(s3)[x] else 0
  {
    var s4 := Filter((f: Flight) => PriceOk(f, fs), s3);
    GuardedStepCount(true, (f: Flight) => PriceOk(f, fs), s3, x);
    var s5 := if fs.depTime != [] then Filter((f: Flight) => DepTimeOk(f, fs, parse), s4) else s4;
    GuardedStepCount(fs.depTime != [], (f: Flight) => DepTimeOk(f, fs, parse), s4, x);
    var s6 := if fs.arrTime != [] then Filter((f: Flight) => ArrTimeOk(f, fs, parse), s5) else s5;
    GuardedStepCount(fs.arrTime != [], (f: Flight) => ArrTimeOk(f, fs, parse), s5, x);
    GuardedStepCount(filterClass != "all", (f: Flight) => ClassOk(f, filterClass), s6, x);
  }

  /** A membership reading of `ChainCount`. */
  lemma ChainMembership(s: seq<Flight>, fs: Filters, filterClass: string, parse: DateParser, x: Flight)
    ensures x in Chain(s, fs, filterClass, parse) <==> x in s && Passes(x, fs, filterClass, parse)
  {
    ChainCount(s, fs, filterClass, parse, x);
  }

  /** A guarded step over a list whose every element passes changes nothing. */
  lemma GuardedStepKeepsAll(guard: bool, p: Flight -> bool, s: seq<Flight>)
    requires forall i | 0 <= i < |s| :: p(s[i])
    ensures (if guard then Filter(p, s) else s) == s
  {
    if guard {
      FilterAllPass(p, s);
    }
  }

  /** Filtering a list that has already been filtered (in any order) gives it back unchanged. */
  lemma ChainIdempotent(s: seq<Flight>, r: seq<Flight>, fs: Filters, filterClass: string, parse: DateParser)
    requires multiset(r) == multiset(Chain(s, fs, filterClass, parse))
    ensures Chain(r, fs, filterClass, parse) == r
  {
    forall i | 0 <= i < |r| ensures Passes(r[i], fs, filterClass, parse) {
      assert r[i] in multiset(r);
      ChainMembership(s, fs, filterClass, parse, r[i]);
    }
    GuardedStepKeepsAll(fs.airlines != [], (f: Flight) => AirlineOk(f, fs), r);
    GuardedStepKeepsAll(fs.stops != [], (f: Flight) => StopsOk(fs), r);
    GuardedStepKeepsAll(fs.depAirport != "", (f: Flight) => AirportOk(f, fs), r);
    assert ChoiceSteps(r, fs) == r;
    GuardedStepKeepsAll(true, (f: Flight) => PriceOk(f, fs), r);
    GuardedStepKeepsAll(fs.depTime != [], (f: Flight) => DepTimeOk(f, fs, parse), r);
    GuardedStepKeepsAll(fs.arrTime != [], (f: Flight) => ArrTimeOk(f, fs, parse), r);
    GuardedStepKeepsAll(filterClass != "all", (f: Flight) => ClassOk(f, filterClass), r);
  }

  /** A stops selection without "nonstop" hides every flight. */
  lemma StopsWithoutNonstopHidesAll(s: seq<Flight>, fs: Filters, filterClass: string, parse: DateParser)
    requires fs.stops != [] && "nonstop" !in fs.stops
    ensures Chain(s, fs, filterClass, parse) == []
  {
    if Chain(s, fs, filterClass, parse) != [] {
      ChainMembership(s, fs, filterClass, parse, Chain(s, fs, filterClass, parse)[0]);
    }
  }

  /** The price criterion: kept exactly when the amount (0 if missing) lies between 2000 and the ceiling. */
  lemma PriceWindow(f: Flight, fs: Filters)
    ensures PriceOk(f, fs) <==> 2000 <= AmountOr0(f) && AmountOr0(f) <= Ceiling(fs.price)
    ensures f.price.None? ==> !PriceOk(f, fs)
  {
  }

  /**
   * Removing the price tag as written leaves a ceiling that reads as 0, so the list it
   * filters comes out empty whatever it holds.
   */
  lemma RemovedPriceTagHidesAll(s: seq<Flight>, fs: Filters, tag: string, filterClass: string, parse: DateParser)
    ensures Chain(s, RemoveFilterAsWritten(fs, PriceKey, tag), filterClass, parse) == []
  {
    var g := RemoveFilterAsWritten(fs, PriceKey, tag);
    if Chain(s, g, filterClass, parse) != [] {
      ChainMembership(s, g, filterClass, parse, Chain(s, g, filterClass, parse)[0]);
    }
  }

  /** Removing the price tag with the slider reset gives the price criterion of a fresh page back. */
  lemma RemovedPriceTagRestoresDefault(f: Flight, fs: Filters, tag: string)
    ensures PriceOk(f, RemoveFilter(fs, PriceKey, tag)) <==> PriceOk(f, DefaultFilters)
    ensures PriceOk(f, RemoveFilter(fs, PriceKey, tag)) <==> 2000 <= AmountOr0(f) <= 20000
  {
  }

  // ---------------------------------------------------------------------------
  // Sorting
  // ---------------------------------------------------------------------------

  /** What the comparator of `filterFlights` compares, for one sort order. */
  datatype SortKey = NumKey(n: int) | TextKey(t: string) | NoKey

  function Rank(k: SortKey): nat {
    match k
    case NumKey(_) => 0
    case TextKey(_) => 1
    case NoKey => 2
  }

  /** The comparator's "not after": numbers by value, texts code unit by code unit, all else equal. */
  predicate KeyLe(a: SortKey, b: SortKey) {
    if Rank(a) != Rank(b) then Rank(a) < Rank(b)
    else match a
      case NumKey(x) => x <= b.n
      case TextKey(x) => LexLe(x, b.t)
      case NoKey => true
  }

  lemma KeyLeTotal(a: SortKey, b: SortKey)
    ensures KeyLe(a, b) || KeyLe(b, a)
  {
    if a.TextKey? && b.TextKey? {
      LexLeTotal(a.t, b.t);
    }
  }

  lemma KeyLeTransitive(a: SortKey, b: SortKey, c: SortKey)
    requires KeyLe(a, b) && KeyLe(b, c)
    ensures KeyLe(a, c)
  {
    if a.TextKey? && b.TextKey? && c.TextKey? {
      LexLeTransitive(a.t, b.t, c.t);
    }
  }

  /** `new Date(departure?.scheduled || 0)` in milliseconds (see README on unparseable texts). */
  function DepartureMs(f: Flight, parse: DateParser): int {
    var text := DepartureText(f);
    if text == "" then 0
    else match parse(text)
      case Some(i) => i.epochMs
      case None => 0
  }

  /** The key `filterFlights` sorts by for `sortBy`. */
  function SortKeyOf(f: Flight, sortBy: string, parse: DateParser): (k: SortKey)
    ensures sortBy == "price" ==> k == NumKey(AmountOr0(f))
    ensures sortBy == "duration" ==> k.TextKey? && (f.duration.None? || f.duration.value == "" ==> k.t == "0h 0m")
    ensures sortBy == "duration" && f.duration.Some? && f.duration.value != "" ==> k == TextKey(f.duration.value)
    ensures sortBy == "departure" ==> k.NumKey?
    ensures sortBy == "departure" && DepartureText(f) != "" && parse(DepartureText(f)).Some? ==>
      k.n == parse(DepartureText(f)).value.epochMs
    ensures sortBy == "departure" && (DepartureText(f) == "" || parse(DepartureText(f)).None?) ==> k.n == 0
    ensures sortBy !in {"price", "duration", "departure"} ==> k == NoKey
  {
    if sortBy == "price" then NumKey(AmountOr0(f))
    else if sortBy == "duration" then TextKey(if f.duration.Some? && f.duration.value != "" then f.duration.value else "0h 0m")
    else if sortBy == "departure" then NumKey(DepartureMs(f, parse))
    else NoKey
  }

  predicate Sorted<T>(s: seq<T>, key: T -> SortKey) {
    forall i, j | 0 <= i < j < |s| :: KeyLe(key(s[i]), key(s[j]))
  }

  /** The flights are in the order `sortBy` asks for. */
  predicate SortedBy(s: seq<Flight>, sortBy: string, parse: DateParser) {
    forall i, j | 0 <= i < j < |s| :: KeyLe(SortKeyOf(s[i], sortBy, parse), SortKeyOf(s[j], sortBy, parse))
  }

  /** Sorted by price means non-decreasing amounts, a missing amount counting as 0. */
  lemma PriceSortIsAscending(s: seq<Flight>, parse: DateParser)
    requires SortedBy(s, "price", parse)
    ensures forall i, j | 0 <= i < j < |s| :: AmountOr0(s[i]) <= AmountOr0(s[j])
  {
    forall i, j | 0 <= i < j < |s| ensures AmountOr0(s[i]) <= AmountOr0(s[j]) {
      assert KeyLe(SortKeyOf(s[i], "price", parse), SortKeyOf(s[j], "price", parse));
    }
  }

  /** Durations sort as text: a ten-hour flight comes before a two-hour one. */
  lemma DurationSortIsTextual()
    ensures KeyLe(TextKey("10h 5m"), TextKey("2h 30m"))
    ensures !KeyLe(TextKey("2h 30m"), TextKey("10h 5m"))
  {
    assert "10h 5m"[0] == '1' && "2h 30m"[0] == '2';
  }

  /** The elements of `s` whose key is `k`, in their order in `s`. */
  function KeyClass<T>(s: seq<T>, key: T -> SortKey, k: SortKey): seq<T> {
    Filter((x: T) => key(x) == k, s)
  }

  /**
   * `r` is what a stable sort makes of `s`: sorted by the key, a permutation of `s`,
   * and the elements of every key in the order they had in `s`.
   */
  ghost predicate StablySorted<T>(r: seq<T>, s: seq<T>, key: T -> SortKey) {
    Sorted(r, key) && SameClasses(r, s, key)
  }

  /** `r` is a permutation of `s` that keeps the elements of every key in their order in `s`. */
  ghost predicate SameClasses<T>(r: seq<T>, s: seq<T>, key: T -> SortKey) {
    multiset(r) == multiset(s) && forall k :: KeyClass(r, key, k) == KeyClass(s, key, k)
  }

  lemma SameClassesTransitive<T>(r: seq<T>, s: seq<T>, t: seq<T>, key: T -> SortKey)
    requires SameClasses(r, s, key) && SameClasses(s, t, key)
    ensures SameClasses(r, t, key)
  {
  }

  /** The key `filterFlights` sorts by, as a function of the flight. */
  function SortKeyFn(sortBy: string, parse: DateParser): Flight -> SortKey {
    (f: Flight) => SortKeyOf(f, sortBy, parse)
  }

  /** The elements `k` and `l` of `a` are in order unless one of them is the element at `j`. */
  predicate InOrderAround<T>(a: seq<T>, key: T -> SortKey, j: int, i: int)
    requires i < |a|
  {
    forall k, l | 0 <= k < l <= i && k != j && l != j :: KeyLe(key(a[k]), key(a[l]))
  }

  /** `a.sort(comparator)`, which is stable, as an insertion sort that swaps neighbours. */
  method SortByKey<T>(a: array<T>, key: T -> SortKey)
    modifies a
    ensures StablySorted(a[..], old(a[..]), key)
  {
    if a.Length == 0 { return; }
    for i := 1 to a.Length
      invariant Sorted(a[..i], key)
      invariant SameClasses(a[..], old(a[..]), key)
    {
      ghost var before := a[..];
      InsertLast(a, i, key);
      SameClassesTransitive(a[..], before, old(a[..]), key);
    }
    assert a[..] == a[..a.Length];
  }

  /** One pass of the insertion sort: the element at `i` sinks past the larger keys in front of it. */
  method InsertLast<T>(a: array<T>, i: int, key: T -> SortKey)
    requires 0 < i < a.Length && Sorted(a[..i], key)
    modifies a
    ensures Sorted(a[..i + 1], key)
    ensures SameClasses(a[..], old(a[..]), key)
  {
    var j := i;
    while j > 0 && !KeyLe(key(a[j - 1]), key(a[j]))
      invariant 0 <= j <= i
      invariant InOrderAround(a[..], key, j, i)
      invariant forall l | j < l <= i :: KeyLe(key(a[j]), key(a[l]))
      invariant SameClasses(a[..], old(a[..]), key)
    {
      ghost var before := a[..];
      a[j - 1], a[j] := a[j], a[j - 1];
      assert a[..] == before[j - 1 := before[j]][j := before[j - 1]];
      SwapStep(before, key, j, i);
      SameClassesTransitive(a[..], before, old(a[..]), key);
      j := j - 1;
    }
    InsertDone(a[..], key, j, i);
  }

  /** Swapping the sinking element with a larger neighbour keeps the pass's invariants and every key's order. */
  lemma SwapStep<T>(s: seq<T>, key: T -> SortKey, j: int, i: int)
    requires 0 < j <= i < |s|
    requires InOrderAround(s, key, j, i)
    requires forall l | j < l <= i :: KeyLe(key(s[j]), key(s[l]))
    requires !KeyLe(key(s[j - 1]), key(s[j]))
    ensures var t := s[j - 1 := s[j]][j := s[j - 1]];
      InOrderAround(t, key, j - 1, i)
      && (forall l | j - 1 < l <= i :: KeyLe(key(t[j - 1]), key(t[l])))
      && SameClasses(t, s, key)
  {
    var t := s[j - 1 := s[j]][j := s[j - 1]];
    KeyLeTotal(key(s[j - 1]), key(s[j]));
    KeyLeTotal(key(s[j]), key(s[j]));
    forall l | j - 1 < l <= i ensures KeyLe(key(t[j - 1]), key(t[l])) {
      if l > j {
        assert t[l] == s[l];
      }
    }
    forall k ensures KeyClass(t, key, k) == KeyClass(s, key, k) {
      FilterSwapNeighbours((x: T) => key(x) == k, s, j);
    }
  }

  /** When the sinking element has stopped, the first `i + 1` elements are sorted. */
  lemma InsertDone<T>(s: seq<T>, key: T -> SortKey, j: int, i: int)
    requires 0 <= j <= i < |s|
    requires InOrderAround(s, key, j, i)
    requires forall l | j < l <= i :: KeyLe(key(s[j]), key(s[l]))
    requires j > 0 ==> KeyLe(key(s[j - 1]), key(s[j]))
    ensures Sorted(s[..i + 1], key)
  {
    forall k, l | 0 <= k < l <= i ensures KeyLe(key(s[k]), key(s[l])) {
      if l == j && k < j - 1 {
        KeyLeTransitive(key(s[k]), key(s[j - 1]), key(s[j]));
      }
    }
  }

  /** `getTotalFare()`: the selected legs, less a positive discount floored at 0, times the party size. */
  function TotalFare(outbound: Option<Flight>, ret: Option<Flight>, discount: int, travellers: int): (total: int)
    ensures var legs := (if outbound.Some? then AmountOr0(outbound.value) else 0) + (if ret.Some? then AmountOr0(ret.value) else 0);
      var party := if travellers != 0 then travellers else 1;
      (discount <= 0 ==> total == legs * party)
      && (discount > 0 && legs >= discount ==> total == (legs - discount) * party)
      && (discount > 0 && legs < discount ==> total == 0)
  {
    var legs := (if outbound.Some? then AmountOr0(outbound.value) else 0) + (if ret.Some? then AmountOr0(ret.value) else 0);
    var net := if discount > 0 then (if legs - discount > 0 then legs - discount else 0) else legs;
    net * (if travellers != 0 then travellers else 1)
  }

  /** A larger discount never raises the fare of a party, and no discount makes it negative. */
  lemma DiscountNeverRaisesFare(outbound: Option<Flight>, ret: Option<Flight>, d1: int, d2: int, travellers: int)
    requires 0 < d1 <= d2 && travellers >= 0
    ensures TotalFare(outbound, ret, d2, travellers) <= TotalFare(outbound, ret, d1, travellers)
    ensures TotalFare(outbound, ret, d1, travellers) >= 0
  {
    var legs := (if outbound.Some? then AmountOr0(outbound.value) else 0) + (if ret.Some? then AmountOr0(ret.value) else 0);
    var party := if travellers != 0 then travellers else 1;
    var n1 := if legs - d1 > 0 then legs - d1 else 0;
    var n2 := if legs - d2 > 0 then legs - d2 else 0;
    assert n2 <= n1;
    assert n2 * party <= n1 * party;
    assert n1 * party >= 0;
  }

  /** `'SAVE10'.toLowerCase()`. */
  const PromoCode := "save10"

  /** The promo field matches, ignoring surrounding white space and letter case. */
  predicate PromoMatches(code: string) {
    ToLower(Trim(code)) == PromoCode
  }

  /** Surrounding white space and letter case do not matter: any casing of the code, padded with blanks, is accepted. */
  lemma PromoIgnoresBlanksAndCase(pre: string, code: string, post: string)
    requires forall i | 0 <= i < |pre| :: IsJsSpace(pre[i])
    requires forall i | 0 <= i < |post| :: IsJsSpace(post[i])
    requires ToLower(code) == PromoCode
    ensures PromoMatches(pre + code + post)
  {
    assert ToLowerChar(code[0]) == 's' && ToLowerChar(code[|code| - 1]) == '0';
    TrimSurrounded(pre, code, post);
  }

  /** White space inside the code is not trimmed, so a code with a blank in it never matches. */
  lemma PromoRejectsInnerBlank(pre: string, code: string, post: string, k: int)
    requires forall i | 0 <= i < |pre| :: IsJsSpace(pre[i])
    requires forall i | 0 <= i < |post| :: IsJsSpace(post[i])
    requires code != [] && !IsJsSpace(code[0]) && !IsJsSpace(code[|code| - 1])
    requires 0 <= k < |code| && IsJsSpace(code[k])
    ensures !PromoMatches(pre + code + post)
  {
    TrimSurrounded(pre, code, post);
    if |code| == |PromoCode| {
      PromoCodeHasNoBlank(k);
      assert ToLower(code)[k] == code[k];
    }
  }

  lemma PromoCodeHasNoBlank(k: int)
    requires 0 <= k < |PromoCode|
    ensures !IsJsSpace(PromoCode[k])
  {
    assert '0' <= PromoCode[k] <= 'z';
  }

  /** The state handed to the booking page. */
  datatype Handoff =
    | RoundTripHandoff(outbound: Flight, ret: Flight, searchParams: SearchParams, totalFare: int)
    | OneWayHandoff(flight: Flight, searchParams: SearchParams, totalFare: int)

  /** What Book Now does: an alert, or navigation to the booking page with a hand-off. */
  datatype BookOutcome = Alert(message: string) | Navigate(handoff: Handoff)

  /** The results page's state. */
  class ResultsView {
    /** The fetched list and the search it answers, fixed once loaded. */
    const flights: seq<Flight>
    const search: SearchParams
    /** The host's date parser. */
    const parse: DateParser
    /** The page never offers a control for these two; they keep their initial values. */
    var sortBy: string
    var filterClass: string
    var filters: Filters
    var direction: string
    var selectedOutbound: Option<Flight>
    var selectedReturn: Option<Flight>
    var promoCode: string
    var promoApplied: bool
    var discount: int

    /** The promo state is one of its two reachable combinations. */
    predicate Valid()
      reads this
    {
      (promoApplied ==> discount == 500) && (!promoApplied ==> discount == 0)
    }

    constructor (flights: seq<Flight>, search: SearchParams, parse: DateParser)
      ensures Valid()
      ensures this.flights == flights && this.search == search && this.parse == parse
      ensures sortBy == "price" && filterClass == "all" && filters == DefaultFilters && direction == "both"
      ensures selectedOutbound.None? && selectedReturn.None?
      ensures promoCode == "" && !promoApplied && discount == 0
    {
      this.flights := flights;
      this.search := search;
      this.parse := parse;
      sortBy := "price";
      filterClass := "all";
      filters := DefaultFilters;
      direction := "both";
      selectedOutbound := None;
      selectedReturn := None;
      promoCode := "";
      promoApplied := false;
      discount := 0;
    }

    /** Filters apply to the list `which` when the direction toggle is on it or on both. */
    predicate InScope(which: string)
      reads this
    {
      direction == "both" || direction == which
    }

    /** The list `filterFlights` sorts: `arr` run through the criteria when the direction covers it, else `arr`. */
    function Scoped(arr: seq<Flight>, which: string): seq<Flight>
      reads this
    {
      if InScope(which) then Chain(arr, filters, filterClass, parse) else arr
    }

    /**
     * `filterFlights(arr, which)`: the flights of `arr` that pass the panel's criteria
     * (all of `arr` when the direction leaves this list out), stably sorted by `sortBy`.
     */
    method FilterFlights(arr: seq<Flight>, which: string) returns (r: seq<Flight>)
      ensures StablySorted(r, Scoped(arr, which), SortKeyFn(sortBy, parse))
      ensures SortedBy(r, sortBy, parse)
    {
      var kept := Scoped(arr, which);
      var a := new Flight[|kept|](i requires 0 <= i < |kept| => kept[i]);
      assert a[..] == kept;
      SortByKey(a, SortKeyFn(sortBy, parse));
      r := a[..];
    }

    /**
     * The two lists the page shows: on a round trip the outbound and the return legs of
     * the fetched list, each filtered and sorted for its direction; otherwise the whole
     * list as the outbound one and no return list.
     */
    method Lists() returns (outbound: seq<Flight>, ret: seq<Flight>)
      ensures search.tripType == RoundTrip ==>
        StablySorted(outbound, Scoped(Filter((f: Flight) => IsOutbound(f, search), flights), "outbound"), SortKeyFn(sortBy, parse))
        && StablySorted(ret, Scoped(Filter((f: Flight) => IsReturn(f, search), flights), "return"), SortKeyFn(sortBy, parse))
      ensures search.tripType == RoundTrip ==>
        (forall f | f in outbound :: f in flights && IsOutbound(f, search))
        && (forall f | f in ret :: f in flights && IsReturn(f, search))
      ensures search.tripType != RoundTrip ==>
        ret == [] && StablySorted(outbound, Scoped(flights, "outbound"), SortKeyFn(sortBy, parse))
      ensures SortedBy(outbound, sortBy, parse) && SortedBy(ret, sortBy, parse)
    {
      if search.tripType == RoundTrip {
        var outs := Filter((f: Flight) => IsOutbound(f, search), flights);
        var rets := Filter((f: Flight) => IsReturn(f, search), flights);
        outbound := FilterFlights(outs, "outbound");
        ret := FilterFlights(rets, "return");
        forall f | f in outbound ensures f in flights && IsOutbound(f, search) {
          assert f in multiset(outbound);
          if InScope("outbound") {
            ChainMembership(outs, filters, filterClass, parse, f);
          }
          FilterMembership((f: Flight) => IsOutbound(f, search), flights, f);
        }
        forall f | f in ret ensures f in flights && IsReturn(f, search) {
          assert f in multiset(ret);
          if InScope("return") {
            ChainMembership(rets, filters, filterClass, parse, f);
          }
          FilterMembership((f: Flight) => IsReturn(f, search), flights, f);
        }
      } else {
        outbound := FilterFlights(flights, "outbound");
        ret := [];
      }
    }

    function TotalFareNow(): int
      reads this
    {
      TotalFare(selectedOutbound, selectedReturn, discount, search.travellers)
    }

    /** Book Now is enabled when every leg the trip needs is selected. */
    predicate BookEnabled()
      reads this
    {
      if search.tripType == RoundTrip then selectedOutbound.Some? && selectedReturn.Some? else selectedOutbound.Some?
    }

    /** `handleBookNow`: navigates with the selection and the current fare exactly when Book Now is enabled. */
    method BookNow() returns (outcome: BookOutcome)
      ensures outcome.Navigate? <==> BookEnabled()
      ensures outcome.Navigate? ==> outcome.handoff.totalFare == TotalFareNow() && outcome.handoff.searchParams == search
      ensures outcome.Navigate? && search.tripType == RoundTrip ==>
        outcome.handoff == RoundTripHandoff(selectedOutbound.value, selectedReturn.value, search, TotalFareNow())
      ensures outcome.Navigate? && search.tripType != RoundTrip ==>
        outcome.handoff == OneWayHandoff(selectedOutbound.value, search, TotalFareNow())
      ensures outcome.Alert? && search.tripType == RoundTrip ==> outcome.message == "Please select both outbound and return flights."
      ensures outcome.Alert? && search.tripType != RoundTrip ==> outcome.message == "Please select a flight."
    {
      if search.tripType == RoundTrip {
        if selectedOutbound.None? || selectedReturn.None? {
          return Alert("Please select both outbound and return flights.");
        }
        outcome := Navigate(RoundTripHandoff(selectedOutbound.value, selectedReturn.value, search, TotalFareNow()));
      } else {
        if selectedOutbound.None? {
          return Alert("Please select a flight.");
        }
        outcome := Navigate(OneWayHandoff(selectedOutbound.value, search, TotalFareNow()));
      }
    }

    /** `handleApplyPromo`; the Apply button is disabled once a code is applied. */
    method ApplyPromo()
      requires Valid() && !promoApplied
      modifies this
      ensures promoCode == old(promoCode) && filters == old(filters) && direction == old(direction)
      ensures selectedOutbound == old(selectedOutbound) && selectedReturn == old(selectedReturn)
      ensures sortBy == old(sortBy) && filterClass == old(filterClass)
      ensures Valid()
      ensures promoApplied <==> PromoMatches(promoCode)
    {
      var code := promoCode;
      var ok := PromoMatches(code);
      if ok {
        discount := 500;
        promoApplied := true;
      } else {
        discount := 0;
        promoApplied := false;
      }
    }

    /** Typing in the promo field, which is disabled once a code is applied. */
    method SetPromoCode(code: string)
      requires Valid() && !promoApplied
      modifies this
      ensures Valid() && promoCode == code && !promoApplied && discount == 0
      ensures filters == old(filters) && direction == old(direction)
      ensures selectedOutbound == old(selectedOutbound) && selectedReturn == old(selectedReturn)
      ensures sortBy == old(sortBy) && filterClass == old(filterClass)
    {
      promoCode := code;
    }

    method SelectOutbound(f: Flight)
      requires Valid()
      modifies this
      ensures Valid() && selectedOutbound == Some(f) && selectedReturn == old(selectedReturn)
      ensures filters == old(filters) && direction == old(direction) && promoCode == old(promoCode)
      ensures promoApplied == old(promoApplied) && discount == old(discount)
      ensures sortBy == old(sortBy) && filterClass == old(filterClass)
    {
      selectedOutbound := Some(f);
    }

    method SelectReturn(f: Flight)
      requires Valid()
      modifies this
      ensures Valid() && selectedReturn == Some(f) && selectedOutbound == old(selectedOutbound)
      ensures filters == old(filters) && direction == old(direction) && promoCode == old(promoCode)
      ensures promoApplied == old(promoApplied) && discount == old(discount)
      ensures sortBy == old(sortBy) && filterClass == old(filterClass)
    {
      selectedReturn := Some(f);
    }

    /**
     * A card shows as selected when the selected leg has the card's code. Two records
     * without a code count as the same.
     */
    predicate ShowsAsSelected(selected: Option<Flight>, card: Flight) {
      selected.Some? && Iata(selected.value) == Iata(card)
    }

    /** The filter panel's `setFilters`. */
    method SetFilters(g: Filters)
      requires Valid()
      modifies this
      ensures Valid() && filters == g && direction == old(direction)
      ensures selectedOutbound == old(selectedOutbound) && selectedReturn == old(selectedReturn)
      ensures promoCode == old(promoCode) && promoApplied == old(promoApplied) && discount == old(discount)
      ensures sortBy == old(sortBy) && filterClass == old(filterClass)
    {
      filters := g;
    }

    /** `handleClearAll`: the default filters, and nothing else changes. */
    method ClearAll()
      requires Valid()
      modifies this
      ensures selectedOutbound == old(selectedOutbound) && selectedReturn == old(selectedReturn)
      ensures promoCode == old(promoCode) && promoApplied == old(promoApplied) && discount == old(discount)
      ensures sortBy == old(sortBy) && filterClass == old(filterClass) && direction == old(direction)
      ensures Valid() && filters == DefaultFilters
      ensures !ClearAllEnabled(filters)
    {
      filters := DefaultFilters;
      assert !ClearAllEnabled(filters) by { DefaultShowsNoTags(); }
    }

    /** The direction toggle of a round trip. */
    method SetDirection(d: string)
      requires Valid() && d in {"both", "outbound", "return"}
      modifies this
      ensures Valid() && direction == d && filters == old(filters)
      ensures selectedOutbound == old(selectedOutbound) && selectedReturn == old(selectedReturn)
      ensures promoCode == old(promoCode) && promoApplied == old(promoApplied) && discount == old(discount)
      ensures sortBy == old(sortBy) && filterClass == old(filterClass)
    {
      direction := d;
    }
  }

  /** A selected code identifies a card: the selected leg itself always shows as selected. */
  lemma SelectedShowsAsSelected(v: ResultsView, f: Flight, g: Flight)
    ensures v.ShowsAsSelected(Some(f), f)
    ensures Iata(f) != Iata(g) ==> !v.ShowsAsSelected(Some(f), g)
    ensures Iata(f).None? && Iata(g).None? ==> v.ShowsAsSelected(Some(f), g)
  {
  }
}
