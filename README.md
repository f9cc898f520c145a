# Flight booking flow, modelled in Dafny

This project models the decision logic of a small flight-booking web
application. The application has two parts:

- a React client: search results with a filter side panel, a three-step
  booking page, a testimonials page and a sign-up form;
- an Express back end that serves mock flights.

The model states what each step computes and proves it.

| module | file | models |
|---|---|---|
| `Wrappers` | `wrappers.dfy` | `Option` and `Result` |
| `JsOps` | `js_ops.dfy` | the JavaScript built-ins the code relies on: the truncating `%`, `parseInt`, `trim`, `includes`, `toLowerCase`/`toUpperCase`, `Array.prototype.filter`, `slice` and string order |
| `Flights` | `flight_data.dfy` | the flight record, the search parameters, the class multipliers, the on-time rate and `calculateDuration` |
| `FlightApi` | `flight_api.dfy` | the client flight service: query string, mock fallback, record normalisation |
| `FlightController` | `flight_controller.dfy` | the back end: `getFlights`, `getFlightById` and the filter-and-price transform of `searchFlights` |
| `SearchFilter` | `search_filter.dfy` | the filter panel's state updates and its applied-filter tags |
| `FlightResults` | `flight_results.dfy` | the results page as a class: leg split, filter chain, in-place sort, fare, promo code, Book Now |
| `Booking` | `booking.dfy` | the booking page as a class: passengers, three guarded steps, price breakdown, confirmation payload |
| `Blog` | `blog.dfy` | the testimonials page as a class: carousel, image upload, submit and delete |
| `SignUp` | `signup.dfy` | the sign-up form as a class and its ordered submit check |

Some things the environment supplies are inputs to the model:

- The host's date parser (`new Date(text)`) is a function from text to an
  optional instant, which carries epoch milliseconds and the local hour.
- Each `Math.random()` draw is a real in [0, 1).
- The HTTP answer is `None` (failure or timeout) or the array received.
- The answer to `window.confirm` is a boolean.
- `Date.now()` and today's date are a number and a text.

Modelling the code as written brings out two behaviours that are not bugs in
one place:

- A round trip cannot be booked. The results page sends a round trip to the
  booking page as `outbound`/`return`, but the booking page reads only
  `flight`, so it shows "Invalid booking data" (`Booking.RoundTripShowsInvalidView`).
- A promo discount shown on the results page is not passed on. The booking
  page prices from the flight record again (`Booking.BaseIsUndiscountedFare`).

## Model

| member | source | states |
|---|---|---|
| `JsOps.JsRem` | src/services/flightApi.js:128 | JavaScript's `%`: the remainder has the dividend's sign and is smaller than the divisor in size; it agrees with Euclidean `%` for a non-negative dividend |
| `JsOps.ParseInt` | flight-admin-panel/controllers/flightController.js:207 | `parseInt` without a radix gives a number exactly when, after the leading blanks and an optional sign, "0x"/"0X" is followed by a hexadecimal digit or, without that prefix, a decimal digit comes first; otherwise `NaN` |
| `JsOps.NatToString` | src/components/FlightSearchFilter.jsx:94 | the text a template literal writes for a non-negative number such as the price ceiling: a non-empty run of decimal digits |
| `JsOps.IntToString` | src/components/BookingPage.jsx:93 | the decimal text of an integer, as `'BK' + Date.now()` writes it: non-empty, with a leading '-' exactly for a negative number; `JsOps.ParseIntOfIntToString` reads it back |
| `JsOps.ParseIntOfIntToString` | flight-admin-panel/controllers/flightController.js:227 | `parseInt` reads back exactly the decimal text of every integer |
| `JsOps.ParseIntReadsHex` | flight-admin-panel/controllers/flightController.js:207 | a text of "0x" or "0X" and hexadecimal digits reads as that number in base 16 |
| `JsOps.ParseIntBareHexPrefix` | flight-admin-panel/controllers/flightController.js:207 | "0x" with no hexadecimal digit after it reads as `NaN` |
| `JsOps.TrimStart` | src/components/FlightResults.jsx:171 | the result is a suffix of the input that does not start with white space |
| `JsOps.TrimEnd` | src/components/FlightResults.jsx:171 | the result is a prefix of the input that does not end with white space |
| `JsOps.Trim` | src/components/FlightResults.jsx:171 | `trim` never lengthens a text, and its result neither starts nor ends with white space |
| `JsOps.TrimSurrounded` | src/components/FlightResults.jsx:171 | `trim` removes exactly the white space around a text that neither starts nor ends with any |
| `JsOps.IncludesIffOccurs` | src/components/FlightResults.jsx:41-42 | `includes` holds exactly when the substring occurs at some index |
| `JsOps.Includes` | src/components/FlightResults.jsx:41-42 | every text includes the empty text, and a text never includes a longer one |
| `JsOps.IncludesConcat` | flight-admin-panel/controllers/flightController.js:100-104 | a text built around a piece includes that piece |
| `JsOps.ToLower` | flight-admin-panel/controllers/flightController.js:214 | same length; every character is lower-cased on its own |
| `JsOps.ToUpper` | src/services/flightApi.js:63-64 | same length; every character is upper-cased on its own |
| `JsOps.LexLeTotal` | src/components/FlightResults.jsx:141 | the string order compares any two texts |
| `JsOps.LexLeTransitive` | src/components/FlightResults.jsx:141 | the string order is transitive |
| `JsOps.LexLeAntisymmetric` | src/components/FlightResults.jsx:141 | two texts ordered both ways are equal |
| `JsOps.Filter` | src/components/FlightResults.jsx:99 | `filter` never lengthens the array (what it keeps is in `FilterMembership` and `FilterCount`) |
| `JsOps.FilterMembership` | src/components/FlightResults.jsx:99 | `filter` keeps exactly the elements that pass |
| `JsOps.FilterSubMultiset` | src/components/FlightResults.jsx:99 | `filter` never adds an element |
| `JsOps.FilterAllPass` | src/components/FlightResults.jsx:110-113 | a list whose every element passes comes back unchanged |
| `JsOps.FilterCompose` | src/components/FlightResults.jsx:98-113 | two filters in a row equal one filter by the conjunction |
| `JsOps.FilterNonePass` | src/components/FlightResults.jsx:102-105 | a list where nothing passes filters to empty |
| `JsOps.FilterConcat` | src/components/FlightSearchFilter.jsx:66-68 | filtering distributes over concatenation |
| `JsOps.FilterCount` | src/components/FlightResults.jsx:94-135 | `filter` keeps each passing element as often as it occurs and drops each failing one |
| `JsOps.FilterSameTest` | flight-admin-panel/controllers/flightController.js:205-216 | two tests that agree on every element keep the same elements |
| `JsOps.FilterSwapNeighbours` | src/components/FlightResults.jsx:136-147 | swapping two neighbours that do not both pass leaves what the filter keeps unchanged |
| `JsOps.Slice` | src/components/Blog.jsx:122 | `slice(start, end)` is at most `end - start` long and is the plain subsequence when both ends are in range |
| `Flights.ClassMultiplierTenths` | src/services/flightApi.js:136-142 | the multiplier is 1, 2.5 or 4; it is other than 1 only for BUSINESS or FIRST |
| `Flights.OnTimeRate` | src/services/flightApi.js:152-154 | a draw in [0, 1) gives an on-time rate between 80 and 100 |
| `Flights.DurationParts` | src/services/flightApi.js:126-128 | the hours are the floor of the difference in hours; a non-negative difference gives minutes in 0..59 that, with the hours, bracket the difference to the minute; a negative one gives minutes in -60..0 |
| `Flights.DurationText` | src/services/flightApi.js:126-130 | the duration text is never empty and starts with '-' exactly when the difference is negative |
| `Flights.CalculateDuration` | src/services/flightApi.js:121-131 | "N/A" when either time is missing; "NaNh NaNm" when both are given but one does not parse; otherwise the text of arrival minus departure |
| `Flights.DurationPartsRecombine` | src/services/flightApi.js:126-128 | for a whole number of minutes, hours × 60 + minutes is the difference in minutes |
| `Flights.ReversedDurationIsNegative` | flight-admin-panel/controllers/flightController.js:144-154 | a negative difference always gives negative hours and a text starting with '-' |
| `Flights.DurationTextExamples` | flight-admin-panel/controllers/flightController.js:150-153 | worked example, not a property: 2 h 15 min reads "2h 15m"; the same leg measured backwards reads "-3h -15m" |
| `FlightApi.GeneratePrice` | src/services/flightApi.js:134-149 | an INR amount equal to 5000 times the class multiplier |
| `FlightApi.GeneratePriceTable` | src/services/flightApi.js:134-149 | worked example, not a property: 5000 for ECONOMY, 12500 for BUSINESS, 20000 for FIRST, 5000 for any other class |
| `FlightApi.Normalize` | src/services/flightApi.js:104-117 | every field the views read is present; present fields are kept and missing ones defaulted; a missing price is priced by class; the duration comes from the original times; the rate is in 80..100 |
| `FlightApi.ProcessFlightData` | src/services/flightApi.js:103-118 | one normalised record per input record, same length and order |
| `FlightApi.SearchQuery` | src/services/flightApi.js:62-70 | origin and destination upper-cased, with no lower-case letter left and nothing lost to case; the return date is added exactly for a round trip that has one |
| `FlightApi.SearchFlights` | src/services/flightApi.js:57-99 | a failed, timed-out or empty answer gives the three processed mocks, anything else the processed answer; every record is fully populated; an answer's own prices are kept |
| `FlightApi.MockPricesKept` | src/services/flightApi.js:88-91 | the fallback keeps the mock prices 8500, 7200 and 9500, whatever the class |
| `FlightController.Label` | flight-admin-panel/controllers/flightController.js:98-105 | the relabelled airport includes the searched city |
| `FlightController.TimePart` | flight-admin-panel/controllers/flightController.js:116 | the date part and the rest put back together give the timestamp |
| `FlightController.Outbound` | flight-admin-panel/controllers/flightController.js:96-108 | the served record keeps the mock's code, airline, price and times, is scheduled and 1150 km long, carries the searched cities as airports, has an on-time rate in 80..100, and has a duration that matches its own times |
| `FlightController.ReturnLeg` | flight-admin-panel/controllers/flightController.js:112-127 | the return leg swaps the airports, splices the return date in front of each time, adds "R" to the code, keeps the airline, price, status, distance and rate, and has a duration that matches its own times |
| `FlightController.ReturnLegAsWritten` | flight-admin-panel/controllers/flightController.js:112-127 | as written: the same airports, times, code, airline, price and rate as `ReturnLeg`, but a duration measured from the leg's arrival to its departure |
| `FlightController.ReturnLegAsWrittenIsReversed` | flight-admin-panel/controllers/flightController.js:126 | the return leg as written reports the negated duration, so it never matches its own times |
| `FlightController.ReturnLegAsWrittenExample` | flight-admin-panel/controllers/flightController.js:112-126 | for AI101 returning on 2024-01-20 the code as written reports "-3h -15m" where the leg takes "2h 15m" |
| `FlightController.Outbounds` | flight-admin-panel/controllers/flightController.js:96-108 | one outbound record per mock, in order |
| `FlightController.ReturnLegs` | flight-admin-panel/controllers/flightController.js:112-127 | one return leg per outbound record, in order |
| `FlightController.Serve` | flight-admin-panel/controllers/flightController.js:96-130 | for any list of records: as many records (twice as many with a return date), the outbound records first in order, then the return legs of exactly those records |
| `FlightController.ServedOutbounds` | flight-admin-panel/controllers/flightController.js:96-108 | served record i keeps record i's code, airline and price, carries the searched cities, has the rate of draw i, is scheduled, 1150 km long, and its duration matches its times |
| `FlightController.ServedReturns` | flight-admin-panel/controllers/flightController.js:110-127 | with a return date, return leg i is the return leg of outbound record i: code + "R", airports swapped, the return date spliced in, airline, price, status, distance and rate carried over |
| `FlightController.GetFlights` | flight-admin-panel/controllers/flightController.js:82-132 | status 400 exactly when origin, destination or date is missing; otherwise 5 records, the outbound records of the mocks in order, followed, when a return date is given, by 5 more that are the return legs of those records in order; the return legs are the corrected `ReturnLeg` (the code as written is not: see Findings) |
| `FlightController.GetFlightsServesMocks` | flight-admin-panel/controllers/flightController.js:82-132 | every served record, mock by mock: the mock's code, airline and price, the searched cities, the drawn rate; return leg 5 + i is built from record i; all scheduled, 1150 km, rated 80..100, with consistent durations |
| `FlightController.FindByIata` | flight-admin-panel/controllers/flightController.js:168 | the first index whose code is `id`, or none when no record has it |
| `FlightController.GetFlightById` | flight-admin-panel/controllers/flightController.js:162-179 | a mock record with that code exactly when one exists, else status 404 |
| `FlightController.ReturnCodesNotFound` | flight-admin-panel/controllers/flightController.js:124 | the codes made up for return legs are never found by `getFlightById` |
| `FlightController.PerPerson` | flight-admin-panel/controllers/flightController.js:220-234 | the amount, or 5000 when it is missing, times the class multiplier |
| `FlightController.Total` | flight-admin-panel/controllers/flightController.js:227 | a total exists exactly when the passenger count parses |
| `FlightController.Price` | flight-admin-panel/controllers/flightController.js:219-238 | the priced record keeps the flight and the class, reads the party size with `parseInt`, and totals per person × party |
| `FlightController.PriceAll` | flight-admin-panel/controllers/flightController.js:219-239 | every kept flight is priced, in order |
| `FlightController.SearchTransformKeeps` | flight-admin-panel/controllers/flightController.js:205-216 | a flight is kept exactly when it is under the price ceiling and its airline matches case-insensitively |
| `FlightController.SearchTransform` | flight-admin-panel/controllers/flightController.js:204-239 | exactly the flights under the ceiling whose airline matches, each priced with the defaults 1 passenger and ECONOMY |
| `FlightController.FlightsOf` | flight-admin-panel/controllers/flightController.js:219-239 | the flights of a priced list, one per record, in order |
| `FlightController.KeptIsFilter` | flight-admin-panel/controllers/flightController.js:205-216 | the two filters in a row, each skipped when its parameter is absent, are one filter by both tests |
| `FlightController.SearchTransformInOrder` | flight-admin-panel/controllers/flightController.js:204-239 | the search keeps order and multiplicity: its flights are exactly the served flights that pass both tests, as they come |
| `FlightController.NaNCeilingKeepsNothing` | flight-admin-panel/controllers/flightController.js:205-208 | a `maxPrice` that does not parse filters every flight out |
| `FlightController.PricingBusinessForTwo` | flight-admin-panel/controllers/flightController.js:219-227 | worked example, not a property: 8000 in BUSINESS for two gives 20000 per person and 40000 in all |
| `FlightController.PricingMissingPrice` | flight-admin-panel/controllers/flightController.js:220-227 | worked example, not a property: a flight without a price in FIRST for one costs 20000, from the 5000 default |
| `FlightController.PricingUnreadableParty` | flight-admin-panel/controllers/flightController.js:220-227 | worked example, not a property: an unreadable party size keeps the per-person price and gives no total |
| `SearchFilter.WithValues` | src/components/FlightSearchFilter.jsx:54 | the chosen array category gets the new values; every other category is unchanged |
| `SearchFilter.Without` | src/components/FlightSearchFilter.jsx:54 | every copy of the value goes; every other value keeps its count |
| `SearchFilter.WithoutAbsent` | src/components/FlightSearchFilter.jsx:66 | removing an absent value changes nothing |
| `SearchFilter.HandleCheckbox` | src/components/FlightSearchFilter.jsx:62-71 | a ticked option is removed (all its copies) and an unticked one appended; other categories are unchanged |
| `SearchFilter.ToggleTwice` | src/components/FlightSearchFilter.jsx:62-71 | ticking an unticked option and unticking it again gives the filters back exactly |
| `SearchFilter.RemoveFilterAsWritten` | src/components/FlightSearchFilter.jsx:51-59 | an array category loses every copy of the value; the airport becomes empty; the price becomes the empty string |
| `SearchFilter.RemoveFilter` | src/components/FlightSearchFilter.jsx:51-59 | as written for every category but the price, which goes back to its default maximum |
| `SearchFilter.HandleSelect` | src/components/FlightSearchFilter.jsx:74-76 | only the airport changes |
| `SearchFilter.HandlePriceChange` | src/components/FlightSearchFilter.jsx:79-82 | only the price ceiling changes |
| `SearchFilter.ListTags` | src/components/FlightSearchFilter.jsx:88 | one tag per selected option, in order |
| `SearchFilter.PushListTags` | src/components/FlightSearchFilter.jsx:88 | the push loop appends exactly the tags of one category |
| `SearchFilter.PushEntryTags` | src/components/FlightSearchFilter.jsx:86-92 | the loop over the record's entries produces the tags of those entries, in key order |
| `SearchFilter.ActiveTags` | src/components/FlightSearchFilter.jsx:85-95 | the tag list equals `Tags`; there is one tag per selected option, one for a chosen airport, and one for a truthy ceiling below the maximum |
| `SearchFilter.TagCount` | src/components/FlightSearchFilter.jsx:85-95 | the number of tags is the sum of the array lengths, plus 1 for an airport and 1 for a lowered ceiling |
| `SearchFilter.Tags` | src/components/FlightSearchFilter.jsx:85-95 | the price tag, when shown, is the last tag and reads "Up to ₹" and the ceiling; without it the tags are exactly the entries' tags in key order |
| `SearchFilter.TagsUnfolded` | src/components/FlightSearchFilter.jsx:86-95 | the tags written out category by category, in the record's key order |
| `SearchFilter.ClearAllEnabledIff` | src/components/FlightSearchFilter.jsx:137 | Clear All is enabled exactly when an option is ticked, an airport is chosen or the ceiling is lowered |
| `SearchFilter.DefaultShowsNoTags` | src/components/FlightSearchFilter.jsx:93 | the default filters show no tag |
| `SearchFilter.RemoveTagHidesIt` | src/components/FlightSearchFilter.jsx:51-59 | a tag's remove button makes that tag disappear |
| `SearchFilter.TagsMembership` | src/components/FlightSearchFilter.jsx:85-95 | which tags are shown, stated per category |
| `SearchFilter.ListTagsMembership` | src/components/FlightSearchFilter.jsx:88 | a category's tags are exactly its selected values |
| `FlightResults.ReturnIsReversedOutbound` | src/components/FlightResults.jsx:37-52 | a return leg is exactly an outbound leg of the reversed search, on a round trip |
| `FlightResults.LabelledLegIsOutbound` | src/components/FlightResults.jsx:46-52 | a leg whose labels contain the searched cities is outbound |
| `FlightResults.IsOutbound` | src/components/FlightResults.jsx:46-52 | an outbound leg has both airport labels; with an empty origin and destination, every leg with both labels is outbound |
| `FlightResults.IsReturn` | src/components/FlightResults.jsx:37-44 | a return leg exists only on a round trip and has both airport labels |
| `FlightResults.GetHour` | src/components/FlightResults.jsx:32-35 | `null` exactly for a missing time, `NaN` exactly for one that does not parse |
| `FlightResults.SlotRange` | src/components/FlightResults.jsx:25-30 | every slot is a half-open range of hours within 0..24 |
| `FlightResults.SlotsPartitionTheDay` | src/components/FlightResults.jsx:25-30 | every hour of the day lies in one of the four slots, and adjacent slots do not overlap |
| `FlightResults.MissingTimeIsMidnight` | src/components/FlightResults.jsx:114-121 | a flight without a time passes the time filter exactly when "before 6" is selected |
| `FlightResults.AirlineOk` | src/components/FlightResults.jsx:98-100 | no airline selected keeps every flight; with a selection only flights with an airline pass |
| `FlightResults.StopsOk` | src/components/FlightResults.jsx:101-106 | no stops selected keeps every flight |
| `FlightResults.AirportOk` | src/components/FlightResults.jsx:107-109 | no airport chosen keeps every flight; with one, only flights with a departure airport pass |
| `FlightResults.PriceOk` | src/components/FlightResults.jsx:110-113 | a flight without a price never passes the price window |
| `FlightResults.DepTimeOk` | src/components/FlightResults.jsx:114-122 | no slot selected keeps every flight; with one, a given departure time that passes is one that parses |
| `FlightResults.ArrTimeOk` | src/components/FlightResults.jsx:123-131 | no slot selected keeps every flight; with one, a given arrival time that passes is one that parses |
| `FlightResults.ClassOk` | src/components/FlightResults.jsx:132-134 | class "all" keeps every flight, and so does a flight without a class |
| `FlightResults.Passes` | src/components/FlightResults.jsx:97-135 | a flight that passes every criterion has a price within 2000 and the ceiling |
| `FlightResults.Chain` | src/components/FlightResults.jsx:97-135 | the filter chain never lengthens the list (what it keeps is in `ChainCount` and `ChainMembership`) |
| `FlightResults.GuardedStepCount` | src/components/FlightResults.jsx:98-134 | one guarded filter step keeps a passing element as often as before and drops a failing one |
| `FlightResults.ChainCount` | src/components/FlightResults.jsx:94-135 | the filter chain keeps each flight that passes every criterion, as often as it occurs, and no other |
| `FlightResults.ChainMembership` | src/components/FlightResults.jsx:94-135 | a flight is in the result exactly when it is in the input and passes every criterion |
| `FlightResults.GuardedStepKeepsAll` | src/components/FlightResults.jsx:98-134 | a guarded step over passing flights changes nothing |
| `FlightResults.ChainIdempotent` | src/components/FlightResults.jsx:94-135 | filtering an already filtered list, in any order, gives it back unchanged |
| `FlightResults.StopsWithoutNonstopHidesAll` | src/components/FlightResults.jsx:101-106 | a stops selection without "nonstop" empties the list |
| `FlightResults.PriceWindow` | src/components/FlightResults.jsx:110-113 | a flight is kept exactly when 2000 ≤ amount ≤ ceiling; a missing price is dropped |
| `FlightResults.RemovedPriceTagHidesAll` | src/components/FlightResults.jsx:110-113 | after the price tag is removed as written, every list filters to empty |
| `FlightResults.RemovedPriceTagRestoresDefault` | src/components/FlightResults.jsx:110-113 | after the corrected removal the price criterion is the default one, 2000..20000 |
| `FlightResults.KeyLeTotal` | src/components/FlightResults.jsx:136-147 | the comparator orders any two flights |
| `FlightResults.KeyLeTransitive` | src/components/FlightResults.jsx:136-147 | the comparator's order is transitive |
| `FlightResults.SortKeyOf` | src/components/FlightResults.jsx:137-146 | price sorts by amount (0 if missing); duration by the flight's own duration text ("0h 0m" if missing or empty); departure by the departure time in epoch milliseconds (0 when missing or unparseable); any other choice gives every flight the same key, which leaves the order alone |
| `FlightResults.PriceSortIsAscending` | src/components/FlightResults.jsx:138-139 | a list sorted by price has non-decreasing amounts |
| `FlightResults.DurationSortIsTextual` | src/components/FlightResults.jsx:140-141 | durations sort as text: "10h 5m" comes before "2h 30m" |
| `FlightResults.SortByKey` | src/components/FlightResults.jsx:136-147 | the stable sort: the array ends up sorted by the key, is a permutation of its old contents, and keeps the flights of each key in their old order |
| `FlightResults.InsertLast` | src/components/FlightResults.jsx:136-147 | one insertion pass: the first i + 1 elements end up sorted, and the array keeps its elements and each key's order |
| `FlightResults.SwapStep` | src/components/FlightResults.jsx:136-147 | swapping the sinking element past a larger neighbour keeps every key's order and the pass's invariants |
| `FlightResults.InsertDone` | src/components/FlightResults.jsx:136-147 | once the sinking element stops, the prefix it ends is sorted |
| `FlightResults.TotalFare` | src/components/FlightResults.jsx:161-167 | (legs − discount, floored at 0 when the discount is positive) × party size, 1 when travellers is 0 |
| `FlightResults.DiscountNeverRaisesFare` | src/components/FlightResults.jsx:165-166 | a larger discount never raises the fare, and the fare is never negative |
| `FlightResults.PromoIgnoresBlanksAndCase` | src/components/FlightResults.jsx:171 | any casing of SAVE10 with any white space around it is accepted |
| `FlightResults.PromoRejectsInnerBlank` | src/components/FlightResults.jsx:171 | a code with white space inside it is never accepted, since only the ends are trimmed |
| `FlightResults.ResultsView.constructor` | src/components/FlightResults.jsx:57-68 | the page starts sorted by price, with every class, the default filters, both directions, nothing selected and no promo |
| `FlightResults.ResultsView.FilterFlights` | src/components/FlightResults.jsx:94-148 | the result is the stable sort of the chain's output when the direction is in scope, and of the input otherwise: sorted by the chosen order, a permutation, and each key's flights in their input order |
| `FlightResults.ResultsView.Lists` | src/components/FlightResults.jsx:150-158 | on a round trip, the outbound list is the stable sort of the filtered outbound legs of the fetch and the return list that of the filtered return legs, so every matching fetched flight appears; otherwise the one list is the stable sort of the filtered fetch and there is no return list |
| `FlightResults.ResultsView.BookNow` | src/components/FlightResults.jsx:180-201 | navigates exactly when every leg the trip needs is selected, with the selection, the search and the current fare; otherwise shows the trip's alert |
| `FlightResults.ResultsView.ApplyPromo` | src/components/FlightResults.jsx:170-178 | applied (discount 500) exactly when the code matches; otherwise discount 0; nothing else changes |
| `FlightResults.ResultsView.SetPromoCode` | src/components/FlightResults.jsx:361-364 | only the code changes, and only while no promo is applied |
| `FlightResults.ResultsView.SelectOutbound` | src/components/FlightResults.jsx:462-463 | only the selected outbound leg changes |
| `FlightResults.ResultsView.SelectReturn` | src/components/FlightResults.jsx:489-490 | only the selected return leg changes |
| `FlightResults.ResultsView.SetFilters` | src/components/FlightResults.jsx:427 | only the filters change |
| `FlightResults.ResultsView.ClearAll` | src/components/FlightResults.jsx:203-205 | the filters are the defaults and Clear All is disabled afterwards; nothing else changes |
| `FlightResults.ResultsView.SetDirection` | src/components/FlightSearchFilter.jsx:104-124 | only the direction changes, to one of its three values |
| `FlightResults.SelectedShowsAsSelected` | src/components/FlightResults.jsx:462 | the selected leg always shows as selected; a card with another code never does; two cards without a code both do |
| `Booking.RoundTripShowsInvalidView` | src/components/BookingPage.jsx:122-136 | a round-trip hand-off has no `flight`, so the page shows the invalid-booking view |
| `Booking.CalculateTotalPrice` | src/components/BookingPage.jsx:62-71 | base = (amount or 0) × (travellers or 1); taxes = 18% of base; total = base + taxes |
| `Booking.TotalIsBasePlusGst` | src/components/BookingPage.jsx:64-69 | the total is 118% of the base |
| `Booking.PricingExample` | src/components/BookingPage.jsx:62-71 | worked example, not a property: 5000 for two gives 10000 + 1800 = 11800 |
| `Booking.BaseIsUndiscountedFare` | src/components/BookingPage.jsx:63-64 | for a one-way hand-off the base equals the results page's fare when no discount applies; with a discount that the fare covers, the base exceeds that fare by discount × party size; with a discount above the fare, the results page shows 0 while the base is still the full fare × party size |
| `Booking.InitialPassengers` | src/components/BookingPage.jsx:27-39 | exactly `travellers` blank adult passengers by the window, numbered 1..n |
| `Booking.SetPassengerFieldOnly` | src/components/BookingPage.jsx:44 | setting a passenger field changes that field and no other, and never the id or type |
| `Booking.BookingPage.constructor` | src/components/BookingPage.jsx:23-39 | step 1, blank contact and payment, and the initial passengers when travellers is non-zero |
| `Booking.BookingPage.PassengerChange` | src/components/BookingPage.jsx:42-46 | only the named field of passenger `index` changes; the length and the other passengers stay the same |
| `Booking.BookingPage.ContactChange` | src/components/BookingPage.jsx:48-53 | only the named contact field changes |
| `Booking.BookingPage.PaymentChange` | src/components/BookingPage.jsx:55-60 | only the named payment field changes |
| `Booking.BookingPage.ContinueToContact` | src/components/BookingPage.jsx:245-246 | moves to step 2 exactly when every passenger has first name, last name, date of birth and passport number |
| `Booking.BookingPage.ContinueToPayment` | src/components/BookingPage.jsx:299-300 | moves to step 3 exactly when email, phone and address are filled in |
| `Booking.BookingPage.Back` | src/components/BookingPage.jsx:293-363 | back one step, always allowed, nothing else changes |
| `Booking.BookingPage.Confirm` | src/components/BookingPage.jsx:73-101 | confirms exactly when the four payment fields are filled in; the payload carries the page's own passengers, contact and payment details (all complete), the flight, the page's total, the booking date and the id "BK" + time |
| `Blog.SlideCount` | src/components/Blog.jsx:106 | ⌈n / 2⌉ slides |
| `Blog.NextSlideIndex` | src/components/Blog.jsx:105-107 | (cur + 1) mod k, within [0, k) |
| `Blog.PrevSlideIndex` | src/components/Blog.jsx:109-111 | (cur − 1 + k) mod k, within [0, k) |
| `Blog.PrevNextInverse` | src/components/Blog.jsx:105-111 | previous undoes next, and next undoes previous |
| `Blog.SlidesWrapAround` | src/components/Blog.jsx:105-111 | worked example of `PrevNextInverse`: next wraps from the last slide to the first, previous from the first to the last |
| `Blog.VisibleOn` | src/components/Blog.jsx:122 | at most two reviews, the pair at 2·cur when it exists |
| `Blog.EverySlidePlacesItsPair` | src/components/Blog.jsx:122 | review i is shown on slide i / 2, position i mod 2; a slide is empty exactly past the last one |
| `Blog.RemoveAt` | src/components/Blog.jsx:73-78 | exactly the image at `index` goes and the others keep their order; an index out of range changes nothing |
| `Blog.MaxId` | src/components/Blog.jsx:87 | no review has an id above it |
| `Blog.NextId` | src/components/Blog.jsx:87 | the corrected id is held by no review |
| `Blog.NextIdAsWritten` | src/components/Blog.jsx:87 | as written, `length + 1`: at least 1, and fresh while every id is at most the length (the seeded list, not after a delete) |
| `Blog.AddReview` | src/components/Blog.jsx:86-93 | the list grows by one: the new review, with the given id, the date, the user flag and the draft's fields, goes first, and the old list follows unchanged |
| `Blog.DeleteReview` | src/components/Blog.jsx:99-103 | a review stays exactly when its id differs |
| `Blog.AddReviewKeepsIdsUnique` | src/components/Blog.jsx:86-93 | with the corrected id, ids stay unique after a submit |
| `Blog.DeleteKeepsIdsUnique` | src/components/Blog.jsx:99-103 | ids stay unique after a delete |
| `Blog.DeleteRemovesOne` | src/components/Blog.jsx:99-103 | with unique ids a confirmed delete removes exactly one review |
| `Blog.IdCollisionAsWritten` | src/components/Blog.jsx:86-101 | with `length + 1` ids, submit two, delete the first and submit again: the newest shares an id, and deleting it removes two reviews |
| `Blog.InitialIdsWithinLength` | src/components/Blog.jsx:15-52 | the seeded reviews have unique ids 1..4 |
| `Blog.BlogPage.constructor` | src/components/Blog.jsx:5-52 | slide 0, dialog closed, blank draft, the four seeded reviews |
| `Blog.BlogPage.NextSlide` | src/components/Blog.jsx:105-107 | the slide becomes the next index; nothing else changes |
| `Blog.BlogPage.PrevSlide` | src/components/Blog.jsx:109-111 | the slide becomes the previous index; nothing else changes |
| `Blog.BlogPage.GoToSlide` | src/components/Blog.jsx:219-222 | a dot selects its slide |
| `Blog.BlogPage.OpenDialog` | src/components/Blog.jsx:143-146 | only the dialog flag changes |
| `Blog.BlogPage.EditDraft` | src/components/Blog.jsx:249-265 | only the typed draft field changes |
| `Blog.BlogPage.SetRating` | src/components/Blog.jsx:273 | the rating becomes the clicked star |
| `Blog.BlogPage.UploadImages` | src/components/Blog.jsx:54-71 | refused, with no change, when the images would exceed 3; otherwise the files are appended in order |
| `Blog.BlogPage.RemoveImage` | src/components/Blog.jsx:73-78 | the draft loses exactly the image at `index` |
| `Blog.BlogPage.SubmitReview` | src/components/Blog.jsx:80-97 | a draft missing its name or review changes nothing; otherwise the review goes first, numbered by the corrected `NextId` (one past the largest id, not `length + 1`; see Findings), and the draft and dialog reset |
| `Blog.BlogPage.DeleteReviewById` | src/components/Blog.jsx:99-103 | when confirmed, exactly the reviews with that id go and the rest keep their order |
| `SignUp.SubmitError` | src/components/signup.jsx:17-33 | no message exactly when the passwords match and the terms are accepted; a mismatch is reported first, then the terms |
| `SignUp.MismatchComesFirst` | src/components/signup.jsx:20-28 | a mismatch is reported whatever the checkbox says |
| `SignUp.SignUpForm.constructor` | src/components/signup.jsx:6-14 | empty fields, unchecked terms, no error, both passwords hidden |
| `SignUp.SignUpForm.SetText` | src/components/signup.jsx:42-91 | only the typed field changes |
| `SignUp.SignUpForm.ToggleAgree` | src/components/signup.jsx:109 | the terms flag flips; nothing else changes |
| `SignUp.SignUpForm.ToggleVisibility` | src/components/signup.jsx:77-95 | the chosen eye button flips its own flag only |
| `SignUp.SignUpForm.HandleSubmit` | src/components/signup.jsx:17-33 | the error is the ordered check's message; created exactly when it is empty; no field changes |

## Left out

- HTTP, axios, Express request/response objects, the 7-second timeout and logging are not modelled. A fetch is an optional input; a handler's answer is a `Result` whose error carries the status.
- `searchFlights` in flightController.js:182-247 is not modelled as a handler. It calls `getFlights` with the live response object and then treats the result as an array, so no filter or pricing step can be reached. The model keeps its filter-and-price transform (`FlightController.SearchTransform`) and applies it to a list of served flights.
- The `500` catch branches cannot be reached in the model: nothing in it throws.
- `toUpperCase`, `toLowerCase` and `trim` are modelled on ASCII letters and the common white-space characters. Unicode case mapping and the full white-space set are left out.
- `localeCompare` in the duration sort is modelled as code-unit order, which agrees for the ASCII digit/letter texts the durations are made of.
- `FlightResults.SortByKey`: an unparseable departure time sorts as 0. The source's comparator gives `NaN` there, which leaves the order up to the engine.
- `FlightResults.ResultsView.FilterFlights` sorts a fresh array. On a one-way trip with the direction out of scope, the source sorts the `flights` state array in place; that aliasing is not modelled.
- `FlightResults.InSlot`: an unknown slot name matches nothing; the source throws on it. The panel offers only the four known names.
- The popular filters and the class filter have no effect on the list. The class filter's value is never changed by the page. Both are modelled as they are: `filterClass` stays "all".
- Floating point is modelled as exact reals (the 18% tax, the 2.5 multiplier) or exact integers (`Math.floor` of the price). Rounding is not modelled.
- `Flights.ClassMultiplierTenths`: keys inherited from `Object.prototype` (for example "constructor") are read as "any other class".
- `formatTime`, `formatDate`, `toLocaleString` and other display text are left out.
- `Blog.BlogPage.UploadImages`: the `FileReader` loads finish asynchronously. The model appends them in file order, and two uploads in flight together are not modelled.
- The random draws, `Date.now()`, today's date and the `confirm` answer are parameters.
- `bookingDate` is a text parameter of `Booking.BookingPage.Confirm`.
- Browser constraint validation of the sign-up inputs' `required` attribute, and the alerts' wording, are left out. An alert is represented by the returned flag or outcome.
- Navigation is modelled as the hand-off value passed to the next page. The router, the confirmation page and the other pages are not part of this model.
- `FlightController.GetFlights`: serves the corrected `ReturnLeg`, whose duration runs from departure to arrival. The code as written is `ReturnLegAsWritten`; the Findings table states the difference.
- `Blog.BlogPage.SubmitReview`: numbers the new review with the corrected `NextId`. The code as written uses `NextIdAsWritten`, `length + 1`; the Findings table states the difference.
- `FlightResults.ResultsView.constructor`: takes the search the page was opened with. The page opened without one shows "❌ No search data provided." (src/components/FlightResults.jsx:71-75); that view is not modelled. The fetch-error view (src/components/FlightResults.jsx:82-84) is not modelled either: `flightApi.searchFlights` catches every error and falls back to the mock flights (src/services/flightApi.js:95-98), so it cannot be reached.
- `Booking.BookingPage.Confirm`: the two-second simulated wait and the failure alert of `handleBooking` are left out. Nothing in the payload construction can fail.

## Findings

| source | as written | input that shows it | evidently intended | confidence | as-written member | corrected member |
|---|---|---|---|---|---|---|
| flight-admin-panel/controllers/flightController.js:126 | the return leg's duration is computed from its arrival time to its departure time | AI101 with return date 2024-01-20: the leg runs 10:30 to 12:45 but is labelled "-3h -15m" | "2h 15m", measured from departure to arrival like the outbound leg | high (not executed) | `FlightController.ReturnLegAsWrittenExample` | `FlightController.ReturnLeg` |
| src/components/FlightSearchFilter.jsx:56 | removing the price tag sets `filters.price` to `''`, which `price <= filters.price` reads as 0 (src/components/FlightResults.jsx:112) | move the slider to 10000, then click the tag's remove button: no flight is listed | the ceiling goes back to 20000, the default, so that the tag disappears and every flight between 2000 and 20000 is shown | high (not executed) | `FlightResults.RemovedPriceTagHidesAll` | `SearchFilter.RemoveFilter` |
| src/components/Blog.jsx:87 | a new review's id is `testimonials.length + 1` | submit two reviews (ids 5 and 6), delete the first and submit a third: it gets id 6 again, and deleting either removes both | a fresh id, one past the largest in use | high (not executed) | `Blog.IdCollisionAsWritten` | `Blog.NextId` |

The rest of the model builds on the corrected members: `GetFlights` serves
`ReturnLeg` records, a tag's remove button is `RemoveFilter` (proved to hide
its tag in `RemoveTagHidesIt`), and `BlogPage.SubmitReview` numbers reviews
with `NextId`.
