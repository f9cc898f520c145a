/**
 * The booking page: a three-step form (passengers, contact, payment) over the
 * flight handed over by the results page, with the price breakdown and the
 * payload sent on to the confirmation page.
 */
module Booking {
  import opened Wrappers
  import opened JsOps
  import opened Flights
  import opened FlightResults

  datatype Passenger = Passenger(
    id: int, passengerType: string, firstName: string, lastName: string,
    dateOfBirth: string, passportNumber: string, seatPreference: string)

  /** The passenger fields the form edits. */
  datatype PassengerField = FirstName | LastName | DateOfBirth | PassportNumber | SeatPreference

  datatype Contact = Contact(email: string, phone: string, address: string)
  datatype ContactField = Email | Phone | Address

  datatype Payment = Payment(cardNumber: string, expiryDate: string, cvv: string, cardholderName: string)
  datatype PaymentField = CardNumber | ExpiryDate | Cvv | CardholderName

  /** `state?.flight`: only a one-way hand-off carries one. */
  function FlightOf(h: Option<Handoff>): Option<Flight> {
    if h.Some? && h.value.OneWayHandoff? then Some(h.value.flight) else None
  }

  function SearchOf(h: Option<Handoff>): Option<SearchParams> {
    if h.Some? then Some(h.value.searchParams) else None
  }

  /** The page shows its form only with both a flight and the search; otherwise "Invalid booking data". */
  predicate ShowsForm(h: Option<Handoff>) {
    FlightOf(h).Some? && SearchOf(h).Some?
  }

  /** A round trip hands over its legs as `outbound` and `return`, which the page does not read. */
  lemma RoundTripShowsInvalidView(h: Option<Handoff>)
    requires h.Some? && h.value.RoundTripHandoff?
    ensures !ShowsForm(h)
  {
  }

  // ---------------------------------------------------------------------------
  // Price
  // ---------------------------------------------------------------------------

  datatype Pricing = Pricing(basePrice: real, taxes: real, total: real)

  /** `searchParams?.travellers || 1`. */
  function PartySize(sp: Option<SearchParams>): int {
    if sp.Some? && sp.value.travellers != 0 then sp.value.travellers else 1
  }

  /** `calculateTotalPrice()`: the fare for the party, 18% GST on top of it, and their sum. */
  function CalculateTotalPrice(flight: Option<Flight>, sp: Option<SearchParams>): (p: Pricing)
    ensures p.basePrice == ((if flight.Some? then AmountOr0(flight.value) else 0) * PartySize(sp)) as real
    ensures p.taxes == p.basePrice * 0.18
    ensures p.total == p.basePrice + p.taxes
  {
    var base := ((if flight.Some? then AmountOr0(flight.value) else 0) * PartySize(sp)) as real;
    Pricing(base, base * 0.18, base + base * 0.18)
  }

  /** The total is 118% of the base price. */
  lemma TotalIsBasePlusGst(flight: Option<Flight>, sp: Option<SearchParams>)
    ensures CalculateTotalPrice(flight, sp).total == CalculateTotalPrice(flight, sp).basePrice * 1.18
  {
  }

  /** Two travellers on a 5000 fare pay 10000 plus 1800 tax. */
  lemma PricingExample(f: Flight, sp: SearchParams)
    requires f.price == Some(Price(5000, "INR")) && sp.travellers == 2
    ensures CalculateTotalPrice(Some(f), Some(sp)) == Pricing(10000.0, 1800.0, 11800.0)
  {
  }

  /**
   * For a one-way hand-off the booking page's base price is the fare the results page
   * computed without a promo; a promo discount is not carried over.
   */
  lemma BaseIsUndiscountedFare(f: Flight, sp: SearchParams, discount: int, fare: int)
    requires fare == TotalFare(Some(f), None, discount, sp.travellers)
    ensures discount <= 0 ==> CalculateTotalPrice(Some(f), Some(sp)).basePrice == fare as real
    ensures discount > 0 && AmountOr0(f) >= discount ==>
      CalculateTotalPrice(Some(f), Some(sp)).basePrice == (fare + discount * PartySize(Some(sp))) as real
    ensures discount > 0 && AmountOr0(f) < discount ==>
      fare == 0 && CalculateTotalPrice(Some(f), Some(sp)).basePrice == (AmountOr0(f) * PartySize(Some(sp))) as real
  {
    var party := PartySize(Some(sp));
    if discount > 0 && AmountOr0(f) >= discount {
      assert fare == (AmountOr0(f) - discount) * party;
      assert (AmountOr0(f) - discount) * party + discount * party == AmountOr0(f) * party;
    }
  }

  // ---------------------------------------------------------------------------
  // Passengers
  // ---------------------------------------------------------------------------

  function BlankPassenger(id: int): Passenger {
    Passenger(id, "Adult", "", "", "", "", "Window")
  }

  /** `Array.from({ length: n }, ...)`: passengers 1..n, all adults by the window with empty fields. */
  function InitialPassengers(n: int): (ps: seq<Passenger>)
    ensures |ps| == if n > 0 then n else 0
    ensures forall i | 0 <= i < |ps| :: ps[i] == BlankPassenger(i + 1)
    decreases if n > 0 then n else 0
  {
    if n <= 0 then [] else InitialPassengers(n - 1) + [BlankPassenger(n)]
  }

  function SetPassengerField(p: Passenger, field: PassengerField, value: string): Passenger {
    match field
    case FirstName => p.(firstName := value)
    case LastName => p.(lastName := value)
    case DateOfBirth => p.(dateOfBirth := value)
    case PassportNumber => p.(passportNumber := value)
    case SeatPreference => p.(seatPreference := value)
  }

  function PassengerFieldValue(p: Passenger, field: PassengerField): string {
    match field
    case FirstName => p.firstName
    case LastName => p.lastName
    case DateOfBirth => p.dateOfBirth
    case PassportNumber => p.passportNumber
    case SeatPreference => p.seatPreference
  }

  /** Setting a field changes that field and no other. */
  lemma SetPassengerFieldOnly(p: Passenger, field: PassengerField, value: string, other: PassengerField)
    ensures PassengerFieldValue(SetPassengerField(p, field, value), field) == value
    ensures other != field ==> PassengerFieldValue(SetPassengerField(p, field, value), other) == PassengerFieldValue(p, other)
    ensures SetPassengerField(p, field, value).id == p.id && SetPassengerField(p, field, value).passengerType == p.passengerType
  {
  }

  predicate PassengerComplete(p: Passenger) {
    p.firstName != "" && p.lastName != "" && p.dateOfBirth != "" && p.passportNumber != ""
  }

  /** The Continue button of step 1 is enabled unless some passenger lacks a required field. */
  predicate PassengersComplete(ps: seq<Passenger>) {
    forall i | 0 <= i < |ps| :: PassengerComplete(ps[i])
  }

  predicate ContactComplete(c: Contact) {
    c.email != "" && c.phone != "" && c.address != ""
  }

  predicate PaymentComplete(p: Payment) {
    p.cardNumber != "" && p.expiryDate != "" && p.cvv != "" && p.cardholderName != ""
  }

  function SetContactField(c: Contact, field: ContactField, value: string): Contact {
    match field
    case Email => c.(email := value)
    case Phone => c.(phone := value)
    case Address => c.(address := value)
  }

  function SetPaymentField(p: Payment, field: PaymentField, value: string): Payment {
    match field
    case CardNumber => p.(cardNumber := value)
    case ExpiryDate => p.(expiryDate := value)
    case Cvv => p.(cvv := value)
    case CardholderName => p.(cardholderName := value)
  }

  /** The payload `handleBooking` hands to the confirmation page. */
  datatype BookingPayload = BookingPayload(
    flight: Flight, passengers: seq<Passenger>, contactInfo: Contact, paymentInfo: Payment,
    totalAmount: real, bookingDate: string)

  datatype Confirmation = Confirmation(bookingId: string, bookingData: BookingPayload)

  /** The booking page's state; the hand-off is fixed, the form changes step by step. */
  class BookingPage {
    const handoff: Option<Handoff>
    var passengers: seq<Passenger>
    var currentStep: int
    var contact: Contact
    var payment: Payment

    /**
     * The steps are 1 to 3; a later step is reached only with the earlier steps complete;
     * every passenger keeps the number it was created with.
     */
    predicate Valid()
      reads this
    {
      1 <= currentStep <= 3
      && (currentStep >= 2 ==> PassengersComplete(passengers))
      && (currentStep == 3 ==> ContactComplete(contact))
      && forall i | 0 <= i < |passengers| :: passengers[i].id == i + 1 && passengers[i].passengerType == "Adult"
    }

    /** The page as first shown, with the passenger list the initialising effect builds. */
    constructor (handoff: Option<Handoff>)
      ensures Valid() && this.handoff == handoff && currentStep == 1
      ensures passengers == if SearchOf(handoff).Some? && SearchOf(handoff).value.travellers != 0
                            then InitialPassengers(SearchOf(handoff).value.travellers) else []
      ensures contact == Contact("", "", "") && payment == Payment("", "", "", "")
    {
      this.handoff := handoff;
      var sp := SearchOf(handoff);
      passengers := if sp.Some? && sp.value.travellers != 0 then InitialPassengers(sp.value.travellers) else [];
      currentStep := 1;
      contact := Contact("", "", "");
      payment := Payment("", "", "", "");
    }

    function Pricing(): Pricing
      reads this
    {
      CalculateTotalPrice(FlightOf(handoff), SearchOf(handoff))
    }

    /** `handlePassengerChange(index, field, value)`, from the passenger form of step 1. */
    method PassengerChange(index: int, field: PassengerField, value: string)
      requires Valid() && currentStep == 1 && 0 <= index < |passengers|
      modifies this
      ensures Valid()
      ensures |passengers| == |old(passengers)|
      ensures passengers[index] == SetPassengerField(old(passengers)[index], field, value)
      ensures forall i | 0 <= i < |passengers| && i != index :: passengers[i] == old(passengers)[i]
      ensures currentStep == old(currentStep) && contact == old(contact) && payment == old(payment)
    {
      passengers := passengers[index := SetPassengerField(passengers[index], field, value)];
    }

    /** `handleContactChange(field, value)`, from the contact form of step 2. */
    method ContactChange(field: ContactField, value: string)
      requires Valid() && currentStep == 2
      modifies this
      ensures Valid() && contact == SetContactField(old(contact), field, value)
      ensures passengers == old(passengers) && currentStep == old(currentStep) && payment == old(payment)
    {
      contact := SetContactField(contact, field, value);
    }

    /** `handlePaymentChange(field, value)`, from the payment form of step 3. */
    method PaymentChange(field: PaymentField, value: string)
      requires Valid() && currentStep == 3
      modifies this
      ensures Valid() && payment == SetPaymentField(old(payment), field, value)
      ensures passengers == old(passengers) && currentStep == old(currentStep) && contact == old(contact)
    {
      payment := SetPaymentField(payment, field, value);
    }

    /** Continue on step 1: moves on only when every passenger is complete. */
    method ContinueToContact()
      requires Valid() && currentStep == 1
      modifies this
      ensures Valid()
      ensures currentStep == if PassengersComplete(passengers) then 2 else 1
      ensures passengers == old(passengers) && contact == old(contact) && payment == old(payment)
    {
      if PassengersComplete(passengers) {
        currentStep := 2;
      }
    }

    /** Continue on step 2: moves on only when the contact details are complete. */
    method ContinueToPayment()
      requires Valid() && currentStep == 2
      modifies this
      ensures Valid()
      ensures currentStep == if ContactComplete(contact) then 3 else 2
      ensures passengers == old(passengers) && contact == old(contact) && payment == old(payment)
    {
      if ContactComplete(contact) {
        currentStep := 3;
      }
    }

    /** Back, on step 2 or 3: always allowed. */
    method Back()
      requires Valid() && currentStep >= 2
      modifies this
      ensures Valid() && currentStep == old(currentStep) - 1
      ensures passengers == old(passengers) && contact == old(contact) && payment == old(payment)
    {
      currentStep := currentStep - 1;
    }

    /**
     * Confirm on step 3 (`handleBooking`): with complete payment details, the payload
     * for the confirmation page, its total being the page's price total; `now` is the
     * clock reading the booking id and date come from.
     */
    method Confirm(now: int, bookingDate: string) returns (r: Option<Confirmation>)
      requires Valid() && currentStep == 3 && ShowsForm(handoff)
      ensures r.Some? <==> PaymentComplete(payment)
      ensures r.Some? ==> r.value.bookingData.totalAmount == Pricing().total
      ensures r.Some? ==> r.value.bookingData.flight == FlightOf(handoff).value
      ensures r.Some? ==> r.value.bookingData.passengers == passengers && PassengersComplete(r.value.bookingData.passengers)
      ensures r.Some? ==> r.value.bookingData.contactInfo == contact && ContactComplete(r.value.bookingData.contactInfo)
      ensures r.Some? ==> r.value.bookingData.paymentInfo == payment && PaymentComplete(r.value.bookingData.paymentInfo)
      ensures r.Some? ==> r.value.bookingData.bookingDate == bookingDate
      ensures r.Some? ==> r.value.bookingId == "BK" + IntToString(now)
    {
      if !PaymentComplete(payment) {
        return None;
      }
      var payload := BookingPayload(FlightOf(handoff).value, passengers, contact, payment, Pricing().total, bookingDate);
      r := Some(Confirmation("BK" + IntToString(now), payload));
    }
  }
}
