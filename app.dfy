/**
 * The calculator component (dopc/src/App.tsx): its own field validator, the
 * form-validity check, the field update on every keystroke, and the
 * calculation that fetches the venue once, prices the order and stores the
 * result or a single failure message.
 */
module App {
  import opened Wrappers
  import opened JsNumber
  import opened Types
  import Pricing

  /** The checks of the component's validator, in the order they run. */
  datatype Check =
    | Required | CartNotANumber | CartNegative | CoordinatesNotNumeric
    | LatitudeOutOfRange | LongitudeOutOfRange

  /** Whether a check is asked at all for a field name. */
  predicate Applies(c: Check, name: string) {
    match c
    case Required => true
    case CartNotANumber | CartNegative => name == "cartValue"
    case CoordinatesNotNumeric => name == "userLat" || name == "userLong"
    case LatitudeOutOfRange => name == "userLat"
    case LongitudeOutOfRange => name == "userLong"
  }

  function Rank(c: Check): nat {
    match c
    case Required => 0
    case CartNotANumber => 1
    case CartNegative => 2
    case CoordinatesNotNumeric => 3
    case LatitudeOutOfRange => 4
    case LongitudeOutOfRange => 5
  }

  function Message(c: Check): string {
    match c
    case Required => "This field is required"
    case CartNotANumber => "Cart value must be a number"
    case CartNegative => "Cart value cannot be negative"
    case CoordinatesNotNumeric => "Coordinates must be numeric"
    case LatitudeOutOfRange => "Latitude must be between -90 and 90"
    case LongitudeOutOfRange => "Longitude must be between -180 and 180"
  }

  /** Whether a check objects to a value whose `Number(value)` is `number`. */
  predicate Fails(c: Check, value: string, number: Num) {
    match c
    case Required => value == ""
    case CartNotANumber | CoordinatesNotNumeric => number.NaN?
    case CartNegative => Less(number, 0.0)
    case LatitudeOutOfRange => Less(number, -90.0) || Greater(number, 90.0)
    case LongitudeOutOfRange => Less(number, -180.0) || Greater(number, 180.0)
  }

  lemma MessagesDistinct()
    ensures forall c, e :: Message(c) == Message(e) ==> c == e
  {
    forall c, e | c != e
      ensures Message(c) != Message(e)
    {
      var m, n := Message(c), Message(e);
      assert |m| > 11 && |n| > 11;
      assert m[0] != n[0] || m[1] != n[1] || m[11] != n[11];
    }
  }

  /**
   * The component's `validateField(name, value)`, where `number` is
   * `Number(value)`: the message of the first applicable failing check, or
   * the empty string.
   */
  function ValidateField(name: string, value: string, number: Num): (r: string)
    ensures r == "" <==> forall c :: Applies(c, name) ==> !Fails(c, value, number)
    ensures forall c :: Applies(c, name) ==>
      (r == Message(c) <==>
        Fails(c, value, number) &&
        forall e :: Applies(e, name) && Rank(e) < Rank(c) ==> !Fails(e, value, number))
  {
    MessagesDistinct();
    if value == "" then
      assert Fails(Required, value, number);
      "This field is required"
    else if name == "cartValue" && number.NaN? then
      assert Fails(CartNotANumber, value, number);
      "Cart value must be a number"
    else if name == "cartValue" && Less(number, 0.0) then
      assert Fails(CartNegative, value, number);
      "Cart value cannot be negative"
    else if (name == "userLat" || name == "userLong") && number.NaN? then
      assert Fails(CoordinatesNotNumeric, value, number);
      "Coordinates must be numeric"
    else if name == "userLat" && (Less(number, -90.0) || Greater(number, 90.0)) then
      assert Fails(LatitudeOutOfRange, value, number);
      "Latitude must be between -90 and 90"
    else if name == "userLong" && (Less(number, -180.0) || Greater(number, 180.0)) then
      assert Fails(LongitudeOutOfRange, value, number);
      "Longitude must be between -180 and 180"
    else
      ""
  }

  /** An empty value is refused the same way for every field name. */
  lemma EmptyValueRequired(name: string, number: Num)
    ensures ValidateField(name, "", number) == "This field is required"
  {
    assert Fails(Required, "", number);
  }

  /**
   * The names the input handlers pass on their second call, "latitude" and
   * "longitude", are asked no check beyond presence.
   */
  lemma HandlerNamesUnchecked(name: string, value: string, number: Num)
    requires name == "latitude" || name == "longitude"
    requires value != ""
    ensures ValidateField(name, value, number) == ""
  {
  }

  /** A cart value passes exactly when it is present and parses to a number that is not negative. */
  lemma CartValueAccepted(value: string, number: Num)
    ensures ValidateField("cartValue", value, number) == "" <==>
      value != "" && number.Val? && number.v >= 0.0
  {
    if ValidateField("cartValue", value, number) == "" {
      assert !Fails(Required, value, number) && !Fails(CartNotANumber, value, number);
      assert !Fails(CartNegative, value, number);
    }
  }

  /** A latitude passes exactly when it is present and parses to a number in [-90, 90]. */
  lemma LatitudeAccepted(value: string, number: Num)
    ensures ValidateField("userLat", value, number) == "" <==>
      value != "" && number.Val? && -90.0 <= number.v <= 90.0
  {
    if ValidateField("userLat", value, number) == "" {
      assert !Fails(Required, value, number) && !Fails(CoordinatesNotNumeric, value, number);
      assert !Fails(LatitudeOutOfRange, value, number);
    }
  }

  /** A longitude passes exactly when it is present and parses to a number in [-180, 180]. */
  lemma LongitudeAccepted(value: string, number: Num)
    ensures ValidateField("userLong", value, number) == "" <==>
      value != "" && number.Val? && -180.0 <= number.v <= 180.0
  {
    if ValidateField("userLong", value, number) == "" {
      assert !Fails(Required, value, number) && !Fails(CoordinatesNotNumeric, value, number);
      assert !Fails(LongitudeOutOfRange, value, number);
    }
  }

  /** `isFormValid()`: no stored error is set and all three fields are filled. */
  predicate FormValid(errors: map<string, string>, cartValue: string, userLat: string, userLong: string) {
    (forall key :: key in errors ==> errors[key] == "") &&
    cartValue != "" && userLat != "" && userLong != ""
  }

  /**
   * The stored error of a field is its validator's verdict on its current
   * value, and a field that has been typed into has a stored error.
   */
  predicate Tracks(errors: map<string, string>, field: string, value: string, number: Num) {
    (field in errors ==> errors[field] == ValidateField(field, value, number)) &&
    (value != "" ==> field in errors)
  }

  /** Storing a verdict under another name keeps a field's tracking. */
  lemma TracksOtherUpdate(errors: map<string, string>, field: string, error: string, f: string, v: string, n: Num)
    requires Tracks(errors, f, v, n) && field != f
    ensures Tracks(errors[field := error], f, v, n)
  {
  }

  /** Storing a field's verdict on its new value makes the field tracked. */
  lemma TracksOwnUpdate(errors: map<string, string>, f: string, v: string, n: Num)
    ensures Tracks(errors[f := ValidateField(f, v, n)], f, v, n)
  {
  }

  /**
   * When the errors track the fields and the form is valid, the three
   * fields hold numbers in their ranges: the calculation never sees NaN or
   * an out-of-range coordinate.
   */
  lemma SubmittedValuesUsable(errors: map<string, string>, cartValue: string, userLat: string, userLong: string,
                              cart: Num, lat: Num, long: Num)
    requires Tracks(errors, "cartValue", cartValue, cart)
    requires Tracks(errors, "userLat", userLat, lat)
    requires Tracks(errors, "userLong", userLong, long)
    requires FormValid(errors, cartValue, userLat, userLong)
    ensures cart.Val? && cart.v >= 0.0
    ensures lat.Val? && -90.0 <= lat.v <= 90.0
    ensures long.Val? && -180.0 <= long.v <= 180.0
  {
    CartValueAccepted(cartValue, cart);
    LatitudeAccepted(userLat, lat);
    LongitudeAccepted(userLong, long);
  }

  /** The message shown for every failed calculation, whatever failed. */
  const NotAvailableMessage := "Delivery is not available for this distance"

  /**
   * The result the calculation stores for a venue, a cart value in cents and
   * a delivery distance, or None when the pricing engine throws.
   */
  function Quote(venue: VenueData, cartValueInCents: int, deliveryDistance: int): (r: Option<CalculationResult>)
    ensures r.Some? <==> Pricing.CalculateDeliveryFee(deliveryDistance, venue.orderInfo.pricing).Success?
    ensures r.Some? ==>
      r.value.cartValue == cartValueInCents && r.value.deliveryDistance == deliveryDistance &&
      r.value.deliveryFee == Pricing.CalculateDeliveryFee(deliveryDistance, venue.orderInfo.pricing).value
    ensures r.Some? ==> r.value.totalPrice == r.value.cartValue + r.value.smallOrderSurcharge + r.value.deliveryFee
    ensures r.Some? ==> r.value.smallOrderSurcharge >= 0
    ensures r.Some? ==>
      r.value.cartValue + r.value.smallOrderSurcharge == Max(cartValueInCents, venue.orderInfo.orderMinimumNoSurcharge)
  {
    var surcharge := Pricing.CalculateSmallOrderSurcharge(cartValueInCents, venue.orderInfo.orderMinimumNoSurcharge);
    match Pricing.CalculateDeliveryFee(deliveryDistance, venue.orderInfo.pricing)
    case Failure(_) => None
    case Success(fee) =>
      Some(CalculationResult(cartValueInCents, surcharge, fee, deliveryDistance, cartValueInCents + surcharge + fee))
  }

  /**
   * An 8.50 EUR order 1500 m away, under the unit tests' schedule with a
   * 10 EUR minimum: 1.50 surcharge, 11.50 fee, 21.50 in all.
   */
  lemma QuoteExample()
    ensures var venue := VenueData(VenueLocation(24.9354, 60.1695), OrderInfo(1000, Pricing.TestSchedule));
      Quote(venue, 850, 1500) == Some(CalculationResult(850, 150, 1150, 1500, 2150)) &&
      Quote(venue, 850, 6000) == None
  {
    Pricing.TestScheduleExamples();
  }

  /** The component's state, with `Number(...)` fixed for its lifetime. */
  class Calculator {
    const toNumber: string -> Num
    var venueDetails: Option<VenueData>
    var cartValue: string
    var userLat: string
    var userLong: string
    var result: Option<CalculationResult>
    var errors: map<string, string>
    var calculationError: Option<string>

    ghost predicate Valid()
      reads this
    {
      Tracks(errors, "cartValue", cartValue, toNumber(cartValue)) &&
      Tracks(errors, "userLat", userLat, toNumber(userLat)) &&
      Tracks(errors, "userLong", userLong, toNumber(userLong))
    }

    /** The state of a freshly mounted component. */
    constructor (toNumber: string -> Num)
      ensures Valid()
      ensures this.toNumber == toNumber
      ensures venueDetails == None && result == None && calculationError == None
      ensures cartValue == "" && userLat == "" && userLong == "" && errors == map[]
    {
      this.toNumber := toNumber;
      venueDetails := None;
      cartValue, userLat, userLong := "", "", "";
      result := None;
      errors := map[];
      calculationError := None;
    }

    /** `isFormValid()`: walks the stored errors, stopping at the first one that is set. */
    method IsFormValid() returns (valid: bool)
      ensures valid == FormValid(errors, cartValue, userLat, userLong)
    {
      var unvisited := errors.Keys;
      while unvisited != {}
        invariant unvisited <= errors.Keys
        invariant forall key :: key in errors && key !in unvisited ==> errors[key] == ""
        decreases unvisited
      {
        var key :| key in unvisited;
        if errors[key] != "" {
          return false;
        }
        unvisited := unvisited - {key};
      }
      valid := cartValue != "" && userLat != "" && userLong != "";
    }

    /** `handleChange(field, value)`: stores the field's verdict and, for a known field, its value. */
    method HandleChange(field: string, value: string)
      requires Valid()
      modifies this
      ensures Valid()
      ensures errors == old(errors)[field := ValidateField(field, value, toNumber(value))]
      ensures cartValue == (if field == "cartValue" then value else old(cartValue))
      ensures userLat == (if field == "userLat" then value else old(userLat))
      ensures userLong == (if field == "userLong" then value else old(userLong))
      ensures venueDetails == old(venueDetails) && result == old(result)
      ensures calculationError == old(calculationError)
    {
      var error := ValidateField(field, value, toNumber(value));
      ghost var before := errors;
      errors := errors[field := error];
      if field == "cartValue" {
        cartValue := value;
        TracksOwnUpdate(before, field, value, toNumber(value));
      } else if field == "userLat" {
        userLat := value;
        TracksOwnUpdate(before, field, value, toNumber(value));
      } else if field == "userLong" {
        userLong := value;
        TracksOwnUpdate(before, field, value, toNumber(value));
      }
      if field != "cartValue" {
        TracksOtherUpdate(before, field, error, "cartValue", cartValue, toNumber(cartValue));
      }
      if field != "userLat" {
        TracksOtherUpdate(before, field, error, "userLat", userLat, toNumber(userLat));
      }
      if field != "userLong" {
        TracksOtherUpdate(before, field, error, "userLong", userLong, toNumber(userLong));
      }
    }

    /**
     * `calculationHandler()`, with `fetched` the outcome the venue fetch
     * (`fetchVenueDetails`) would give if asked (None for any fetch failure) and `distanceMeters`
     * the distance calculator. A valid form is priced with the cached venue,
     * or with the fetched one, which is then cached; any failure leaves no
     * result and the single failure message.
     */
    method CalculationHandler(fetched: Option<VenueData>, distanceMeters: (real, real, real, real) -> nat)
      requires Valid()
      modifies this
      ensures Valid()
      ensures cartValue == old(cartValue) && userLat == old(userLat) && userLong == old(userLong)
      ensures errors == old(errors)
      ensures !FormValid(errors, cartValue, userLat, userLong) ==>
        venueDetails == old(venueDetails) && result == old(result) && calculationError == old(calculationError)
      ensures FormValid(errors, cartValue, userLat, userLong) ==>
        toNumber(cartValue).Val? && toNumber(userLat).Val? && toNumber(userLong).Val?
      ensures FormValid(errors, cartValue, userLat, userLong) ==>
        venueDetails == (if old(venueDetails).Some? then old(venueDetails) else fetched)
      ensures FormValid(errors, cartValue, userLat, userLong) ==>
        result == (
          if venueDetails.None? then None
          else
            var venue := venueDetails.value;
            Quote(venue, Round(toNumber(cartValue).v * 100.0),
              distanceMeters(toNumber(userLat).v, toNumber(userLong).v, venue.location.latitude, venue.location.longitude)))
      ensures FormValid(errors, cartValue, userLat, userLong) ==>
        calculationError == (if result.None? then Some(NotAvailableMessage) else None)
    {
      var valid := IsFormValid();
      if !valid {
        return;
      }
      result := None;
      var venue: VenueData;
      if venueDetails.Some? {
        venue := venueDetails.value;
      } else if fetched.Some? {
        venue := fetched.value;
      } else {
        calculationError := Some(NotAvailableMessage);
        result := None;
        return;
      }
      SubmittedValuesUsable(errors, cartValue, userLat, userLong,
        toNumber(cartValue), toNumber(userLat), toNumber(userLong));
      var cartValueInCents := Round(toNumber(cartValue).v * 100.0);
      var userLatitude := toNumber(userLat).v;
      var userLongitude := toNumber(userLong).v;
      calculationError := None;
      if venueDetails.None? {
        venueDetails := Some(venue);
      }
      var smallOrderSurcharge := Pricing.CalculateSmallOrderSurcharge(cartValueInCents, venue.orderInfo.orderMinimumNoSurcharge);
      var deliveryDistance := distanceMeters(userLatitude, userLongitude, venue.location.latitude, venue.location.longitude);
      var deliveryFee := Pricing.CalculateDeliveryFee(deliveryDistance, venue.orderInfo.pricing);
      if deliveryFee.Failure? {
        calculationError := Some(NotAvailableMessage);
        result := None;
        assert Quote(venue, cartValueInCents, deliveryDistance) == None;
        return;
      }
      result := Some(CalculationResult(
        cartValueInCents, smallOrderSurcharge, deliveryFee.value, deliveryDistance,
        cartValueInCents + smallOrderSurcharge + deliveryFee.value));
      assert result == Quote(venue, cartValueInCents, deliveryDistance);
    }
  }

  /** The three keystroke sequences of the successful-calculation UI test, as field updates. */
  method TypeHelsinkiOrder(parse: string -> Num) returns (calculator: Calculator)
    requires parse("8.50") == Val(8.5) && parse("60.1695") == Val(60.1695) && parse("24.9354") == Val(24.9354)
    ensures fresh(calculator) && calculator.Valid() && calculator.toNumber == parse
    ensures calculator.cartValue == "8.50" && calculator.userLat == "60.1695" && calculator.userLong == "24.9354"
    ensures calculator.errors == map["cartValue" := "", "userLat" := "", "userLong" := ""]
    ensures calculator.venueDetails == None
  {
    CartValueAccepted("8.50", Val(8.5));
    LatitudeAccepted("60.1695", Val(60.1695));
    LongitudeAccepted("24.9354", Val(24.9354));
    calculator := new Calculator(parse);
    calculator.HandleChange("cartValue", "8.50");
    calculator.HandleChange("userLat", "60.1695");
    assert calculator.errors == map["cartValue" := "", "userLat" := ""];
    calculator.HandleChange("userLong", "24.9354");
  }

  /**
   * The venue the UI tests' fetch mock serves: longitude 24.93545, latitude
   * 60.16952, a 10 EUR minimum, a 2 EUR base price and one flat tier up to 5000 m.
   */
  const MockVenue := VenueData(VenueLocation(24.93545, 60.16952),
    OrderInfo(1000, DeliveryPricing(200, [DistanceRange(0, 5000, 0, 0)])))

  /** Any order of 8.50 EUR within 5000 m of the mock venue costs 1.50 + 2.00 on top of the cart. */
  lemma MockVenueQuote(deliveryDistance: nat)
    requires deliveryDistance < 5000
    ensures Quote(MockVenue, 850, deliveryDistance) ==
      Some(CalculationResult(850, 150, 200, deliveryDistance, 1200))
  {
    assert Pricing.Covers(MockVenue.orderInfo.pricing.distanceRanges[0], deliveryDistance);
  }

  /**
   * A session as the successful-calculation UI test drives it: three fields
   * typed in, then one press of the button with the mock venue fetched,
   * which prices the order and caches the venue. The distance calculator is
   * not part of this model; `deliveryDistance` is its result for the user's
   * and the venue's coordinates, a few meters apart, so below 5000.
   */
  method SuccessfulCalculationScenario(deliveryDistance: nat)
    returns (shown: Option<CalculationResult>, message: Option<string>)
    requires deliveryDistance < 5000
    ensures shown == Some(CalculationResult(850, 150, 200, deliveryDistance, 1200))
    ensures message == None
  {
    var parse := (s: string) =>
      if s == "8.50" then Val(8.5) else if s == "60.1695" then Val(60.1695)
      else if s == "24.9354" then Val(24.9354) else NaN;
    var calculator := TypeHelsinkiOrder(parse);
    assert FormValid(calculator.errors, calculator.cartValue, calculator.userLat, calculator.userLong);
    RoundUnique(8.5 * 100.0, 850);
    MockVenueQuote(deliveryDistance);
    calculator.CalculationHandler(Some(MockVenue), (a: real, b: real, c: real, d: real) => deliveryDistance);
    assert calculator.venueDetails == Some(MockVenue);
    shown, message := calculator.result, calculator.calculationError;
  }
}
