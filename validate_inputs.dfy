/**
 * The holistic input validator (dopc/src/domain/validateInputs.ts): an
 * ordered cascade of checks on the parsed cart value and coordinates, the
 * first failing check deciding the message.
 */
module ValidateInputs {
  import opened JsNumber

  /** `{ ok: true } | { ok: false; message: string }`. */
  datatype ValidationResult = Ok | NotOk(message: string)

  /** The checks of the cascade, in the order they run. */
  datatype Check = NotANumber | Unfilled | CartNotPositive | LatitudeOutOfRange | LongitudeOutOfRange

  function Rank(c: Check): nat {
    match c
    case NotANumber => 0
    case Unfilled => 1
    case CartNotPositive => 2
    case LatitudeOutOfRange => 3
    case LongitudeOutOfRange => 4
  }

  function Message(c: Check): string {
    match c
    case NotANumber => "Invalid input"
    case Unfilled => "Please fill in all fields"
    case CartNotPositive => "Cart value must be positive"
    case LatitudeOutOfRange => "Latitude must be between -90 and 90"
    case LongitudeOutOfRange => "Longitude must be between -180 and 180"
  }

  /** Whether a check objects to the inputs, comparisons following JavaScript (NaN compares false). */
  predicate Fails(c: Check, cartValue: Num, latitude: Num, longitude: Num) {
    match c
    case NotANumber => cartValue.NaN? || latitude.NaN? || longitude.NaN?
    case Unfilled => Equals(cartValue, 0.0) || Equals(latitude, 0.0) || Equals(longitude, 0.0)
    case CartNotPositive => AtMost(cartValue, 0.0)
    case LatitudeOutOfRange => Less(latitude, -90.0) || Greater(latitude, 90.0)
    case LongitudeOutOfRange => Less(longitude, -180.0) || Greater(longitude, 180.0)
  }

  /** No two checks share a message, so a message names the check that produced it. */
  lemma MessagesDistinct()
    ensures forall c, e :: Message(c) == Message(e) ==> c == e
  {
    forall c, e | c != e
      ensures Message(c) != Message(e)
    {
      var m, n := Message(c), Message(e);
      assert |m| > 1 && |n| > 1;
      assert m[0] != n[0] || m[1] != n[1];
    }
  }

  function ValidateInputs(cartValue: Num, latitude: Num, longitude: Num): (r: ValidationResult)
    ensures r.Ok? <==> forall c :: !Fails(c, cartValue, latitude, longitude)
    ensures forall c :: r == NotOk(Message(c)) <==>
      Fails(c, cartValue, latitude, longitude) &&
      forall e :: Rank(e) < Rank(c) ==> !Fails(e, cartValue, latitude, longitude)
  {
    MessagesDistinct();
    if cartValue.NaN? || latitude.NaN? || longitude.NaN? then
      assert Fails(NotANumber, cartValue, latitude, longitude);
      NotOk("Invalid input")
    else if Equals(cartValue, 0.0) || Equals(latitude, 0.0) || Equals(longitude, 0.0) then
      assert Fails(Unfilled, cartValue, latitude, longitude);
      NotOk("Please fill in all fields")
    else if AtMost(cartValue, 0.0) then
      assert Fails(CartNotPositive, cartValue, latitude, longitude);
      NotOk("Cart value must be positive")
    else if Less(latitude, -90.0) || Greater(latitude, 90.0) then
      assert Fails(LatitudeOutOfRange, cartValue, latitude, longitude);
      NotOk("Latitude must be between -90 and 90")
    else if Less(longitude, -180.0) || Greater(longitude, 180.0) then
      assert Fails(LongitudeOutOfRange, cartValue, latitude, longitude);
      NotOk("Longitude must be between -180 and 180")
    else
      Ok
  }

  /**
   * The cascade accepts exactly the inputs that are numbers, none of them
   * zero, with a positive cart value and both coordinates within their
   * inclusive ranges.
   */
  lemma AcceptedExactly(cartValue: Num, latitude: Num, longitude: Num)
    ensures ValidateInputs(cartValue, latitude, longitude).Ok? <==>
      cartValue.Val? && latitude.Val? && longitude.Val? &&
      cartValue.v > 0.0 &&
      latitude.v != 0.0 && -90.0 <= latitude.v <= 90.0 &&
      longitude.v != 0.0 && -180.0 <= longitude.v <= 180.0
  {
    if ValidateInputs(cartValue, latitude, longitude).Ok? {
      assert !Fails(NotANumber, cartValue, latitude, longitude);
      assert !Fails(Unfilled, cartValue, latitude, longitude);
      assert !Fails(CartNotPositive, cartValue, latitude, longitude);
      assert !Fails(LatitudeOutOfRange, cartValue, latitude, longitude);
      assert !Fails(LongitudeOutOfRange, cartValue, latitude, longitude);
    }
  }

  /** A NaN anywhere is reported as such, whatever else is wrong with the inputs. */
  lemma NotANumberFirst(cartValue: Num, latitude: Num, longitude: Num)
    requires cartValue.NaN? || latitude.NaN? || longitude.NaN?
    ensures ValidateInputs(cartValue, latitude, longitude) == NotOk("Invalid input")
  {
    assert Fails(NotANumber, cartValue, latitude, longitude);
  }

  /**
   * A zero coordinate counts as an unfilled field: the equator and the prime
   * meridian are refused with the fill-in message.
   */
  lemma ZeroCoordinateUnfilled(cartValue: real, latitude: real, longitude: real)
    requires latitude == 0.0 || longitude == 0.0
    ensures ValidateInputs(Val(cartValue), Val(latitude), Val(longitude)) == NotOk("Please fill in all fields")
  {
    assert Fails(Unfilled, Val(cartValue), Val(latitude), Val(longitude));
  }

  /** A non-positive cart beats an out-of-range latitude: the first failing check wins. */
  lemma CartCheckedBeforeLatitude(cartValue: real, latitude: real, longitude: real)
    requires cartValue < 0.0 && (latitude < -90.0 || latitude > 90.0) && longitude != 0.0
    ensures ValidateInputs(Val(cartValue), Val(latitude), Val(longitude)) == NotOk("Cart value must be positive")
  {
    assert Fails(CartNotPositive, Val(cartValue), Val(latitude), Val(longitude));
  }

  /** The worked examples: a valid Helsinki order, a latitude of 100, a negative cart. */
  lemma Examples()
    ensures ValidateInputs(Val(850.0), Val(60.1695), Val(24.9354)) == Ok
    ensures ValidateInputs(Val(500.0), Val(100.0), Val(20.0)) == NotOk("Latitude must be between -90 and 90")
    ensures ValidateInputs(Val(-1000.0), Val(60.0), Val(25.0)) == NotOk("Cart value must be positive")
    ensures ValidateInputs(Val(5.0), Val(90.0), Val(-180.0)) == Ok
  {
  }
}
