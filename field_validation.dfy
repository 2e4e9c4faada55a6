/**
 * The per-field validator (dopc/src/utils/validation.ts): string checks on
 * one form field, returning the first message that applies or null.
 */
module FieldValidation {
  import opened Wrappers
  import opened JsNumber

  predicate IsDigit(ch: char) {
    '0' <= ch <= '9'
  }

  predicate AllDigits(s: string) {
    forall i :: 0 <= i < |s| ==> IsDigit(s[i])
  }

  /**
   * The language of `^\d+(\.\d{1,2})?$`, read off the pattern: a non-empty
   * run of digits, optionally followed by a point and one or two digits.
   */
  ghost predicate MatchesPattern(s: string) {
    exists i :: 1 <= i <= |s| && AllDigits(s[..i]) &&
      (i == |s| || (s[i] == '.' && 2 <= |s| - i <= 3 && AllDigits(s[i + 1..])))
  }

  /** The length of the longest run of digits at the start of s. */
  function LeadingDigits(s: string): (n: nat)
    ensures n <= |s| && AllDigits(s[..n])
    ensures n < |s| ==> !IsDigit(s[n])
  {
    if |s| == 0 || !IsDigit(s[0]) then 0
    else
      var n := 1 + LeadingDigits(s[1..]);
      assert s[..n] == [s[0]] + s[1..][..n - 1];
      n
  }

  /** `/^\d+(\.\d{1,2})?$/.test(s)`: the greedy digit run, then an optional short fraction. */
  predicate HasAtMostTwoDecimals(s: string) {
    var n := LeadingDigits(s);
    n >= 1 && (n == |s| || (s[n] == '.' && 2 <= |s| - n <= 3 && AllDigits(s[n + 1..])))
  }

  /** The greedy matcher accepts exactly the pattern's language. */
  lemma HasAtMostTwoDecimalsMatchesPattern(s: string)
    ensures HasAtMostTwoDecimals(s) <==> MatchesPattern(s)
  {
    var n := LeadingDigits(s);
    if MatchesPattern(s) {
      var i :| 1 <= i <= |s| && AllDigits(s[..i]) &&
        (i == |s| || (s[i] == '.' && 2 <= |s| - i <= 3 && AllDigits(s[i + 1..])));
      assert i == n;
    }
  }

  /** The checks of the three fields, each with the field it belongs to. */
  datatype Check =
    | CartRequired | CartNotANumber | CartNegative | CartDecimals
    | LatitudeRequired | LatitudeNotNumeric | LatitudeOutOfRange
    | LongitudeRequired | LongitudeNotNumeric | LongitudeOutOfRange

  function FieldOf(c: Check): string {
    match c
    case CartRequired | CartNotANumber | CartNegative | CartDecimals => "cartValue"
    case LatitudeRequired | LatitudeNotNumeric | LatitudeOutOfRange => "userLat"
    case LongitudeRequired | LongitudeNotNumeric | LongitudeOutOfRange => "userLong"
  }

  /** The order in which the checks run; only checks of the same field are ever compared. */
  function Rank(c: Check): nat {
    match c
    case CartRequired => 0
    case CartNotANumber => 1
    case CartNegative => 2
    case CartDecimals => 3
    case LatitudeRequired => 0
    case LatitudeNotNumeric => 1
    case LatitudeOutOfRange => 2
    case LongitudeRequired => 0
    case LongitudeNotNumeric => 1
    case LongitudeOutOfRange => 2
  }

  function Message(c: Check): string {
    match c
    case CartRequired => "Cart value is required"
    case CartNotANumber => "Cart value must be a number"
    case CartNegative => "Cart value cannot be negative"
    case CartDecimals => "Cart value must have at most two decimals"
    case LatitudeRequired => "Latitude is required"
    case LatitudeNotNumeric => "Latitude must be numeric"
    case LatitudeOutOfRange => "Latitude must be between -90 and 90"
    case LongitudeRequired => "Longitude is required"
    case LongitudeNotNumeric => "Longitude must be numeric"
    case LongitudeOutOfRange => "Longitude must be between -180 and 180"
  }

  /** Whether a check objects to a value whose `Number(value)` is `number`. */
  predicate Fails(c: Check, value: string, number: Num) {
    match c
    case CartRequired => value == ""
    case CartNotANumber => number.NaN?
    case CartNegative => Less(number, 0.0)
    case CartDecimals => !HasAtMostTwoDecimals(value)
    case LatitudeRequired => value == ""
    case LatitudeNotNumeric => number.NaN?
    case LatitudeOutOfRange => Less(number, -90.0) || Greater(number, 90.0)
    case LongitudeRequired => value == ""
    case LongitudeNotNumeric => number.NaN?
    case LongitudeOutOfRange => Less(number, -180.0) || Greater(number, 180.0)
  }

  /**
   * Recovers the check from its message, reading a few characters where the
   * messages differ (every message is at least 20 characters long).
   */
  function CheckOf(m: string): Check {
    if |m| < 19 then CartRequired
    // 'C'art value ... versus 'L'atitude / 'L'ongitude ...
    else if m[0] == 'C' then
      // "Cart value 'i's required" versus "Cart value 'c'annot be negative"
      // versus "Cart value 'm'ust ..."
      if m[11] == 'i' then CartRequired
      else if m[11] == 'c' then CartNegative
      // "Cart value must 'b'e a number" versus "Cart value must 'h'ave at most two decimals"
      else if m[16] == 'b' then CartNotANumber
      else CartDecimals
    // "L'a'titude ..." versus "L'o'ngitude ..."
    else if m[1] == 'a' then
      // "Latitude 'i's required" versus "Latitude 'm'ust ..."
      if m[9] == 'i' then LatitudeRequired
      // "Latitude must be 'n'umeric" versus "Latitude must be 'b'etween -90 and 90"
      else if m[17] == 'n' then LatitudeNotNumeric
      else LatitudeOutOfRange
    else
      // "Longitude 'i's required" versus "Longitude 'm'ust ..."
      if m[10] == 'i' then LongitudeRequired
      // "Longitude must be 'n'umeric" versus "Longitude must be 'b'etween -180 and 180"
      else if m[18] == 'n' then LongitudeNotNumeric
      else LongitudeOutOfRange
  }

  /** No two checks share a message, so a message names the check that produced it. */
  lemma MessagesDistinct()
    ensures forall c, e :: Message(c) == Message(e) ==> c == e
  {
    forall c
      ensures CheckOf(Message(c)) == c
    {
      CheckOfMessage(c);
    }
  }

  lemma CheckOfMessage(c: Check)
    ensures CheckOf(Message(c)) == c
  {
    match c
    case CartRequired =>
    case CartNotANumber =>
    case CartNegative =>
    case CartDecimals =>
    case LatitudeRequired =>
    case LatitudeNotNumeric =>
    case LatitudeOutOfRange =>
    case LongitudeRequired =>
    case LongitudeNotNumeric =>
    case LongitudeOutOfRange =>
  }

  /**
   * `validateField(name, value)`, where `number` is `Number(value)`: the
   * message of the first failing check of the named field, or null.
   */
  function ValidateField(name: string, value: string, number: Num): (r: Option<string>)
    ensures r.None? <==> forall c :: FieldOf(c) == name ==> !Fails(c, value, number)
    ensures forall c :: FieldOf(c) == name ==>
      (r == Some(Message(c)) <==>
        Fails(c, value, number) &&
        forall e :: FieldOf(e) == name && Rank(e) < Rank(c) ==> !Fails(e, value, number))
  {
    MessagesDistinct();
    if name == "cartValue" && value == "" then
      assert Fails(CartRequired, value, number);
      Some("Cart value is required")
    else if name == "cartValue" && number.NaN? then
      assert Fails(CartNotANumber, value, number);
      Some("Cart value must be a number")
    else if name == "cartValue" && Less(number, 0.0) then
      assert Fails(CartNegative, value, number);
      Some("Cart value cannot be negative")
    else if name == "cartValue" && !HasAtMostTwoDecimals(value) then
      assert Fails(CartDecimals, value, number);
      Some("Cart value must have at most two decimals")
    else if name == "userLat" && value == "" then
      assert Fails(LatitudeRequired, value, number);
      Some("Latitude is required")
    else if name == "userLat" && number.NaN? then
      assert Fails(LatitudeNotNumeric, value, number);
      Some("Latitude must be numeric")
    else if name == "userLat" && (Less(number, -90.0) || Greater(number, 90.0)) then
      assert Fails(LatitudeOutOfRange, value, number);
      Some("Latitude must be between -90 and 90")
    else if name == "userLong" && value == "" then
      assert Fails(LongitudeRequired, value, number);
      Some("Longitude is required")
    else if name == "userLong" && number.NaN? then
      assert Fails(LongitudeNotNumeric, value, number);
      Some("Longitude must be numeric")
    else if name == "userLong" && (Less(number, -180.0) || Greater(number, 180.0)) then
      assert Fails(LongitudeOutOfRange, value, number);
      Some("Longitude must be between -180 and 180")
    else
      None
  }

  /**
   * A cart value passes exactly when it is non-empty, parses to a number
   * that is not negative, and has the shape of the two-decimals pattern.
   */
  lemma CartValueAccepted(value: string, number: Num)
    ensures ValidateField("cartValue", value, number).None? <==>
      value != "" && number.Val? && number.v >= 0.0 && MatchesPattern(value)
  {
    HasAtMostTwoDecimalsMatchesPattern(value);
    if ValidateField("cartValue", value, number).None? {
      assert !Fails(CartRequired, value, number) && !Fails(CartNotANumber, value, number);
      assert !Fails(CartNegative, value, number) && !Fails(CartDecimals, value, number);
    }
  }

  /** A latitude passes exactly when it parses to a number in [-90, 90]. */
  lemma LatitudeAccepted(value: string, number: Num)
    ensures ValidateField("userLat", value, number).None? <==>
      value != "" && number.Val? && -90.0 <= number.v <= 90.0
  {
    if ValidateField("userLat", value, number).None? {
      assert !Fails(LatitudeRequired, value, number) && !Fails(LatitudeNotNumeric, value, number);
      assert !Fails(LatitudeOutOfRange, value, number);
    }
  }

  /** A longitude passes exactly when it parses to a number in [-180, 180]. */
  lemma LongitudeAccepted(value: string, number: Num)
    ensures ValidateField("userLong", value, number).None? <==>
      value != "" && number.Val? && -180.0 <= number.v <= 180.0
  {
    if ValidateField("userLong", value, number).None? {
      assert !Fails(LongitudeRequired, value, number) && !Fails(LongitudeNotNumeric, value, number);
      assert !Fails(LongitudeOutOfRange, value, number);
    }
  }

  /** A field name the validator does not know is never objected to. */
  lemma UnknownFieldAccepted(name: string, value: string, number: Num)
    requires name != "cartValue" && name != "userLat" && name != "userLong"
    ensures ValidateField(name, value, number) == None
  {
  }

  /** An empty cart value is reported as missing before anything is parsed. */
  lemma EmptyCartReportedFirst(number: Num)
    ensures ValidateField("cartValue", "", number) == Some("Cart value is required")
  {
    assert Fails(CartRequired, "", number);
  }

  /** A negative cart value is reported as negative even when its decimals are wrong too. */
  lemma NegativeBeforeDecimals(value: string, x: real)
    requires value != "" && x < 0.0
    ensures ValidateField("cartValue", value, Val(x)) == Some("Cart value cannot be negative")
  {
    assert Fails(CartNegative, value, Val(x));
  }

  /** Numbers the parser accepts but the pattern does not are refused for their decimals. */
  lemma DecimalExamples()
    ensures ValidateField("cartValue", "1.234", Val(1.234)) == Some("Cart value must have at most two decimals")
    ensures ValidateField("cartValue", "1e3", Val(1000.0)) == Some("Cart value must have at most two decimals")
  {
    assert LeadingDigits("1.234") == 1 by {
      assert LeadingDigits("1.234"[1..]) == 0;
    }
    assert LeadingDigits("1e3") == 1 by {
      assert LeadingDigits("1e3"[1..]) == 0;
    }
    assert Fails(CartDecimals, "1.234", Val(1.234));
    assert Fails(CartDecimals, "1e3", Val(1000.0));
  }

  /** Cart values with no fraction or a two-digit fraction pass. */
  lemma AcceptedCartExamples()
    ensures ValidateField("cartValue", "8.50", Val(8.5)) == None
    ensures ValidateField("cartValue", "10", Val(10.0)) == None
  {
    assert LeadingDigits("8.50") == 1 by {
      assert LeadingDigits("8.50"[1..]) == 0;
    }
    assert LeadingDigits("10") == 2 by {
      assert LeadingDigits("10"[1..]) == 1 by {
        assert LeadingDigits("10"[1..][1..]) == 0;
      }
    }
    assert HasAtMostTwoDecimals("8.50") && HasAtMostTwoDecimals("10");
  }
}
