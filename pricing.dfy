/**
 * The pricing engine: the small-order surcharge and the distance-tiered
 * delivery fee (dopc/src/domain/pricing.ts).
 */
module Pricing {
  import opened Wrappers
  import opened JsNumber
  import opened Types

  /** The error `calculateDeliveryFee` throws when no tier covers the distance. */
  datatype FeeError = DeliveryNotPossible(message: string)

  const NotPossibleMessage := "Delivery not possible for this distance"

  /** `Math.max(0, orderMinimumNoSurcharge - cartValue)`. */
  function CalculateSmallOrderSurcharge(cartValue: int, orderMinimumNoSurcharge: int): (r: int)
    ensures r >= 0
    ensures r == 0 <==> cartValue >= orderMinimumNoSurcharge
    ensures cartValue < orderMinimumNoSurcharge ==> r == orderMinimumNoSurcharge - cartValue
    ensures cartValue + r == Max(cartValue, orderMinimumNoSurcharge)
  {
    Max(0, orderMinimumNoSurcharge - cartValue)
  }

  /** The predicate handed to `Array.find`: the tier covers the distance. */
  predicate Covers(range: DistanceRange, distanceInMeters: int) {
    distanceInMeters >= range.min && range.max != 0 && distanceInMeters < range.max
  }

  /** The position `Array.find` stops at: the first tier that covers the distance. */
  function FirstCovering(ranges: seq<DistanceRange>, distanceInMeters: int): (r: Option<nat>)
    ensures r.Some? ==> r.value < |ranges| && Covers(ranges[r.value], distanceInMeters)
    ensures r.Some? ==> forall j :: 0 <= j < r.value ==> !Covers(ranges[j], distanceInMeters)
    ensures r.None? <==> forall j :: 0 <= j < |ranges| ==> !Covers(ranges[j], distanceInMeters)
  {
    if |ranges| == 0 then None
    else if Covers(ranges[0], distanceInMeters) then Some(0)
    else match FirstCovering(ranges[1..], distanceInMeters)
      case None => None
      case Some(i) => Some(i + 1)
  }

  /** `Array.find`: the first covering tier itself, or undefined. */
  function FindRange(ranges: seq<DistanceRange>, distanceInMeters: int): (r: Option<DistanceRange>)
    ensures r.Some? ==> r.value in ranges && Covers(r.value, distanceInMeters)
    ensures r.None? <==> forall j :: 0 <= j < |ranges| ==> !Covers(ranges[j], distanceInMeters)
    ensures r.Some? ==> r.value == ranges[FirstCovering(ranges, distanceInMeters).value]
  {
    match FirstCovering(ranges, distanceInMeters)
    case None => None
    case Some(i) => Some(ranges[i])
  }

  /**
   * `Math.round(b * d / 10)` on integers: (n + 5) / 10 with floor division,
   * which the contract shows is Math.round of the exact quotient n / 10.
   */
  function RoundTenth(n: int): (r: int)
    ensures r == Round(n as real / 10.0)
  {
    var q := (n + 5) / 10;
    RoundTenthBounds(n, q);
    RoundUnique(n as real / 10.0, q);
    q
  }

  lemma RoundTenthBounds(n: int, q: int)
    requires q == (n + 5) / 10
    ensures q as real - 0.5 <= n as real / 10.0 < q as real + 0.5
  {
    var m := (n + 5) % 10;
    assert n + 5 == 10 * q + m && 0 <= m < 10;
    assert n as real / 10.0 == q as real + (m - 5) as real / 10.0;
  }

  /** The fee for a distance: the first covering tier's price, or the error. */
  function CalculateDeliveryFee(distanceInMeters: int, pricing: DeliveryPricing): (r: Result<int, FeeError>)
    ensures r.Failure? <==>
      forall j :: 0 <= j < |pricing.distanceRanges| ==> !Covers(pricing.distanceRanges[j], distanceInMeters)
    ensures r.Failure? ==> r.error == DeliveryNotPossible(NotPossibleMessage)
    ensures r.Success? ==>
      var range := pricing.distanceRanges[FirstCovering(pricing.distanceRanges, distanceInMeters).value];
      r.value == pricing.basePrice + range.a + Round((range.b * distanceInMeters) as real / 10.0)
  {
    match FindRange(pricing.distanceRanges, distanceInMeters)
    case None => Failure(DeliveryNotPossible(NotPossibleMessage))
    case Some(range) => Success(pricing.basePrice + range.a + RoundTenth(range.b * distanceInMeters))
  }

  /** A tier is chosen only if no earlier tier covers the distance too. */
  lemma EarlierTierWins(pricing: DeliveryPricing, distanceInMeters: int, i: nat, j: nat)
    requires i < j < |pricing.distanceRanges|
    requires Covers(pricing.distanceRanges[i], distanceInMeters)
    ensures FirstCovering(pricing.distanceRanges, distanceInMeters) != Some(j)
    ensures CalculateDeliveryFee(distanceInMeters, pricing).Success?
  {
  }

  /** A tier whose upper bound is the sentinel 0 is never chosen, whatever its lower bound. */
  lemma SentinelTierNeverChosen(pricing: DeliveryPricing, distanceInMeters: int, i: nat)
    requires i < |pricing.distanceRanges| && pricing.distanceRanges[i].max == 0
    ensures FirstCovering(pricing.distanceRanges, distanceInMeters) != Some(i)
  {
  }

  /** With a non-negative per-10-meter charge, the fee covers the base price and the tier's add-on. */
  lemma FeeAtLeastBaseAndAddOn(pricing: DeliveryPricing, distanceInMeters: int)
    requires distanceInMeters >= 0
    requires CalculateDeliveryFee(distanceInMeters, pricing).Success?
    requires pricing.distanceRanges[FirstCovering(pricing.distanceRanges, distanceInMeters).value].b >= 0
    ensures CalculateDeliveryFee(distanceInMeters, pricing).value >=
      pricing.basePrice + pricing.distanceRanges[FirstCovering(pricing.distanceRanges, distanceInMeters).value].a
  {
    var range := pricing.distanceRanges[FirstCovering(pricing.distanceRanges, distanceInMeters).value];
    assert range.b * distanceInMeters >= 0;
  }

  /** The fee schedule of the unit tests: 0-1000 m, 1000-5000 m, and a closed tier from 5000 m. */
  const TestSchedule := DeliveryPricing(200, [
    DistanceRange(0, 1000, 100, 10),
    DistanceRange(1000, 5000, 200, 5),
    DistanceRange(5000, 0, 0, 0)])

  /** The unit tests' expectations, and the two tier boundaries of the same schedule. */
  lemma TestScheduleExamples()
    ensures CalculateDeliveryFee(1500, TestSchedule) == Success(200 + 200 + 750)
    ensures CalculateDeliveryFee(6000, TestSchedule) == Failure(DeliveryNotPossible(NotPossibleMessage))
    ensures CalculateDeliveryFee(999, TestSchedule) == Success(200 + 100 + 999)
    ensures CalculateDeliveryFee(5000, TestSchedule).Failure?
    ensures CalculateSmallOrderSurcharge(800, 1000) == 200
    ensures CalculateSmallOrderSurcharge(1000, 1000) == 0
    ensures CalculateSmallOrderSurcharge(1200, 1000) == 0
  {
  }
}
