/**
 * The second copy of the pricing engine (dopc/src/utils/pricing.ts). It has
 * its own search and throws its own error class; the lemma at the end shows
 * that it agrees with the engine in module Pricing on every input.
 */
module UtilsPricing {
  import opened Wrappers
  import opened JsNumber
  import opened Types
  import Pricing

  /** The class thrown when no tier covers the distance; it carries no message. */
  datatype DeliveryFeeCalculationError = DeliveryFeeCalculationError

  /** `Math.max(0, orderMinimumNoSurcharge - cartValue)`, as in the domain engine. */
  function CalculateSmallOrderSurcharge(cartValue: int, orderMinimumNoSurcharge: int): (r: int)
    ensures r >= 0
    ensures r == Pricing.CalculateSmallOrderSurcharge(cartValue, orderMinimumNoSurcharge)
  {
    Max(0, orderMinimumNoSurcharge - cartValue)
  }

  /** `distanceRanges.find(...)` over the tiers, returning the tier itself. */
  function Find(ranges: seq<DistanceRange>, distanceInMeters: int): (r: Option<DistanceRange>)
    ensures r.Some? ==> r.value in ranges
    ensures r.Some? ==> distanceInMeters >= r.value.min && r.value.max != 0 && distanceInMeters < r.value.max
    ensures r.None? <==> forall j :: 0 <= j < |ranges| ==>
      !(distanceInMeters >= ranges[j].min && ranges[j].max != 0 && distanceInMeters < ranges[j].max)
  {
    if |ranges| == 0 then None
    else
      var range := ranges[0];
      if distanceInMeters >= range.min && (range.max != 0 && distanceInMeters < range.max) then Some(range)
      else Find(ranges[1..], distanceInMeters)
  }

  /** The error type has the single value `DeliveryFeeCalculationError`, so a failure says only that it failed. */
  function CalculateDeliveryFee(distanceInMeters: int, pricing: DeliveryPricing): (r: Result<int, DeliveryFeeCalculationError>)
    ensures r.Failure? <==> forall j :: 0 <= j < |pricing.distanceRanges| ==>
      !(distanceInMeters >= pricing.distanceRanges[j].min && pricing.distanceRanges[j].max != 0
        && distanceInMeters < pricing.distanceRanges[j].max)
  {
    match Find(pricing.distanceRanges, distanceInMeters)
    case None => Failure(DeliveryFeeCalculationError)
    case Some(range) => Success(pricing.basePrice + range.a + Pricing.RoundTenth(range.b * distanceInMeters))
  }

  /** This search finds the same tier as the domain engine's. */
  lemma {:induction false} FindAgrees(ranges: seq<DistanceRange>, distanceInMeters: int)
    ensures Find(ranges, distanceInMeters) == Pricing.FindRange(ranges, distanceInMeters)
  {
    if |ranges| > 0 && !Pricing.Covers(ranges[0], distanceInMeters) {
      FindAgrees(ranges[1..], distanceInMeters);
      var tail := Pricing.FirstCovering(ranges[1..], distanceInMeters);
      assert tail.Some? ==> ranges[1..][tail.value] == ranges[tail.value + 1];
    }
  }

  /**
   * Both engines succeed on the same inputs with the same fee, and fail on the
   * same inputs, differing only in the error they raise.
   */
  lemma AgreesWithDomain(distanceInMeters: int, pricing: DeliveryPricing)
    ensures CalculateDeliveryFee(distanceInMeters, pricing).Success? <==>
      Pricing.CalculateDeliveryFee(distanceInMeters, pricing).Success?
    ensures CalculateDeliveryFee(distanceInMeters, pricing).Success? ==>
      CalculateDeliveryFee(distanceInMeters, pricing).value == Pricing.CalculateDeliveryFee(distanceInMeters, pricing).value
  {
    FindAgrees(pricing.distanceRanges, distanceInMeters);
  }
}
