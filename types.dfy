/**
 * The record shapes shared by the pricing engine, the venue fetch
 * (`fetchVenueDetails`) and the calculator component. Money is in integer cents, distances in meters.
 */
module Types {

  /**
   * One tier of the distance fee schedule: it covers distances d with
   * min <= d < max; max == 0 marks a tier that never matches. `a` is a flat
   * add-on and `b` the charge in cents per 10 meters.
   */
  datatype DistanceRange = DistanceRange(min: int, max: int, a: int, b: int)

  /** The venue's fee schedule; the tiers are searched in stored order. */
  datatype DeliveryPricing = DeliveryPricing(basePrice: int, distanceRanges: seq<DistanceRange>)

  datatype VenueLocation = VenueLocation(longitude: real, latitude: real)

  datatype OrderInfo = OrderInfo(orderMinimumNoSurcharge: int, pricing: DeliveryPricing)

  /** Everything the calculator needs to know about the venue, fetched once. */
  datatype VenueData = VenueData(location: VenueLocation, orderInfo: OrderInfo)

  /** A quote as shown to the user; money in cents, distance in meters. */
  datatype CalculationResult = CalculationResult(
    cartValue: int,
    smallOrderSurcharge: int,
    deliveryFee: int,
    deliveryDistance: int,
    totalPrice: int)
}
