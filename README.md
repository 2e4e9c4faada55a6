# Delivery Order Price Calculator — a Dafny model

This project models the core of a delivery-price calculator for one venue.
A user types a cart value in euros and their coordinates. The calculator
validates the fields, fetches the venue's location and pricing once, and
computes three amounts in integer cents: a small-order surcharge, a
distance-tiered delivery fee, and the total.

Modules, one per source file:

- `Types` (`types.dfy`): the record shapes from `dopc/src/types/index.ts`.
  `dopc/src/domain/pricing.ts` declares `DistanceRange` and `DeliveryPricing`
  again with the same fields, so both pricing modules share these.
- `Wrappers`, `JsNumber`: `Option`/`Result`; JavaScript numbers as
  `NaN | Val(real)`, comparisons that are false on NaN, and `Math.round`
  (nearest integer, ties toward +∞).
- `Pricing` (`dopc/src/domain/pricing.ts`): the surcharge
  `max(0, minimum − cart)`, the first-match search over the distance tiers
  (`min ≤ d < max`, where `max = 0` never matches), and the fee
  `basePrice + a + round(b·d/10)`. The rounding is computed as
  `(b·d + 5) / 10` with floor division, and `RoundTenth` proves this equals
  `Math.round` of the exact quotient. `Math.round` of the double quotient
  `b·d/10` is the same integer. At a tie `k.5` the double quotient is exact.
  Away from a tie, the exact quotient is at least 0.1 from the nearest `.5`,
  and the double's error is far smaller while `|b·d|` stays below about 2^49.
- `UtilsPricing` (`dopc/src/utils/pricing.ts`): the duplicate engine with its
  own search and its own error class. It is proved to agree with `Pricing` on
  every input.
- `ValidateInputs` (`dopc/src/domain/validateInputs.ts`): the five-step
  cascade. The contract names the checks, their order and their messages, and
  says that the result is the message of the first failing check.
- `FieldValidation` (`dopc/src/utils/validation.ts`): per-field string checks.
  The regex `^\d+(\.\d{1,2})?$` becomes a greedy matcher, proved equal to the
  language the pattern describes.
- `App` (`dopc/src/App.tsx`): the component's own `validateField`, and
  `isFormValid` as a loop over the stored errors. It has a `Calculator` class
  holding the component state. `HandleChange` updates one field and its
  error. `CalculationHandler` fetches the venue only when nothing is cached,
  prices the order, and stores either the result or the single failure
  message. The class invariant says each stored error is the validator's
  verdict on the field's current value. With it, a valid form is shown to
  give the calculation numbers within range.

Notes on what the code does:

- `validateInputs` refuses any input equal to 0 with "Please fill in all
  fields", so latitude 0 and longitude 0 are refused
  (`ValidateInputs.ZeroCoordinateUnfilled`).
- `Math.round` breaks ties toward +∞, so -2.5 rounds to -2.
- `App.tsx` never calls `validateInputs`.
- `App.tsx` shows the one message "Delivery is not available for this
  distance" for every failure, a failed venue fetch included.
- A tier whose `max` is the number 0 never matches.

## Model

| member | source | states |
|---|---|---|
| `JsNumber.Round` | dopc/src/domain/pricing.ts:21 | `Math.round(x)` is the integer `r` with `r − 0.5 ≤ x < r + 0.5`, so ties go up |
| `Pricing.CalculateSmallOrderSurcharge` | dopc/src/domain/pricing.ts:13-15 | the surcharge is never negative; it is zero exactly when cart ≥ minimum; below the minimum it is the shortfall; cart + surcharge = max(cart, minimum) |
| `Pricing.FirstCovering` | dopc/src/domain/pricing.ts:18 | `find` stops at a tier with `min ≤ d`, `max ≠ 0` and `d < max`, and no earlier tier satisfies that; it finds nothing exactly when no tier does |
| `Pricing.FindRange` | dopc/src/domain/pricing.ts:18 | the tier `find` returns is the first covering tier in stored order, or undefined when there is none |
| `Pricing.RoundTenth` | dopc/src/domain/pricing.ts:21 | `(n + 5) / 10` with floor division is `Math.round(n / 10)` for every integer `n` |
| `Pricing.CalculateDeliveryFee` | dopc/src/domain/pricing.ts:17-22 | fails with "Delivery not possible for this distance" exactly when no tier covers the distance; otherwise the fee is basePrice + a + Math.round(b·d/10) of the first covering tier |
| `Pricing.EarlierTierWins` | dopc/src/domain/pricing.ts:18 | when an earlier tier covers the distance, a later overlapping tier is never chosen and the fee succeeds |
| `Pricing.SentinelTierNeverChosen` | dopc/src/domain/pricing.ts:18 | a tier with `max = 0` is never chosen, whatever its `min` |
| `Pricing.FeeAtLeastBaseAndAddOn` | dopc/src/domain/pricing.ts:21 | with `b ≥ 0` and `d ≥ 0`, the fee is at least basePrice + a of the chosen tier |
| `Pricing.TestScheduleExamples` | dopc/src/domain/pricing.test.ts:4-39 | the unit tests' values: surcharges 200/0/0; with the three-tier schedule, 1500 m costs 1150 and 6000 m fails; 999 m costs 1299; 5000 m fails on the closed tier |
| `UtilsPricing.CalculateSmallOrderSurcharge` | dopc/src/utils/pricing.ts:4-6 | never negative, and equal to the domain engine's surcharge |
| `UtilsPricing.Find` | dopc/src/utils/pricing.ts:9 | a found tier is one of the schedule's tiers and covers the distance; nothing is found exactly when no tier covers it |
| `UtilsPricing.CalculateDeliveryFee` | dopc/src/utils/pricing.ts:8-13 | fails, always with `DeliveryFeeCalculationError`, exactly when no tier covers the distance |
| `UtilsPricing.FindAgrees` | dopc/src/utils/pricing.ts:9 | this search returns the same tier as the domain engine's first-match search, on every schedule and distance |
| `UtilsPricing.AgreesWithDomain` | dopc/src/utils/pricing.ts:8-13 | both engines succeed on the same inputs with the same fee, and fail on the same inputs |
| `ValidateInputs.ValidateInputs` | dopc/src/domain/validateInputs.ts:5-32 | ok exactly when no check fails; otherwise the message of the first failing check, in the order NaN, zero, cart ≤ 0, latitude range, longitude range |
| `ValidateInputs.AcceptedExactly` | dopc/src/domain/validateInputs.ts:11-31 | ok iff there is no NaN, no input is 0, cart > 0, latitude is in [-90, 90] and longitude is in [-180, 180] |
| `ValidateInputs.NotANumberFirst` | dopc/src/domain/validateInputs.ts:11-13 | any NaN gives "Invalid input", whatever else is wrong |
| `ValidateInputs.ZeroCoordinateUnfilled` | dopc/src/domain/validateInputs.ts:15-17 | with numeric inputs, a latitude or longitude of exactly 0 gives "Please fill in all fields" |
| `ValidateInputs.CartCheckedBeforeLatitude` | dopc/src/domain/validateInputs.ts:19-25 | a negative cart with an out-of-range latitude and a non-zero longitude gives the cart message |
| `ValidateInputs.Examples` | dopc/src/domain/validateInputs.ts:11-31 | cart 850 in Helsinki is ok; latitude 100 gives the latitude message; cart -1000 gives the cart message; both inclusive bounds are accepted |
| `FieldValidation.HasAtMostTwoDecimals` | dopc/src/utils/validation.ts:6 | `/^\d+(\.\d{1,2})?$/.test(value)` as a greedy matcher: the leading digit run is non-empty and is followed by nothing, or by a point and one or two digits; `HasAtMostTwoDecimalsMatchesPattern` proves it accepts exactly the pattern's language |
| `FieldValidation.LeadingDigits` | dopc/src/utils/validation.ts:6 | the result is the length of the digit run that starts the string: all of it digits, and no digit after it |
| `FieldValidation.HasAtMostTwoDecimalsMatchesPattern` | dopc/src/utils/validation.ts:6 | the greedy matcher accepts exactly the strings of the pattern: digits, optionally a point and 1–2 digits |
| `FieldValidation.ValidateField` | dopc/src/utils/validation.ts:1-21 | null exactly when no check of the named field fails; otherwise the message of that field's first failing check |
| `FieldValidation.CartValueAccepted` | dopc/src/utils/validation.ts:2-7 | a cart value passes iff it is non-empty, parses to a number ≥ 0, and matches the two-decimals pattern |
| `FieldValidation.LatitudeAccepted` | dopc/src/utils/validation.ts:9-13 | a latitude passes iff it is non-empty and parses to a number in [-90, 90] |
| `FieldValidation.LongitudeAccepted` | dopc/src/utils/validation.ts:15-19 | a longitude passes iff it is non-empty and parses to a number in [-180, 180] |
| `FieldValidation.UnknownFieldAccepted` | dopc/src/utils/validation.ts:1-20 | any other field name gives null |
| `FieldValidation.EmptyCartReportedFirst` | dopc/src/utils/validation.ts:3 | an empty cart value gives "Cart value is required", whatever it parses to |
| `FieldValidation.NegativeBeforeDecimals` | dopc/src/utils/validation.ts:4-6 | a negative cart value is reported as negative before its decimals are looked at |
| `FieldValidation.DecimalExamples` | dopc/src/utils/validation.ts:6 | "1.234" and "1e3" parse but get the two-decimals message |
| `FieldValidation.AcceptedCartExamples` | dopc/src/utils/validation.ts:2-7 | "8.50" and "10" pass every cart-value check |
| `JsNumber.Max` | dopc/src/domain/pricing.ts:14 | `Math.max(x, y)` is at least both arguments and is one of them |
| `App.ValidateField` | dopc/src/App.tsx:25-36 | "" exactly when no check that applies to the name fails; otherwise the message of the first applicable failing check |
| `App.EmptyValueRequired` | dopc/src/App.tsx:26 | an empty value gives "This field is required" for every field name |
| `App.HandlerNamesUnchecked` | dopc/src/App.tsx:25-35 | the names "latitude" and "longitude" get "" for every non-empty value |
| `App.CartValueAccepted` | dopc/src/App.tsx:26-28 | a cart value passes iff it is non-empty and parses to a number ≥ 0, so zero is accepted |
| `App.LatitudeAccepted` | dopc/src/App.tsx:29-32 | a latitude passes iff it is non-empty and parses to a number in the inclusive range [-90, 90] |
| `App.LongitudeAccepted` | dopc/src/App.tsx:29-34 | a longitude passes iff it is non-empty and parses to a number in the inclusive range [-180, 180] |
| `App.SubmittedValuesUsable` | dopc/src/App.tsx:38-43 | when stored errors follow the fields and the form is valid, the cart parses to a number ≥ 0 and the coordinates to numbers in range |
| `App.Quote` | dopc/src/App.tsx:137-147 | a result exists exactly when the fee succeeds; total = cart + surcharge + fee; the surcharge is never negative; cart + surcharge = max(cart, minimum) |
| `App.QuoteExample` | dopc/src/App.tsx:137-147 | 8.50 EUR at 1500 m under the test schedule with a 10 EUR minimum gives 150 + 1150, total 2150; 6000 m gives no result |
| `App.Calculator.constructor` | dopc/src/App.tsx:14-23 | the initial state: no venue, empty fields, no errors, no result, no failure message |
| `App.Calculator.IsFormValid` | dopc/src/App.tsx:38-43 | the loop returns true iff no stored error is set and all three fields are non-empty |
| `App.Calculator.HandleChange` | dopc/src/App.tsx:73-87 | stores the validator's verdict under the field name and the value in the matching field; everything else is unchanged; the class invariant is kept |
| `App.TypeHelsinkiOrder` | dopc/src/App.test.tsx:22-27 | typing the three test values through `HandleChange` leaves the fields set, every stored error empty, no venue cached and the class invariant kept |
| `App.MockVenueQuote` | dopc/src/setupTests.ts:4-30 | for the fetch mock's venue (minimum 1000, base price 200, one flat tier below 5000 m), 850 cents at any distance below 5000 m is quoted 850 + 150 + 200 = 1200 |
| `App.SuccessfulCalculationScenario` | dopc/src/App.test.tsx:14-33 | typing "8.50", "60.1695" and "24.9354" leaves no stored error; one press with the mock venue fetched, at the few meters the user is from it (any distance below 5000 m), caches the venue, stores the result 850 + 150 + 200 = 1200 and no failure message |
| `App.Calculator.CalculationHandler` | dopc/src/App.tsx:123-160 | an invalid form changes nothing. Otherwise the cached venue is used, or the fetched one, which is then cached. The result is the quote for round(cart·100) cents and the computed distance. Any failure leaves no result and the message "Delivery is not available for this distance". Fields and errors are unchanged |

## Left out

- Distance calculation: `dopc/src/utils/distance.ts` is floating-point haversine. The module `App.tsx` imports (`./domain/distance`) is not part of this model. The handler takes the distance as a function parameter returning whole meters.
- Venue fetch: `fetchVenueDetails` in `App.tsx` and `dopc/src/services/venueService.ts` do HTTP and JSON I/O. The handler takes the fetch outcome as a parameter (`None` for any failure), so the `[longitude, latitude]` re-pairing is not modelled.
- `Number(value)` string coercion is not implemented. The validators take the parsed number as a parameter, and the component holds a fixed parse function.
- Infinity: `Num` has no infinite values, so inputs such as "1e400" are outside the model.
- Floating point: money and distances are unbounded integers (doubles are exact up to 2^53). `Pricing.RoundTenth` matches `Math.round(b·d/10)` on doubles only while `|b·d|` stays below about 2^49. `Math.round(Number(cartValue) * 100)` is computed on exact reals, so a case like 1.005·100, which a double rounds down, is not reproduced.
- React: rendering, `isAnimating`, the 500 ms minimum animation, the 3 s auto-clear of the failure message, `console.log`, and the geolocation callback (`App.tsx:89-120`) are not modelled. State updates are treated as applied in program order.
- The second `validateField` call in each input handler (`App.tsx:202-210`) discards its result. It is covered only by `App.HandlerNamesUnchecked`.
- `dopc/src/components/Spinner.tsx` and `dopc/src/setupTests.ts` are UI or test scaffolding.
- Of `dopc/src/App.test.tsx`, only the successful calculation (lines 14-33) is modelled, by `App.TypeHelsinkiOrder` and `App.SuccessfulCalculationScenario`, with the venue the fetch mock in `dopc/src/setupTests.ts` serves; the distance is a parameter below 5000 m, since the distance calculation is not modelled. The rendering test and the three validation-error flows (lines 35-68) are not: the messages they expect come from `validateInputs`, which the component never calls.
