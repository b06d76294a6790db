/**
 Fares, minimum offers and the fee split.  (packages/config/src/pricing.ts)

 Money is in kobo, distance in metres; `Math.round` rounds halves up.  The source computes with
 floating-point naira and kilometres; here the arithmetic is exact.
 */
module Pricing {
  import opened Options

  type Kobo = int

  const NAIRA: Kobo := 100
  const MIN_FARE: Kobo := 3000 * NAIRA
  const FARE_INCREMENT: Kobo := 100 * NAIRA
  const STATE_LEVY: Kobo := 30 * NAIRA
  const SERVICE_FEE: Kobo := 200 * NAIRA

  function Max(a: int, b: int): int {
    if a >= b then a else b
  }

  /** `Math.round(num / den)`. */
  function RoundHalfUp(num: int, den: int): (r: int)
    requires den > 0
    ensures -den <= 2 * (num - r * den) < den
  {
    RoundedDivision(num, den);
    (2 * num + den) / (2 * den)
  }

  lemma RoundedDivision(num: int, den: int)
    requires den > 0
    ensures var r := (2 * num + den) / (2 * den); -den <= 2 * (num - r * den) < den
  {
    var r, m := (2 * num + den) / (2 * den), (2 * num + den) % (2 * den);
    assert 2 * num + den == r * (2 * den) + m;
    assert r * (2 * den) == 2 * (r * den);
  }

  /** `Math.ceil(value / increment) * increment`. */
  function RoundUpToIncrement(value: int, increment: int): int
    requires increment > 0
  {
    -((-value) / increment) * increment
  }

  datatype SuggestedFare = SuggestedFare(distanceM: int, suggestedFare: Kobo, minOffer: Kobo)

  /** `None` stands for the TypeError on a negative distance. */
  function CalculateSuggestedFare(distanceM: int): Option<SuggestedFare> {
    if distanceM < 0 then None
    else
      // 300 naira a kilometre is 30 kobo a metre
      var suggested := Max(MIN_FARE, RoundUpToIncrement(30 * distanceM, FARE_INCREMENT));
      Some(SuggestedFare(distanceM, suggested, ResolveMinOffer(suggested)))
  }

  /** 72 per cent of the suggested fare, but never below the floor. */
  function ResolveMinOffer(suggestedFare: Kobo): Kobo {
    Max(MIN_FARE, RoundHalfUp(72 * suggestedFare, 100))
  }

  datatype Reason = NotPositive | BelowFloor | BelowDiscount

  datatype Validation = Valid(minOffer: Kobo) | Invalid(minOffer: Kobo, reason: Reason)

  function ValidateRiderOffer(offer: Kobo, suggestedFare: Kobo): Validation {
    var minOffer := ResolveMinOffer(suggestedFare);
    if offer <= 0 then Invalid(minOffer, NotPositive)
    else if offer < minOffer then Invalid(minOffer, if minOffer == MIN_FARE then BelowFloor else BelowDiscount)
    else Valid(minOffer)
  }

  datatype RideFees = RideFees(fare: Kobo, vat: Kobo, stateLevy: Kobo, serviceFee: Kobo, platformTotal: Kobo, driverPayout: Kobo, total: Kobo)

  function CalculateRideFees(fare: Kobo): RideFees {
    var vat := RoundHalfUp(75 * fare, 1000);
    var rawPlatform := vat + STATE_LEVY + SERVICE_FEE;
    var rawDriver := fare - rawPlatform;
    RideFees(fare, vat, STATE_LEVY, SERVICE_FEE,
             if rawDriver < 0 then fare else rawPlatform,
             Max(0, rawDriver), fare)
  }

  // ---------- the fare chain ----------

  ghost function Suggested(distanceM: nat): Kobo {
    CalculateSuggestedFare(distanceM).value.suggestedFare
  }

  ghost function MinOffer(distanceM: nat): Kobo {
    CalculateSuggestedFare(distanceM).value.minOffer
  }

  /** The least multiple of 100 naira that covers the value. */
  lemma RoundUpIsLeast(value: int, other: int)
    ensures var r := RoundUpToIncrement(value, FARE_INCREMENT);
            && r % 10000 == 0
            && value <= r < value + 10000
            && (other % 10000 == 0 && value <= other ==> r <= other)
  {
  }

  /**
   For every distance: the suggested fare is a multiple of 100 naira, at least 3000 naira, and is the
   least such amount that covers 300 naira a kilometre, 30 kobo a metre; the least offer lies between the
   floor and it; and the suggested fare is itself a valid offer.  A negative distance has no fare.
   */
  lemma FareChain(distanceM: nat, other: Kobo)
    ensures Suggested(distanceM) % 10000 == 0
    ensures Suggested(distanceM) >= 300000 && Suggested(distanceM) >= 30 * distanceM
    ensures other % 10000 == 0 && other >= 300000 && other >= 30 * distanceM ==> Suggested(distanceM) <= other
    ensures 300000 <= MinOffer(distanceM) <= Suggested(distanceM)
    ensures ValidateRiderOffer(Suggested(distanceM), Suggested(distanceM)) == Valid(MinOffer(distanceM))
    ensures forall d :: CalculateSuggestedFare(d).None? <==> d < 0
    ensures CalculateSuggestedFare(distanceM).value.distanceM == distanceM
  {
    RoundUpIsLeast(30 * distanceM, other);
  }

  /**
   The prices of a trip: the least multiple of 100 naira that covers 3000 naira and 30 kobo a metre, and the least
   amount that covers 3000 naira and 72 per cent of it, rounded half up.
   */
  predicate PricesOf(distanceM: nat, suggested: Kobo, least: Kobo) {
    && suggested % 10000 == 0 && suggested >= 300000 && suggested >= 30 * distanceM
    && (suggested == 300000 || suggested - 10000 < 30 * distanceM)
    && least >= 300000 && 200 * least > 144 * suggested - 100
    && (least == 300000 || 200 * (least - 1) <= 144 * suggested - 100)
  }

  /** A trip has one suggested fare and one least offer, and they are the ones calculated. */
  lemma PricesAre(distanceM: nat, suggested: Kobo, least: Kobo)
    ensures PricesOf(distanceM, suggested, least)
      <==> CalculateSuggestedFare(distanceM).value == SuggestedFare(distanceM, suggested, least)
  {
    RoundUpIsLeast(30 * distanceM, suggested);
  }

  /** Longer trips never cost less, nor do they lower the least offer. */
  lemma FaresGrow(near: nat, far: nat)
    requires near <= far
    ensures Suggested(near) <= Suggested(far) && MinOffer(near) <= MinOffer(far)
  {
    RoundUpIsLeast(30 * far, 0);
    RoundUpIsLeast(30 * near, RoundUpToIncrement(30 * far, FARE_INCREMENT));
  }

  /**
   An offer is valid exactly if it is at least 3000 naira and reaches 72 per cent of the suggested fare,
   rounded half up to a kobo.  So raising a valid offer keeps it valid.
   */
  lemma ValidFromMinimumUp(offer: Kobo, higher: Kobo, suggested: Kobo)
    ensures ValidateRiderOffer(offer, suggested).Valid? <==> offer >= 300000 && 200 * offer > 144 * suggested - 100
    ensures ValidateRiderOffer(offer, suggested).Valid? && offer <= higher ==> ValidateRiderOffer(higher, suggested).Valid?
  {
  }

  /**
   The least offer that is reported is 72 per cent of the suggested fare, to half a kobo, unless the floor of 3000
   naira binds: exactly for suggested fares of up to 4166.67 naira.
   */
  lemma LeastOfferIs(offer: Kobo, suggested: Kobo)
    ensures var m := ValidateRiderOffer(offer, suggested).minOffer;
      && m == ResolveMinOffer(suggested) >= 300000
      && (m == 300000 <==> suggested <= 416667)
      && (m != 300000 ==> -100 <= 2 * (72 * suggested - 100 * m) < 100)
  {
  }

  /** Why an offer is refused: not an amount at all, below the floor where that binds, else below the discount. */
  lemma RefusedBecause(offer: Kobo, suggested: Kobo)
    requires ValidateRiderOffer(offer, suggested).Invalid?
    ensures var reason := ValidateRiderOffer(offer, suggested).reason;
      && (reason.NotPositive? <==> offer <= 0)
      && (reason.BelowFloor? <==> 0 < offer < 300000 && suggested <= 416667)
      && (reason.BelowDiscount? <==> 0 < offer && suggested > 416667)
  {
  }

  // ---------- the fee split ----------

  /**
   For every fare: the two shares add up to it, neither is negative, VAT is 7.5% to half a kobo, the levy is 30 and
   the service fee 200 naira.
   */
  lemma FeesAddUp(fare: Kobo)
    requires fare >= 0
    ensures var f := CalculateRideFees(fare);
            && f.driverPayout + f.platformTotal == fare == f.total
            && f.driverPayout >= 0 && f.platformTotal >= 0
            && -1000 <= 2 * (75 * fare - 1000 * f.vat) < 1000
            && f.stateLevy == 3000 && f.serviceFee == 20000
            && (f.driverPayout > 0 ==> f.platformTotal == f.vat + f.stateLevy + f.serviceFee)
  {
    var vat := RoundHalfUp(75 * fare, 1000);
    assert vat >= 0;
  }

  /** Both shares grow with the fare, across the clamp as well. */
  lemma SharesGrow(low: Kobo, high: Kobo)
    requires 0 <= low <= high
    ensures CalculateRideFees(low).driverPayout <= CalculateRideFees(high).driverPayout
    ensures CalculateRideFees(low).platformTotal <= CalculateRideFees(high).platformTotal
  {
    var vLow, vHigh := RoundHalfUp(75 * low, 1000), RoundHalfUp(75 * high, 1000);
    assert vLow <= vHigh;
    assert low - vLow <= high - vHigh;
  }

  /** At the floor and above, nothing is clamped and the driver gets at least 2545 naira. */
  lemma FloorPaysDriver(fare: Kobo)
    requires fare >= 300000
    ensures var f := CalculateRideFees(fare);
            && f.driverPayout >= 254500
            && f.platformTotal == f.vat + f.stateLevy + f.serviceFee
  {
    SharesGrow(300000, fare);
  }

  /** The clamp applies exactly to fares below 248.65 naira, where the driver is left with nothing. */
  lemma ClampedExactlyBelow(fare: Kobo)
    requires fare >= 0
    ensures CalculateRideFees(fare).platformTotal < CalculateRideFees(fare).vat + 23000 <==> fare < 24865
    ensures CalculateRideFees(fare).driverPayout == 0 <==> fare <= 24865
  {
  }

  /** Whatever the distance, the cheapest valid offer still pays the driver at least 2545 naira. */
  lemma EveryValidOfferPaysDriver(distanceM: nat, offer: Kobo)
    requires ValidateRiderOffer(offer, Suggested(distanceM)).Valid?
    ensures CalculateRideFees(offer).driverPayout >= 254500
  {
    ValidFromMinimumUp(offer, offer, Suggested(distanceM));
    FloorPaysDriver(offer);
  }
}
