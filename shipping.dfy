/** The tiered shipping-fee rule of `CalculateShippingFeeV2` (shipping_v2.go).

    A call first validates the weight, then the zone, and only then prices the
    parcel: a per-zone base fee, a per-kg cost, a flat surcharge for heavy
    parcels and, optionally, insurance on the whole subtotal.
    Weights and fees are exact `real`s here; the source's `float64` rounding is
    not modelled.
 */
module Shipping {

  datatype Option<T> = None | Some(value: T)

  /** The three zones the rule recognises. */
  datatype Zone = Domestic | International | Express

  /** What one call returns: a fee, or exactly one of the two validation errors.
      An invalid zone carries the zone string that was rejected. */
  datatype Outcome = Ok(fee: real) | InvalidWeight | InvalidZone(zone: string)
  {
    /** The fee half of the source's `(float64, error)` pair. */
    function Amount(): real {
      if Ok? then fee else 0.0
    }
  }

  /** Tariff constants, as written in the source. */
  const MaxWeight: real := 50.0
  const HeavyThreshold: real := 10.0
  const HeavySurcharge: real := 7.5
  const InsuranceRate: real := 0.015

  /** Smallest fee the rule can ever charge is strictly above this. */
  const FeeInfimum: real := 5.0
  /** Largest fee the rule can ever charge: 50 kg, Express, insured. */
  const FeeMaximum: real := 291.8125

  /** Weights accepted by the rule: the half-open interval (0, 50]. */
  predicate ValidWeight(weight: real) {
    0.0 < weight <= MaxWeight
  }

  /** The exact, case-sensitive label of each zone. */
  function ZoneName(z: Zone): string {
    match z
    case Domestic => "Domestic"
    case International => "International"
    case Express => "Express"
  }

  /** Exact string match against the three zone labels, as the source's `switch zone` does. */
  function ParseZone(name: string): (r: Option<Zone>)
    ensures r.Some? <==> name in {"Domestic", "International", "Express"}
    ensures r.Some? ==> ZoneName(r.value) == name
  {
    if name == "Domestic" then Some(Domestic)
    else if name == "International" then Some(International)
    else if name == "Express" then Some(Express)
    else None
  }

  /** Every zone's label is matched back to that zone, and to no other. */
  lemma ParseZoneName(z: Zone)
    ensures ParseZone(ZoneName(z)) == Some(z)
  {
  }

  function BaseFee(z: Zone): real {
    match z
    case Domestic => 5.0
    case International => 20.0
    case Express => 30.0
  }

  function PerKgRate(z: Zone): real {
    match z
    case Domestic => 1.0
    case International => 2.5
    case Express => 5.0
  }

  /** Flat surcharge, charged only above the heavy threshold (10 kg itself is standard). */
  function Surcharge(weight: real): real {
    if weight > HeavyThreshold then HeavySurcharge else 0.0
  }

  /** Base fee, per-kg cost and heavy surcharge, before insurance; the rule
      only computes it for a valid weight, and then it lies in (5, 287.5]. */
  function Subtotal(weight: real, z: Zone): (r: real)
    requires ValidWeight(weight)
    ensures FeeInfimum < r <= 287.5
  {
    BaseFee(z) + weight * PerKgRate(z) + Surcharge(weight)
  }

  /** The subtotal plus, when insured, 1.5% of that subtotal: an insured
      parcel pays 1.015 times its subtotal, an uninsured one the subtotal. */
  function WithInsurance(subtotal: real, insured: bool): (r: real)
    ensures insured ==> r == subtotal * 1.015
    ensures !insured ==> r == subtotal
  {
    subtotal + (if insured then subtotal * InsuranceRate else 0.0)
  }

  /** The whole rule. The weight check runs first, then the zone check; only
      a call that passes both is priced, and every priced call lands in
      (FeeInfimum, FeeMaximum]. */
  function CalculateShippingFeeV2(weight: real, zone: string, insured: bool): (r: Outcome)
    ensures r.InvalidWeight? <==> !(0.0 < weight <= 50.0)
    ensures r.InvalidZone? <==> 0.0 < weight <= 50.0 && zone !in {"Domestic", "International", "Express"}
    ensures r.InvalidZone? ==> r.zone == zone
    ensures r.Ok? ==> FeeInfimum < r.fee <= FeeMaximum
  {
    if !ValidWeight(weight) then InvalidWeight
    else
      match ParseZone(zone)
      case None => InvalidZone(zone)
      case Some(z) =>
        Ok(WithInsurance(Subtotal(weight, z), insured))
  }

  /** For a valid weight and zone, the uninsured fee is base + weight * rate,
      plus 7.50 above 10 kg, with (base, rate) = (5, 1), (20, 2.5), (30, 5). */
  lemma UninsuredFeeFormula(weight: real, zone: string)
    requires ValidWeight(weight)
    ensures var s := if weight > 10.0 then 7.5 else 0.0;
      && (zone == "Domestic" ==> CalculateShippingFeeV2(weight, zone, false) == Ok(5.0 + weight * 1.0 + s))
      && (zone == "International" ==> CalculateShippingFeeV2(weight, zone, false) == Ok(20.0 + weight * 2.5 + s))
      && (zone == "Express" ==> CalculateShippingFeeV2(weight, zone, false) == Ok(30.0 + weight * 5.0 + s))
  {
  }

  /** The 7.50 surcharge is part of the uninsured fee if and only if the weight exceeds 10 kg. */
  lemma SurchargeIffHeavy(weight: real, z: Zone)
    requires ValidWeight(weight)
    ensures (CalculateShippingFeeV2(weight, ZoneName(z), false).fee
               == BaseFee(z) + weight * PerKgRate(z) + 7.5) <==> weight > 10.0
    ensures (CalculateShippingFeeV2(weight, ZoneName(z), false).fee
               == BaseFee(z) + weight * PerKgRate(z)) <==> weight <= 10.0
  {
  }

  /** Insurance scales the whole uninsured fee by 1.015 and never changes which error is reported. */
  lemma InsuranceOnWholeSubtotal(weight: real, zone: string)
    ensures var plain := CalculateShippingFeeV2(weight, zone, false);
      var insured := CalculateShippingFeeV2(weight, zone, true);
      && (plain.Ok? <==> insured.Ok?)
      && (plain.Ok? ==> insured.fee == plain.fee * 1.015)
      && (!plain.Ok? ==> insured == plain)
  {
  }

  /** A call yields a fee or an error, never both: the fee half of the
      pair is zero exactly on the error paths. */
  lemma ErrorPathsReturnZeroFee(weight: real, zone: string, insured: bool)
    ensures var r := CalculateShippingFeeV2(weight, zone, insured);
      (r.Amount() == 0.0 <==> !r.Ok?) && (r.Ok? ==> r.Amount() == r.fee)
  {
  }

  /** The upper bound FeeMaximum is reached, at 50 kg, Express, insured. */
  lemma MaximumAttained()
    ensures CalculateShippingFeeV2(50.0, "Express", true) == Ok(FeeMaximum)
  {
  }

  /** The lower bound FeeInfimum is tight: light Domestic parcels come as close to it as one likes. */
  lemma InfimumApproached(bound: real)
    requires bound > FeeInfimum
    ensures exists weight: real ::
              && ValidWeight(weight)
              && CalculateShippingFeeV2(weight, "Domestic", false).Ok?
              && CalculateShippingFeeV2(weight, "Domestic", false).fee < bound
  {
    var weight := if bound - FeeInfimum < 1.0 then (bound - FeeInfimum) / 2.0 else 0.5;
    assert CalculateShippingFeeV2(weight, "Domestic", false) == Ok(FeeInfimum + weight);
  }

  /** Within one zone and insurance choice, a heavier parcel never costs less. */
  lemma FeeMonotoneInWeight(light: real, heavy: real, zone: string, insured: bool)
    requires ValidWeight(light) && light <= heavy <= MaxWeight
    ensures CalculateShippingFeeV2(light, zone, insured).Amount()
              <= CalculateShippingFeeV2(heavy, zone, insured).Amount()
  {
  }
}
