/** The concrete cases of the table in shipping_v2_test.go, restated as
    exact equalities on the model (no tolerance is needed over `real`). */
module ShippingScenarios {
  import opened Shipping

  /** Weights -5, 0, 50.1 and 100 are rejected whatever the zone. */
  lemma InvalidWeightCases()
    ensures CalculateShippingFeeV2(-5.0, "Domestic", false) == InvalidWeight
    ensures CalculateShippingFeeV2(0.0, "Domestic", false) == InvalidWeight
    ensures CalculateShippingFeeV2(50.1, "International", false) == InvalidWeight
    ensures CalculateShippingFeeV2(100.0, "Express", false) == InvalidWeight
    ensures CalculateShippingFeeV2(50.1, "Express", false) == InvalidWeight
  {
  }

  /** The boundaries: 0.1 kg is accepted, 10 kg is standard, 10.1 kg is heavy, 50 kg is accepted. */
  lemma BoundaryCases()
    ensures CalculateShippingFeeV2(0.1, "Domestic", false) == Ok(5.1)
    ensures CalculateShippingFeeV2(10.0, "Domestic", false) == Ok(15.0)
    ensures CalculateShippingFeeV2(10.1, "Domestic", false) == Ok(22.6)
    ensures CalculateShippingFeeV2(50.0, "International", false) == Ok(152.5)
  {
  }

  /** Standard (at most 10 kg) and heavy parcels, uninsured, one per zone. */
  lemma UninsuredCases()
    ensures CalculateShippingFeeV2(5.0, "Domestic", false) == Ok(10.0)
    ensures CalculateShippingFeeV2(8.0, "International", false) == Ok(40.0)
    ensures CalculateShippingFeeV2(3.0, "Express", false) == Ok(45.0)
    ensures CalculateShippingFeeV2(20.0, "Domestic", false) == Ok(32.5)
    ensures CalculateShippingFeeV2(25.0, "International", false) == Ok(90.0)
    ensures CalculateShippingFeeV2(15.0, "Express", false) == Ok(112.5)
  {
  }

  /** The same parcels insured: each fee is the uninsured one times 1.015. */
  lemma InsuredCases()
    ensures CalculateShippingFeeV2(5.0, "Domestic", true) == Ok(10.15)
    ensures CalculateShippingFeeV2(20.0, "Domestic", true) == Ok(32.9875)
    ensures CalculateShippingFeeV2(8.0, "International", true) == Ok(40.6)
    ensures CalculateShippingFeeV2(25.0, "International", true) == Ok(91.35)
    ensures CalculateShippingFeeV2(3.0, "Express", true) == Ok(45.675)
    ensures CalculateShippingFeeV2(15.0, "Express", true) == Ok(114.1875)
  {
  }

  /** Unknown, empty and wrongly-cased zones are rejected and the error echoes the zone. */
  lemma InvalidZoneCases()
    ensures CalculateShippingFeeV2(10.0, "Unknown", false) == InvalidZone("Unknown")
    ensures CalculateShippingFeeV2(10.0, "", false) == InvalidZone("")
    ensures CalculateShippingFeeV2(10.0, "domestic", false) == InvalidZone("domestic")
    ensures CalculateShippingFeeV2(15.0, "Local", false) == InvalidZone("Local")
  {
  }

  /** The cheapest and the dearest parcels in the table. */
  lemma EdgeCases()
    ensures CalculateShippingFeeV2(0.1, "Domestic", false) == Ok(5.1)
    ensures CalculateShippingFeeV2(50.0, "Express", true) == Ok(291.8125)
  {
  }
}
