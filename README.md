# Shipping fee rule (CalculateShippingFeeV2)

This project models the tiered shipping-fee rule `CalculateShippingFeeV2` of
the `shipping` Go package and proves its properties in Dafny.

A call takes a parcel weight in kilograms, a zone label and an insurance flag.
It either returns a fee or rejects the call:

- a weight outside (0, 50] is rejected first, whatever the zone;
- otherwise a zone other than exactly `Domestic`, `International` or `Express`
  (case-sensitive) is rejected, and the error carries that zone string;
- otherwise the fee is base fee + weight x per-kg rate, plus a flat 7.50 when
  the weight exceeds 10 kg, and, when insured, plus 1.5% of that whole
  subtotal. The (base, rate) pairs are (5, 1), (20, 2.5) and (30, 5).

Files:

- `shipping.dfy`, module `Shipping`: the zones, the outcome datatype, the tariff
  tables, the rule itself as a pure function, and the lemmas about it.
- `shipping_scenarios.dfy`, module `ShippingScenarios`: the cases of the Go test
  table, restated as exact equalities.

The Go function returns a `(float64, error)` pair. Here it returns
`Outcome = Ok(fee) | InvalidWeight | InvalidZone(zone)`, so a result is a fee or
an error and never both. `Outcome.Amount()` gives the `float64` half of the pair,
which is 0 on every error path. Weights and fees are exact `real` numbers.

## Model

| member | source | states |
|---|---|---|
| `Shipping.CalculateShippingFeeV2` | shipping_v2.go:10-53 | A weight error occurs exactly when the weight is outside (0, 50], whatever the zone. A zone error occurs exactly when the weight is valid and the zone is none of the three labels; it carries the offending zone. Every fee lies in (5, 291.8125]. |
| `Shipping.ParseZone` | shipping_v2.go:16-25 | A zone is recognised exactly when the string is one of the three case-sensitive labels, and the recognised zone's label is that string. |
| `Shipping.ParseZoneName` | shipping_v2.go:16-25 | Each zone's label parses back to that zone. |
| `Shipping.Subtotal` | shipping_v2.go:15-43 | For a valid weight, base + per-kg cost + surcharge lies in (5, 287.5] in every zone. |
| `Shipping.WithInsurance` | shipping_v2.go:45-50 | An insured parcel pays 1.015 times its subtotal; an uninsured one pays the subtotal. |
| `Shipping.UninsuredFeeFormula` | shipping_v2.go:15-43 | For a valid weight, the uninsured fee is base + weight x rate + (7.50 if weight > 10), with (base, rate) = (5, 1) Domestic, (20, 2.5) International, (30, 5) Express. |
| `Shipping.SurchargeIffHeavy` | shipping_v2.go:38-41 | The 7.50 surcharge is part of the uninsured fee if and only if the weight exceeds 10. Without it the fee is exactly base + per-kg cost, if and only if the weight is at most 10. |
| `Shipping.InsuranceOnWholeSubtotal` | shipping_v2.go:43-50 | The insured fee is the uninsured fee x 1.015, so the 1.5% is taken on the whole subtotal. Insurance never turns an error into a fee or changes which error is reported. |
| `Shipping.ErrorPathsReturnZeroFee` | shipping_v2.go:11-25 | The fee half of the returned pair is 0 exactly on the error paths, and is the fee otherwise. |
| `Shipping.MaximumAttained` | shipping_v2.go:10-53 | The upper bound 291.8125 is reached, at (50, Express, insured). |
| `Shipping.InfimumApproached` | shipping_v2.go:10-53 | The lower bound 5 is tight: for any bound above 5, some valid uninsured Domestic parcel costs less than that bound. |
| `Shipping.FeeMonotoneInWeight` | shipping_v2.go:27-50 | For a fixed zone and insurance flag, a heavier valid parcel never costs less than a lighter one. |
| `ShippingScenarios.InvalidWeightCases` | shipping_v2_test.go:18-33 | Weights -5, 0, 50.1 and 100 are rejected with a weight error. |
| `ShippingScenarios.BoundaryCases` | shipping_v2_test.go:25-32 | 0.1 kg Domestic gives 5.1; 10 kg Domestic gives 15 with no surcharge; 10.1 kg gives 22.6; 50 kg International gives 152.5. |
| `ShippingScenarios.UninsuredCases` | shipping_v2_test.go:36-43 | The standard and heavy uninsured parcels give 10, 40, 45, 32.5, 90 and 112.5. |
| `ShippingScenarios.InsuredCases` | shipping_v2_test.go:46-51 | The insured parcels give 10.15, 32.9875, 40.6, 91.35, 45.675 and 114.1875. |
| `ShippingScenarios.InvalidZoneCases` | shipping_v2_test.go:54-57 | `Unknown`, the empty string, `domestic` and `Local` are rejected with a zone error that carries the zone. |
| `ShippingScenarios.EdgeCases` | shipping_v2_test.go:60-61 | The cheapest case in the table gives 5.1 and the dearest gives 291.8125. |

## Left out

- `float64` rounding is not modelled. Weights and fees are exact reals, so the
  expected fees of the test table hold as exact equalities. The test's ±0.01
  tolerance is not needed.
- Error message text (`errors.New`, `fmt.Errorf`) is not modelled. An error is
  its kind, and the zone error carries the rejected zone string.
- The Go test harness (`t.Run`, `t.Errorf`, the loop over the table) is not
  modelled. Its cases are lemmas in `ShippingScenarios`.
- NaN and infinite `float64` weights do not exist over `real`. In Go, a NaN
  weight passes the weight check, because both comparisons are false.
