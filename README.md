# Pump efficiency calculator — a Dafny model

This project models the efficiency calculation behind the `/calculate`
endpoint of the Deccan Pumps back end (`calculate_efficiencies` in `app.py`).
From a request holding the flow unit selector (C5), the flow value (C6), the
specific speed (F5) and the pump type code (F6), the calculator:

1. converts the flow to cubic metres per second (F4) — selector 1 keeps the
   value, 2 divides it by 60000 (L/min), 3 by 1000 (L/s), 4 multiplies it by
   0.00006309 (US gpm); any other selector is an `InvalidUnit` error;
2. rejects a converted flow of zero or less (`NonPositiveFlow`), which is what
   makes the logarithm of the next stage defined;
3. computes the efficiency at optimum (F9), a quadratic in ln(F4) whose
   coefficients depend on the pump type family (B and C share one); an
   unknown code is an `InvalidPumpType` error;
4. computes the efficiency correction (F10), piecewise in specific speed:
   type V splits at 100 (inclusive below), every other type below 30,
   from 30 to 90 inclusive, and above 90; there is no error case;
5. computes the efficiency deviation (F11), piecewise in the flow with
   regions closed above at 0.05, 0.9 and 10, and the constant 1.03 above 10;
6. returns the three numbers and the text
   `<optimum − correction> &plusmn; <deviation> %`.

Files:

- `Polynomial.dfy` — exact evaluation of a polynomial from its coefficients
  (highest degree first), with lemmas expanding three-, four- and
  five-coefficient lists into the explicit form the source writes.
- `Calculator.dfy` — the data model (`CalculationInput`, `Efficiencies`,
  `Error`, `Result`, `PumpType` with an `Other` case, `FlowUnit`) and one pure
  function per stage, ending in `Calculate`. Each regression is a table of
  coefficients per region, transcribed with their signs, and a region
  function whose contract states which inputs select it.
- `CalculatorProperties.dfy` — lemmas: the efficiency at optimum written out
  as in the source, the region and value chosen at every boundary, the B/C
  family, and how the stages compose. (The correction and deviation carry
  their explicit polynomials in their own contracts.)

The natural logarithm and the two-decimal rendering cannot be defined over
Dafny's reals, so both are parameters of `Calculate`: `ln: PosReal -> real`
and `fmt: real -> string`. Because `ln` accepts only a `PosReal` (a real
strictly above zero), the verifier checks at every application that the
logarithm is taken of a positive number; in `Calculate` that holds only
because the flow check runs first.

The conditional of the third deviation region is written `elif: f4_pump_flow_m3s <= 10:`
in `app.py` line 93, which is not valid Python; the model follows its
evident intent, `elif f4_pump_flow_m3s <= 10`, consistent with the branches
either side of it. The calculator returns only the efficiency at optimum,
the correction, the deviation and the text (app.py:111-116); the converted
flow is not returned.

## Model

| member | source | states |
|---|---|---|
| `Calculator.UnitOf` | app.py:21-30 | a selector names a unit exactly when it is 1, 2, 3 or 4, and the unit's number is that selector |
| `Calculator.ToM3s` | app.py:21-28 | each unit conversion is inverted by `FromM3s` and keeps the sign of the flow (positive in, positive out) |
| `CalculatorProperties.ToM3sFromM3s` | app.py:21-28 | converting back and forward again returns the flow: the two conversions are mutually inverse |
| `CalculatorProperties.ToM3sMonotone` | app.py:21-28 | every conversion preserves the order of flows |
| `CalculatorProperties.ConversionBySelector` | app.py:21-28 | for a positive flow, selector 1 returns it unchanged, 2 divides by 60000, 3 by 1000, 4 multiplies by 0.00006309 |
| `Calculator.ConvertFlow` | app.py:20-34 | `InvalidUnit` exactly when the selector is not 1–4, whatever the flow; `NonPositiveFlow` exactly when the selector is valid and the flow is ≤ 0; success otherwise, with a converted flow that maps back to the input |
| `Calculator.ParsePumpType` | app.py:40-53 | a code is `Other` exactly when it is none of A, B, C, F, G, J, V; a recognised type's code is the input |
| `CalculatorProperties.ParseCode` | app.py:40-51 | reading the code of a recognised type gives that type back |
| `Calculator.OptimumCoefficients` | app.py:40-53 | every recognised type has a quadratic (three coefficients); only `Other` has none |
| `Calculator.Optimum` | app.py:36-53 | fails exactly for an unknown type, and then with `InvalidPumpType`; takes a positive flow only, so ln is applied to a positive value |
| `CalculatorProperties.OptimumFormula` | app.py:38-53 | per type, the efficiency at optimum equals the source's a + b·L + c·L² with L = ln(flow); an unknown type gives `InvalidPumpType` |
| `CalculatorProperties.OptimumBC` | app.py:42-43 | types B and C give the same efficiency at optimum for every flow |
| `Calculator.CorrectionRegionOf` | app.py:57-79 | type V uses the first quartic exactly when speed ≤ 100 and the second exactly when > 100; other types use the first cubic exactly when < 30, the second exactly when 30 ≤ speed ≤ 90, the quadratic exactly when > 90 — one region for every speed |
| `Calculator.CorrectionCoefficients` | app.py:59-79 | the V regions are quartics, the lower two non-V regions cubics and the top one a quadratic |
| `Calculator.Correction` | app.py:55-79 | total in pump type and speed, with no error path; in each of the five regions the correction equals the source's polynomial in specific speed |
| `CalculatorProperties.CorrectionAtBoundaryV` | app.py:57-67 | for type V the speed 100 takes the first quartic's value 0.0566, not the second's 0.04824 |
| `CalculatorProperties.CorrectionAtBoundariesOtherTypes` | app.py:68-79 | for every other type the speeds 30 and 90 take the middle cubic's values 0.81311 and 0.97577, not the neighbouring regions' 0.7726 and 1.15351 |
| `Calculator.DeviationRegionOf` | app.py:83-99 | the regions are flow ≤ 0.05, 0.05 < flow ≤ 0.9, 0.9 < flow ≤ 10 and flow > 10, each in both directions |
| `Calculator.DeviationCoefficients` | app.py:84-99 | the three lower regions are quartics and the region above 10 a constant |
| `Calculator.Deviation` | app.py:82-99 | in each of the three lower regions the deviation equals the source's quartic in flow, and above a flow of 10 it is exactly 1.03 |
| `CalculatorProperties.DeviationAtBoundaries` | app.py:83-97 | the flows 0.05, 0.9 and 10 take the lower region's value (5.190118125, 1.89093677, 1.0292), not the upper one's |
| `Calculator.Display` | app.py:107 | the text is the rendered raw efficiency, the separator ` &plusmn; `, the rendered deviation and ` %`, each piece at its position |
| `Calculator.Calculate` | app.py:19-116 | error precedence unit, then flow, then pump type: each error occurs exactly under its condition, and success exactly when selector, flow and code are all acceptable |
| `CalculatorProperties.CalculateSucceeds` | app.py:104-116 | on success the returned numbers are the three stages' values for the converted flow, and the text renders optimum − correction and the deviation |
| `CalculatorProperties.SelectorActsThroughFlow` | app.py:20-38 | the selector affects the result only through the converted flow |
| `CalculatorProperties.SpeedAffectsOnlyCorrection` | app.py:36-99 | the specific speed changes neither success, the error, the efficiency at optimum nor the deviation |
| `CalculatorProperties.LogarithmOnlyAtFlow` | app.py:32-38 | the logarithm is consulted only at the converted (positive) flow, and not at all when unit or flow is rejected |

## Left out

- The Flask application, CORS, reading the JSON body and building the JSON response, and the HTTP status codes 400 and 500 (app.py:1-17, 110-123): request plumbing; the model returns only the error tag.
- The catch-all `except Exception` and the unexpected-error response (status 500) it builds (app.py:118-120). It absorbs failures of dynamic typing (a missing body, a missing or non-numeric C6 or F5), which a typed input record cannot express, and also numeric overflow, which the model does not have (next lines): the model has no unexpected-error path.
- Overflow: `pow` is `math.pow` (app.py:2), which raises `OverflowError` instead of returning infinity. A large specific speed therefore raises in the correction stage (for example F6 = "V" with F5 = 1e100 at app.py:64; about |F5| > 1e77 at app.py:59, |F5| > 5.6e102 at app.py:70), and an integer C6 too large for a float raises at the conversions of app.py:24, 26 and 28. The source answers these requests with the unexpected-error response; `Calculate` returns `Ok` with the exact real values.
- The selector is an `int`. Python's `==` also treats the JSON values `1.0` and `true` as 1; such non-integer selectors are not modelled.
- The pump type code is a `string`; a non-string F6 compares unequal to every code in the source and is equivalent to an unknown string code here.
- The natural logarithm: a parameter `ln`, of which nothing is assumed, so no numeric value of the efficiency at optimum is proved.
- The two-decimal rendering (`:.2f`): a parameter `fmt`; `Display` states only how the pieces are concatenated, not how numbers are rounded.
- Floating-point behaviour: all arithmetic is exact over the reals, so rounding of coefficients and results, and a tiny positive flow that underflows to 0.0 after division (which the source would reject as non-positive) are not modelled.
