/** Properties of the efficiency calculator: the efficiency at optimum written
    out as the source's quadratic, the region and value chosen at every
    boundary, and how the stages compose into the result. */
module CalculatorProperties {
  import opened Polynomial
  import opened Calculator

  // ---------------------------------------------------------------------------
  // Flow conversion
  // ---------------------------------------------------------------------------

  /** Selector 1 keeps the flow, 2 divides it by 60000, 3 by 1000, and 4
      multiplies it by 0.00006309. */
  lemma ConversionBySelector(v: real)
    requires v > 0.0
    ensures ConvertFlow(1, v).Ok? && ConvertFlow(1, v).value == v
    ensures ConvertFlow(2, v).Ok? && ConvertFlow(2, v).value == v / 60000.0
    ensures ConvertFlow(3, v).Ok? && ConvertFlow(3, v).value == v / 1000.0
    ensures ConvertFlow(4, v).Ok? && ConvertFlow(4, v).value == v * 0.00006309
  {
  }

  /** Converting back from cubic metres per second and then forward again
      gives the flow back: together with the ensures of ToM3s, the two
      conversions are inverse to each other. */
  lemma ToM3sFromM3s(u: FlowUnit, q: real)
    ensures ToM3s(u, FromM3s(u, q)) == q
  {
  }

  /** Every conversion preserves the order of flows. */
  lemma ToM3sMonotone(u: FlowUnit, v1: real, v2: real)
    ensures v1 <= v2 <==> ToM3s(u, v1) <= ToM3s(u, v2)
  {
  }

  // ---------------------------------------------------------------------------
  // Pump types
  // ---------------------------------------------------------------------------

  /** Reading the code of a recognised type gives the type back. */
  lemma ParseCode(t: PumpType)
    requires t != Other
    ensures ParsePumpType(Code(t)) == t
  {
  }

  // ---------------------------------------------------------------------------
  // Efficiency at optimum
  // ---------------------------------------------------------------------------

  /** The efficiency at optimum is, per type, the source's quadratic in
      L = ln(flow). */
  lemma OptimumFormula(t: PumpType, flow: PosReal, ln: PosReal -> real)
    ensures var L := ln(flow);
            var r := Optimum(t, flow, ln);
            && (t == A ==> r.Ok? && r.value == 85.134 + 3.85 * L - 1.152 * (L * L))
            && (t == B ==> r.Ok? && r.value == 87.6345 + 2.0326 * L - 1.4278 * (L * L))
            && (t == C ==> r.Ok? && r.value == 87.6345 + 2.0326 * L - 1.4278 * (L * L))
            && (t == F ==> r.Ok? && r.value == 85.778 - 2.219 * L - 1.481 * (L * L))
            && (t == G ==> r.Ok? && r.value == 88.365 + 1.701 * L - 0.367 * (L * L))
            && (t == J ==> r.Ok? && r.value == 90.466 + 1.074 * L - 0.446 * (L * L))
            && (t == V ==> r.Ok? && r.value == 89.575 + 1.102 * L - 0.539 * (L * L))
            && (t == Other ==> r == Err(InvalidPumpType))
  {
    if t != Other {
      OptimumIsQuadratic(t, flow, ln);
    }
  }

  /** For a recognised type, the efficiency at optimum is the quadratic with
      that type's coefficients. */
  lemma OptimumIsQuadratic(t: PumpType, flow: PosReal, ln: PosReal -> real)
    requires t != Other
    ensures var cs := OptimumCoefficients(t).value;
            var L := ln(flow);
            Optimum(t, flow, ln).Ok? && Optimum(t, flow, ln).value == cs[0] * (L * L) + cs[1] * L + cs[2]
  {
    var cs := OptimumCoefficients(t).value;
    Quadratic(cs[0], cs[1], cs[2], ln(flow));
    assert cs == [cs[0], cs[1], cs[2]];
  }

  /** B and C share one regression family. */
  lemma OptimumBC(flow: PosReal, ln: PosReal -> real)
    ensures Optimum(B, flow, ln) == Optimum(C, flow, ln)
  {
  }

  // ---------------------------------------------------------------------------
  // Efficiency correction
  // ---------------------------------------------------------------------------

  /** The boundary speed 100 belongs to the lower region of type V: the
      first quartic gives 0.0566 there, where the second would give 0.04824. */
  lemma CorrectionAtBoundaryV()
    ensures Correction(V, 100.0) == 0.0566
    ensures Poly(CorrectionCoefficients(VAbove100), 100.0) == 0.04824
  {
  }

  /** For every type other than V the boundary speeds 30 and 90 belong to the
      middle cubic: 0.81311 at 30 (the first cubic would give 0.7726) and
      0.97577 at 90 (the quadratic would give 1.15351). */
  lemma CorrectionAtBoundariesOtherTypes(t: PumpType)
    requires t != V
    ensures Correction(t, 30.0) == 0.81311
    ensures Poly(CorrectionCoefficients(Below30), 30.0) == 0.7726
    ensures Correction(t, 90.0) == 0.97577
    ensures Poly(CorrectionCoefficients(Above90), 90.0) == 1.15351
  {
  }

  // ---------------------------------------------------------------------------
  // Efficiency deviation
  // ---------------------------------------------------------------------------

  /** The boundary flows belong to the lower region: at 0.05 the deviation is
      the first quartic's 5.190118125 (the second would give 4.788966241875),
      at 0.9 the second quartic's 1.89093677 (the third would give
      1.82101691043), and at 10 the third quartic's 1.0292, not 1.03. */
  lemma DeviationAtBoundaries()
    ensures Deviation(0.05) == 5.190118125
    ensures Poly(DeviationCoefficients(UpTo0_9), 0.05) == 4.788966241875
    ensures Deviation(0.9) == 1.89093677
    ensures Poly(DeviationCoefficients(UpTo10), 0.9) == 1.82101691043
    ensures Deviation(10.0) == 1.0292
  {
  }

  // ---------------------------------------------------------------------------
  // The whole calculation
  // ---------------------------------------------------------------------------

  /** On success the returned numbers are exactly the three stages' values for
      the converted flow and the parsed pump type, and the text shows the raw
      actual efficiency (optimum minus correction), the separator, the
      deviation and " %". */
  lemma CalculateSucceeds(inp: CalculationInput, ln: PosReal -> real, fmt: real -> string)
    requires 1 <= inp.unitSelector <= 4 && inp.flowValue > 0.0 && inp.pumpCode in KnownCodes
    ensures var r := Calculate(inp, ln, fmt);
            var q := ToM3s(UnitOf(inp.unitSelector).value, inp.flowValue);
            var t := ParsePumpType(inp.pumpCode);
            var raw := r.value.optimum - r.value.correction;
            && q > 0.0
            && r.Ok?
            && Optimum(t, q, ln) == Ok(r.value.optimum)
            && r.value.correction == Correction(t, inp.specificSpeed)
            && r.value.deviation == Deviation(q)
            && r.value.actualText == fmt(raw) + Separator + fmt(r.value.deviation) + " %"
  {
  }

  /** The unit selector matters only through the flow it produces: two
      requests whose flows convert to the same value get the same result. */
  lemma SelectorActsThroughFlow(inp: CalculationInput, selector: int, value: real,
                                ln: PosReal -> real, fmt: real -> string)
    requires 1 <= inp.unitSelector <= 4 && 1 <= selector <= 4
    requires ToM3s(UnitOf(inp.unitSelector).value, inp.flowValue) == ToM3s(UnitOf(selector).value, value)
    ensures Calculate(inp, ln, fmt) == Calculate(inp.(unitSelector := selector, flowValue := value), ln, fmt)
  {
  }

  /** The specific speed affects only the correction (and through it the
      text): whether the request succeeds, its error, the efficiency at
      optimum and the deviation do not depend on it. */
  lemma SpeedAffectsOnlyCorrection(inp: CalculationInput, speed: real,
                                   ln: PosReal -> real, fmt: real -> string)
    ensures var r1 := Calculate(inp, ln, fmt);
            var r2 := Calculate(inp.(specificSpeed := speed), ln, fmt);
            && r1.Ok? == r2.Ok?
            && (r1.Err? ==> r1.error == r2.error)
            && (r1.Ok? ==> r1.value.optimum == r2.value.optimum && r1.value.deviation == r2.value.deviation)
  {
  }

  /** The logarithm is consulted only at the converted flow, which is
      positive: two logarithms that agree there give the same result, and
      when the unit or the flow is rejected the logarithm plays no part. */
  lemma LogarithmOnlyAtFlow(inp: CalculationInput, ln1: PosReal -> real, ln2: PosReal -> real,
                            fmt: real -> string)
    requires var c := ConvertFlow(inp.unitSelector, inp.flowValue);
             c.Ok? ==> ln1(c.value) == ln2(c.value)
    ensures Calculate(inp, ln1, fmt) == Calculate(inp, ln2, fmt)
  {
  }
}
