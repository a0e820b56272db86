/** The pump efficiency calculator: converts the pump flow to cubic metres per
    second, checks it, and evaluates the three empirical regressions (efficiency
    at optimum, efficiency correction, efficiency deviation) before assembling
    the actual efficiency. Every stage is a pure function; failures are values
    of `Result`, in the order in which the calculator detects them.

    Arithmetic is exact over `real`. The natural logarithm and the two-decimal
    text rendering are not definable here, so they are parameters: `ln` takes
    a `PosReal`, which makes the verifier check at every application that the
    logarithm is taken of a strictly positive number. */
module Calculator {
  import opened Polynomial

  datatype Option<T> = None | Some(value: T)

  /** The client input errors the calculator reports. */
  datatype Error = InvalidUnit | NonPositiveFlow | InvalidPumpType

  datatype Result<T> = Ok(value: T) | Err(error: Error)

  /** Strictly positive reals: the only arguments the logarithm accepts. */
  type PosReal = x: real | x > 0.0 witness 1.0

  /** One request: C5 (flow unit selector), C6 (flow value), F5 (specific speed)
      and F6 (pump type code). */
  datatype CalculationInput = CalculationInput(
    unitSelector: int,
    flowValue: real,
    specificSpeed: real,
    pumpCode: string)

  /** The four values the calculator returns on success. */
  datatype Efficiencies = Efficiencies(
    optimum: real,
    correction: real,
    deviation: real,
    actualText: string)

  // ---------------------------------------------------------------------------
  // Flow unit conversion (F4)
  // ---------------------------------------------------------------------------

  datatype FlowUnit = CubicMetresPerSecond | LitresPerMinute | LitresPerSecond | UsGallonsPerMinute

  /** The number of a unit in the C5 selector. */
  function Selector(u: FlowUnit): int
  {
    match u
    case CubicMetresPerSecond => 1
    case LitresPerMinute => 2
    case LitresPerSecond => 3
    case UsGallonsPerMinute => 4
  }

  /** The unit a C5 selector names, if any. */
  function UnitOf(selector: int): (u: Option<FlowUnit>)
    ensures u.Some? <==> 1 <= selector <= 4
    ensures u.Some? ==> Selector(u.value) == selector
  {
    if selector == 1 then Some(CubicMetresPerSecond)
    else if selector == 2 then Some(LitresPerMinute)
    else if selector == 3 then Some(LitresPerSecond)
    else if selector == 4 then Some(UsGallonsPerMinute)
    else None
  }

  /** Converts a flow given in the unit back from cubic metres per second. */
  function FromM3s(u: FlowUnit, q: real): real
  {
    match u
    case CubicMetresPerSecond => q
    case LitresPerMinute => q * 60000.0
    case LitresPerSecond => q * 1000.0
    case UsGallonsPerMinute => q / 0.00006309
  }

  /** Converts a flow given in the unit to cubic metres per second. The
      conversion is invertible and keeps the sign of the flow. */
  function ToM3s(u: FlowUnit, v: real): (q: real)
    ensures FromM3s(u, q) == v
    ensures q > 0.0 <==> v > 0.0
  {
    match u
    case CubicMetresPerSecond => v
    case LitresPerMinute => v / 60000.0
    case LitresPerSecond => v / 1000.0
    case UsGallonsPerMinute => v * 0.00006309
  }

  /** Unit selection and the positivity check that guards the logarithm.
      An unknown selector is reported before the flow is looked at; a
      converted flow of zero or less is reported next. */
  function ConvertFlow(selector: int, value: real): (r: Result<PosReal>)
    ensures r == Err(InvalidUnit) <==> !(1 <= selector <= 4)
    ensures r == Err(NonPositiveFlow) <==> 1 <= selector <= 4 && value <= 0.0
    ensures r.Ok? <==> 1 <= selector <= 4 && value > 0.0
    ensures r.Ok? ==> FromM3s(UnitOf(selector).value, r.value) == value
  {
    match UnitOf(selector)
    case None => Err(InvalidUnit)
    case Some(u) =>
      var q := ToM3s(u, value);
      if q <= 0.0 then Err(NonPositiveFlow) else Ok(q)
  }

  // ---------------------------------------------------------------------------
  // Pump types
  // ---------------------------------------------------------------------------

  /** The seven regression families, and every other code. */
  datatype PumpType = A | B | C | F | G | J | V | Other

  const KnownCodes: set<string> := {"A", "B", "C", "F", "G", "J", "V"}

  /** The F6 code of a recognised pump type. */
  function Code(t: PumpType): string
    requires t != Other
  {
    match t
    case A => "A"
    case B => "B"
    case C => "C"
    case F => "F"
    case G => "G"
    case J => "J"
    case V => "V"
  }

  /** Reads an F6 code; codes are compared exactly, so "a" or " A" is Other. */
  function ParsePumpType(code: string): (t: PumpType)
    ensures t == Other <==> code !in KnownCodes
    ensures t != Other ==> Code(t) == code
  {
    if code == "A" then A
    else if code == "B" then B
    else if code == "C" then C
    else if code == "F" then F
    else if code == "G" then G
    else if code == "J" then J
    else if code == "V" then V
    else Other
  }

  // ---------------------------------------------------------------------------
  // F9: efficiency at optimum, a quadratic in ln(flow)
  // ---------------------------------------------------------------------------

  /** The quadratic's coefficients (ln(flow)^2, ln(flow), constant) per family;
      B and C share one family, and an unknown type has none. */
  function OptimumCoefficients(t: PumpType): (cs: Option<seq<real>>)
    ensures cs.None? <==> t == Other
    ensures cs.Some? ==> |cs.value| == 3
  {
    match t
    case A => Some([-1.152, 3.85, 85.134])
    case B | C => Some([-1.4278, 2.0326, 87.6345])
    case F => Some([-1.481, -2.219, 85.778])
    case G => Some([-0.367, 1.701, 88.365])
    case J => Some([-0.446, 1.074, 90.466])
    case V => Some([-0.539, 1.102, 89.575])
    case Other => None
  }

  /** Efficiency at optimum for a validated flow. The logarithm is taken
      first, as in the source, and is defined because the flow is positive. */
  function Optimum(t: PumpType, flow: PosReal, ln: PosReal -> real): (r: Result<real>)
    ensures r.Err? <==> t == Other
    ensures r.Err? ==> r.error == InvalidPumpType
  {
    var lnFlow := ln(flow);
    match OptimumCoefficients(t)
    case None => Err(InvalidPumpType)
    case Some(cs) => Ok(Poly(cs, lnFlow))
  }

  // ---------------------------------------------------------------------------
  // F10: efficiency correction, piecewise in specific speed
  // ---------------------------------------------------------------------------

  /** The five regions of the correction regression. */
  datatype CorrectionRegion = VUpTo100 | VAbove100 | Below30 | From30To90 | Above90

  /** Type V splits at 100 (100 belongs to the lower region); every other type
      splits below 30, from 30 to 90 inclusive, and above 90. */
  function CorrectionRegionOf(t: PumpType, speed: real): (g: CorrectionRegion)
    ensures g == VUpTo100 <==> t == V && speed <= 100.0
    ensures g == VAbove100 <==> t == V && speed > 100.0
    ensures g == Below30 <==> t != V && speed < 30.0
    ensures g == From30To90 <==> t != V && 30.0 <= speed <= 90.0
    ensures g == Above90 <==> t != V && speed > 90.0
  {
    if t == V then
      if speed <= 100.0 then VUpTo100 else VAbove100
    else if speed < 30.0 then Below30
    else if speed <= 90.0 then From30To90
    else Above90
  }

  /** Each region's polynomial in specific speed, highest degree first. */
  function CorrectionCoefficients(g: CorrectionRegion): (cs: seq<real>)
    ensures |cs| == match g
                    case VUpTo100 | VAbove100 => 5
                    case Below30 | From30To90 => 4
                    case Above90 => 3
  {
    match g
    case VUpTo100 => [0.00000001875, -0.00001219, 0.002517, -0.2123, 6.4316]
    case VAbove100 => [0.0000000006184, -0.0000007899, 0.0003441, -0.0471, 2.0453]
    case Below30 => [-0.0002692, 0.02558, -0.9566, 13.717]
    case From30To90 => [-0.00002077, 0.004611, -0.3076, 6.452]
    case Above90 => [0.0000471, 0.01879, -0.9191]
  }

  /** Efficiency correction: defined for every type and every speed, and in
      each region the source's polynomial in the specific speed s. */
  function Correction(t: PumpType, s: real): (r: real)
    ensures t == V && s <= 100.0 ==>
              r == 0.00000001875 * (s * s * s * s) - 0.00001219 * (s * s * s)
                   + 0.002517 * (s * s) - 0.2123 * s + 6.4316
    ensures t == V && s > 100.0 ==>
              r == 0.0000000006184 * (s * s * s * s) - 0.0000007899 * (s * s * s)
                   + 0.0003441 * (s * s) - 0.0471 * s + 2.0453
    ensures t != V && s < 30.0 ==>
              r == -0.0002692 * (s * s * s) + 0.02558 * (s * s) - 0.9566 * s + 13.717
    ensures t != V && 30.0 <= s <= 90.0 ==>
              r == -0.00002077 * (s * s * s) + 0.004611 * (s * s) - 0.3076 * s + 6.452
    ensures t != V && s > 90.0 ==>
              r == 0.0000471 * (s * s) + 0.01879 * s - 0.9191
  {
    var cs := CorrectionCoefficients(CorrectionRegionOf(t, s));
    if |cs| == 5 then
      Quartic(cs[0], cs[1], cs[2], cs[3], cs[4], s);
      assert cs == [cs[0], cs[1], cs[2], cs[3], cs[4]];
      Poly(cs, s)
    else if |cs| == 4 then
      Cubic(cs[0], cs[1], cs[2], cs[3], s);
      assert cs == [cs[0], cs[1], cs[2], cs[3]];
      Poly(cs, s)
    else
      Quadratic(cs[0], cs[1], cs[2], s);
      assert cs == [cs[0], cs[1], cs[2]];
      Poly(cs, s)
  }

  // ---------------------------------------------------------------------------
  // F11: efficiency deviation, piecewise in flow
  // ---------------------------------------------------------------------------

  /** The four regions of the deviation regression, each closed above. */
  datatype DeviationRegion = UpTo0_05 | UpTo0_9 | UpTo10 | Above10

  /** The third region is the one the source writes as `elif: flow <= 10:`,
      a malformed conditional whose evident meaning, given the branches around
      it, is `elif flow <= 10`; that reading is modelled here. */
  function DeviationRegionOf(q: real): (g: DeviationRegion)
    ensures g == UpTo0_05 <==> q <= 0.05
    ensures g == UpTo0_9 <==> 0.05 < q <= 0.9
    ensures g == UpTo10 <==> 0.9 < q <= 10.0
    ensures g == Above10 <==> q > 10.0
  {
    if q <= 0.05 then UpTo0_05
    else if q <= 0.9 then UpTo0_9
    else if q <= 10.0 then UpTo10
    else Above10
  }

  /** Each region's polynomial in flow, highest degree first; above 10 the
      deviation is the constant 1.03. */
  function DeviationCoefficients(g: DeviationRegion): (cs: seq<real>)
    ensures |cs| == if g == Above10 then 1 else 5
  {
    match g
    case UpTo0_05 => [19907642.3, -2287352.57, 90466.93, -1521.98, 16.6181]
    case UpTo0_9 => [56.5767, -120.2869, 89.0594, -28.54, 6.008]
    case UpTo10 => [0.0003773, -0.0105409, 0.111228, -0.55649, 2.2392]
    case Above10 => [1.03]
  }

  /** Efficiency deviation for a flow q in cubic metres per second: in each
      region the source's quartic in q, and the constant 1.03 above 10. */
  function Deviation(q: real): (r: real)
    ensures q <= 0.05 ==>
              r == 19907642.3 * (q * q * q * q) - 2287352.57 * (q * q * q)
                   + 90466.93 * (q * q) - 1521.98 * q + 16.6181
    ensures 0.05 < q <= 0.9 ==>
              r == 56.5767 * (q * q * q * q) - 120.2869 * (q * q * q)
                   + 89.0594 * (q * q) - 28.54 * q + 6.008
    ensures 0.9 < q <= 10.0 ==>
              r == 0.0003773 * (q * q * q * q) - 0.0105409 * (q * q * q)
                   + 0.111228 * (q * q) - 0.55649 * q + 2.2392
    ensures q > 10.0 ==> r == 1.03
  {
    var cs := DeviationCoefficients(DeviationRegionOf(q));
    if |cs| == 5 then
      Quartic(cs[0], cs[1], cs[2], cs[3], cs[4], q);
      assert cs == [cs[0], cs[1], cs[2], cs[3], cs[4]];
      Poly(cs, q)
    else
      Constant(1.03, q);
      Poly(cs, q)
  }

  // ---------------------------------------------------------------------------
  // F12: assembly
  // ---------------------------------------------------------------------------

  const Separator: string := " &plusmn; "

  /** The actual-efficiency text: the raw efficiency and the deviation, each
      rendered by `fmt` (two decimals in the source), joined by the separator
      and followed by " %". */
  function Display(raw: real, deviation: real, fmt: real -> string): (s: string)
    ensures |s| == |fmt(raw)| + |Separator| + |fmt(deviation)| + 2
    ensures s[..|fmt(raw)|] == fmt(raw)
    ensures s[|fmt(raw)|..|fmt(raw)| + |Separator|] == Separator
    ensures s[|fmt(raw)| + |Separator|..|s| - 2] == fmt(deviation)
    ensures s[|s| - 2..] == " %"
  {
    fmt(raw) + Separator + fmt(deviation) + " %"
  }

  /** The whole calculation. Errors take precedence in the order unit,
      flow, pump type; success exactly when all three inputs are acceptable. */
  function Calculate(inp: CalculationInput, ln: PosReal -> real, fmt: real -> string): (r: Result<Efficiencies>)
    ensures r == Err(InvalidUnit) <==> !(1 <= inp.unitSelector <= 4)
    ensures r == Err(NonPositiveFlow) <==> 1 <= inp.unitSelector <= 4 && inp.flowValue <= 0.0
    ensures r == Err(InvalidPumpType) <==>
              1 <= inp.unitSelector <= 4 && inp.flowValue > 0.0 && inp.pumpCode !in KnownCodes
    ensures r.Ok? <==> 1 <= inp.unitSelector <= 4 && inp.flowValue > 0.0 && inp.pumpCode in KnownCodes
  {
    match ConvertFlow(inp.unitSelector, inp.flowValue)
    case Err(e) => Err(e)
    case Ok(q) =>
      var t := ParsePumpType(inp.pumpCode);
      match Optimum(t, q, ln)
      case Err(e) => Err(e)
      case Ok(optimum) =>
        var correction := Correction(t, inp.specificSpeed);
        var deviation := Deviation(q);
        var raw := optimum - correction;
        Ok(Efficiencies(optimum, correction, deviation, Display(raw, deviation, fmt)))
  }
}
