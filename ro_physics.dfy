/** The stateless correction formulas of the RO design calculator
    (`calculateTCF` … `calculateAverageElementRecovery` in ROCalculator.tsx). */
module ROPhysics {
  import opened MathLib

  /** Activation constant of the temperature correction at or above 25 °C. */
  const WarmTcfConstant: real := 2640.0
  /** Activation constant below 25 °C. */
  const ColdTcfConstant: real := 3020.0
  /** The source's reference temperature in kelvin (273 + 25, not 298.15). */
  const ReferenceKelvin: real := 298.0
  /** The source's Celsius-to-kelvin offset (273, not 273.15). */
  const KelvinOffset: real := 273.0

  /** The exponent of the temperature correction factor. */
  function TcfExponent(t: real): real
  {
    var k := if t >= 25.0 then WarmTcfConstant else ColdTcfConstant;
    k * (1.0 / ReferenceKelvin - Div(1.0, KelvinOffset + t))
  }

  /** The exponent vanishes at 25 °C, is positive above it and negative
      between absolute zero (on the source's 273 scale) and 25 °C. */
  lemma TcfExponentSign(t: real)
    ensures t == 25.0 ==> TcfExponent(t) == 0.0
    ensures t > 25.0 ==> TcfExponent(t) > 0.0
    ensures -KelvinOffset < t < 25.0 ==> TcfExponent(t) < 0.0
  {
    if t > 25.0 {
      assert 1.0 / (KelvinOffset + t) < 1.0 / ReferenceKelvin;
    } else if -KelvinOffset < t < 25.0 {
      var d := KelvinOffset + t;
      assert (1.0 / d) * d == 1.0;
      assert (1.0 / ReferenceKelvin) * d < 1.0;
      assert 1.0 / d > 1.0 / ReferenceKelvin;
    }
  }

  /** `calculateTCF`: exp(k · (1/298 − 1/(273 + T))), k switching at 25 °C. */
  function Tcf(m: MathLib, t: real): real
  {
    m.exp(TcfExponent(t))
  }

  lemma TcfAtReference(m: MathLib)
    requires Lawful(m)
    ensures Tcf(m, 25.0) == 1.0
  {
    TcfExponentSign(25.0);
  }

  lemma TcfPositive(m: MathLib, t: real)
    requires Lawful(m)
    ensures Tcf(m, t) > 0.0
  {
  }

  /** `calculateOsmoticPressure`: 1.12 · (273 + T) · TDS / 58500. */
  function OsmoticPressure(tds: real, t: real): real
  {
    1.12 * (KelvinOffset + t) * (tds / 58500.0)
  }

  /** Osmotic pressure is zero for pure water and linear in TDS. */
  lemma OsmoticPressureLinear(a: real, b: real, k: real, t: real)
    ensures OsmoticPressure(0.0, t) == 0.0
    ensures OsmoticPressure(a + b, t) == OsmoticPressure(a, t) + OsmoticPressure(b, t)
    ensures OsmoticPressure(k * a, t) == k * OsmoticPressure(a, t)
  {
    var c := 1.12 * (KelvinOffset + t) / 58500.0;
    assert OsmoticPressure(a + b, t) == c * (a + b);
    assert OsmoticPressure(k * a, t) == c * (k * a);
  }

  /** `calculatePolarization`: exp(0.7 · recovery). */
  function Polarization(m: MathLib, recovery: real): real
  {
    m.exp(0.7 * recovery)
  }

  lemma PolarizationOfNoRecovery(m: MathLib, recovery: real)
    requires Lawful(m)
    ensures Polarization(m, 0.0) == 1.0
    ensures Polarization(m, recovery) > 0.0
  {
  }

  /** `calculatePressureDrop`: 20 psi for the first stage, 15 otherwise; the
      flow argument is ignored. */
  function PressureDrop(flow: real, isFirstStage: bool): (d: real)
    ensures d > 0.0
  {
    if isFirstStage then 20.0 else 15.0
  }

  lemma PressureDropIgnoresFlow(f1: real, f2: real, isFirstStage: bool)
    ensures PressureDrop(f1, isFirstStage) == PressureDrop(f2, isFirstStage)
    ensures PressureDrop(f1, true) == 20.0 && PressureDrop(f1, false) == 15.0
  {
  }

  /** `calculateLimitingRecovery`: a fixed 0.85 whatever its arguments. */
  function LimitingRecovery(feedOP: real, cp: real, sr: real, feedP: real, pressureDrop: real, permP: real): real
  {
    0.85
  }

  lemma LimitingRecoveryIsConstant(a: real, b: real, c: real, d: real, e: real, f: real,
                                   a': real, b': real, c': real, d': real, e': real, f': real)
    ensures LimitingRecovery(a, b, c, d, e, f) == LimitingRecovery(a', b', c', d', e', f') == 0.85
  {
  }

  /** Net driving pressure: feed pressure less half the pressure drop, the
      permeate back pressure and the osmotic pressure difference. */
  function NetDrivingPressure(feedP: real, pressureDrop: real, permP: real, feedOP: real, permOP: real): real
  {
    feedP - pressureDrop / 2.0 - permP - (feedOP - permOP)
  }

  /** `calculateTotalPermeateFlow`: A · area · TCF · FF · NDP · elements / 24. */
  function TotalPermeateFlow(elements: real, a: real, area: real, tcf: real, ff: real,
                             feedP: real, pressureDrop: real, permP: real, feedOP: real, permOP: real): real
  {
    (a * area * tcf * ff * NetDrivingPressure(feedP, pressureDrop, permP, feedOP, permOP) * elements) / 24.0
  }

  /** Raising the feed pressure, all else fixed, raises the net driving
      pressure by the same amount and so raises the permeate flow whenever
      the membrane terms are positive. */
  lemma PermeateFlowIncreasesWithFeedPressure(elements: real, a: real, area: real, tcf: real, ff: real,
                                              p1: real, p2: real, pressureDrop: real, permP: real,
                                              feedOP: real, permOP: real)
    requires p1 < p2
    requires elements > 0.0 && a > 0.0 && area > 0.0 && tcf > 0.0 && ff > 0.0
    ensures NetDrivingPressure(p2, pressureDrop, permP, feedOP, permOP)
            - NetDrivingPressure(p1, pressureDrop, permP, feedOP, permOP) == p2 - p1
    ensures TotalPermeateFlow(elements, a, area, tcf, ff, p1, pressureDrop, permP, feedOP, permOP)
            < TotalPermeateFlow(elements, a, area, tcf, ff, p2, pressureDrop, permP, feedOP, permOP)
  {
    var c := a * area * tcf * ff;
    assert c > 0.0;
    var n1 := NetDrivingPressure(p1, pressureDrop, permP, feedOP, permOP);
    var n2 := NetDrivingPressure(p2, pressureDrop, permP, feedOP, permOP);
    assert n1 < n2;
    assert c * n1 < c * n2;
    assert c * n1 * elements < c * n2 * elements;
  }

  /** `calculateAverageElementRecovery`: 1 − (1 − Y)^(1/n), with no guard for
      n = 0. */
  function AverageElementRecovery(m: MathLib, systemRecovery: real, elements: real): real
  {
    1.0 - m.pow(1.0 - systemRecovery, Div(1.0, elements))
  }

  /** With a single element, that element carries the whole system recovery. */
  lemma AverageElementRecoveryOfOneElement(m: MathLib, y: real)
    requires Lawful(m)
    ensures AverageElementRecovery(m, y, 1.0) == y
  {
  }
}
