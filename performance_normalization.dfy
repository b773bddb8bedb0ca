/** Performance normalisation: today's permeate flow is scaled to the
    baseline's pressure and temperature, using the net driving pressure of
    each set of conditions and the membrane temperature correction factor. */
module PerformanceNormalization {
  import opened MathLib
  import ROPhysics

  /** One set of operating conditions. */
  datatype Conditions = Conditions(
    feedPressure: real,
    pressureDrop: real,
    permeatePressure: real,
    feedTds: real,
    temperature: real,
    permeateFlow: real,
    recovery: real)

  /** The page's data: today's conditions and the baseline. */
  datatype NormalizationData = NormalizationData(operating: Conditions, baseline: Conditions)

  /** The starting state: both sets are 800 psi, 20 psi drop, 0 permeate
      pressure, 35000 mg/L, 25 °C, 100 flow and 45 % recovery. */
  const DefaultConditions: Conditions := Conditions(800.0, 20.0, 0.0, 35000.0, 25.0, 100.0, 0.45)
  const DefaultData: NormalizationData := NormalizationData(DefaultConditions, DefaultConditions)

  /** The page's temperature correction factor is the calculator's: 2640
      from 25 °C up and 3020 below, about 298 K and 273 + T. */
  lemma TcfBranches(m: MathLib, t: real)
    requires Lawful(m)
    ensures t >= 25.0 ==> ROPhysics.Tcf(m, t) == m.exp(2640.0 * (1.0 / 298.0 - Div(1.0, 273.0 + t)))
    ensures t < 25.0 ==> ROPhysics.Tcf(m, t) == m.exp(3020.0 * (1.0 / 298.0 - Div(1.0, 273.0 + t)))
    ensures ROPhysics.Tcf(m, 25.0) == 1.0
  {
    ROPhysics.TcfAtReference(m);
  }

  /** `calculateOsmoticPressure`: a low-salinity formula below 20000 mg/L
      and the seawater formula from 20000 up. */
  function OsmoticPressure(tds: real, temperature: real): real
  {
    if tds < 20000.0 then (tds * (temperature + 320.0)) / 491000.0
    else (tds * 1.12 * (273.0 + temperature)) / 58500.0
  }

  /** Both branches vanish at zero salinity and are linear in it: each is
      the salinity times a factor that depends on the temperature only. */
  lemma OsmoticPressureLinear(tds: real, temperature: real)
    ensures OsmoticPressure(0.0, temperature) == 0.0
    ensures tds < 20000.0 ==> OsmoticPressure(tds, temperature) == tds * ((temperature + 320.0) / 491000.0)
    ensures tds >= 20000.0 ==>
              OsmoticPressure(tds, temperature) == tds * (1.12 * (273.0 + temperature) / 58500.0)
  {
  }

  /** `calculateFeedConcentrate`: feed TDS times ln(1/(1 − R))/R, the
      log-mean concentration factor. */
  function FeedConcentrate(m: MathLib, feedTds: real, recovery: real): (c: real)
    ensures recovery != 0.0 ==> c * recovery == feedTds * m.ln(Div(1.0, 1.0 - recovery))
  {
    feedTds * Div(m.ln(Div(1.0, 1.0 - recovery)), recovery)
  }

  /** Net driving pressure: feed pressure less half the drop, the permeate
      back pressure and the osmotic pressure of the log-mean concentrate. */
  function NetDrivingPressure(m: MathLib, c: Conditions): (ndp: real)
    ensures ndp + c.pressureDrop / 2.0 + c.permeatePressure
              + OsmoticPressure(FeedConcentrate(m, c.feedTds, c.recovery), c.temperature)
            == c.feedPressure
  {
    var fc := FeedConcentrate(m, c.feedTds, c.recovery);
    var op := OsmoticPressure(fc, c.temperature);
    c.feedPressure - c.pressureDrop / 2.0 - c.permeatePressure - op
  }

  /** The normalised flow and its deviation from today's flow. */
  datatype Normalization = Normalization(normalizedFlow: real, deviationPercent: real)

  /** `calculateNormalizedFlow`: the baseline flow scaled by the ratio of
      driving pressures and the ratio of correction factors. */
  function NormalizedFlow(m: MathLib, data: NormalizationData): (r: Normalization)
    requires Lawful(m)
    ensures NetDrivingPressure(m, data.baseline) != 0.0 ==>
              r.normalizedFlow * NetDrivingPressure(m, data.baseline) * ROPhysics.Tcf(m, data.baseline.temperature)
                == NetDrivingPressure(m, data.operating) * ROPhysics.Tcf(m, data.operating.temperature)
                   * data.baseline.permeateFlow
    ensures data.operating.permeateFlow != 0.0 ==>
              r.deviationPercent * data.operating.permeateFlow
                == (r.normalizedFlow - data.operating.permeateFlow) * 100.0
  {
    var op := data.operating;
    var bl := data.baseline;
    var opTcf := ROPhysics.Tcf(m, op.temperature);
    var blTcf := ROPhysics.Tcf(m, bl.temperature);
    var opNdp := NetDrivingPressure(m, op);
    var blNdp := NetDrivingPressure(m, bl);
    var pressureRatio := Div(opNdp, blNdp);
    var tcfRatio := Div(opTcf, blTcf);
    ROPhysics.TcfPositive(m, bl.temperature);
    var normalizedFlow := (pressureRatio * tcfRatio) * bl.permeateFlow;
    var deviation := Div(normalizedFlow - op.permeateFlow, op.permeateFlow) * 100.0;
    NormalizedFlowScaling(pressureRatio, tcfRatio, opNdp, blNdp, opTcf, blTcf, bl.permeateFlow);
    Normalization(normalizedFlow, deviation)
  }

  lemma NormalizedFlowScaling(pr: real, tr: real, opNdp: real, blNdp: real, opTcf: real, blTcf: real, flow: real)
    requires blNdp != 0.0 ==> pr * blNdp == opNdp
    requires blTcf != 0.0 && tr * blTcf == opTcf
    ensures blNdp != 0.0 ==> (pr * tr) * flow * blNdp * blTcf == opNdp * opTcf * flow
  {
    if blNdp != 0.0 {
      calc {
        (pr * tr) * flow * blNdp * blTcf;
        (pr * blNdp) * (tr * blTcf) * flow;
        opNdp * opTcf * flow;
      }
    }
  }

  /** When today's conditions are the baseline's, the normalised flow is the
      baseline flow and the deviation is 0. */
  lemma IdenticalConditions(m: MathLib, data: NormalizationData)
    requires Lawful(m)
    requires data.operating == data.baseline
    requires NetDrivingPressure(m, data.baseline) != 0.0 && data.baseline.permeateFlow != 0.0
    ensures NormalizedFlow(m, data).normalizedFlow == data.baseline.permeateFlow
    ensures NormalizedFlow(m, data).deviationPercent == 0.0
  {
    var ndp := NetDrivingPressure(m, data.baseline);
    var tcf := ROPhysics.Tcf(m, data.baseline.temperature);
    ROPhysics.TcfPositive(m, data.baseline.temperature);
    var r := NormalizedFlow(m, data);
    assert r.normalizedFlow * (ndp * tcf) == data.baseline.permeateFlow * (ndp * tcf);
    assert ndp * tcf != 0.0;
  }

  /** The page opens on identical conditions, so it shows the baseline flow
      and no deviation. */
  lemma DefaultShowsNoDeviation(m: MathLib)
    requires Lawful(m)
    requires NetDrivingPressure(m, DefaultConditions) != 0.0
    ensures NormalizedFlow(m, DefaultData).normalizedFlow == 100.0
    ensures NormalizedFlow(m, DefaultData).deviationPercent == 0.0
    ensures !DeviationAlarm(NormalizedFlow(m, DefaultData).deviationPercent)
  {
    IdenticalConditions(m, DefaultData);
  }

  /** The deviation is shown in red when it exceeds 15 % either way. */
  predicate DeviationAlarm(deviationPercent: real)
  {
    (if deviationPercent < 0.0 then -deviationPercent else deviationPercent) > 15.0
  }

  lemma DeviationAlarmBands(d: real)
    ensures DeviationAlarm(d) <==> d > 15.0 || d < -15.0
    ensures !DeviationAlarm(15.0) && !DeviationAlarm(-15.0)
  {
  }

  /** The seven inputs of one set of conditions. */
  datatype ConditionField =
    | FeedPressure | PressureDrop | PermeatePressure | FeedTds | Temperature | PermeateFlow | Recovery

  function Get(c: Conditions, f: ConditionField): real
  {
    match f
    case FeedPressure => c.feedPressure
    case PressureDrop => c.pressureDrop
    case PermeatePressure => c.permeatePressure
    case FeedTds => c.feedTds
    case Temperature => c.temperature
    case PermeateFlow => c.permeateFlow
    case Recovery => c.recovery
  }

  /** Today's conditions or the baseline. */
  function Side(data: NormalizationData, operating: bool): Conditions
  {
    if operating then data.operating else data.baseline
  }

  /** `handleInputChange`: one field of one set takes the input (an
      unreadable input reads as 0); everything else is kept. */
  function HandleInputChange(data: NormalizationData, operating: bool, f: ConditionField, input: Field)
    : (r: NormalizationData)
    ensures Get(Side(r, operating), f) == OrZero(input)
    ensures forall g :: g != f ==>
              Get(Side(r, operating), g)
                == Get(Side(data, operating), g)
    ensures operating ==> r.baseline == data.baseline
    ensures !operating ==> r.operating == data.operating
  {
    var v := OrZero(input);
    var c := Side(data, operating);
    var updated :=
      match f
      case FeedPressure => c.(feedPressure := v)
      case PressureDrop => c.(pressureDrop := v)
      case PermeatePressure => c.(permeatePressure := v)
      case FeedTds => c.(feedTds := v)
      case Temperature => c.(temperature := v)
      case PermeateFlow => c.(permeateFlow := v)
      case Recovery => c.(recovery := v);
    if operating then data.(operating := updated) else data.(baseline := updated)
  }

  /** Today's permeate flow enters only the deviation: editing it leaves the
      normalised flow as it was. */
  lemma PermeateFlowEditKeepsNormalizedFlow(m: MathLib, data: NormalizationData, input: Field)
    requires Lawful(m)
    ensures NormalizedFlow(m, HandleInputChange(data, true, PermeateFlow, input)).normalizedFlow
              == NormalizedFlow(m, data).normalizedFlow
  {
    var r := HandleInputChange(data, true, PermeateFlow, input);
    assert r.operating == data.operating.(permeateFlow := OrZero(input));
    assert NetDrivingPressure(m, r.operating) == NetDrivingPressure(m, data.operating);
  }
}
