/** The cleaning-evaluation panel: percent changes of the last stored
    evaluation row against the first, the three cleaning thresholds, and the
    cleaning-tank size for a set of elements. */
module ROCleaning {
  import opened MathLib
  import OperatingData

  /** A performance field: the empty string until two rows are stored,
      then a percentage. */
  datatype Percentage = Blank | Percent(value: real)

  datatype PerformanceData = PerformanceData(normalizedFlow: Percentage, saltPassage: Percentage, pressureDrop: Percentage)

  const BlankPerformance: PerformanceData := PerformanceData(Blank, Blank, Blank)

  /** The mount effect: with at least two stored rows, each field is the
      percent change of the last row against the first; otherwise every field
      stays blank. `stored` is what the browser storage holds, if anything. */
  function EvaluatePerformance(stored: Option<seq<OperatingData.Derived>>): (p: PerformanceData)
    ensures stored.None? || |stored.value| < 2 ==> p == BlankPerformance
    ensures stored.Some? && |stored.value| >= 2 ==>
              p.normalizedFlow.Percent? && p.saltPassage.Percent? && p.pressureDrop.Percent?
  {
    match stored
    case None => BlankPerformance
    case Some(data) =>
      if |data| < 2 then BlankPerformance
      else
        var latest := data[|data| - 1];
        var baseline := data[0];
        PerformanceData(
          Percent(OperatingData.PercentChange(latest.nQp, baseline.nQp)),
          Percent(OperatingData.PercentChange(latest.nSr, baseline.nSr)),
          Percent(OperatingData.PercentChange(latest.nDp, baseline.nDp)))
  }

  /** The rows' derived values, as the evaluation log stores them. */
  function DerivedOf(logs: seq<OperatingData.Row>): (d: seq<OperatingData.Derived>)
    ensures |d| == |logs|
    ensures forall k :: 0 <= k < |logs| ==> d[k] == logs[k].derived
  {
    seq(|logs|, k requires 0 <= k < |logs| => logs[k].derived)
  }

  /** The panel reads the same percent changes the evaluation log computes
      from the same rows. */
  lemma PanelAgreesWithLog(logs: seq<OperatingData.Row>)
    ensures OperatingData.CleaningChanges(logs).None? <==>
              EvaluatePerformance(Some(DerivedOf(logs))) == BlankPerformance
    ensures OperatingData.CleaningChanges(logs).Some? ==>
              var c := OperatingData.CleaningChanges(logs).value;
              EvaluatePerformance(Some(DerivedOf(logs)))
                == PerformanceData(Percent(c.flowDecline), Percent(c.saltPassageIncrease), Percent(c.pressureDropIncrease))
  {
  }

  /** `parseFloat(field) <= limit`; a blank field is NaN and never passes. */
  predicate AtMost(p: Percentage, limit: real)
  {
    p.Percent? && p.value <= limit
  }

  /** `parseFloat(field) >= limit`; a blank field is NaN and never passes. */
  predicate AtLeast(p: Percentage, limit: real)
  {
    p.Percent? && p.value >= limit
  }

  /** Which cards say 'Cleaning Required'. */
  function CleaningFlags(p: PerformanceData): (f: OperatingData.Flags)
    ensures p == BlankPerformance ==> f == OperatingData.Flags(false, false, false)
  {
    OperatingData.Flags(AtMost(p.normalizedFlow, -10.0), AtLeast(p.saltPassage, 10.0), AtLeast(p.pressureDrop, 15.0))
  }

  /** The panel flags exactly what the evaluation log's alert flags: salt
      passage at 10 %, not at the 5 % of the log's inline panel. */
  lemma PanelFlagsMatchAlert(logs: seq<OperatingData.Row>)
    requires |logs| >= 2
    ensures CleaningFlags(EvaluatePerformance(Some(DerivedOf(logs))))
              == OperatingData.AlertFlags(OperatingData.CleaningChanges(logs).value)
  {
    PanelAgreesWithLog(logs);
  }

  /** The message under each card. */
  function CardMessage(required: bool): string
  {
    if required then "Cleaning Required" else "Within Normal Range"
  }

  /** The card thresholds: flow at or below −10 %, salt passage at or above
      10 %, pressure drop at or above 15 %. */
  lemma CleaningThresholds(flow: real, salt: real, drop: real)
    ensures CleaningFlags(PerformanceData(Percent(flow), Percent(salt), Percent(drop)))
              == OperatingData.Flags(flow <= -10.0, salt >= 10.0, drop >= 15.0)
    ensures CardMessage(flow <= -10.0) == "Cleaning Required" <==> flow <= -10.0
  {
  }

  // ---------------------------------------------------------------------
  // Tank sizing
  // ---------------------------------------------------------------------

  /** The sizing inputs (lengths in inches) and the two results in gallons. */
  datatype TankDimensions = TankDimensions(
    numberOfElements: real,
    elementLength: real,
    elementDiameter: real,
    cleaningSolutionVolume: real,
    tankVolume: real)

  const DefaultTank: TankDimensions := TankDimensions(6.0, 40.0, 4.0, 0.0, 0.0)

  /** Cubic inches per US gallon. */
  const CubicInchesPerGallon: real := 231.0

  /** The volume of the elements in cubic inches: π r² L n. */
  function ElementVolume(m: MathLib, t: TankDimensions): real
  {
    m.pi * m.pow(t.elementDiameter / 2.0, 2.0) * t.elementLength * t.numberOfElements
  }

  /** `calculateTankSize`: five element volumes of solution and a tank 20 %
      larger, in gallons; the inputs are kept. */
  function CalculateTankSize(m: MathLib, t: TankDimensions): (r: TankDimensions)
    ensures r.numberOfElements == t.numberOfElements && r.elementLength == t.elementLength
    ensures r.elementDiameter == t.elementDiameter
    ensures r.cleaningSolutionVolume * CubicInchesPerGallon == 5.0 * ElementVolume(m, t)
    ensures r.tankVolume * CubicInchesPerGallon == 6.0 * ElementVolume(m, t)
  {
    var elementVolume := ElementVolume(m, t);
    var cleaningSolutionVolume := elementVolume * 5.0;
    var tankVolume := cleaningSolutionVolume * 1.2;
    t.(cleaningSolutionVolume := cleaningSolutionVolume / CubicInchesPerGallon,
       tankVolume := tankVolume / CubicInchesPerGallon)
  }

  /** The tank is 1.2 times the solution; sizing again gives the same
      result, since it never reads the previous results. */
  lemma TankSizeFacts(m: MathLib, t: TankDimensions)
    ensures CalculateTankSize(m, t).tankVolume == 1.2 * CalculateTankSize(m, t).cleaningSolutionVolume
    ensures CalculateTankSize(m, CalculateTankSize(m, t)) == CalculateTankSize(m, t)
  {
    var r := CalculateTankSize(m, t);
    assert ElementVolume(m, r) == ElementVolume(m, t);
  }
}
