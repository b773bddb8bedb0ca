/** The membrane-evaluation log: normalisation of one day's readings to
    25 °C, the log of readings with its add and delete actions, the
    cleaning-requirement comparison of the last reading against the first,
    and the cleaning-tank volume estimate. */
module OperatingData {
  import opened MathLib

  // ---------------------------------------------------------------------
  // Readings and their normalisation
  // ---------------------------------------------------------------------

  /** One day's readings. The date is a day number (days since an epoch). */
  datatype Entry = Entry(
    date: int,
    feedFlow: real,
    feedPressure: real,
    permeatePressure: real,
    concentratePressure: real,
    permeateFlow: real,
    feedTemp: real,
    feedConductivity: real,
    permeateConductivity: real)

  /** The values derived from a reading. */
  datatype Derived = Derived(
    days: real, dP: real, f: real, r: real,
    nQp: real, nSp: real, nSr: real, nDp: real)

  /** A logged row: the reading together with what was derived from it. */
  datatype Row = Row(entry: Entry, derived: Derived)

  /** The exponent of the evaluation log's temperature correction factor. */
  function TcfExponent(t: real): (x: real)
    ensures t == 25.0 ==> x == 0.0
  {
    2640.0 * (1.0 / 298.0 - Div(1.0, 273.0 + t))
  }

  /** exp(2640·(1/298 − 1/(273 + T))). */
  function Tcf(m: MathLib, t: real): real
  {
    m.exp(TcfExponent(t))
  }

  lemma TcfFacts(m: MathLib, t: real)
    requires Lawful(m)
    ensures Tcf(m, t) > 0.0
    ensures t == 25.0 ==> Tcf(m, t) == 1.0
  {
  }

  /** `calculateResults`: pressure drop, flow fraction, rejection, and the
      same four quantities divided by one temperature correction factor. */
  function CalculateResults(m: MathLib, entry: Entry, firstEntry: Option<Entry>): (d: Derived)
    requires Lawful(m)
    ensures firstEntry.None? ==> d.days == 0.0
    ensures firstEntry.Some? ==> d.days == (entry.date - firstEntry.value.date) as real
    ensures d.dP + entry.concentratePressure == entry.feedPressure
    ensures entry.feedFlow != 0.0 ==> d.f * entry.feedFlow == entry.permeateFlow
    ensures entry.feedConductivity != 0.0 ==>
              d.r * entry.feedConductivity == (entry.feedConductivity - entry.permeateConductivity) * 100.0
    ensures d.nQp * Tcf(m, entry.feedTemp) == entry.permeateFlow
    ensures d.nSp * Tcf(m, entry.feedTemp) == entry.feedPressure
    ensures d.nSr * Tcf(m, entry.feedTemp) == d.r
    ensures d.nDp * Tcf(m, entry.feedTemp) == d.dP
  {
    var start := if firstEntry.Some? then firstEntry.value.date else entry.date;
    var days := (entry.date - start) as real;
    var dP := entry.feedPressure - entry.concentratePressure;
    var f := Div(entry.permeateFlow, entry.feedFlow);
    var r := (1.0 - Div(entry.permeateConductivity, entry.feedConductivity)) * 100.0;
    var tcf := Tcf(m, entry.feedTemp);
    TcfFacts(m, entry.feedTemp);
    Derived(days, dP, f, r, Div(entry.permeateFlow, tcf), Div(entry.feedPressure, tcf),
      Div(r, tcf), Div(dP, tcf))
  }

  /** At 25 °C the normalised values are the raw ones. */
  lemma NormalisedAtReference(m: MathLib, entry: Entry, firstEntry: Option<Entry>)
    requires Lawful(m) && entry.feedTemp == 25.0
    ensures CalculateResults(m, entry, firstEntry).nQp == entry.permeateFlow
    ensures CalculateResults(m, entry, firstEntry).nSp == entry.feedPressure
    ensures CalculateResults(m, entry, firstEntry).nSr == CalculateResults(m, entry, firstEntry).r
    ensures CalculateResults(m, entry, firstEntry).nDp == entry.feedPressure - entry.concentratePressure
  {
    TcfFacts(m, 25.0);
  }

  /** `logs[0]`, which is undefined for an empty log. */
  function FirstEntry(logs: seq<Row>): (e: Option<Entry>)
    ensures e.Some? <==> |logs| > 0
    ensures |logs| > 0 ==> e.value == logs[0].entry
  {
    if |logs| == 0 then None else Some(logs[0].entry)
  }

  // ---------------------------------------------------------------------
  // The log
  // ---------------------------------------------------------------------

  /** The log with its position removed: `logs.filter((_, i) => i !== index)`,
      written as the filter it is. */
  function Without<T>(s: seq<T>, index: int): seq<T>
  {
    if s == [] then []
    else Without(s[..|s| - 1], index) + (if |s| - 1 != index then [s[|s| - 1]] else [])
  }

  /** Filtering out one position removes exactly that element and keeps the
      others in order; an index outside the log changes nothing. */
  lemma {:induction false} WithoutRemovesOne<T>(s: seq<T>, index: int)
    ensures 0 <= index < |s| ==> Without(s, index) == s[..index] + s[index + 1..]
    ensures !(0 <= index < |s|) ==> Without(s, index) == s
    decreases |s|
  {
    if s != [] {
      var n := |s| - 1;
      WithoutRemovesOne(s[..n], index);
      if index == n {
        assert s[..index] == s[..n];
        assert s[index + 1..] == [];
      } else if 0 <= index < n {
        assert s[..n][..index] == s[..index];
        assert s[..n][index + 1..] + [s[n]] == s[index + 1..];
      } else {
        assert s[..n] + [s[n]] == s;
      }
    }
  }

  /** The evaluation page's state: the reading being edited and the log. */
  class EvaluationLog {
    var current: Entry
    var logs: seq<Row>

    /** A fresh page: all readings 0, dated today, and an empty log. */
    constructor(today: int)
      ensures current == Entry(today, 0.0, 0.0, 0.0, 0.0, 0.0, 0.0, 0.0, 0.0)
      ensures logs == []
    {
      current := Entry(today, 0.0, 0.0, 0.0, 0.0, 0.0, 0.0, 0.0, 0.0);
      logs := [];
    }

    /** `handleAddEntry`: append the current reading with its derived values,
        measured from the first logged reading, then re-date the reading. */
    method AddEntry(m: MathLib, today: int)
      requires Lawful(m)
      modifies this
      ensures logs == old(logs) + [Row(old(current), CalculateResults(m, old(current), FirstEntry(old(logs))))]
      ensures current == old(current).(date := today)
    {
      var firstEntry := FirstEntry(logs);
      var results := CalculateResults(m, current, firstEntry);
      logs := logs + [Row(current, results)];
      current := current.(date := today);
    }

    /** The Delete button of row `index`. */
    method Delete(index: int)
      modifies this
      ensures logs == Without(old(logs), index)
      ensures current == old(current)
    {
      logs := Without(logs, index);
    }
  }

  /** A row added to an empty log is day 0; any later row counts its days
      from the first row. */
  lemma AddedRowDays(m: MathLib, logs: seq<Row>, current: Entry)
    requires Lawful(m)
    ensures |logs| == 0 ==> CalculateResults(m, current, FirstEntry(logs)).days == 0.0
    ensures |logs| > 0 ==>
              CalculateResults(m, current, FirstEntry(logs)).days == (current.date - logs[0].entry.date) as real
  {
  }

  // ---------------------------------------------------------------------
  // Cleaning requirements
  // ---------------------------------------------------------------------

  /** Percent changes of the last row against the first. */
  datatype Changes = Changes(flowDecline: real, saltPassageIncrease: real, pressureDropIncrease: real)

  function PercentChange(latest: real, baseline: real): (p: real)
    ensures baseline != 0.0 ==> p * baseline == (latest - baseline) * 100.0
    ensures latest == baseline ==> p == 0.0
  {
    Div(latest - baseline, baseline) * 100.0
  }

  /** The comparison the alert and the panel make; none below two rows. */
  function CleaningChanges(logs: seq<Row>): (c: Option<Changes>)
    ensures c.Some? <==> |logs| >= 2
  {
    if |logs| < 2 then None
    else
      var latest := logs[|logs| - 1].derived;
      var baseline := logs[0].derived;
      Some(Changes(
        PercentChange(latest.nQp, baseline.nQp),
        PercentChange(latest.nSr, baseline.nSr),
        PercentChange(latest.nDp, baseline.nDp)))
  }

  /** Which of the three comparisons call for cleaning. */
  datatype Flags = Flags(flow: bool, salt: bool, pressureDrop: bool)

  /** The thresholds of the alert: salt passage flags at 10 %. */
  function AlertFlags(c: Changes): Flags
  {
    Flags(c.flowDecline <= -10.0, c.saltPassageIncrease >= 10.0, c.pressureDropIncrease >= 15.0)
  }

  /** The thresholds of the inline panel: salt passage flags at 5 %. */
  function PanelFlags(c: Changes): Flags
  {
    Flags(c.flowDecline <= -10.0, c.saltPassageIncrease >= 5.0, c.pressureDropIncrease >= 15.0)
  }

  /** The alert and the panel agree on flow and pressure drop; on salt
      passage the panel flags whatever the alert flags, and also the band
      from 5 % to 10 % that the alert does not. */
  lemma AlertAndPanelDiffer(c: Changes)
    ensures AlertFlags(c).flow == PanelFlags(c).flow
    ensures AlertFlags(c).pressureDrop == PanelFlags(c).pressureDrop
    ensures AlertFlags(c).salt ==> PanelFlags(c).salt
    ensures PanelFlags(c).salt && !AlertFlags(c).salt <==> 5.0 <= c.saltPassageIncrease < 10.0
  {
  }

  /** A log whose last row repeats the first calls for no cleaning. */
  lemma UnchangedLogNeedsNoCleaning(logs: seq<Row>)
    requires |logs| >= 2 && logs[|logs| - 1].derived == logs[0].derived
    ensures CleaningChanges(logs) == Some(Changes(0.0, 0.0, 0.0))
    ensures PanelFlags(CleaningChanges(logs).value) == Flags(false, false, false)
    ensures AlertFlags(CleaningChanges(logs).value) == Flags(false, false, false)
  {
  }

  // ---------------------------------------------------------------------
  // Cleaning tank sizing
  // ---------------------------------------------------------------------

  /** Vessel and pipe dimensions: diameters in inches, lengths in feet. */
  datatype TankSizing = TankSizing(
    vesselCount: real, elementsPerVessel: real, vesselDiameter: real,
    vesselLength: real, pipeLength: real, pipeDiameter: real)

  /** The page's starting dimensions. */
  const DefaultSizing: TankSizing := TankSizing(10.0, 6.0, 8.0, 20.0, 50.0, 4.0)

  /** Rounded volumes in gallons. */
  datatype Volumes = Volumes(vesselVolume: int, pipeVolume: int, totalVolume: int)

  /** Cubic inches per gallon, as the source writes it: 1/(144·7.48). */
  const ConversionFactor: real := 1.0 / (144.0 * 7.48)

  /** Unrounded volume of all vessels: π r² L n · factor. */
  function VesselVolume(m: MathLib, t: TankSizing): real
  {
    m.pi * m.pow(t.vesselDiameter / 2.0, 2.0) * (t.vesselLength * 12.0) * t.vesselCount * ConversionFactor
  }

  /** Unrounded volume of the pipework. */
  function PipeVolume(m: MathLib, t: TankSizing): real
  {
    m.pi * m.pow(t.pipeDiameter / 2.0, 2.0) * (t.pipeLength * 12.0) * ConversionFactor
  }

  /** `calculateCleaningVolumes`: each volume rounded on its own; the total
      is the rounded unrounded sum. */
  function CleaningVolumes(m: MathLib, t: TankSizing): (v: Volumes)
    ensures VesselVolume(m, t) - 0.5 < v.vesselVolume as real <= VesselVolume(m, t) + 0.5
    ensures PipeVolume(m, t) - 0.5 < v.pipeVolume as real <= PipeVolume(m, t) + 0.5
    ensures VesselVolume(m, t) + PipeVolume(m, t) - 0.5 < v.totalVolume as real
              <= VesselVolume(m, t) + PipeVolume(m, t) + 0.5
  {
    var vessel := VesselVolume(m, t);
    var pipe := PipeVolume(m, t);
    Volumes(Round(vessel), Round(pipe), Round(vessel + pipe))
  }

  /** The vessel volume is the volume of one vessel times the count, and
      the pipe volume does not depend on the vessels at all. */
  lemma VolumeScalesWithVesselCount(m: MathLib, t: TankSizing, n: real)
    ensures VesselVolume(m, t.(vesselCount := n)) == n * VesselVolume(m, t.(vesselCount := 1.0))
    ensures PipeVolume(m, t.(vesselCount := n)) == PipeVolume(m, t)
  {
    var a := m.pi * m.pow(t.vesselDiameter / 2.0, 2.0) * (t.vesselLength * 12.0);
    assert VesselVolume(m, t.(vesselCount := n)) == a * n * ConversionFactor;
    assert VesselVolume(m, t.(vesselCount := 1.0)) == a * 1.0 * ConversionFactor;
  }

  /** The total is rounded from the unrounded sum, not summed from the
      rounded parts: it is within one gallon of their sum, and it can
      differ from it (two half-gallon parts round to 1 each, while their
      total of 1 rounds to 1). */
  lemma RoundedTotalNearSumOfRoundedParts(m: MathLib, t: TankSizing)
    ensures var v := CleaningVolumes(m, t);
            -1 <= v.totalVolume - (v.vesselVolume + v.pipeVolume) <= 1
    ensures Round(0.5 + 0.5) != Round(0.5) + Round(0.5)
  {
  }

  /** `getRecommendedFlowRate`: the table entry for 2.5, 4, 6 and 8 inch
      vessels, 'N/A' otherwise. */
  function RecommendedFlowRate(diameter: real): (s: string)
    ensures s == "N/A" <==> diameter != 2.5 && diameter != 4.0 && diameter != 6.0 && diameter != 8.0
  {
    if diameter == 2.5 then "3-5 gpm (0.7-1.2 m³/h)"
    else if diameter == 4.0 then "8-10 gpm (1.8-2.3 m³/h)"
    else if diameter == 6.0 then "16-20 gpm (3.6-4.5 m³/h)"
    else if diameter == 8.0 then "30-45 gpm (6.0-10.2 m³/h)"
    else "N/A"
  }
}
