/** `calculate` of the RO design calculator: the counting loop, the lumped
    system result and the nested stage → vessel → element loops, written as
    the source writes them and proved equal to the folds of `ROWalk`. */
module ROCalculator {
  import opened MathLib
  import opened ROPhysics
  import opened ROWalk

  /** The counting loop: total elements over the stage × vessel matrix and
      total vessels over the stages, reading missing entries as 0. */
  method CountTotals(cfg: Config) returns (totalElements: int, totalVessels: int)
    ensures totalElements == TotalElements(cfg)
    ensures totalVessels == TotalVessels(cfg)
  {
    totalElements := 0;
    totalVessels := 0;
    var i := 0;
    while i < cfg.stages
      invariant 0 <= i <= Max0(cfg.stages)
      invariant totalElements == StageElementSum(cfg, i)
      invariant totalVessels == StageVesselSum(cfg, i)
    {
      var vesselsInStage := VesselsIn(cfg, i);
      totalVessels := totalVessels + vesselsInStage;
      var j := 0;
      while j < vesselsInStage
        invariant 0 <= j <= Max0(vesselsInStage)
        invariant totalElements == StageElementSum(cfg, i) + VesselElementSum(cfg, i, j)
      {
        var elementsInVessel := ElementsIn(cfg, i, j);
        totalElements := totalElements + elementsInVessel;
        j := j + 1;
      }
      i := i + 1;
    }
  }

  /** The element loop of one vessel: elements 1..count in series, each fed
      the previous element's concentrate. The feed pressure of every element
      but the very first of the run is recomputed from the number of records
      already written, and the drop subtracted after each element is
      overwritten before it is read. */
  method SimulateVessel(m: MathLib, cfg: Config, ghost step: Step, stage: int, vessel: int,
                        records: seq<ElementResult>, flowPerVessel: real, feedTds: real)
    returns (elementResults: seq<ElementResult>, exitFlow: real, exitTds: real)
    requires Simulates(step, m, cfg)
    requires stage >= 1 && vessel >= 1
    requires stage == 1 && vessel == 1 ==> records == []
    ensures Thread(elementResults, exitFlow, exitTds)
            == RunElements(step, stage, vessel, Max0(ElementsIn(cfg, stage - 1, vessel - 1)),
                           Thread(records, flowPerVessel, feedTds))
  {
    ghost var vesselStart := Thread(records, flowPerVessel, feedTds);
    elementResults := records;
    var elementFeedFlow := flowPerVessel;
    var elementFeedTDS := feedTds;
    var elementFeedPressure := cfg.feedPressure;
    var elementsInVessel := ElementsIn(cfg, stage - 1, vessel - 1);

    var element := 1;
    while element <= elementsInVessel
      invariant 1 <= element <= Max0(elementsInVessel) + 1
      invariant Thread(elementResults, elementFeedFlow, elementFeedTDS)
                == RunElements(step, stage, vessel, element - 1, vesselStart)
      invariant element == 1 ==> elementFeedPressure == cfg.feedPressure
      invariant stage == 1 && vessel == 1 ==> |elementResults| == element - 1
    {
      if stage > 1 || vessel > 1 || element > 1 {
        var previousElementsCount := |elementResults|;
        elementFeedPressure := cfg.feedPressure - previousElementsCount as real * PressurePerPriorElement;
      }
      assert elementFeedPressure == ElementFeedPressure(cfg, |elementResults|);

      ghost var before := Thread(elementResults, elementFeedFlow, elementFeedTDS);
      var elementPressureDrop := ElementPressureDrop(element);
      var o := SimulateElement(m, cfg, element, elementFeedPressure, elementFeedFlow, elementFeedTDS);
      elementFeedPressure := elementFeedPressure - elementPressureDrop;

      elementResults := elementResults + [ElementResult(stage, vessel, element, elementFeedFlow, elementFeedTDS,
                                                        o.recovery * 100.0, o.polarization, o.osmoticPressure)];
      elementFeedFlow := elementFeedFlow - o.permeateFlow;
      elementFeedTDS := o.concentrateTds;
      assert Thread(elementResults, elementFeedFlow, elementFeedTDS) == ElementStep(m, cfg, stage, vessel, element, before);
      element := element + 1;
    }
    exitFlow, exitTds := elementFeedFlow, elementFeedTDS;
  }

  /** The vessel loop of one stage: every vessel is fed the stage's flow
      split evenly and the stage's feed TDS; only the last vessel's exit
      (its flow times the vessel count, its TDS) becomes the next stage's
      feed. */
  method SimulateStage(m: MathLib, cfg: Config, ghost step: Step, stage: int, records: seq<ElementResult>,
                       stageFlow: real, stageTds: real)
    returns (elementResults: seq<ElementResult>, currentFlow: real, currentTDS: real)
    requires Simulates(step, m, cfg)
    requires stage >= 1
    requires stage == 1 ==> records == []
    ensures Thread(elementResults, currentFlow, currentTDS)
            == RunVessels(step, cfg, stage, Max0(VesselsIn(cfg, stage - 1)), stageFlow, stageTds, records)
  {
    elementResults, currentFlow, currentTDS := records, stageFlow, stageTds;
    var vessels := VesselsIn(cfg, stage - 1);
    var flowPerVessel := Div(currentFlow, vessels as real);

    var vessel := 1;
    while vessel <= vessels
      invariant 1 <= vessel <= Max0(vessels) + 1
      invariant Thread(elementResults, currentFlow, currentTDS)
                == RunVessels(step, cfg, stage, vessel - 1, stageFlow, stageTds, records)
      invariant vessel <= vessels ==> currentTDS == stageTds
      invariant stage == 1 && vessel == 1 ==> elementResults == []
    {
      var vesselResults, exitFlow, exitTds := SimulateVessel(m, cfg, step, stage, vessel, elementResults,
                                                             flowPerVessel, currentTDS);
      VesselStep(step, cfg, stage, vessel, stageFlow, stageTds, records, Thread(vesselResults, exitFlow, exitTds));
      elementResults := vesselResults;
      if vessel == vessels {
        currentFlow := exitFlow * vessels as real;
        currentTDS := exitTds;
      }
      vessel := vessel + 1;
    }
  }

  /** The stage loop: stages in series, each fed by the previous stage's
      exit flow and TDS. */
  method SimulateStages(m: MathLib, cfg: Config, ghost step: Step) returns (elementResults: seq<ElementResult>)
    requires Simulates(step, m, cfg)
    ensures elementResults == RunStages(step, cfg, Max0(cfg.stages)).records
  {
    elementResults := [];
    var currentFlow := cfg.feedFlow;
    var currentTDS := cfg.feedTDS;

    var stage := 1;
    while stage <= cfg.stages
      invariant 1 <= stage <= Max0(cfg.stages) + 1
      invariant Thread(elementResults, currentFlow, currentTDS) == RunStages(step, cfg, stage - 1)
      invariant stage == 1 ==> elementResults == []
    {
      elementResults, currentFlow, currentTDS := SimulateStage(m, cfg, step, stage, elementResults, currentFlow, currentTDS);
      stage := stage + 1;
    }
  }

  /** The lumped part of a run: the counting loop supplies the element
      total, and the straight-line formulas of `LumpedResultsFor` (TCF, feed
      osmotic pressure, system permeate flow and recovery, the result record)
      take it from there. Nothing here reads the element records. */
  method LumpedResults(m: MathLib, cfg: Config) returns (systemResults: SystemResults)
    ensures systemResults == SystemResultsOf(m, cfg)
  {
    var totalElements, totalVessels := CountTotals(cfg);
    systemResults := LumpedResultsFor(m, WithoutLayout(cfg), totalElements);
  }


  /** One calculation run: the element records in walk order and the lumped
      system result. */
  method Calculate(m: MathLib, cfg: Config) returns (elementResults: seq<ElementResult>, systemResults: SystemResults)
    ensures elementResults == Walk(m, cfg).records
    ensures systemResults == SystemResultsOf(m, cfg)
  {
    systemResults := LumpedResults(m, cfg);
    StepOfSimulates(m, cfg);
    elementResults := SimulateStages(m, cfg, StepOf(m, cfg));
  }

  /** One more vessel of the fold, unfolded once. */
  lemma VesselStep(step: Step, cfg: Config, stage: int, n: nat, inFlow: real, inTds: real,
                   recs: seq<ElementResult>, t: Thread)
    requires n >= 1
    requires t == RunElements(step, stage, n, Max0(ElementsIn(cfg, stage - 1, n - 1)),
                              Thread(RunVessels(step, cfg, stage, n - 1, inFlow, inTds, recs).records,
                                     Div(inFlow, VesselsIn(cfg, stage - 1) as real), inTds))
    ensures var prev := RunVessels(step, cfg, stage, n - 1, inFlow, inTds, recs);
            var vessels := VesselsIn(cfg, stage - 1);
            RunVessels(step, cfg, stage, n, inFlow, inTds, recs)
            == if n == vessels then Thread(t.records, t.flow * vessels as real, t.tds)
               else Thread(t.records, prev.flow, prev.tds)
  {
  }
}
