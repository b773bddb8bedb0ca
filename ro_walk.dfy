/** The element-by-element walk of the RO design calculator, stated as pure
    folds: elements in series along a vessel, vessels of a stage fed from the
    same stage inlet, stages in series. `ROCalculator.Calculate` runs the same
    walk with nested loops and is proved equal to `Walk`. */
module ROWalk {
  import opened MathLib
  import opened ROPhysics

  /** Water permeability coefficient used for every element. */
  const WaterPermeability: real := 0.1
  /** Cap on the recovery of a single element. */
  const ElementRecoveryCap: real := 0.3
  /** Feed pressure lost per element simulated before the current one, psi. */
  const PressurePerPriorElement: real := 3.0
  /** Pressure drop of the first element of a vessel, psi. */
  const BaseElementPressureDrop: real := 3.0

  /** The already-parsed design inputs. Counts are integers; a missing entry
      of `stageVessels` or `vesselElements` reads as 0. */
  datatype Config = Config(
    stages: int,
    stageVessels: seq<int>,
    vesselElements: seq<seq<int>>,
    elementArea: real,
    temperature: real,
    feedPressure: real,
    permeatePressure: real,
    feedFlow: real,
    foulingFactor: real,
    feedTDS: real,
    saltRejection: real)

  /** One record per simulated element; `recovery` is a percentage. */
  datatype ElementResult = ElementResult(
    stage: int,
    vessel: int,
    element: int,
    feedFlow: real,
    feedTDS: real,
    recovery: real,
    polarization: real,
    osmoticPressure: real)

  /** What the walk threads: the records so far and the running flow and TDS. */
  datatype Thread = Thread(records: seq<ElementResult>, flow: real, tds: real)

  function Max0(n: int): nat
  {
    if n < 0 then 0 else n
  }

  /** `stageVessels[i] || 0` */
  function VesselsIn(cfg: Config, i: int): int
  {
    if 0 <= i < |cfg.stageVessels| then cfg.stageVessels[i] else 0
  }

  /** `vesselElements[i]?.[j] || 0` */
  function ElementsIn(cfg: Config, i: int, j: int): int
  {
    if 0 <= i < |cfg.vesselElements| && 0 <= j < |cfg.vesselElements[i]| then cfg.vesselElements[i][j] else 0
  }

  ghost predicate NonNegativeElementCounts(cfg: Config)
  {
    forall i, j :: 0 <= i < |cfg.vesselElements| && 0 <= j < |cfg.vesselElements[i]| ==> cfg.vesselElements[i][j] >= 0
  }

  // ---------------------------------------------------------------------
  // One element

  /** Pressure drop of the element at 1-based position `element` within its
      vessel: 3 · (1 − 0.1 · (element − 1)), with no floor. */
  function ElementPressureDrop(element: int): real
  {
    BaseElementPressureDrop * (1.0 - (element - 1) as real * 0.1)
  }

  /** The drop restarts at 3 psi in every vessel, falls by 0.3 psi per
      position, reaches 0 at the eleventh element and is negative beyond. */
  lemma ElementPressureDropProfile(e: int)
    ensures ElementPressureDrop(1) == 3.0
    ensures ElementPressureDrop(e + 1) == ElementPressureDrop(e) - 0.3
    ensures ElementPressureDrop(11) == 0.0
    ensures e > 11 ==> ElementPressureDrop(e) < 0.0
  {
  }

  /** Feed pressure of the element preceded by `k` simulated elements in the
      whole run (the count is not reset per vessel or per stage). */
  function ElementFeedPressure(cfg: Config, k: int): real
  {
    cfg.feedPressure - k as real * PressurePerPriorElement
  }

  datatype ElementOutcome = ElementOutcome(
    permeateFlow: real,
    recovery: real,
    polarization: real,
    concentrateTds: real,
    osmoticPressure: real)

  /** The transport step of one element fed `flow` at `tds` and `pressure`.
      The recovery is the permeate/feed ratio capped at 0.3, so the
      concentrate division never divides by zero. */
  function SimulateElement(m: MathLib, cfg: Config, element: int, pressure: real, flow: real, tds: real): (o: ElementOutcome)
    ensures o.recovery <= ElementRecoveryCap
    ensures 1.0 - o.recovery >= 0.7
  {
    var feedOP := OsmoticPressure(tds, cfg.temperature);
    var tcf := Tcf(m, cfg.temperature);
    var pressureDrop := ElementPressureDrop(element);
    var saltPassage := 1.0 - cfg.saltRejection;
    var permeateOP := OsmoticPressure(tds * saltPassage, cfg.temperature);
    var ndp := NetDrivingPressure(pressure, pressureDrop, cfg.permeatePressure, feedOP, permeateOP);
    var permeate := (WaterPermeability * cfg.elementArea * tcf * cfg.foulingFactor * ndp) / 24.0;
    var recovery := Min(Div(permeate, flow), ElementRecoveryCap);
    var concentrate := tds / (1.0 - recovery);
    ElementOutcome(permeate, recovery, Polarization(m, recovery), concentrate,
                   feedOP * Div(concentrate, tds) * Polarization(m, recovery))
  }

  /** The recovery is either the cap or exactly permeate / feed, and the
      concentrate carries all the feed's salt in the reject fraction
      1 − recovery. */
  lemma SimulateElementBalance(m: MathLib, cfg: Config, element: int, pressure: real, flow: real, tds: real)
    ensures var o := SimulateElement(m, cfg, element, pressure, flow, tds);
            && (o.recovery == ElementRecoveryCap || o.recovery * flow == o.permeateFlow || flow == 0.0)
            && (o.recovery < ElementRecoveryCap ==> flow != 0.0 ==> o.recovery * flow == o.permeateFlow)
            && o.concentrateTds * (1.0 - o.recovery) == tds
  {
    var o := SimulateElement(m, cfg, element, pressure, flow, tds);
    assert o.concentrateTds == tds / (1.0 - o.recovery);
  }

  /** The record of the element at (stage, vessel, element) preceded by `k`
      elements in the run. */
  function ElementRecord(m: MathLib, cfg: Config, stage: int, vessel: int, element: int, k: int,
                         flow: real, tds: real): (r: ElementResult)
    ensures r.stage == stage && r.vessel == vessel && r.element == element
    ensures r.feedFlow == flow && r.feedTDS == tds
    ensures r.recovery <= 30.0
  {
    var o := SimulateElement(m, cfg, element, ElementFeedPressure(cfg, k), flow, tds);
    ElementResult(stage, vessel, element, flow, tds, o.recovery * 100.0, o.polarization, o.osmoticPressure)
  }

  /** One element of the walk: append its record, then pass on the feed flow
      less the uncapped permeate flow and the concentrate TDS of the capped
      recovery. */
  function ElementStep(m: MathLib, cfg: Config, stage: int, vessel: int, element: int, t: Thread): Thread
  {
    var o := SimulateElement(m, cfg, element, ElementFeedPressure(cfg, |t.records|), t.flow, t.tds);
    Thread(t.records + [ElementRecord(m, cfg, stage, vessel, element, |t.records|, t.flow, t.tds)],
           t.flow - o.permeateFlow, o.concentrateTds)
  }

  /** Salt leaves an element only with its concentrate (flow · TDS is kept)
      exactly when the recovery cap does not bind: a capped element passes on
      the flow less the uncapped permeate but the TDS of the capped recovery. */
  lemma SaltKeptExactlyWhenUncapped(m: MathLib, cfg: Config, stage: int, vessel: int, element: int, t: Thread)
    requires t.flow > 0.0 && t.tds > 0.0
    ensures var o := SimulateElement(m, cfg, element, ElementFeedPressure(cfg, |t.records|), t.flow, t.tds);
            var n := ElementStep(m, cfg, stage, vessel, element, t);
            n.flow * n.tds == t.flow * t.tds <==> o.permeateFlow <= ElementRecoveryCap * t.flow
  {
    var o := SimulateElement(m, cfg, element, ElementFeedPressure(cfg, |t.records|), t.flow, t.tds);
    var n := ElementStep(m, cfg, stage, vessel, element, t);
    var r := o.recovery;
    SimulateElementBalance(m, cfg, element, ElementFeedPressure(cfg, |t.records|), t.flow, t.tds);
    assert n.flow == t.flow - o.permeateFlow && n.tds == o.concentrateTds;
    assert n.tds * (1.0 - r) == t.tds;
    if o.permeateFlow <= ElementRecoveryCap * t.flow {
      assert o.permeateFlow / t.flow <= ElementRecoveryCap;
      assert r * t.flow == o.permeateFlow;
      assert n.flow == t.flow * (1.0 - r);
      calc {
        n.flow * n.tds;
        t.flow * (1.0 - r) * n.tds;
        t.flow * (n.tds * (1.0 - r));
      }
    } else {
      assert o.permeateFlow / t.flow > ElementRecoveryCap;
      assert r == ElementRecoveryCap;
      assert n.flow < t.flow * (1.0 - r);
      assert n.tds > 0.0;
      assert n.flow * n.tds < t.flow * (1.0 - r) * n.tds;
    }
  }

  // ---------------------------------------------------------------------
  // The folds

  /** One element of the walk as a value: (stage, vessel, element) and the
      thread before it give the thread after it. The folds are stated over
      any step so that their shape can be reasoned about apart from the
      transport arithmetic; the walk itself uses `StepOf`. */
  type Step = (int, int, int, Thread) -> Thread

  /** The record an element emits, from (stage, vessel, element, records
      before it, feed flow, feed TDS). */
  type RecordFn = (int, int, int, int, real, real) -> ElementResult

  function StepOf(m: MathLib, cfg: Config): Step
  {
    (s: int, v: int, e: int, t: Thread) => ElementStep(m, cfg, s, v, e, t)
  }

  function RecordOf(m: MathLib, cfg: Config): RecordFn
  {
    (s: int, v: int, e: int, k: int, flow: real, tds: real) => ElementRecord(m, cfg, s, v, e, k, flow, tds)
  }

  /** `step` is the element step of (m, cfg). The quantifier fires only where
      an `ElementStep` term is already present. */
  ghost predicate Simulates(step: Step, m: MathLib, cfg: Config)
  {
    forall s, v, e, t {:trigger ElementStep(m, cfg, s, v, e, t)} :: step(s, v, e, t) == ElementStep(m, cfg, s, v, e, t)
  }

  /** Every step appends exactly the record `rec` makes of it. */
  ghost predicate Emits(step: Step, rec: RecordFn)
  {
    forall s, v, e, t :: step(s, v, e, t).records == t.records + [rec(s, v, e, |t.records|, t.flow, t.tds)]
  }

  /** Every record carries its position and its feed flow and TDS. */
  ghost predicate Labels(rec: RecordFn)
  {
    forall s, v, e, k, flow, tds ::
      var r := rec(s, v, e, k, flow, tds);
      r.stage == s && r.vessel == v && r.element == e && r.feedFlow == flow && r.feedTDS == tds
  }

  lemma StepOfSimulates(m: MathLib, cfg: Config)
    ensures Simulates(StepOf(m, cfg), m, cfg)
  {
  }

  /** The element step appends the element's record, which is labelled with
      its position. */
  lemma StepOfEmits(m: MathLib, cfg: Config)
    ensures Emits(StepOf(m, cfg), RecordOf(m, cfg))
    ensures Labels(RecordOf(m, cfg))
  {
  }

  /** Elements 1..n of vessel `vessel` of stage `stage`, in series. */
  function RunElements(step: Step, stage: int, vessel: int, n: nat, start: Thread): Thread
    decreases n
  {
    if n == 0 then start
    else step(stage, vessel, n, RunElements(step, stage, vessel, n - 1, start))
  }

  /** Vessels 1..n of stage `stage`, each fed inFlow / V at inTds where V is
      the stage's vessel count. The running flow and TDS change only after
      vessel V: to its exit flow times V and its exit TDS. */
  function RunVessels(step: Step, cfg: Config, stage: int, n: nat, inFlow: real, inTds: real,
                      recs: seq<ElementResult>): Thread
    decreases n
  {
    if n == 0 then Thread(recs, inFlow, inTds)
    else
      var prev := RunVessels(step, cfg, stage, n - 1, inFlow, inTds, recs);
      var vessels := VesselsIn(cfg, stage - 1);
      var t := RunElements(step, stage, n, Max0(ElementsIn(cfg, stage - 1, n - 1)),
                           Thread(prev.records, Div(inFlow, vessels as real), inTds));
      if n == vessels then Thread(t.records, t.flow * vessels as real, t.tds)
      else Thread(t.records, prev.flow, prev.tds)
  }

  /** Stages 1..n, each fed by the previous stage's exit. */
  function RunStages(step: Step, cfg: Config, n: nat): Thread
    decreases n
  {
    if n == 0 then Thread([], cfg.feedFlow, cfg.feedTDS)
    else
      var prev := RunStages(step, cfg, n - 1);
      RunVessels(step, cfg, n, Max0(VesselsIn(cfg, n - 1)), prev.flow, prev.tds, prev.records)
  }

  /** The whole walk over stages 1..stages. */
  function Walk(m: MathLib, cfg: Config): Thread
  {
    RunStages(StepOf(m, cfg), cfg, Max0(cfg.stages))
  }

  // ---------------------------------------------------------------------
  // Counting

  /** Σ_{j<n} vesselElements[i][j], as the counting loop adds it. */
  function VesselElementSum(cfg: Config, i: int, n: nat): int
    decreases n
  {
    if n == 0 then 0 else VesselElementSum(cfg, i, n - 1) + ElementsIn(cfg, i, n - 1)
  }

  /** Σ over stages i < n of the elements of their vessels. */
  function StageElementSum(cfg: Config, n: nat): int
    decreases n
  {
    if n == 0 then 0 else StageElementSum(cfg, n - 1) + VesselElementSum(cfg, n - 1, Max0(VesselsIn(cfg, n - 1)))
  }

  /** Σ over stages i < n of their vessel counts. */
  function StageVesselSum(cfg: Config, n: nat): int
    decreases n
  {
    if n == 0 then 0 else StageVesselSum(cfg, n - 1) + VesselsIn(cfg, n - 1)
  }

  /** `totalElements` of the counting loop. */
  function TotalElements(cfg: Config): int
  {
    StageElementSum(cfg, Max0(cfg.stages))
  }

  /** `totalVessels` of the counting loop. */
  function TotalVessels(cfg: Config): int
  {
    StageVesselSum(cfg, Max0(cfg.stages))
  }

  // ---------------------------------------------------------------------
  // Shape of the records

  /** Every record is the one `rec` makes for its position k in the run. */
  ghost predicate Faithful(rec: RecordFn, recs: seq<ElementResult>)
  {
    forall k :: 0 <= k < |recs| ==>
      recs[k] == rec(recs[k].stage, recs[k].vessel, recs[k].element, k, recs[k].feedFlow, recs[k].feedTDS)
  }

  /** Record `r` comes strictly before position (s, v, e) lexicographically. */
  predicate Before(r: ElementResult, s: int, v: int, e: int)
  {
    r.stage < s || (r.stage == s && (r.vessel < v || (r.vessel == v && r.element < e)))
  }

  ghost predicate AllBefore(recs: seq<ElementResult>, s: int, v: int, e: int)
  {
    forall k :: 0 <= k < |recs| ==> Before(recs[k], s, v, e)
  }

  /** Strictly increasing in (stage, vessel, element). */
  ghost predicate Ordered(recs: seq<ElementResult>)
  {
    forall i, j :: 0 <= i < j < |recs| ==> Before(recs[i], recs[j].stage, recs[j].vessel, recs[j].element)
  }

  /** The record names an existing element: stage in 1..stages, vessel in
      1..stageVessels[stage−1], element in 1..vesselElements[stage−1][vessel−1]. */
  predicate Placed(cfg: Config, r: ElementResult)
  {
    PlacedWithin(cfg, cfg.stages, r)
  }

  /** `Placed`, with the stage bounded by `stages` instead of the design's
      stage count. */
  predicate PlacedWithin(cfg: Config, stages: int, r: ElementResult)
  {
    && 1 <= r.stage <= stages
    && 1 <= r.vessel <= VesselsIn(cfg, r.stage - 1)
    && 1 <= r.element <= ElementsIn(cfg, r.stage - 1, r.vessel - 1)
  }

  /** Appending the record `rec` makes for the next position keeps a run
      faithful. */
  lemma AppendFaithful(rec: RecordFn, recs: seq<ElementResult>, s: int, v: int, e: int, flow: real, tds: real)
    requires Labels(rec) && Faithful(rec, recs)
    ensures Faithful(rec, recs + [rec(s, v, e, |recs|, flow, tds)])
  {
    var x := rec(s, v, e, |recs|, flow, tds);
    assert x.stage == s && x.vessel == v && x.element == e && x.feedFlow == flow && x.feedTDS == tds;
  }

  lemma {:induction false} RunElementsShape(step: Step, rec: RecordFn, s: int, v: int, n: nat, t: Thread)
    requires Emits(step, rec) && Labels(rec)
    ensures var r := RunElements(step, s, v, n, t).records;
            && |r| == |t.records| + n
            && r[..|t.records|] == t.records
            && forall k :: |t.records| <= k < |r| ==> r[k].stage == s && r[k].vessel == v && r[k].element == k - |t.records| + 1
    decreases n
  {
    if n > 0 {
      RunElementsShape(step, rec, s, v, n - 1, t);
      var p := RunElements(step, s, v, n - 1, t);
      var x := rec(s, v, n, |p.records|, p.flow, p.tds);
      var r := RunElements(step, s, v, n, t).records;
      assert r == p.records + [x];
      assert r[..|t.records|] == p.records[..|t.records|];
    }
  }

  lemma {:induction false} RunElementsFaithful(step: Step, rec: RecordFn, s: int, v: int, n: nat, t: Thread)
    requires Emits(step, rec) && Labels(rec) && Faithful(rec, t.records)
    ensures Faithful(rec, RunElements(step, s, v, n, t).records)
    decreases n
  {
    if n > 0 {
      RunElementsFaithful(step, rec, s, v, n - 1, t);
      var p := RunElements(step, s, v, n - 1, t);
      AppendFaithful(rec, p.records, s, v, n, p.flow, p.tds);
      assert RunElements(step, s, v, n, t).records == p.records + [rec(s, v, n, |p.records|, p.flow, p.tds)];
    }
  }

  lemma {:induction false} RunVesselsShape(step: Step, rec: RecordFn, cfg: Config, s: int, n: nat,
                                           inFlow: real, inTds: real, recs: seq<ElementResult>)
    requires Emits(step, rec) && Labels(rec)
    ensures var r := RunVessels(step, cfg, s, n, inFlow, inTds, recs).records;
            && |r| >= |recs|
            && r[..|recs|] == recs
            && forall k :: |recs| <= k < |r| ==>
                 r[k].stage == s && 1 <= r[k].vessel <= n && 1 <= r[k].element <= ElementsIn(cfg, s - 1, r[k].vessel - 1)
    decreases n
  {
    if n > 0 {
      RunVesselsShape(step, rec, cfg, s, n - 1, inFlow, inTds, recs);
      var p := RunVessels(step, cfg, s, n - 1, inFlow, inTds, recs);
      var e := Max0(ElementsIn(cfg, s - 1, n - 1));
      var t := Thread(p.records, Div(inFlow, VesselsIn(cfg, s - 1) as real), inTds);
      RunElementsShape(step, rec, s, n, e, t);
      var r := RunVessels(step, cfg, s, n, inFlow, inTds, recs).records;
      assert r == RunElements(step, s, n, e, t).records;
      assert r[..|recs|] == r[..|p.records|][..|recs|];
    }
  }

  lemma {:induction false} RunVesselsFaithful(step: Step, rec: RecordFn, cfg: Config, s: int, n: nat,
                                              inFlow: real, inTds: real, recs: seq<ElementResult>)
    requires Emits(step, rec) && Labels(rec) && Faithful(rec, recs)
    ensures Faithful(rec, RunVessels(step, cfg, s, n, inFlow, inTds, recs).records)
    decreases n
  {
    if n > 0 {
      RunVesselsFaithful(step, rec, cfg, s, n - 1, inFlow, inTds, recs);
      var p := RunVessels(step, cfg, s, n - 1, inFlow, inTds, recs);
      var e := Max0(ElementsIn(cfg, s - 1, n - 1));
      var t := Thread(p.records, Div(inFlow, VesselsIn(cfg, s - 1) as real), inTds);
      RunElementsFaithful(step, rec, s, n, e, t);
    }
  }

  lemma {:induction false} RunStagesShape(step: Step, rec: RecordFn, cfg: Config, n: nat)
    requires Emits(step, rec) && Labels(rec)
    ensures forall k :: 0 <= k < |RunStages(step, cfg, n).records| ==> PlacedWithin(cfg, n, RunStages(step, cfg, n).records[k])
    decreases n
  {
    if n > 0 {
      RunStagesShape(step, rec, cfg, n - 1);
      var p := RunStages(step, cfg, n - 1);
      RunVesselsShape(step, rec, cfg, n, Max0(VesselsIn(cfg, n - 1)), p.flow, p.tds, p.records);
      var r := RunStages(step, cfg, n).records;
      var q := p.records;
      assert r == RunVessels(step, cfg, n, Max0(VesselsIn(cfg, n - 1)), p.flow, p.tds, q).records;
      forall k | 0 <= k < |r|
        ensures PlacedWithin(cfg, n, r[k])
      {
        if k < |q| {
          assert r[k] == r[..|q|][k];
          assert PlacedWithin(cfg, n - 1, q[k]);
        }
      }
    }
  }

  lemma {:induction false} RunStagesFaithful(step: Step, rec: RecordFn, cfg: Config, n: nat)
    requires Emits(step, rec) && Labels(rec)
    ensures Faithful(rec, RunStages(step, cfg, n).records)
    decreases n
  {
    if n > 0 {
      RunStagesFaithful(step, rec, cfg, n - 1);
      var p := RunStages(step, cfg, n - 1);
      RunVesselsFaithful(step, rec, cfg, n, Max0(VesselsIn(cfg, n - 1)), p.flow, p.tds, p.records);
    }
  }

  // ---------------------------------------------------------------------
  // Order of the records

  lemma {:induction false} RunElementsOrdered(step: Step, rec: RecordFn, s: int, v: int, n: nat, t: Thread)
    requires Emits(step, rec) && Labels(rec)
    requires Ordered(t.records) && AllBefore(t.records, s, v, 1)
    ensures var r := RunElements(step, s, v, n, t).records;
            Ordered(r) && AllBefore(r, s, v, n + 1)
    decreases n
  {
    if n > 0 {
      RunElementsOrdered(step, rec, s, v, n - 1, t);
      var p := RunElements(step, s, v, n - 1, t);
      var x := rec(s, v, n, |p.records|, p.flow, p.tds);
      assert RunElements(step, s, v, n, t).records == p.records + [x];
    }
  }

  lemma {:induction false} RunVesselsOrdered(step: Step, rec: RecordFn, cfg: Config, s: int, n: nat,
                                             inFlow: real, inTds: real, recs: seq<ElementResult>)
    requires Emits(step, rec) && Labels(rec)
    requires Ordered(recs) && AllBefore(recs, s, 1, 1)
    ensures var r := RunVessels(step, cfg, s, n, inFlow, inTds, recs).records;
            Ordered(r) && AllBefore(r, s, n + 1, 1)
    decreases n
  {
    if n > 0 {
      RunVesselsOrdered(step, rec, cfg, s, n - 1, inFlow, inTds, recs);
      var p := RunVessels(step, cfg, s, n - 1, inFlow, inTds, recs);
      var e := Max0(ElementsIn(cfg, s - 1, n - 1));
      var t := Thread(p.records, Div(inFlow, VesselsIn(cfg, s - 1) as real), inTds);
      RunElementsOrdered(step, rec, s, n, e, t);
    }
  }

  lemma {:induction false} RunStagesOrdered(step: Step, rec: RecordFn, cfg: Config, n: nat)
    requires Emits(step, rec) && Labels(rec)
    ensures var r := RunStages(step, cfg, n).records;
            Ordered(r) && AllBefore(r, n + 1, 1, 1)
    decreases n
  {
    if n > 0 {
      RunStagesOrdered(step, rec, cfg, n - 1);
      var p := RunStages(step, cfg, n - 1);
      RunVesselsOrdered(step, rec, cfg, n, Max0(VesselsIn(cfg, n - 1)), p.flow, p.tds, p.records);
    }
  }

  // ---------------------------------------------------------------------
  // Record count

  lemma {:induction false} RunElementsLength(step: Step, rec: RecordFn, s: int, v: int, n: nat, t: Thread)
    requires Emits(step, rec)
    ensures |RunElements(step, s, v, n, t).records| == |t.records| + n
    ensures n == 0 ==> RunElements(step, s, v, n, t) == t
    decreases n
  {
    if n > 0 {
      RunElementsLength(step, rec, s, v, n - 1, t);
      var p := RunElements(step, s, v, n - 1, t);
      assert RunElements(step, s, v, n, t).records == p.records + [rec(s, v, n, |p.records|, p.flow, p.tds)];
    }
  }

  lemma {:induction false} RunVesselsCount(step: Step, rec: RecordFn, cfg: Config, s: int, n: nat,
                                           inFlow: real, inTds: real, recs: seq<ElementResult>)
    requires Emits(step, rec) && NonNegativeElementCounts(cfg)
    ensures |RunVessels(step, cfg, s, n, inFlow, inTds, recs).records| == |recs| + VesselElementSum(cfg, s - 1, n)
    decreases n
  {
    if n > 0 {
      RunVesselsCount(step, rec, cfg, s, n - 1, inFlow, inTds, recs);
      var p := RunVessels(step, cfg, s, n - 1, inFlow, inTds, recs);
      var e := Max0(ElementsIn(cfg, s - 1, n - 1));
      var t := Thread(p.records, Div(inFlow, VesselsIn(cfg, s - 1) as real), inTds);
      assert e == ElementsIn(cfg, s - 1, n - 1);
      RunElementsLength(step, rec, s, n, e, t);
    }
  }

  lemma {:induction false} RunStagesCount(step: Step, rec: RecordFn, cfg: Config, n: nat)
    requires Emits(step, rec) && NonNegativeElementCounts(cfg)
    ensures |RunStages(step, cfg, n).records| == StageElementSum(cfg, n)
    decreases n
  {
    if n > 0 {
      RunStagesCount(step, rec, cfg, n - 1);
      var p := RunStages(step, cfg, n - 1);
      RunVesselsCount(step, rec, cfg, n, Max0(VesselsIn(cfg, n - 1)), p.flow, p.tds, p.records);
    }
  }

  // ---------------------------------------------------------------------
  // Properties of the whole walk

  /** With non-negative element counts, the walk emits exactly as many
      records as the counting loop counts elements. */
  lemma WalkRecordCount(m: MathLib, cfg: Config)
    requires NonNegativeElementCounts(cfg)
    ensures |Walk(m, cfg).records| == TotalElements(cfg)
  {
    StepOfEmits(m, cfg);
    RunStagesCount(StepOf(m, cfg), RecordOf(m, cfg), cfg, Max0(cfg.stages));
  }

  /** Records come in strictly increasing (stage, vessel, element) order and
      each names an existing element by 1-based indices. */
  lemma WalkOrderedAndPlaced(m: MathLib, cfg: Config)
    ensures Ordered(Walk(m, cfg).records)
    ensures forall k :: 0 <= k < |Walk(m, cfg).records| ==> Placed(cfg, Walk(m, cfg).records[k])
  {
    StepOfEmits(m, cfg);
    RunStagesOrdered(StepOf(m, cfg), RecordOf(m, cfg), cfg, Max0(cfg.stages));
    RunStagesShape(StepOf(m, cfg), RecordOf(m, cfg), cfg, Max0(cfg.stages));
  }

  /** The record at 0-based position k is the element record computed with
      feed pressure feedPressure − 3k and the pressure drop of its position
      in its vessel. */
  lemma WalkPressureByPosition(m: MathLib, cfg: Config)
    ensures var r := Walk(m, cfg).records;
            forall k :: 0 <= k < |r| ==>
              r[k] == ElementRecord(m, cfg, r[k].stage, r[k].vessel, r[k].element, k, r[k].feedFlow, r[k].feedTDS)
  {
    StepOfEmits(m, cfg);
    RunStagesFaithful(StepOf(m, cfg), RecordOf(m, cfg), cfg, Max0(cfg.stages));
  }

  /** Every stored element recovery is at most 30 %. */
  lemma WalkRecoveryCapped(m: MathLib, cfg: Config)
    ensures forall k :: 0 <= k < |Walk(m, cfg).records| ==> Walk(m, cfg).records[k].recovery <= 30.0
  {
    var r := Walk(m, cfg).records;
    WalkPressureByPosition(m, cfg);
    forall k | 0 <= k < |r|
      ensures r[k].recovery <= 30.0
    {
      assert r[k] == ElementRecord(m, cfg, r[k].stage, r[k].vessel, r[k].element, k, r[k].feedFlow, r[k].feedTDS);
    }
  }

  /** A stage without vessels emits nothing and passes its inlet flow and TDS
      to the next stage unchanged. */
  lemma EmptyStagePassesThrough(step: Step, cfg: Config, n: nat)
    requires n >= 1 && VesselsIn(cfg, n - 1) <= 0
    ensures RunStages(step, cfg, n) == RunStages(step, cfg, n - 1)
  {
  }

  /** A single stage with one vessel of one element: exactly one record, fed
      the whole feed flow at the feed TDS, with recovery at most 30 %. */
  lemma SingleElementRun(m: MathLib, cfg: Config)
    requires cfg.stages == 1 && cfg.stageVessels == [1] && cfg.vesselElements == [[1]]
    ensures var r := Walk(m, cfg).records;
            && |r| == 1
            && r[0].stage == 1 && r[0].vessel == 1 && r[0].element == 1
            && r[0].feedFlow == cfg.feedFlow && r[0].feedTDS == cfg.feedTDS
            && r[0].recovery <= 30.0
  {
    var step := StepOf(m, cfg);
    var s0 := RunStages(step, cfg, 0);
    assert s0 == Thread([], cfg.feedFlow, cfg.feedTDS);
    assert VesselsIn(cfg, 0) == 1 && ElementsIn(cfg, 0, 0) == 1;
    var v0 := RunVessels(step, cfg, 1, 0, cfg.feedFlow, cfg.feedTDS, []);
    assert Div(cfg.feedFlow, 1.0) == cfg.feedFlow;
    var t := Thread([], cfg.feedFlow, cfg.feedTDS);
    assert RunElements(step, 1, 1, 0, t) == t;
    assert RunElements(step, 1, 1, 1, t).records == [ElementRecord(m, cfg, 1, 1, 1, 0, cfg.feedFlow, cfg.feedTDS)];
  }

  // ---------------------------------------------------------------------
  // System results

  datatype SystemResults = SystemResults(
    recovery: real,
    limitingRecovery: real,
    averageFlux: real,
    totalPermeateFlow: real,
    permeateConcentration: real,
    averageElementRecovery: real,
    concentratePolarization: real,
    concentrateOsmoticPressure: real,
    pressureDrops: seq<real>,
    feedOsmoticPressure: real)

  /** System recovery: permeate over feed, capped at 0.85. */
  function SystemRecovery(totalPermeate: real, feedFlow: real): (r: real)
    ensures r <= 0.85
    ensures r == 0.85 || r == Div(totalPermeate, feedFlow)
    ensures feedFlow > 0.0 && totalPermeate <= 0.85 * feedFlow ==> r * feedFlow == totalPermeate
  {
    Min(Div(totalPermeate, feedFlow), 0.85)
  }

  /** The system recovery is the smaller of permeate/feed and 0.85, for
      every sign of the feed flow. */
  lemma SystemRecoveryIsMinimum(totalPermeate: real, feedFlow: real)
    ensures SystemRecovery(totalPermeate, feedFlow) <= Div(totalPermeate, feedFlow)
    ensures SystemRecovery(totalPermeate, feedFlow) <= 0.85
    ensures SystemRecovery(totalPermeate, feedFlow) == Div(totalPermeate, feedFlow)
            || SystemRecovery(totalPermeate, feedFlow) == 0.85
  {
  }

  /** The lumped system result, computed from the inputs and the element
      total alone; it never reads the walk's records, and the layout enters
      only through the total. */
  function SystemResultsOf(m: MathLib, cfg: Config): SystemResults
  {
    LumpedResultsFor(m, WithoutLayout(cfg), TotalElements(cfg))
  }

  /** The design with its stage × vessel layout cleared. */
  function WithoutLayout(cfg: Config): Config
  {
    cfg.(stages := 0, stageVessels := [], vesselElements := [])
  }

  /** The lumped result for the inputs of `cfg` and `totalElements`
      elements. */
  function LumpedResultsFor(m: MathLib, cfg: Config, totalElements: int): SystemResults
  {
    var tcf := Tcf(m, cfg.temperature);
    var feedOP := OsmoticPressure(cfg.feedTDS, cfg.temperature);
    var pressureDrop := PressureDrop(cfg.feedFlow, true);
    var totalPermeate := TotalPermeateFlow(totalElements as real, 1.0, cfg.elementArea, tcf, cfg.foulingFactor,
                                           cfg.feedPressure, pressureDrop, cfg.permeatePressure, feedOP, 0.0);
    var recovery := SystemRecovery(totalPermeate, cfg.feedFlow);
    var averageElementRecovery := AverageElementRecovery(m, recovery, totalElements as real);
    var polarization := Polarization(m, averageElementRecovery);
    var limitingRecovery := LimitingRecovery(feedOP, polarization, cfg.saltRejection, cfg.feedPressure,
                                             pressureDrop, cfg.permeatePressure);
    SystemResults(
      recovery * 100.0,
      limitingRecovery * 100.0,
      Div(totalPermeate, totalElements as real * cfg.elementArea),
      totalPermeate,
      cfg.feedTDS * (1.0 - cfg.saltRejection),
      averageElementRecovery * 100.0,
      polarization,
      feedOP / (1.0 - recovery),
      [pressureDrop, pressureDrop * 1.2],
      feedOP)
  }

  /** Caps and constants of the system result: recovery at most 85 %, the
      limiting recovery a fixed 85 %, stage pressure drops 20 and 24 psi, and
      the concentrate osmotic pressure the feed osmotic pressure scaled by
      1/(1 − recovery), a divisor of at least 0.15. */
  lemma SystemResultsBounds(m: MathLib, cfg: Config)
    ensures var r := SystemResultsOf(m, cfg);
            && r.recovery <= 85.0
            && r.limitingRecovery == 85.0
            && r.pressureDrops == [20.0, 24.0]
            && r.concentrateOsmoticPressure * (1.0 - r.recovery / 100.0) == r.feedOsmoticPressure
            && r.permeateConcentration == cfg.feedTDS * (1.0 - cfg.saltRejection)
  {
    var r := SystemResultsOf(m, cfg);
    var y := r.recovery / 100.0;
    assert y <= 0.85;
    assert 1.0 - y >= 0.15;
  }

  /** Two designs that differ only in how their elements are spread over
      stages and vessels, with the same element total, get the same system
      result. */
  lemma SystemResultsIgnoreLayout(m: MathLib, c1: Config, c2: Config)
    requires c1.(stages := c2.stages, stageVessels := c2.stageVessels, vesselElements := c2.vesselElements) == c2
    requires TotalElements(c1) == TotalElements(c2)
    ensures SystemResultsOf(m, c1) == SystemResultsOf(m, c2)
  {
    assert WithoutLayout(c1) == WithoutLayout(c2);
  }
}
