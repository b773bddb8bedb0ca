# RO membrane calculator: a verified model of its calculation core

This project models the calculation core of a reverse-osmosis (RO) design and
operations web application in Dafny, and proves properties of that model. It
covers six pages of the application:

- **The RO design calculator** (`ROCalculator.tsx`). It applies the
  temperature correction factor (TCF), osmotic pressure, polarization,
  pressure drop, limiting recovery, permeate flow and average element
  recovery formulas. Its `calculate` counts the elements and vessels of a
  stage × vessel layout and computes a lumped system result. It then walks
  the elements one by one: stages in series, the vessels of a stage in
  parallel, and the elements of a vessel in series. Modules `ROPhysics`,
  `ROWalk` and `ROCalculator`.
  - `ROWalk` states the walk as three pure folds.
  - `ROCalculator.Calculate` runs the source's nested loops. It is proved
    equal to those folds and to the lumped result `ROWalk.SystemResultsOf`.
- **The scaling-indices calculator** (`ScalingIndicesCalculator.tsx`),
  module `ScalingIndices`. It covers:
  - the CaCO₃ conversion and the TDS estimate;
  - the cation/anion balance and the one-click ion adjustment;
  - the Larson-Skold index;
  - the ordered validation messages of quick and advanced mode;
  - the Langelier, Ryznar and Puckorius indices;
  - the reset, and the water-condition texts.
- **The operating-data log** (`OperatingData.tsx`), module `OperatingData`.
  It covers:
  - the derived and normalised values of a log row;
  - adding and deleting rows;
  - the cleaning analysis (the alert and the inline panel);
  - the cleaning-volume estimate and the recommended flow rate.
- **The field data logger** (`DataLogging.tsx`), module `DataLogging`. It
  covers the conductivity-to-TDS bands, the form edits and the submit. The
  shared-object behaviour of the code as written is modelled separately; see
  Findings.
- **The performance normalisation page** (`PerformanceNormalization.tsx`),
  module `PerformanceNormalization`. It scales the baseline permeate flow by
  the ratios of net driving pressures and TCFs, and reports the deviation.
- **The cleaning evaluation page** (`ROCleaning.tsx`), module `ROCleaning`.
  It covers the percent changes between the last and the first stored row,
  the three cleaning cards and the cleaning-tank size.

The model makes these representation choices:

- Numbers are Dafny `real`s.
- Counts of stages, vessels and elements are `int`s.
- A text field of a form is `MathLib.Field`, one of three cases:
  - `Empty`, the empty string;
  - `Num(v)`, text that `parseFloat` reads as `v`;
  - `Unparseable`, text that `parseFloat` reads as NaN.
- `parseFloat(x) || 0` is `OrZero`.
- `parseFloat(x || '0')` is `OrZeroText`, where `None` stands for NaN.
- `Math.exp`, `Math.pow`, `Math.log`, `Math.log10` and `Math.PI` are fields
  of a `MathLib.MathLib` value passed in. `Lawful` requires only exp(0) = 1,
  exp > 0, pow(x, 1) = x and π > 0.
- A division whose divisor can be zero goes through `MathLib.Div`, which
  returns 0 for a zero divisor (see Left out).
- The browser clock and storage are parameters.

## Model

| member | source | states |
|---|---|---|
| ROPhysics.TcfExponentSign | app/components/ROCalculator.tsx:78-83 | the TCF exponent (2640 from 25 °C up, 3020 below, about 298 and 273 + T) is 0 at 25 °C, positive above it and negative between −273 °C and 25 °C |
| ROPhysics.TcfAtReference | app/components/ROCalculator.tsx:78-83 | the TCF is exactly 1 at 25 °C |
| ROPhysics.TcfPositive | app/components/ROCalculator.tsx:78-83 | the TCF is positive for every temperature |
| ROPhysics.OsmoticPressureLinear | app/components/ROCalculator.tsx:85-87 | the osmotic pressure 1.12·(273 + T)·TDS/58500 is 0 for pure water and linear (additive and homogeneous) in TDS |
| ROPhysics.PolarizationOfNoRecovery | app/components/ROCalculator.tsx:145-147 | the polarization exp(0.7·recovery) is 1 at zero recovery and always positive |
| ROPhysics.PressureDrop | app/components/ROCalculator.tsx:149-151 | the stage pressure drop is positive |
| ROPhysics.PressureDropIgnoresFlow | app/components/ROCalculator.tsx:149-151 | the stage pressure drop ignores the flow: 20 psi for the first stage and 15 for the others |
| ROPhysics.LimitingRecoveryIsConstant | app/components/ROCalculator.tsx:153-162 | the limiting recovery is 0.85 whatever its six arguments |
| ROPhysics.PermeateFlowIncreasesWithFeedPressure | app/components/ROCalculator.tsx:164-180 | raising the feed pressure raises the net driving pressure by the same amount, and so raises the total permeate flow A·area·TCF·FF·NDP·n/24 when the membrane terms are positive |
| ROPhysics.AverageElementRecoveryOfOneElement | app/components/ROCalculator.tsx:182-187 | with one element, 1 − (1 − Y)^(1/n) is the system recovery Y itself |
| ROWalk.ElementPressureDropProfile | app/components/ROCalculator.tsx:415-416 | the element pressure drop 3·(1 − 0.1·(e − 1)) is 3 psi at the first position and falls by 0.3 psi per position; it reaches 0 at the eleventh element and is negative beyond (no floor) |
| ROWalk.SimulateElement | app/components/ROCalculator.tsx:410-458 | the element recovery is at most the 0.3 cap, so the concentrate divisor 1 − recovery is at least 0.7 |
| ROWalk.SimulateElementBalance | app/components/ROCalculator.tsx:444-455 | the recovery is the cap or exactly permeate/feed, and the concentrate TDS times (1 − recovery) is the feed TDS |
| ROWalk.ElementRecord | app/components/ROCalculator.tsx:468-477 | a record carries its stage, vessel and element number and its feed flow and feed TDS; its stored recovery is at most 30 % |
| ROWalk.SaltKeptExactlyWhenUncapped | app/components/ROCalculator.tsx:444-455 | flow × TDS is kept across an element exactly when the permeate flow is at most 0.3 × feed; a capped element passes on the uncapped flow with the capped TDS |
| ROWalk.RunElementsShape | app/components/ROCalculator.tsx:401-487 | the element loop of a vessel appends records for elements 1..n of that vessel in order |
| ROWalk.RunElementsFaithful | app/components/ROCalculator.tsx:401-487 | each appended record is the element record for its position in the run |
| ROWalk.RunVesselsShape | app/components/ROCalculator.tsx:391-399 | the vessel loop appends records of that stage only, for vessels 1..n and existing elements |
| ROWalk.RunVesselsFaithful | app/components/ROCalculator.tsx:391-399 | the vessel loop keeps every record faithful to its position |
| ROWalk.RunStagesShape | app/components/ROCalculator.tsx:386-389 | every record of stages 1..n names a stage ≤ n, a vessel of that stage and an element of that vessel |
| ROWalk.RunStagesFaithful | app/components/ROCalculator.tsx:386-389 | every record of the stage fold is the record for its position |
| ROWalk.RunElementsOrdered | app/components/ROCalculator.tsx:401-477 | the element loop keeps the records strictly increasing in (stage, vessel, element) |
| ROWalk.RunVesselsOrdered | app/components/ROCalculator.tsx:391-399 | the vessel loop keeps the records strictly ordered |
| ROWalk.RunStagesOrdered | app/components/ROCalculator.tsx:386-389 | the stage fold's records are strictly ordered |
| ROWalk.RunElementsLength | app/components/ROCalculator.tsx:401 | a vessel of n elements adds exactly n records; a vessel with no elements emits nothing and its outlet equals its inlet |
| ROWalk.RunVesselsCount | app/components/ROCalculator.tsx:391-399 | a stage adds as many records as the counting loop counts in its vessels |
| ROWalk.RunStagesCount | app/components/ROCalculator.tsx:386-389 | the stage fold emits as many records as the counting loop counts over those stages |
| ROWalk.WalkRecordCount | app/components/ROCalculator.tsx:329-342 | with non-negative element counts, the walk emits exactly `totalElements` records |
| ROWalk.WalkOrderedAndPlaced | app/components/ROCalculator.tsx:382-477 | the records are strictly ordered by (stage, vessel, element), and each names an existing element with 1-based indices |
| ROWalk.WalkPressureByPosition | app/components/ROCalculator.tsx:403-408 | the record at position k is computed with feed pressure feedPressure − 3k; the count runs over the whole run and is not reset per vessel |
| ROWalk.WalkRecoveryCapped | app/components/ROCalculator.tsx:449-452 | every stored element recovery is at most 30 % |
| ROWalk.EmptyStagePassesThrough | app/components/ROCalculator.tsx:386-399 | a stage with no vessels emits nothing and passes its inlet flow and TDS on unchanged |
| ROWalk.SingleElementRun | app/components/ROCalculator.tsx:382-487 | one stage of one vessel of one element gives exactly one record, (1,1,1), fed the whole feed flow at the feed TDS, with recovery ≤ 30 % |
| ROWalk.SystemRecovery | app/components/ROCalculator.tsx:360 | the system recovery is at most 0.85; it is either the cap or permeate/feed, and it is exactly permeate/feed when that is below the cap |
| ROWalk.SystemRecoveryIsMinimum | app/components/ROCalculator.tsx:360 | for every feed flow, the recovery is at most both permeate/feed and 0.85, and equals one of them: it is their minimum |
| ROWalk.SystemResultsBounds | app/components/ROCalculator.tsx:542-555 | the recovery is ≤ 85 %, the limiting recovery is 85 %, the pressure drops are [20, 24] and the permeate concentration is TDS·(1 − rejection); the concentrate osmotic pressure times (1 − recovery) is the feed osmotic pressure |
| ROWalk.SystemResultsIgnoreLayout | app/components/ROCalculator.tsx:345-378 | two layouts with the same element total give the same system result |
| ROCalculator.CountTotals | app/components/ROCalculator.tsx:329-342 | the counting loops compute the element and vessel totals, with a missing entry read as 0 |
| ROCalculator.SimulateVessel | app/components/ROCalculator.tsx:391-477 | the element loop of a vessel, with the pressure branch on stage, vessel and element, equals the element fold |
| ROCalculator.SimulateStage | app/components/ROCalculator.tsx:386-487 | the vessel loop equals the vessel fold: the flow is split evenly, and the last vessel's exit flow × vessel count goes on to the next stage |
| ROCalculator.SimulateStages | app/components/ROCalculator.tsx:379-489 | the stage loop equals the stage fold |
| ROCalculator.LumpedResults | app/components/ROCalculator.tsx:319-378 | the counting loop's element total fed to the lumped formulas produces `SystemResultsOf` |
| ROCalculator.Calculate | app/components/ROCalculator.tsx:313-555 | `calculate` stores the walk's records and the lumped system result |
| ScalingIndices.Set | app/components/ScalingIndicesCalculator.tsx:355-358 | writing one ion field changes that field and no other |
| ScalingIndices.ConvertToCaCO3 | app/components/ScalingIndicesCalculator.tsx:76-78 | the CaCO₃ equivalent times the molecular weight is 50 × the concentration |
| ScalingIndices.TdsFoldMeaning | app/components/ScalingIndicesCalculator.tsx:98-101 | the `reduce` over a table of positive weights is NaN exactly when a summed field is unparseable; otherwise it is Σ 50·c/w |
| ScalingIndices.CalculateTdsMeaning | app/components/ScalingIndicesCalculator.tsx:80-102 | `calculateTDS` over its 14 ions is NaN exactly when one of them is unparseable; otherwise it is the sum of CaCO₃ equivalents with empty fields as 0 |
| ScalingIndices.ReferenceTdsOfBlank | app/components/ScalingIndicesCalculator.tsx:98-101 | empty fields contribute nothing to the sum |
| ScalingIndices.CalculateTdsOfBlank | app/components/ScalingIndicesCalculator.tsx:80-102 | with every ion field empty, the TDS estimate is 0 |
| ScalingIndices.BalanceOfBlank | app/components/ScalingIndicesCalculator.tsx:204-226 | fields that `parseFloat(x) \|\| 0` reads as 0 contribute nothing: cations, anions and charge balance are 0 |
| ScalingIndices.AdjustIon | app/components/ScalingIndicesCalculator.tsx:104-148 | adjusting an ion rewrites only that ion's field |
| ScalingIndices.AdjustCationAddsDeficit | app/components/ScalingIndicesCalculator.tsx:104-148 | adjusting sodium, calcium or ammonium raises the total cations by exactly the charge difference \|cations − anions\| and leaves the anions unchanged |
| ScalingIndices.AdjustAnionAddsDeficit | app/components/ScalingIndicesCalculator.tsx:104-148 | adjusting chloride or sulfate raises the total anions by exactly the charge difference and leaves the cations unchanged |
| ScalingIndices.AdjustUnknownIonStoresNaN | app/components/ScalingIndicesCalculator.tsx:109-144 | adjusting an ion with no valence in the table stores NaN in that ion's field |
| ScalingIndices.AdjustUnparseableIonStaysNaN | app/components/ScalingIndicesCalculator.tsx:144-147 | adjusting an ion whose field does not parse stores NaN again, so the cations, anions and charge balance do not move |
| ScalingIndices.AdjustIonBalances | app/components/ScalingIndicesCalculator.tsx:104-148 | adjusting an ion on the deficient side leaves cations equal to anions and a charge balance of 0 |
| ScalingIndices.LarsonSkoldSplitsAnions | app/components/ScalingIndicesCalculator.tsx:216-234 | with no nitrate, phosphate or fluoride, the total anions are (HCO₃ + CO₃ terms)·(1 + Larson-Skold index) |
| ScalingIndices.AppendBasicErrors | app/components/ScalingIndicesCalculator.tsx:154-161 | the pH and temperature checks push their messages in order |
| ScalingIndices.AppendFieldErrors | app/components/ScalingIndicesCalculator.tsx:165-187 | a quick-mode field pushes its 'required', 'negative' or 'too high' message |
| ScalingIndices.AppendIonErrors | app/components/ScalingIndicesCalculator.tsx:190-198 | the advanced-mode loop pushes one message for each negative ion among the 13 it checks, in their order |
| ScalingIndices.ValidateInputs | app/components/ScalingIndicesCalculator.tsx:150-202 | `validateInputs` builds exactly the ordered message list and returns true iff the list is empty |
| ScalingIndices.IonErrorsEmptyIff | app/components/ScalingIndicesCalculator.tsx:192-198 | the ion check reports nothing iff no checked ion reads as negative |
| ScalingIndices.ValidIff | app/components/ScalingIndicesCalculator.tsx:150-202 | the form validates iff every field condition of its mode holds |
| ScalingIndices.ValidationOrder | app/components/ScalingIndicesCalculator.tsx:154-161 | the pH message (required, or out of range) comes first, and the temperature message follows it |
| ScalingIndices.AdvancedIgnoresQuickFields | app/components/ScalingIndicesCalculator.tsx:163-198 | advanced-mode validation never reads the quick TDS, hardness or alkalinity fields |
| ScalingIndices.UnvalidatedIons | app/components/ScalingIndicesCalculator.tsx:192-198 | potassium, iron, manganese and ammonium are never validated |
| ScalingIndices.Indices | app/components/ScalingIndicesCalculator.tsx:285-292 | RSI = pH − 2·LSI, LSI + RSI = pHs, and PSI = RSI + pH − (1.465·log₁₀ alkalinity + 4.54) |
| ScalingIndices.CalculateIndices | app/components/ScalingIndicesCalculator.tsx:254-306 | the errors become the validation list; on invalid input the results and the panel are untouched; otherwise the panel shows results, with a charge balance in advanced mode only |
| ScalingIndices.RyznarFromLangelier | app/components/ScalingIndicesCalculator.tsx:284-292 | a computed result always has RSI = pH − 2·LSI |
| ScalingIndices.IndicesNaNCases | app/components/ScalingIndicesCalculator.tsx:259-292 | after validation, PSI is a number iff the temperature and the hardness, alkalinity and TDS inputs parse; all three indices are numbers iff the pH parses as well |
| ScalingIndices.PsiIgnoresPh | app/components/ScalingIndicesCalculator.tsx:289-292 | two validated forms that differ only in the pH text, parseable or not, give the same PSI |
| ScalingIndices.ResetCalculator | app/components/ScalingIndicesCalculator.tsx:308-336 | the reset empties every field, clears the results and errors, hides the panel and keeps the mode |
| ScalingIndices.ResetZeroes | app/components/ScalingIndicesCalculator.tsx:308-336 | after a reset the balance and the TDS are 0, and validation reports 'pH is required' first |
| ScalingIndices.LsiCondition | app/components/ScalingIndicesCalculator.tsx:338-341 | LSI reads scaling iff it is > 0, and corrosive iff it is ≤ 0 |
| ScalingIndices.PsiCondition | app/components/ScalingIndicesCalculator.tsx:348-349 | PSI reads high scaling iff it is < 6 |
| ScalingIndices.RsiConditionMonotone | app/components/ScalingIndicesCalculator.tsx:342-347 | every RSI lands in one of the five bands, and a larger RSI is never in a more scale-forming band |
| ScalingIndices.RsiThresholds | app/components/ScalingIndicesCalculator.tsx:342-347 | each threshold 5.5, 6.2, 6.8 and 8.5 belongs to the band above it |
| ScalingIndices.UnknownIndexCondition | app/components/ScalingIndicesCalculator.tsx:350-351 | any other index name gives the empty text |
| OperatingData.TcfExponent | app/components/OperatingData.tsx:97 | the log-page TCF exponent (2640 at every temperature) is 0 at 25 °C |
| OperatingData.TcfFacts | app/components/OperatingData.tsx:97 | the log-page TCF is positive, and it is 1 at 25 °C |
| OperatingData.CalculateResults | app/components/OperatingData.tsx:88-104 | days since the first entry (0 without one); ΔP + concentrate pressure = feed pressure; F·feed flow = permeate flow; R·feed conductivity = (feed − permeate conductivity)·100; each normalised value × TCF is the raw value |
| OperatingData.NormalisedAtReference | app/components/OperatingData.tsx:97-101 | at 25 °C the normalised values equal the raw ones |
| OperatingData.FirstEntry | app/components/OperatingData.tsx:114 | the baseline is the first logged row, when there is one |
| OperatingData.WithoutRemovesOne | app/components/OperatingData.tsx:277 | the delete filter removes exactly the row at the index, and an out-of-range index leaves the log unchanged |
| OperatingData.EvaluationLog.AddEntry | app/components/OperatingData.tsx:113-121 | adding an entry appends the current entry with its results against the first row, keeps the readings in the form and re-dates them to today |
| OperatingData.EvaluationLog.Delete | app/components/OperatingData.tsx:277 | deleting leaves the log filtered of that index and keeps the form |
| OperatingData.AddedRowDays | app/components/OperatingData.tsx:113-116 | a new row counts its days from the first row, and the first row counts 0 |
| OperatingData.PercentChange | app/components/OperatingData.tsx:168-170 | the change times the baseline is (latest − baseline)·100, and equal values give 0 |
| OperatingData.CleaningChanges | app/components/OperatingData.tsx:159-170 | the analysis exists iff at least two rows are logged |
| OperatingData.AlertAndPanelDiffer | app/components/OperatingData.tsx:172-176 | the alert and the inline panel agree on flow (≤ −10 %) and pressure drop (≥ 15 %); they differ on salt passage exactly when 5 % ≤ increase < 10 % |
| OperatingData.UnchangedLogNeedsNoCleaning | app/components/OperatingData.tsx:159-182 | when the last row's values equal the first's, every change is 0 and nothing is flagged |
| OperatingData.CleaningVolumes | app/components/OperatingData.tsx:123-140 | each volume is the gallon figure rounded (within ½) |
| OperatingData.RoundedTotalNearSumOfRoundedParts | app/components/OperatingData.tsx:133-139 | the total is rounded from the unrounded sum: it is within one gallon of the sum of the rounded parts, and it can differ from it |
| OperatingData.VolumeScalesWithVesselCount | app/components/OperatingData.tsx:130-132 | the vessel volume is proportional to the vessel count, and the pipe volume does not depend on it |
| OperatingData.RecommendedFlowRate | app/components/OperatingData.tsx:142-150 | the rate is 'N/A' iff the diameter is none of 2.5, 4, 6, 8 |
| DataLogging.ConductivityBands | app/components/DataLogging.tsx:37-42 | the TDS factor is 0.50 up to 1 µS/cm, 0.55 up to 80, 0.70 up to 6000, then 0.75 |
| DataLogging.ConductivityToTdsRange | app/components/DataLogging.tsx:37-42 | the TDS is 0 at 0, positive for positive conductivity, and at most 0.75 × conductivity |
| DataLogging.ConductivityToTdsMonotone | app/components/DataLogging.tsx:37-42 | a higher conductivity always gives a higher TDS |
| DataLogging.InitialEntry | app/components/DataLogging.tsx:45-73 | the initial entry's TDS readings match its conductivities |
| DataLogging.ApplyInput | app/components/DataLogging.tsx:77-96 | an edit keeps the timestamp and keeps each TDS paired with its conductivity |
| DataLogging.EditChangesOnlyTarget | app/components/DataLogging.tsx:77-96 | an edit sets only its target to `parseFloat \|\| 0`, an unreadable input acts as 0, and an unknown category changes nothing |
| DataLogging.ConductivityEditPairs | app/components/DataLogging.tsx:86-89 | a conductivity edit also sets that stream's TDS from the bands, and changes nothing else |
| DataLogging.HandleSubmit | app/components/DataLogging.tsx:98-101 | submit appends one row with the entry's readings and the current time, and keeps the old rows |
| DataLogging.PairingInvariant | app/components/DataLogging.tsx:45-101 | every state reached by edits and submits keeps TDS paired with conductivity, in the form and in every row |
| DataLogging.SubmittedEntryIsSnapshot | app/components/DataLogging.tsx:77-101 | the corrected behaviour: an edit after a submit leaves the logged row as it was |
| DataLogging.AliasedLogger.HandleInputChange | app/components/DataLogging.tsx:77-96 | as written: the outer entry is a fresh copy that keeps the same nested objects, and the readings held in those shared objects become exactly the intended edit `ApplyInput` of the old readings |
| DataLogging.AliasedLogger.HandleSubmit | app/components/DataLogging.tsx:98-101 | as written: one fresh row stamped with the current time is appended, and it shares the entry's `pressures`, `flows` and `waterQuality` objects |
| DataLogging.SubmitThenEditRewritesLog | app/components/DataLogging.tsx:77-101 | as written, submit with feed pressure 0 and then type 5: the logged row reads 0 before the edit and 5 after |
| PerformanceNormalization.TcfBranches | app/components/PerformanceNormalization.tsx:28-33 | the page's TCF is the calculator's: 2640 from 25 °C up, 3020 below, and 1 at 25 °C |
| PerformanceNormalization.OsmoticPressureLinear | app/components/PerformanceNormalization.tsx:35-40 | both branches (below 20000 mg/L, and from 20000 up) vanish at 0 and are linear in TDS |
| PerformanceNormalization.FeedConcentrate | app/components/PerformanceNormalization.tsx:42-44 | the feed concentrate times R is TDS·ln(1/(1 − R)) |
| PerformanceNormalization.NetDrivingPressure | app/components/PerformanceNormalization.tsx:84-85 | NDP + drop/2 + permeate pressure + concentrate osmotic pressure = feed pressure |
| PerformanceNormalization.NormalizedFlow | app/components/PerformanceNormalization.tsx:71-92 | normalised flow × baseline NDP × baseline TCF = operating NDP × operating TCF × baseline flow; deviation × flow = (normalised − flow)·100 |
| PerformanceNormalization.IdenticalConditions | app/components/PerformanceNormalization.tsx:71-92 | identical conditions give the baseline flow and a deviation of 0 |
| PerformanceNormalization.DefaultShowsNoDeviation | app/components/PerformanceNormalization.tsx:47-66 | the page opens on 100 flow and 0 deviation, with no alarm |
| PerformanceNormalization.DeviationAlarmBands | app/components/PerformanceNormalization.tsx:165 | the deviation shows red iff it is above 15 or below −15 |
| PerformanceNormalization.HandleInputChange | app/components/PerformanceNormalization.tsx:98-107 | one field of one side takes `parseFloat \|\| 0`; every other field and the other side are kept |
| PerformanceNormalization.PermeateFlowEditKeepsNormalizedFlow | app/components/PerformanceNormalization.tsx:71-107 | editing today's permeate flow never changes the normalised flow |
| ROCleaning.EvaluatePerformance | app/components/ROCleaning.tsx:13-26 | the fields stay blank unless at least two rows are stored; then all three are filled |
| ROCleaning.PanelAgreesWithLog | app/components/ROCleaning.tsx:13-26 | the panel shows the same three percent changes as the log's cleaning analysis of the same rows |
| ROCleaning.CleaningFlags | app/components/ROCleaning.tsx:56-89 | blank fields flag nothing |
| ROCleaning.PanelFlagsMatchAlert | app/components/ROCleaning.tsx:56-89 | the cards flag exactly what the log's alert flags (salt passage at 10 %) |
| ROCleaning.CleaningThresholds | app/components/ROCleaning.tsx:56-89 | flow ≤ −10 %, salt passage ≥ 10 % and pressure drop ≥ 15 % say 'Cleaning Required' |
| ROCleaning.CalculateTankSize | app/components/ROCleaning.tsx:37-49 | the inputs are kept; solution × 231 = 5 × element volume, and tank × 231 = 6 × element volume |
| ROCleaning.TankSizeFacts | app/components/ROCleaning.tsx:37-49 | the tank is 1.2 × the solution, and sizing again gives the same result |

## Left out

- Division by zero: JavaScript yields Infinity or NaN; the model's `MathLib.Div` yields 0. Results with a zero divisor are unconstrained in the model. This covers zero vessels, zero elements, zero feed flow, a zero baseline in a percent change, and zero recovery.
- Floating point: arithmetic is exact real arithmetic. IEEE rounding, overflow and `toFixed`/`toString`/`Number` round trips are not modelled, and the thresholds of the cleaning cards compare the unrounded change.
- Transcendental functions: `exp`, `pow`, `ln`, `log10` and `π` are parameters with only the laws listed above, so nothing depends on their numeric values.
- `ScalingIndices.SaturationPh`: the pHs formula is taken with its log terms as given, and no property of its value is claimed.
- Dates and the clock: dates are day numbers and the current time is a parameter. `new Date(...)` parsing and ISO strings are not modelled.
- Browser storage: the cleaning page takes the stored rows as a parameter, and JSON parsing is not modelled. No page of the core writes the key it reads.
- Rendering is left out: JSX, charts, alert texts, CSS classes and the React update scheduling.
- `calculateCarbonateEquilibrium` (ScalingIndicesCalculator.tsx:236-252): its result is only displayed and does not feed any index.
- The `try`/`catch` of `calculate` and `calculateIndices`: real arithmetic does not throw.
- `handleInputChange` of OperatingData and ScalingIndicesCalculator, and `handleTankSizingChange`: each is a one-field record update, modelled only as the `Set`/`with` update of the datatype.
- DataLogging's category/subcategory strings: the edit target is given as an already-parsed `Target`, with `Unknown` for anything else.
- ScalingIndices.CalculateIndices: a NaN index (a log of a non-positive quantity) is not tracked; the indices are computed with `MathLib`'s functions.
- The 273 and 298 kelvin constants follow the code, not 273.15 and 298.15.
- The element pressure-drop factor is not floored, as in the code.
- There is no fail-fast check for zero feed flow or zero elements; the code has none.

## Findings

| source | as written | input that shows it | evidently intended | confidence | as-written member | corrected member |
|---|---|---|---|---|---|---|
| app/components/DataLogging.tsx:77-101 | `handleInputChange` copies only the outer entry and writes into its nested `pressures`/`flows`/`waterQuality` objects. `handleSubmit` logs `{ ...logEntry }`, which shares those objects. | Submit with feed pressure 0, then type 5 into feed pressure: the logged row now shows 5. | Each logged row is a snapshot that later edits do not change. | not executed | DataLogging.SubmitThenEditRewritesLog | DataLogging.SubmittedEntryIsSnapshot |
