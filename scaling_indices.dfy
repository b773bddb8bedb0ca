/** The scale-indices calculator: the water-analysis form, its ordered
    validator, the cation/anion balance and the one-click ion adjustment, the
    CaCO3-equivalent TDS sum, the Langelier/Ryznar/Puckorius index algebra,
    the Larson-Skold ratio and the water-condition classifier. */
module ScalingIndices {
  import opened MathLib

  // ---------------------------------------------------------------------
  // The form
  // ---------------------------------------------------------------------

  /** The seventeen ion fields of the advanced form. */
  datatype Ion =
    | Calcium | Magnesium | Sodium | Potassium | Iron | Manganese | Ammonium
    | Chloride | Sulfate | Bicarbonate | Carbonate | Nitrate | Phosphate
    | Fluoride | Silica | Boron | CarbonDioxide

  /** Every text field of the form: five quick-mode fields, then the ions. */
  datatype Inputs = Inputs(
    tds: Field, temp: Field, caH: Field, mAlk: Field, pH: Field,
    calcium: Field, magnesium: Field, sodium: Field, potassium: Field,
    iron: Field, manganese: Field, ammonium: Field, chloride: Field,
    sulfate: Field, bicarbonate: Field, carbonate: Field, nitrate: Field,
    phosphate: Field, fluoride: Field, silica: Field, boron: Field,
    carbonDioxide: Field)

  /** The field an ion name indexes. */
  function Get(i: Inputs, ion: Ion): Field
  {
    match ion
    case Calcium => i.calcium
    case Magnesium => i.magnesium
    case Sodium => i.sodium
    case Potassium => i.potassium
    case Iron => i.iron
    case Manganese => i.manganese
    case Ammonium => i.ammonium
    case Chloride => i.chloride
    case Sulfate => i.sulfate
    case Bicarbonate => i.bicarbonate
    case Carbonate => i.carbonate
    case Nitrate => i.nitrate
    case Phosphate => i.phosphate
    case Fluoride => i.fluoride
    case Silica => i.silica
    case Boron => i.boron
    case CarbonDioxide => i.carbonDioxide
  }

  /** A copy of the form with one ion field overwritten. */
  function Set(i: Inputs, ion: Ion, f: Field): (r: Inputs)
    ensures Get(r, ion) == f
    ensures forall other :: other != ion ==> Get(r, other) == Get(i, other)
    ensures r.tds == i.tds && r.temp == i.temp && r.caH == i.caH
    ensures r.mAlk == i.mAlk && r.pH == i.pH
  {
    match ion
    case Calcium => i.(calcium := f)
    case Magnesium => i.(magnesium := f)
    case Sodium => i.(sodium := f)
    case Potassium => i.(potassium := f)
    case Iron => i.(iron := f)
    case Manganese => i.(manganese := f)
    case Ammonium => i.(ammonium := f)
    case Chloride => i.(chloride := f)
    case Sulfate => i.(sulfate := f)
    case Bicarbonate => i.(bicarbonate := f)
    case Carbonate => i.(carbonate := f)
    case Nitrate => i.(nitrate := f)
    case Phosphate => i.(phosphate := f)
    case Fluoride => i.(fluoride := f)
    case Silica => i.(silica := f)
    case Boron => i.(boron := f)
    case CarbonDioxide => i.(carbonDioxide := f)
  }

  const BlankInputs: Inputs := Inputs(
    Empty, Empty, Empty, Empty, Empty, Empty, Empty, Empty, Empty, Empty, Empty,
    Empty, Empty, Empty, Empty, Empty, Empty, Empty, Empty, Empty, Empty, Empty)

  /** The calculator's state: the form, the mode switch, the last results,
      the error list and whether the results panel is shown. */
  datatype Calculator = Calculator(
    inputs: Inputs,
    advanced: bool,
    results: Option<Results>,
    errors: seq<string>,
    showResults: bool)

  /** One computation of the indices. `PsiOnly` is what the source stores
      when only the measured pH is unparseable: LSI and RSI are NaN, but PSI
      never reads the pH and stays a number. `Indeterminate` stands for all
      three indices NaN, when the temperature or a hardness, alkalinity or
      TDS field it reads is unparseable. */
  datatype Results =
    | Computed(rsi: real, lsi: real, psi: real, chargeBalance: Option<real>)
    | PsiOnly(psi: real, chargeBalance: Option<real>)
    | Indeterminate(chargeBalance: Option<real>)

  /** The PSI of a result, None when it is NaN. */
  function PsiOf(r: Results): Option<real>
  {
    if r.Indeterminate? then None else Some(r.psi)
  }

  // ---------------------------------------------------------------------
  // CaCO3 equivalents and the TDS estimate
  // ---------------------------------------------------------------------

  /** mg/L of an ion expressed as mg/L of CaCO3 (equivalent weight 50). */
  function ConvertToCaCO3(concentration: real, molecularWeight: real): (r: real)
    ensures molecularWeight != 0.0 ==> r * molecularWeight == 50.0 * concentration
  {
    concentration * Div(50.0, molecularWeight)
  }

  /** The ions `calculateTDS` sums, in its order, with their molecular weights. */
  const TdsIons: seq<(Ion, real)> := [
    (Calcium, 40.08), (Magnesium, 24.305), (Sodium, 22.99), (Potassium, 39.098),
    (Iron, 55.845), (Manganese, 54.938), (Ammonium, 18.04), (Chloride, 35.45),
    (Sulfate, 96.06), (Bicarbonate, 61.017), (Carbonate, 60.009),
    (Nitrate, 62.004), (Phosphate, 94.971), (Fluoride, 18.998)]

  /** The source's `reduce`: a left fold adding each ion's CaCO3 equivalent;
      an unparseable field makes the running sum NaN (None). */
  function TdsFold(i: Inputs, table: seq<(Ion, real)>): Option<real>
  {
    if table == [] then Some(0.0)
    else
      var last := table[|table| - 1];
      match (TdsFold(i, table[..|table| - 1]), OrZeroText(Get(i, last.0)))
      case (Some(sum), Some(c)) => Some(sum + ConvertToCaCO3(c, last.1))
      case _ => None
  }

  function CalculateTds(i: Inputs): Option<real>
  {
    TdsFold(i, TdsIons)
  }

  /** Reference reading of the TDS estimate: 50 times the sum of
      concentration over molecular weight, summed from the front. */
  function ReferenceTds(i: Inputs, table: seq<(Ion, real)>): real
  {
    if table == [] then 0.0
    else Div(50.0 * OrZero(Get(i, table[0].0)), table[0].1) + ReferenceTds(i, table[1..])
  }

  predicate PositiveWeights(table: seq<(Ion, real)>)
  {
    forall k :: 0 <= k < |table| ==> table[k].1 > 0.0
  }

  lemma {:induction false} ReferenceTdsSnoc(i: Inputs, table: seq<(Ion, real)>, x: (Ion, real))
    requires x.1 > 0.0
    ensures ReferenceTds(i, table + [x]) == ReferenceTds(i, table) + Div(50.0 * OrZero(Get(i, x.0)), x.1)
    decreases |table|
  {
    if table != [] {
      assert (table + [x])[1..] == table[1..] + [x];
      ReferenceTdsSnoc(i, table[1..], x);
    }
  }

  lemma ConvertIsReference(c: real, w: real)
    requires w > 0.0
    ensures ConvertToCaCO3(c, w) == Div(50.0 * c, w)
  {
    var q1 := ConvertToCaCO3(c, w);
    var q2 := Div(50.0 * c, w);
    assert q1 * w == q2 * w;
    assert (q1 - q2) * w == 0.0;
  }

  /** The fold is NaN exactly when one of the summed fields is unparseable,
      and otherwise equals the reference sum. */
  lemma TdsFoldMeaning(i: Inputs, table: seq<(Ion, real)>)
    requires PositiveWeights(table)
    ensures TdsFold(i, table).None? <==>
              exists k :: 0 <= k < |table| && Get(i, table[k].0).Unparseable?
    ensures TdsFold(i, table).Some? ==> TdsFold(i, table).value == ReferenceTds(i, table)
  {
    TdsFoldNaN(i, table);
    TdsFoldValue(i, table);
  }

  /** The fold is NaN exactly when a summed field is unparseable. */
  lemma {:induction false} TdsFoldNaN(i: Inputs, table: seq<(Ion, real)>)
    ensures TdsFold(i, table).None? <==>
              exists k :: 0 <= k < |table| && Get(i, table[k].0).Unparseable?
    decreases |table|
  {
    if table != [] {
      var n := |table| - 1;
      var front := table[..n];
      TdsFoldNaN(i, front);
      if TdsFold(i, table).None? {
        if TdsFold(i, front).None? {
          var k :| 0 <= k < |front| && Get(i, front[k].0).Unparseable?;
          assert table[k] == front[k];
        }
      } else {
        forall k | 0 <= k < |table| ensures !Get(i, table[k].0).Unparseable? {
          if k < n {
            assert table[k] == front[k];
          }
        }
      }
    }
  }

  /** A fold that is a number equals the reference sum. */
  lemma {:induction false} TdsFoldValue(i: Inputs, table: seq<(Ion, real)>)
    requires PositiveWeights(table)
    ensures TdsFold(i, table).Some? ==> TdsFold(i, table).value == ReferenceTds(i, table)
    decreases |table|
  {
    if table != [] && TdsFold(i, table).Some? {
      var n := |table| - 1;
      var front := table[..n];
      assert PositiveWeights(front) by {
        forall k | 0 <= k < |front| ensures front[k].1 > 0.0 {
          assert front[k] == table[k];
        }
      }
      TdsFoldValue(i, front);
      assert table == front + [table[n]];
      ReferenceTdsSnoc(i, front, table[n]);
      var c := OrZeroText(Get(i, table[n].0)).value;
      assert OrZero(Get(i, table[n].0)) == c;
      ConvertIsReference(c, table[n].1);
    }
  }

  /** The TDS estimate reads the ion fields only. */
  lemma {:induction false} TdsFoldAgree(i: Inputs, j: Inputs, table: seq<(Ion, real)>)
    requires forall ion :: Get(i, ion) == Get(j, ion)
    ensures TdsFold(i, table) == TdsFold(j, table)
    decreases |table|
  {
    if table != [] {
      TdsFoldAgree(i, j, table[..|table| - 1]);
    }
  }

  /** `calculateTDS` is NaN exactly when one of its fourteen ions is
      unparseable; otherwise it is 50·Σ concentration/MW. */
  lemma CalculateTdsMeaning(i: Inputs)
    ensures CalculateTds(i).None? <==>
              exists k :: 0 <= k < |TdsIons| && Get(i, TdsIons[k].0).Unparseable?
    ensures CalculateTds(i).Some? ==> CalculateTds(i).value == ReferenceTds(i, TdsIons)
  {
    TdsFoldMeaning(i, TdsIons);
  }

  lemma {:induction false} ReferenceTdsOfBlank(i: Inputs, table: seq<(Ion, real)>)
    requires forall k :: 0 <= k < |table| ==> Get(i, table[k].0) == Empty
    ensures ReferenceTds(i, table) == 0.0
    decreases |table|
  {
    if table != [] {
      assert Get(i, table[0].0) == Empty;
      assert forall k :: 0 <= k < |table[1..]| ==> table[1..][k] == table[k + 1];
      ReferenceTdsOfBlank(i, table[1..]);
    }
  }

  /** With every ion field empty the TDS estimate is 0. */
  lemma CalculateTdsOfBlank(i: Inputs)
    requires forall ion :: Get(i, ion) == Empty
    ensures CalculateTds(i) == Some(0.0)
  {
    CalculateTdsMeaning(i);
    ReferenceTdsOfBlank(i, TdsIons);
  }

  // ---------------------------------------------------------------------
  // Ion balance
  // ---------------------------------------------------------------------

  /** Total cations in meq/L (unreadable fields count as 0). */
  function TotalCations(i: Inputs): real
  {
    OrZero(i.calcium) / 40.08 * 2.0 + OrZero(i.magnesium) / 24.305 * 2.0
      + OrZero(i.sodium) / 22.99 + OrZero(i.potassium) / 39.098
      + OrZero(i.iron) / 55.845 * 2.0 + OrZero(i.manganese) / 54.938 * 2.0
      + OrZero(i.ammonium) / 18.04
  }

  /** Total anions in meq/L (unreadable fields count as 0). */
  function TotalAnions(i: Inputs): real
  {
    OrZero(i.chloride) / 35.45 + OrZero(i.sulfate) / 96.06 * 2.0
      + OrZero(i.bicarbonate) / 61.017 + OrZero(i.carbonate) / 60.009 * 2.0
      + OrZero(i.nitrate) / 62.004 + OrZero(i.phosphate) / 94.971 * 3.0
      + OrZero(i.fluoride) / 18.998
  }

  /** The charge balance error in percent, as the advanced results show it. */
  function ChargeBalance(i: Inputs): real
  {
    Div(TotalCations(i) - TotalAnions(i), TotalCations(i) + TotalAnions(i)) * 100.0
  }

  /** Only fields that `parseFloat(x) || 0` reads as a number contribute. */
  lemma BalanceOfBlank(i: Inputs)
    requires forall ion :: !Get(i, ion).Num?
    ensures TotalCations(i) == 0.0 && TotalAnions(i) == 0.0 && ChargeBalance(i) == 0.0
  {
    assert !Get(i, Calcium).Num? && !Get(i, Magnesium).Num? && !Get(i, Sodium).Num?;
    assert !Get(i, Potassium).Num? && !Get(i, Iron).Num? && !Get(i, Manganese).Num?;
    assert !Get(i, Ammonium).Num? && !Get(i, Chloride).Num? && !Get(i, Sulfate).Num?;
    assert !Get(i, Bicarbonate).Num? && !Get(i, Carbonate).Num? && !Get(i, Nitrate).Num?;
    assert !Get(i, Phosphate).Num? && !Get(i, Fluoride).Num?;
  }

  /** The valence `adjustIon` uses; 0 for ions it does not know. */
  function Valence(ion: Ion): int
  {
    match ion
    case Sodium => 1
    case Calcium => 2
    case Ammonium => 1
    case Chloride => -1
    case Sulfate => -2
    case _ => 0
  }

  /** The molecular weight `adjustIon` uses; 0 for ions it does not know. */
  function AdjustWeight(ion: Ion): real
  {
    match ion
    case Sodium => 22.99
    case Calcium => 40.08
    case Ammonium => 18.04
    case Chloride => 35.45
    case Sulfate => 96.06
    case _ => 0.0
  }

  function Abs(x: real): real
  {
    if x < 0.0 then -x else x
  }

  /** The mg/L to add to `ion`: the charge deficit in meq/L times the
      molecular weight over the valence. For an unknown ion the source divides
      0 by 0, which is NaN (None). */
  function RequiredAmount(i: Inputs, ion: Ion): Option<real>
  {
    var difference := TotalCations(i) - TotalAnions(i);
    var valence := Valence(ion);
    if valence > 0 then Some(Abs(difference) * AdjustWeight(ion) / valence as real)
    else if valence < 0 then Some(Abs(difference) * AdjustWeight(ion) / (-valence) as real)
    else None
  }

  /** `adjustIon`: a copy of the form whose `ion` field holds its value plus
      the required amount; a NaN sum is stored as the text "NaN". */
  function AdjustIon(i: Inputs, ion: Ion): (r: Inputs)
    ensures forall other :: other != ion ==> Get(r, other) == Get(i, other)
    ensures r.tds == i.tds && r.temp == i.temp && r.caH == i.caH
    ensures r.mAlk == i.mAlk && r.pH == i.pH
  {
    match (OrZeroText(Get(i, ion)), RequiredAmount(i, ion))
    case (Some(current), Some(amount)) => Set(i, ion, Num(current + amount))
    case _ => Set(i, ion, Unparseable)
  }

  predicate IsAdjustableCation(ion: Ion)
  {
    ion == Sodium || ion == Calcium || ion == Ammonium
  }

  predicate IsAdjustableAnion(ion: Ion)
  {
    ion == Chloride || ion == Sulfate
  }

  /** Adjusting sodium, calcium or ammonium raises total cations by exactly
      the charge deficit and leaves total anions as they were. */
  lemma AdjustCationAddsDeficit(i: Inputs, ion: Ion)
    requires IsAdjustableCation(ion) && !Get(i, ion).Unparseable?
    ensures TotalCations(AdjustIon(i, ion))
              == TotalCations(i) + Abs(TotalCations(i) - TotalAnions(i))
    ensures TotalAnions(AdjustIon(i, ion)) == TotalAnions(i)
  {
    AnionsAgree(i, AdjustIon(i, ion));
    var d := Abs(TotalCations(i) - TotalAnions(i));
    if ion == Sodium {
      RaiseCationTerm(i, ion, 22.99, 1.0, d);
    } else if ion == Calcium {
      RaiseCationTerm(i, ion, 40.08, 2.0, d);
    } else {
      RaiseCationTerm(i, ion, 18.04, 1.0, d);
    }
  }

  /** Adding d·w/v mg/L of a cation of weight w and valence v adds d meq/L. */
  lemma RaiseCationTerm(i: Inputs, ion: Ion, w: real, v: real, d: real)
    requires IsAdjustableCation(ion) && !Get(i, ion).Unparseable?
    requires w == AdjustWeight(ion) && v == Valence(ion) as real
    requires d == Abs(TotalCations(i) - TotalAnions(i))
    ensures TotalCations(AdjustIon(i, ion)) == TotalCations(i) + d
  {
    var c := OrZero(Get(i, ion));
    var x := c + d * w / v;
    assert AdjustIon(i, ion) == Set(i, ion, Num(x));
    MeqShift(c, d, w, v);
  }

  /** d·w/v mg/L of an ion of weight w and valence v is d meq/L. */
  lemma MeqShift(c: real, d: real, w: real, v: real)
    requires w > 0.0 && v > 0.0
    ensures (c + d * w / v) / w * v == c / w * v + d
  {
    assert (c + d * w / v) / w == c / w + d / v;
  }

  /** Adjusting chloride or sulfate raises total anions by exactly the charge
      deficit and leaves total cations as they were. */
  lemma AdjustAnionAddsDeficit(i: Inputs, ion: Ion)
    requires IsAdjustableAnion(ion) && !Get(i, ion).Unparseable?
    ensures TotalAnions(AdjustIon(i, ion))
              == TotalAnions(i) + Abs(TotalCations(i) - TotalAnions(i))
    ensures TotalCations(AdjustIon(i, ion)) == TotalCations(i)
  {
    CationsAgree(i, AdjustIon(i, ion));
    var d := Abs(TotalCations(i) - TotalAnions(i));
    if ion == Chloride {
      RaiseAnionTerm(i, ion, 35.45, 1.0, d);
    } else {
      RaiseAnionTerm(i, ion, 96.06, 2.0, d);
    }
  }

  /** Adding d·w/|v| mg/L of an anion of weight w and valence v adds d meq/L. */
  lemma RaiseAnionTerm(i: Inputs, ion: Ion, w: real, v: real, d: real)
    requires IsAdjustableAnion(ion) && !Get(i, ion).Unparseable?
    requires w == AdjustWeight(ion) && v == (-Valence(ion)) as real
    requires d == Abs(TotalCations(i) - TotalAnions(i))
    ensures TotalAnions(AdjustIon(i, ion)) == TotalAnions(i) + d
  {
    var c := OrZero(Get(i, ion));
    var x := c + d * w / v;
    assert AdjustIon(i, ion) == Set(i, ion, Num(x));
    MeqShift(c, d, w, v);
  }

  lemma CationsAgree(i: Inputs, j: Inputs)
    requires i.calcium == j.calcium && i.magnesium == j.magnesium && i.sodium == j.sodium
    requires i.potassium == j.potassium && i.iron == j.iron
    requires i.manganese == j.manganese && i.ammonium == j.ammonium
    ensures TotalCations(i) == TotalCations(j)
  {
  }

  lemma AnionsAgree(i: Inputs, j: Inputs)
    requires Get(i, Chloride) == Get(j, Chloride) && Get(i, Sulfate) == Get(j, Sulfate)
    requires Get(i, Bicarbonate) == Get(j, Bicarbonate) && Get(i, Carbonate) == Get(j, Carbonate)
    requires Get(i, Nitrate) == Get(j, Nitrate) && Get(i, Phosphate) == Get(j, Phosphate)
    requires Get(i, Fluoride) == Get(j, Fluoride)
    ensures TotalAnions(i) == TotalAnions(j)
  {
  }

  /** Adjusting an ion the source has no valence for stores NaN in it. */
  lemma AdjustUnknownIonStoresNaN(i: Inputs, ion: Ion)
    requires !IsAdjustableCation(ion) && !IsAdjustableAnion(ion)
    ensures Get(AdjustIon(i, ion), ion) == Unparseable
  {
  }

  /** Adjusting an ion whose field does not parse keeps the field
      unparseable ("NaN" plus any amount is NaN), so the totals, which read
      it as 0 before and after, do not move. */
  lemma AdjustUnparseableIonStaysNaN(i: Inputs, ion: Ion)
    requires Get(i, ion).Unparseable?
    ensures Get(AdjustIon(i, ion), ion) == Unparseable
    ensures TotalCations(AdjustIon(i, ion)) == TotalCations(i)
    ensures TotalAnions(AdjustIon(i, ion)) == TotalAnions(i)
    ensures ChargeBalance(AdjustIon(i, ion)) == ChargeBalance(i)
  {
    var r := AdjustIon(i, ion);
    assert r == Set(i, ion, Unparseable);
    forall other ensures Get(r, other) == Get(i, other) {
    }
    CationsAgree(r, i);
    AnionsAgree(r, i);
  }

  /** Adjusting the deficient side balances the water: cations equal anions
      afterwards and the charge balance error is 0. */
  lemma AdjustIonBalances(i: Inputs, ion: Ion)
    requires !Get(i, ion).Unparseable?
    requires (IsAdjustableCation(ion) && TotalCations(i) <= TotalAnions(i))
          || (IsAdjustableAnion(ion) && TotalAnions(i) <= TotalCations(i))
    ensures TotalCations(AdjustIon(i, ion)) == TotalAnions(AdjustIon(i, ion))
    ensures ChargeBalance(AdjustIon(i, ion)) == 0.0
  {
    if IsAdjustableCation(ion) {
      AdjustCationAddsDeficit(i, ion);
    } else {
      AdjustAnionAddsDeficit(i, ion);
    }
  }

  /** The Larson-Skold index: chloride plus sulfate over bicarbonate plus
      carbonate, all in meq/L. */
  function LarsonSkold(i: Inputs): real
  {
    var cl := OrZero(i.chloride) / 35.45;
    var so4 := OrZero(i.sulfate) / (96.06 / 2.0);
    var hco3 := OrZero(i.bicarbonate) / 61.017;
    var co3 := OrZero(i.carbonate) / (60.009 / 2.0);
    Div(cl + so4, hco3 + co3)
  }

  /** The Larson-Skold terms are the anion-balance terms: when nitrate,
      phosphate and fluoride read 0, total anions are the alkalinity part D
      times (1 + index). */
  lemma LarsonSkoldSplitsAnions(i: Inputs)
    requires OrZero(i.nitrate) == 0.0 && OrZero(i.phosphate) == 0.0 && OrZero(i.fluoride) == 0.0
    requires OrZero(i.bicarbonate) / 61.017 + OrZero(i.carbonate) / 60.009 * 2.0 != 0.0
    ensures TotalAnions(i)
              == (OrZero(i.bicarbonate) / 61.017 + OrZero(i.carbonate) / 60.009 * 2.0)
                 * (1.0 + LarsonSkold(i))
  {
    var d := OrZero(i.bicarbonate) / 61.017 + OrZero(i.carbonate) / 60.009 * 2.0;
    var n := OrZero(i.chloride) / 35.45 + OrZero(i.sulfate) / 96.06 * 2.0;
    assert OrZero(i.sulfate) / (96.06 / 2.0) == OrZero(i.sulfate) / 96.06 * 2.0;
    assert OrZero(i.carbonate) / (60.009 / 2.0) == OrZero(i.carbonate) / 60.009 * 2.0;
    assert LarsonSkold(i) == Div(n, d);
    assert Div(n, d) * d == n;
  }

  // ---------------------------------------------------------------------
  // Validation
  // ---------------------------------------------------------------------

  const PhRequired: string := "pH is required"
  const PhRange: string := "pH must be between 0 and 14. Typical cooling water pH range is 7-9"
  const TemperatureRange: string := "Temperature must be between 0°C and 100°C"
  const TdsRequired: string := "Total Dissolved Solids (TDS) is required"
  const TdsNegative: string := "TDS must be a positive number"
  const TdsHigh: string := "TDS exceeds typical range for cooling water (0-40,000 ppm)"
  const HardnessRequired: string := "Calcium Hardness is required"
  const HardnessNegative: string := "Calcium Hardness must be a positive number"
  const HardnessHigh: string := "Calcium Hardness exceeds typical range (0-1,000 ppm as CaCO₃)"
  const AlkalinityRequired: string := "M-Alkalinity is required"
  const AlkalinityNegative: string := "M-Alkalinity must be a positive number"
  const AlkalinityHigh: string := "M-Alkalinity exceeds typical range (0-1,000 ppm as CaCO₃)"

  /** The ions advanced mode checks, in order (not potassium, iron,
      manganese or ammonium). */
  const ValidatedIons: seq<Ion> := [
    Calcium, Magnesium, Sodium, Chloride, Sulfate, Bicarbonate, Carbonate,
    Nitrate, Phosphate, Fluoride, Silica, Boron, CarbonDioxide]

  /** The ion's key with its first letter capitalised. */
  function IonLabel(ion: Ion): string
  {
    match ion
    case Calcium => "Calcium"
    case Magnesium => "Magnesium"
    case Sodium => "Sodium"
    case Potassium => "Potassium"
    case Iron => "Iron"
    case Manganese => "Manganese"
    case Ammonium => "Ammonium"
    case Chloride => "Chloride"
    case Sulfate => "Sulfate"
    case Bicarbonate => "Bicarbonate"
    case Carbonate => "Carbonate"
    case Nitrate => "Nitrate"
    case Phosphate => "Phosphate"
    case Fluoride => "Fluoride"
    case Silica => "Silica"
    case Boron => "Boron"
    case CarbonDioxide => "CarbonDioxide"
  }

  function IonMessage(ion: Ion): string
  {
    IonLabel(ion) + " concentration must be positive"
  }

  /** A field `parseFloat` reads as a number below `lo` (NaN compares false). */
  predicate Below(f: Field, lo: real)
  {
    f.Num? && f.value < lo
  }

  predicate Above(f: Field, hi: real)
  {
    f.Num? && f.value > hi
  }

  function PhErrors(i: Inputs): seq<string>
  {
    if i.pH.Empty? then [PhRequired]
    else if Below(i.pH, 0.0) || Above(i.pH, 14.0) then [PhRange]
    else []
  }

  function TemperatureErrors(i: Inputs): seq<string>
  {
    if i.temp.Empty? || Below(i.temp, 0.0) || Above(i.temp, 100.0) then [TemperatureRange]
    else []
  }

  /** One quick-mode field: required, not negative, not above its cap. */
  function QuickFieldErrors(f: Field, required: string, negative: string, cap: real, high: string): seq<string>
  {
    if f.Empty? then [required]
    else if Below(f, 0.0) then [negative]
    else if Above(f, cap) then [high]
    else []
  }

  function QuickErrors(i: Inputs): seq<string>
  {
    QuickFieldErrors(i.tds, TdsRequired, TdsNegative, 40000.0, TdsHigh)
      + QuickFieldErrors(i.caH, HardnessRequired, HardnessNegative, 1000.0, HardnessHigh)
      + QuickFieldErrors(i.mAlk, AlkalinityRequired, AlkalinityNegative, 1000.0, AlkalinityHigh)
  }

  /** The advanced-mode messages for `ions`, in order. */
  function IonErrors(i: Inputs, ions: seq<Ion>): seq<string>
  {
    if ions == [] then []
    else
      var last := ions[|ions| - 1];
      IonErrors(i, ions[..|ions| - 1]) + (if Below(Get(i, last), 0.0) then [IonMessage(last)] else [])
  }

  /** The error list `validateInputs` builds. */
  function ValidationErrors(i: Inputs, advanced: bool): seq<string>
  {
    PhErrors(i) + TemperatureErrors(i)
      + (if !advanced then QuickErrors(i) else [])
      + (if advanced then IonErrors(i, ValidatedIons) else [])
  }

  /** The pH and temperature checks of `validateInputs`, in that order. */
  method AppendBasicErrors(errors: seq<string>, inputs: Inputs) returns (r: seq<string>)
    ensures r == errors + PhErrors(inputs) + TemperatureErrors(inputs)
  {
    r := errors;
    if inputs.pH.Empty? {
      r := r + [PhRequired];
    } else if Below(inputs.pH, 0.0) || Above(inputs.pH, 14.0) {
      r := r + [PhRange];
    }
    if inputs.temp.Empty? || Below(inputs.temp, 0.0) || Above(inputs.temp, 100.0) {
      r := r + [TemperatureRange];
    }
  }

  /** One quick-mode check of `validateInputs`: pushes the field's message,
      if any, onto the list. */
  method AppendFieldErrors(errors: seq<string>, f: Field, required: string, negative: string, cap: real, high: string)
    returns (r: seq<string>)
    ensures r == errors + QuickFieldErrors(f, required, negative, cap, high)
  {
    r := errors;
    if f.Empty? {
      r := r + [required];
    } else if Below(f, 0.0) {
      r := r + [negative];
    } else if Above(f, cap) {
      r := r + [high];
    }
  }

  /** The advanced-mode `forEach` of `validateInputs`: pushes a message for
      each listed ion whose field reads as a negative number. */
  method AppendIonErrors(errors: seq<string>, inputs: Inputs) returns (r: seq<string>)
    ensures r == errors + IonErrors(inputs, ValidatedIons)
  {
    r := errors;
    var k := 0;
    while k < |ValidatedIons|
      invariant 0 <= k <= |ValidatedIons|
      invariant r == errors + IonErrors(inputs, ValidatedIons[..k])
    {
      var ion := ValidatedIons[k];
      assert ValidatedIons[..k + 1][..k] == ValidatedIons[..k];
      if !Get(inputs, ion).Empty? && Below(Get(inputs, ion), 0.0) {
        r := r + [IonMessage(ion)];
      }
      k := k + 1;
    }
    assert ValidatedIons[..k] == ValidatedIons;
  }

  /** `validateInputs`: pushes one message per failed check, in order, and
      reports whether the list stayed empty. */
  method ValidateInputs(inputs: Inputs, isAdvancedMode: bool) returns (valid: bool, errors: seq<string>)
    ensures errors == ValidationErrors(inputs, isAdvancedMode)
    ensures valid <==> errors == []
  {
    errors := AppendBasicErrors([], inputs);
    ghost var basic := errors;
    if !isAdvancedMode {
      errors := AppendFieldErrors(errors, inputs.tds, TdsRequired, TdsNegative, 40000.0, TdsHigh);
      errors := AppendFieldErrors(errors, inputs.caH, HardnessRequired, HardnessNegative, 1000.0, HardnessHigh);
      errors := AppendFieldErrors(errors, inputs.mAlk, AlkalinityRequired, AlkalinityNegative, 1000.0, AlkalinityHigh);
      assert errors == basic + QuickErrors(inputs);
      assert errors + [] == errors;
    }
    if isAdvancedMode {
      errors := AppendIonErrors(errors, inputs);
      assert basic + [] == basic;
    }
    valid := |errors| == 0;
  }

  /** The conditions the form must meet, stated field by field. */
  predicate Acceptable(i: Inputs, advanced: bool)
  {
    && !i.pH.Empty? && !Below(i.pH, 0.0) && !Above(i.pH, 14.0)
    && !i.temp.Empty? && !Below(i.temp, 0.0) && !Above(i.temp, 100.0)
    && (!advanced ==>
          && !i.tds.Empty? && !Below(i.tds, 0.0) && !Above(i.tds, 40000.0)
          && !i.caH.Empty? && !Below(i.caH, 0.0) && !Above(i.caH, 1000.0)
          && !i.mAlk.Empty? && !Below(i.mAlk, 0.0) && !Above(i.mAlk, 1000.0))
    && (advanced ==> forall k :: 0 <= k < |ValidatedIons| ==> !Below(Get(i, ValidatedIons[k]), 0.0))
  }

  lemma {:induction false} IonErrorsEmptyIff(i: Inputs, ions: seq<Ion>)
    ensures IonErrors(i, ions) == [] <==> forall k :: 0 <= k < |ions| ==> !Below(Get(i, ions[k]), 0.0)
    decreases |ions|
  {
    if ions != [] {
      var n := |ions| - 1;
      IonErrorsEmptyIff(i, ions[..n]);
      if IonErrors(i, ions) == [] {
        forall k | 0 <= k < |ions| ensures !Below(Get(i, ions[k]), 0.0) {
          if k < n {
            assert ions[..n][k] == ions[k];
          }
        }
      } else if IonErrors(i, ions[..n]) != [] {
        var k :| 0 <= k < n && Below(Get(i, ions[..n][k]), 0.0);
        assert ions[..n][k] == ions[k];
      }
    }
  }

  /** The form validates (the list is empty) exactly when every check holds. */
  lemma ValidIff(i: Inputs, advanced: bool)
    ensures ValidationErrors(i, advanced) == [] <==> Acceptable(i, advanced)
  {
    IonErrorsEmptyIff(i, ValidatedIons);
  }

  predicate PhBad(i: Inputs)
  {
    i.pH.Empty? || Below(i.pH, 0.0) || Above(i.pH, 14.0)
  }

  predicate TemperatureBad(i: Inputs)
  {
    i.temp.Empty? || Below(i.temp, 0.0) || Above(i.temp, 100.0)
  }

  /** The pH message heads the list, and the temperature message follows it. */
  lemma ValidationOrder(i: Inputs, advanced: bool)
    ensures i.pH.Empty? ==> ValidationErrors(i, advanced)[0] == PhRequired
    ensures !i.pH.Empty? && PhBad(i) ==> ValidationErrors(i, advanced)[0] == PhRange
    ensures TemperatureBad(i) ==>
              ValidationErrors(i, advanced)[if PhBad(i) then 1 else 0] == TemperatureRange
  {
  }

  lemma {:induction false} IonErrorsAgree(i: Inputs, j: Inputs, ions: seq<Ion>)
    requires forall k :: 0 <= k < |ions| ==> Get(i, ions[k]) == Get(j, ions[k])
    ensures IonErrors(i, ions) == IonErrors(j, ions)
    decreases |ions|
  {
    if ions != [] {
      var n := |ions| - 1;
      assert forall k :: 0 <= k < n ==> ions[..n][k] == ions[k];
      IonErrorsAgree(i, j, ions[..n]);
    }
  }

  /** Advanced mode never reads the quick-mode TDS, hardness or alkalinity. */
  lemma AdvancedIgnoresQuickFields(i: Inputs, tds: Field, caH: Field, mAlk: Field)
    ensures ValidationErrors(i, true) == ValidationErrors(i.(tds := tds, caH := caH, mAlk := mAlk), true)
  {
    IonErrorsAgree(i, i.(tds := tds, caH := caH, mAlk := mAlk), ValidatedIons);
  }

  /** Potassium, iron, manganese and ammonium are never validated. */
  lemma UnvalidatedIons(i: Inputs, ion: Ion, f: Field, advanced: bool)
    requires ion == Potassium || ion == Iron || ion == Manganese || ion == Ammonium
    ensures ValidationErrors(Set(i, ion, f), advanced) == ValidationErrors(i, advanced)
  {
    IonErrorsAgree(i, Set(i, ion, f), ValidatedIons);
  }

  // ---------------------------------------------------------------------
  // Indices
  // ---------------------------------------------------------------------

  /** The saturation pH from the TDS, temperature, hardness and alkalinity. */
  function SaturationPh(m: MathLib, tds: real, temp: real, caH: real, mAlk: real): real
  {
    var tempK := temp + 273.15;
    var a := (m.log10(tds) - 1.0) / 10.0;
    var b := -13.12 * m.log10(tempK) + 34.55;
    var c := m.log10(caH) - 0.4;
    var d := m.log10(mAlk);
    (9.3 + a + b) - (c + d)
  }

  /** The Puckorius index: twice the saturation pH less the equilibrium pH
      of the alkalinity; it does not depend on the measured pH. */
  function StabilityIndex(m: MathLib, pHs: real, mAlk: real): real
  {
    var pHeq := 1.465 * m.log10(mAlk) + 4.54;
    2.0 * pHs - pHeq
  }

  /** The three indices for a measured pH and a saturation pH. */
  function Indices(m: MathLib, pHa: real, pHs: real, mAlk: real, chargeBalance: Option<real>): (r: Results)
    ensures r.Computed? && r.chargeBalance == chargeBalance
    ensures r.rsi == pHa - 2.0 * r.lsi
    ensures r.lsi + r.rsi == pHs
    ensures r.psi == r.rsi + pHa - (1.465 * m.log10(mAlk) + 4.54)
  {
    var lsi := pHa - pHs;
    var rsi := 2.0 * pHs - pHa;
    Computed(rsi, lsi, StabilityIndex(m, pHs, mAlk), chargeBalance)
  }

  /** Hardness, alkalinity and TDS as the selected mode reads them
      (None when one of them is NaN). */
  function IndexInputs(i: Inputs, advanced: bool): Option<(real, real, real)>
  {
    if advanced then
      match (OrZeroText(i.calcium), OrZeroText(i.bicarbonate), OrZeroText(i.carbonate), CalculateTds(i))
      case (Some(ca), Some(hco3), Some(co3), Some(tds)) =>
        Some((ConvertToCaCO3(ca, 40.08), ConvertToCaCO3(hco3, 61.017) + ConvertToCaCO3(co3, 60.009), tds))
      case _ => None
    else
      match (OrZeroText(i.caH), OrZeroText(i.mAlk), OrZeroText(i.tds))
      case (Some(caH), Some(mAlk), Some(tds)) => Some((caH, mAlk, tds))
      case _ => None
  }

  /** `calculateIndices`: validate; on failure only the error list changes,
      otherwise the results are stored and shown. */
  function CalculateIndices(m: MathLib, s: Calculator): (r: Calculator)
    ensures r.inputs == s.inputs && r.advanced == s.advanced
    ensures r.errors == ValidationErrors(s.inputs, s.advanced)
    ensures r.errors != [] ==> r.results == s.results && r.showResults == s.showResults
    ensures r.errors == [] ==> r.showResults && r.results.Some?
    ensures r.errors == [] && s.advanced ==> r.results.value.chargeBalance == Some(ChargeBalance(s.inputs))
    ensures r.errors == [] && !s.advanced ==> r.results.value.chargeBalance.None?
  {
    var errors := ValidationErrors(s.inputs, s.advanced);
    if errors != [] then s.(errors := errors)
    else
      var balance := if s.advanced then Some(ChargeBalance(s.inputs)) else None;
      var results :=
        match (OrZeroText(s.inputs.temp), IndexInputs(s.inputs, s.advanced))
        case (Some(temp), Some((caH, mAlk, tds))) =>
          var pHs := SaturationPh(m, tds, temp, caH, mAlk);
          (match OrZeroText(s.inputs.pH)
           case Some(pHa) => Indices(m, pHa, pHs, mAlk, balance)
           case None => PsiOnly(StabilityIndex(m, pHs, mAlk), balance))
        case _ => Indeterminate(balance);
      s.(errors := [], results := Some(results), showResults := true)
  }

  /** Whatever pHs is, a computed result satisfies rsi = pH - 2·lsi. */
  lemma RyznarFromLangelier(m: MathLib, s: Calculator)
    requires ValidationErrors(s.inputs, s.advanced) == []
    requires s.inputs.pH.Num? && s.inputs.temp.Num?
    requires IndexInputs(s.inputs, s.advanced).Some?
    ensures CalculateIndices(m, s).results.value.Computed?
    ensures CalculateIndices(m, s).results.value.rsi
              == s.inputs.pH.value - 2.0 * CalculateIndices(m, s).results.value.lsi
  {
  }

  /** PSI is NaN exactly when the temperature or a hardness, alkalinity or
      TDS input is; LSI and RSI are also NaN when the pH is. */
  lemma IndicesNaNCases(m: MathLib, s: Calculator)
    requires ValidationErrors(s.inputs, s.advanced) == []
    ensures var r := CalculateIndices(m, s).results.value;
      && (PsiOf(r).Some? <==> OrZeroText(s.inputs.temp).Some? && IndexInputs(s.inputs, s.advanced).Some?)
      && (r.Computed? <==> PsiOf(r).Some? && !s.inputs.pH.Unparseable?)
  {
  }

  /** The measured pH never changes PSI: two validated forms that differ
      only in the pH text, parseable or not, give the same PSI. */
  lemma PsiIgnoresPh(m: MathLib, s: Calculator, pH: Field)
    requires ValidationErrors(s.inputs, s.advanced) == []
    requires ValidationErrors(s.inputs.(pH := pH), s.advanced) == []
    ensures PsiOf(CalculateIndices(m, s).results.value)
         == PsiOf(CalculateIndices(m, s.(inputs := s.inputs.(pH := pH))).results.value)
  {
    var t := s.(inputs := s.inputs.(pH := pH));
    TdsFoldAgree(s.inputs, t.inputs, TdsIons);
    assert IndexInputs(t.inputs, s.advanced) == IndexInputs(s.inputs, s.advanced);
  }

  /** `resetCalculator`: every field empty, no results, no errors, panel hidden. */
  function ResetCalculator(s: Calculator): (r: Calculator)
    ensures forall ion :: Get(r.inputs, ion) == Empty
    ensures r.inputs.tds == Empty && r.inputs.temp == Empty && r.inputs.caH == Empty
    ensures r.inputs.mAlk == Empty && r.inputs.pH == Empty
    ensures r.results.None? && r.errors == [] && !r.showResults
    ensures r.advanced == s.advanced
  {
    s.(inputs := BlankInputs, results := None, errors := [], showResults := false)
  }

  /** After a reset the balance and the TDS estimate are 0 and validation
      asks for pH first. */
  lemma ResetZeroes(s: Calculator)
    ensures TotalCations(ResetCalculator(s).inputs) == 0.0
    ensures TotalAnions(ResetCalculator(s).inputs) == 0.0
    ensures CalculateTds(ResetCalculator(s).inputs) == Some(0.0)
    ensures ValidationErrors(ResetCalculator(s).inputs, s.advanced)[0] == PhRequired
  {
    var r := ResetCalculator(s);
    BalanceOfBlank(r.inputs);
    CalculateTdsOfBlank(r.inputs);
  }

  // ---------------------------------------------------------------------
  // Water condition
  // ---------------------------------------------------------------------

  const LsiScaling: string := "Scaling potential (CaCO₃ precipitation)"
  const LsiCorrosive: string := "Corrosive water (CaCO₃ dissolves)"
  const PsiScaling: string := "High scaling potential"
  const PsiMild: string := "Low scaling or corrosion potential"

  /** The RSI bands from most scale forming to most corrosive. */
  const RsiBands: seq<string> := [
    "High scale forming", "Low scale forming", "No difficulties", "Low corrosive", "High corrosive"]

  /** `getWaterCondition`. */
  function WaterCondition(index: string, value: real): string
  {
    if index == "LSI" then (if value > 0.0 then LsiScaling else LsiCorrosive)
    else if index == "RSI" then
      if value < 5.5 then "High scale forming"
      else if value < 6.2 then "Low scale forming"
      else if value < 6.8 then "No difficulties"
      else if value < 8.5 then "Low corrosive"
      else "High corrosive"
    else if index == "PSI" then (if value < 6.0 then PsiScaling else PsiMild)
    else ""
  }

  /** The band an RSI value falls in, as a position in `RsiBands`. */
  function RsiRank(condition: string): int
  {
    if condition == RsiBands[0] then 0
    else if condition == RsiBands[1] then 1
    else if condition == RsiBands[2] then 2
    else if condition == RsiBands[3] then 3
    else if condition == RsiBands[4] then 4
    else -1
  }

  /** LSI is scaling exactly above 0; 0 itself is corrosive. */
  lemma LsiCondition(value: real)
    ensures WaterCondition("LSI", value) == LsiScaling <==> value > 0.0
    ensures WaterCondition("LSI", value) == LsiCorrosive <==> value <= 0.0
  {
    assert LsiScaling != LsiCorrosive;
  }

  /** PSI is high scaling exactly below 6. */
  lemma PsiCondition(value: real)
    ensures WaterCondition("PSI", value) == PsiScaling <==> value < 6.0
  {
    assert PsiScaling != PsiMild;
  }

  /** Every RSI value lands in one of the five bands, and a larger RSI never
      lands in a less corrosive band. */
  lemma RsiConditionMonotone(v: real, w: real)
    requires v <= w
    ensures WaterCondition("RSI", v) in RsiBands
    ensures 0 <= RsiRank(WaterCondition("RSI", v)) <= RsiRank(WaterCondition("RSI", w))
  {
  }

  /** Each RSI threshold belongs to the band above it. */
  lemma RsiThresholds()
    ensures WaterCondition("RSI", 5.5) == RsiBands[1]
    ensures WaterCondition("RSI", 6.2) == RsiBands[2]
    ensures WaterCondition("RSI", 6.8) == RsiBands[3]
    ensures WaterCondition("RSI", 8.5) == RsiBands[4]
  {
  }

  /** Any other index name has no condition text. */
  lemma UnknownIndexCondition(index: string, value: real)
    requires index != "LSI" && index != "RSI" && index != "PSI"
    ensures WaterCondition(index, value) == ""
  {
  }
}
