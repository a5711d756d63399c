// The farm domain: products with per-application doses, field tasks
// (treatments) whose status is derived from their dates, and the line that
// ties a product to a task and computes the total quantity to prepare.

module FarmModels {
  import opened Common

  const Spraying := "spraying"
  const Fertigation := "fertigation"

  // Dose types: amount per 1000 L of spray water, a percentage of it, or amount per hectare.
  const LPer1000L := "l_per_1000l"
  const KgPer1000L := "kg_per_1000l"
  const Pct := "pct"
  const LPerHa := "l_per_ha"
  const KgPerHa := "kg_per_ha"

  const SprayingDoseTypeChoices: seq<(string, string)> :=
    [(LPer1000L, "L/1000L agua"), (KgPer1000L, "kg/1000L agua"), (Pct, "%")]
  const FertigationDoseTypeChoices: seq<(string, string)> :=
    [(LPerHa, "L/ha"), (KgPerHa, "kg/ha")]
  const AllDoseTypeChoices: seq<(string, string)> := SprayingDoseTypeChoices + FertigationDoseTypeChoices

  /**
   * A product: `productType` is the name of its (nullable) product type and
   * `price` its unit price, which the price flows and the cost command read.
   */
  datatype Product = Product(
    id: int,
    name: string,
    productType: Option<string>,
    price: Option<real>,
    sprayingDose: Option<real>,
    sprayingDoseType: Option<string>,
    fertigationDose: Option<real>,
    fertigationDoseType: Option<string>)

  predicate SupportsSpraying(p: Product)
  {
    p.sprayingDose.Some? && p.sprayingDoseType.Some?
  }

  predicate SupportsFertigation(p: Product)
  {
    p.fertigationDose.Some? && p.fertigationDoseType.Some?
  }

  /** None for an application type other than spraying or fertigation. */
  function SupportsApplicationType(p: Product, app: string): (r: Option<bool>)
    ensures r.Some? <==> app == Spraying || app == Fertigation
    ensures r == Some(true) <==> GetDose(p, app).Some? && GetDoseType(p, app).Some?
  {
    if app == Spraying then Some(SupportsSpraying(p))
    else if app == Fertigation then Some(SupportsFertigation(p))
    else None
  }

  /** The product's dose type for an application method; None for any other method. */
  function GetDoseType(p: Product, app: string): (r: Option<string>)
    ensures app == Spraying ==> r == p.sprayingDoseType
    ensures app == Fertigation ==> r == p.fertigationDoseType
    ensures app != Spraying && app != Fertigation ==> r.None?
  {
    if app == Spraying then p.sprayingDoseType
    else if app == Fertigation then p.fertigationDoseType
    else None
  }

  /** The product's dose for an application method; None for any other method. */
  function GetDose(p: Product, app: string): (r: Option<real>)
    ensures app == Spraying ==> r == p.sprayingDose
    ensures app == Fertigation ==> r == p.fertigationDose
    ensures app != Spraying && app != Fertigation ==> r.None?
  {
    if app == Spraying then p.sprayingDose
    else if app == Fertigation then p.fertigationDose
    else None
  }

  /** `dict(choices).get(key)`: looks a key up among the pairs; a later pair wins. */
  function ChoiceLabel(choices: seq<(string, string)>, key: Option<string>): (r: Option<string>)
    ensures r.Some? ==> key.Some? && (key.value, r.value) in choices
    ensures r.None? ==> key.None? || forall i :: 0 <= i < |choices| ==> choices[i].0 != key.value
  {
    if key.None? || |choices| == 0 then None
    else if choices[|choices| - 1].0 == key.value then Some(choices[|choices| - 1].1)
    else ChoiceLabel(choices[..|choices| - 1], key)
  }

  /** The five dose types that carry a label. */
  const DoseTypeKeys: set<string> := {LPer1000L, KgPer1000L, Pct, LPerHa, KgPerHa}

  /**
   * The human label of the product's dose type for an application method:
   * present exactly when that dose type is one of the five labelled ones.
   */
  function GetDoseTypeName(p: Product, app: string): (r: Option<string>)
    ensures r.Some? <==> GetDoseType(p, app).Some? && GetDoseType(p, app).value in DoseTypeKeys
    ensures r.Some? ==> (GetDoseType(p, app).value, r.value) in AllDoseTypeChoices
  {
    DoseTypeNamesOfChoices();
    ChoiceLabel(AllDoseTypeChoices, GetDoseType(p, app))
  }

  lemma DoseTypeNamesOfChoices()
    ensures ChoiceLabel(AllDoseTypeChoices, Some(LPer1000L)) == Some("L/1000L agua")
    ensures ChoiceLabel(AllDoseTypeChoices, Some(KgPer1000L)) == Some("kg/1000L agua")
    ensures ChoiceLabel(AllDoseTypeChoices, Some(Pct)) == Some("%")
    ensures ChoiceLabel(AllDoseTypeChoices, Some(LPerHa)) == Some("L/ha")
    ensures ChoiceLabel(AllDoseTypeChoices, Some(KgPerHa)) == Some("kg/ha")
  {
    var c := AllDoseTypeChoices;
    assert c[..4] == SprayingDoseTypeChoices + [(LPerHa, "L/ha")];
    assert c[..4][..3] == SprayingDoseTypeChoices;
    assert SprayingDoseTypeChoices[..2] == [(LPer1000L, "L/1000L agua"), (KgPer1000L, "kg/1000L agua")];
    assert SprayingDoseTypeChoices[..2][..1] == [(LPer1000L, "L/1000L agua")];
    forall k | k in {LPer1000L, KgPer1000L, Pct}
      ensures ChoiceLabel(c, Some(k)) == ChoiceLabel(SprayingDoseTypeChoices, Some(k))
    {
      assert ChoiceLabel(c, Some(k)) == ChoiceLabel(c[..4], Some(k));
    }
    forall k | k in {LPer1000L, KgPer1000L}
      ensures ChoiceLabel(SprayingDoseTypeChoices, Some(k)) == ChoiceLabel(SprayingDoseTypeChoices[..2], Some(k))
    {
    }
    assert ChoiceLabel(SprayingDoseTypeChoices[..2], Some(LPer1000L))
        == ChoiceLabel(SprayingDoseTypeChoices[..2][..1], Some(LPer1000L));
  }

  // ---------------------------------------------------------------------------
  // Tasks and their derived status
  // ---------------------------------------------------------------------------

  /** A task; dates are day numbers and `today` is the server's current date. */
  datatype Task = Task(
    id: int,
    name: string,
    taskType: string,
    date: int,
    finishDate: Option<int>,
    fieldId: int,
    machineId: Option<int>,
    waterPerHa: Option<real>)

  predicate IsPending(t: Task, today: int) { t.finishDate.None? && t.date >= today }

  predicate IsCompleted(t: Task) { t.finishDate.Some? }

  predicate IsDelayed(t: Task, today: int) { t.finishDate.None? && t.date < today }

  const StatusPending := "pending"
  const StatusCompleted := "completed"
  const StatusDelayed := "delayed"

  /** Exactly one of the three states, named after the predicate that holds. */
  function Status(t: Task, today: int): (s: string)
    ensures s == StatusPending || s == StatusCompleted || s == StatusDelayed
    ensures s == StatusCompleted <==> IsCompleted(t)
    ensures s == StatusDelayed <==> IsDelayed(t, today)
    ensures s == StatusPending <==> IsPending(t, today)
  {
    if IsCompleted(t) then StatusCompleted
    else if IsDelayed(t, today) then StatusDelayed
    else StatusPending
  }

  function StatusDisplay(t: Task, today: int): (r: string)
    ensures r != "Desconocido"
    ensures r == "Pendiente" <==> IsPending(t, today)
    ensures r == "Completada" <==> IsCompleted(t)
    ensures r == "Atrasada" <==> IsDelayed(t, today)
  {
    var s := Status(t, today);
    if s == StatusPending then "Pendiente"
    else if s == StatusCompleted then "Completada"
    else if s == StatusDelayed then "Atrasada"
    else "Desconocido"
  }

  function StateClass(t: Task, today: int): (r: string)
    ensures r != "secondary"
    ensures r == "warning" <==> IsPending(t, today)
    ensures r == "success" <==> IsCompleted(t)
    ensures r == "danger" <==> IsDelayed(t, today)
  {
    var s := Status(t, today);
    if s == StatusPending then "warning"
    else if s == StatusCompleted then "success"
    else if s == StatusDelayed then "danger"
    else "secondary"
  }

  function TypeClass(t: Task): (r: string)
    ensures r == "secondary" <==> t.taskType != Spraying && t.taskType != Fertigation
    ensures t.taskType == Spraying ==> r == "spray-can-sparkles"
    ensures t.taskType == Fertigation ==> r == "droplet"
  {
    if t.taskType == Spraying then "spray-can-sparkles"
    else if t.taskType == Fertigation then "droplet"
    else "secondary"
  }

  /** Fertigation uses no spray water; otherwise that Task's (nullable) water per hectare. */
  function GetWaterPerHa(t: Task): (r: Option<real>)
    ensures t.taskType == Fertigation ==> r == Some(0.0)
    ensures t.taskType != Fertigation ==> r == t.waterPerHa
  {
    if t.taskType == Fertigation then Some(0.0) else t.waterPerHa
  }

  /** A field (parcel) of the farm; `area` is in hectares. */
  datatype Field = Field(id: int, name: string, area: real)

  // Counters shown on a field: tasks of the field in each state.

  function PendingTasksCount(tasks: seq<Task>, fieldId: int, today: int): nat
  {
    CountIf(tasks, (t: Task) => t.fieldId == fieldId && t.finishDate.None? && t.date >= today)
  }

  function CompletedTasksCount(tasks: seq<Task>, fieldId: int): nat
  {
    CountIf(tasks, (t: Task) => t.fieldId == fieldId && t.finishDate.Some?)
  }

  function DelayedTasksCount(tasks: seq<Task>, fieldId: int, today: int): nat
  {
    CountIf(tasks, (t: Task) => t.fieldId == fieldId && t.finishDate.None? && t.date < today)
  }

  function FieldTasksCount(tasks: seq<Task>, fieldId: int): nat
  {
    CountIf(tasks, (t: Task) => t.fieldId == fieldId)
  }

  /** The three counters partition the field's tasks. */
  lemma {:induction false} FieldCountsPartition(tasks: seq<Task>, fieldId: int, today: int)
    ensures PendingTasksCount(tasks, fieldId, today) + CompletedTasksCount(tasks, fieldId)
            + DelayedTasksCount(tasks, fieldId, today) == FieldTasksCount(tasks, fieldId)
  {
    if |tasks| > 0 {
      FieldCountsPartition(tasks[1..], fieldId, today);
    }
  }

  // ---------------------------------------------------------------------------
  // Total dose of a product in a task
  // ---------------------------------------------------------------------------

  /** The dose and dose type `calculate_total_dose` settles on. */
  datatype DoseChoice = DoseChoice(dose: real, doseType: Option<string>)

  /**
   * An entered dose takes precedence, and so does the entered pair when the
   * product has no dose for that Task's application method; None is the
   * ValueError raised when that pair is incomplete.
   */
  function ResolveDose(p: Product, taskType: string, dose: Option<real>, doseType: Option<string>): (r: Option<DoseChoice>)
    ensures dose.Some? ==> (r.Some? <==> doseType.Some? && doseType.value != "")
    ensures dose.Some? && r.Some? ==> r.value == DoseChoice(dose.value, doseType)
    ensures dose.None? ==> (r.Some? <==> GetDose(p, taskType).Some?)
    ensures dose.None? && r.Some? ==> r.value == DoseChoice(GetDose(p, taskType).value, GetDoseType(p, taskType))
  {
    var productDose := GetDose(p, taskType);
    if productDose.None? || dose.Some? then
      var enteredType := if doseType.Some? && doseType.value != "" then doseType else None;
      if dose.None? || enteredType.None? then None
      else Some(DoseChoice(dose.value, enteredType))
    else Some(DoseChoice(productDose.value, GetDoseType(p, taskType)))
  }

  /** Mass units for the kg dose types, litres for everything else. */
  function UnitFor(doseType: Option<string>): (u: string)
    ensures u == "kg" || u == "L"
    ensures u == "kg" <==> doseType == Some(KgPer1000L) || doseType == Some(KgPerHa)
  {
    if doseType == Some(KgPer1000L) || doseType == Some(KgPerHa) then "kg" else "L"
  }

  /** `Total` is a new total dose; `Unchanged` keeps the old one; `WaterMissing` is the TypeError of `None * area`. */
  datatype TotalOutcome = Total(amount: real) | Unchanged | WaterMissing

  predicate PerWaterVolume(doseType: Option<string>)
  {
    doseType == Some(KgPer1000L) || doseType == Some(LPer1000L)
  }

  predicate PerArea(doseType: Option<string>)
  {
    doseType == Some(KgPerHa) || doseType == Some(LPerHa)
  }

  /** Per 1000 L of spray water, per hectare, or a percentage of the spray water. */
  function TotalDoseFor(dose: real, doseType: Option<string>, area: real, water: Option<real>): (r: TotalOutcome)
    ensures r.WaterMissing? <==> water.None? && (PerWaterVolume(doseType) || doseType == Some(Pct))
    ensures r.Unchanged? <==> !PerWaterVolume(doseType) && !PerArea(doseType) && doseType != Some(Pct)
    ensures PerArea(doseType) ==> r == Total(dose * area)
    ensures water.Some? && PerWaterVolume(doseType) ==> r == Total(dose * water.value * area / 1000.0)
    ensures water.Some? && doseType == Some(Pct) ==> r == Total(dose * water.value * area / 100.0)
  {
    if PerWaterVolume(doseType) then
      if water.None? then WaterMissing else Total((dose * (water.value * area)) / 1000.0)
    else if PerArea(doseType) then Total(dose * area)
    else if doseType == Some(Pct) then
      if water.None? then WaterMissing else Total((dose / 100.0) * (water.value * area))
    else Unchanged
  }

  /**
   * How a recalculation ended: normally, with the ValueError of an
   * undetermined dose, with the TypeError of a missing water volume, or with
   * the AttributeError of a lookup the product does not define.
   */
  datatype CalcResult = Calculated | DoseUndetermined | WaterUndefined | LookupUndefined

  /** The stored part of a task-product line that the calculation rewrites. */
  datatype DoseState = DoseState(doseType: Option<string>, totalDose: real, unit: string)

  /**
   * The line after `calculate_total_dose`: the outcome and the fields it
   * leaves. On a ValueError nothing was assigned yet; on the TypeError the
   * dose type and unit were already assigned but the total was not.
   */
  function Recalculate(p: Product, taskType: string, area: real, water: Option<real>,
                       dose: Option<real>, before: DoseState): (r: (CalcResult, DoseState))
    ensures r.0 == DoseUndetermined <==> ResolveDose(p, taskType, dose, before.doseType).None?
    ensures r.0 == DoseUndetermined ==> r.1 == before
    ensures r.0 != DoseUndetermined ==>
      var c := ResolveDose(p, taskType, dose, before.doseType).value;
      r.1.doseType == c.doseType && r.1.unit == UnitFor(c.doseType)
    ensures r.0 == WaterUndefined <==>
      ResolveDose(p, taskType, dose, before.doseType).Some? &&
      var c := ResolveDose(p, taskType, dose, before.doseType).value;
      TotalDoseFor(c.dose, c.doseType, area, water).WaterMissing?
    ensures r.0 == WaterUndefined ==> r.1.totalDose == before.totalDose
    ensures r.0 == Calculated ==>
      var c := ResolveDose(p, taskType, dose, before.doseType).value;
      var t := TotalDoseFor(c.dose, c.doseType, area, water);
      r.1.totalDose == (if t.Total? then t.amount else before.totalDose)
    ensures r.0 != LookupUndefined
  {
    var choice := ResolveDose(p, taskType, dose, before.doseType);
    if choice.None? then (DoseUndetermined, before)
    else
      var c := choice.value;
      var unit := UnitFor(c.doseType);
      match TotalDoseFor(c.dose, c.doseType, area, water)
      case WaterMissing => (WaterUndefined, DoseState(c.doseType, before.totalDose, unit))
      case Unchanged => (Calculated, DoseState(c.doseType, before.totalDose, unit))
      case Total(amount) => (Calculated, DoseState(c.doseType, amount, unit))
  }

  /** The methods `Product` defines besides its fields and `__str__`. */
  const ProductMethods: set<string> := {"get_dose_type_name", "get_dose_type", "get_dose"}

  /**
   * `calculate_total_dose` as written: it starts by calling
   * `get_dose_for_application` on the product. `Product` defines no such
   * method, so every call raises an AttributeError before any field is
   * assigned, and the line is never saved. `Recalculate` is the evident
   * intent, with `get_dose` and `get_dose_type` as the lookup.
   */
  function RecalculateAsWritten(p: Product, taskType: string, area: real, water: Option<real>,
                                dose: Option<real>, before: DoseState): (r: (CalcResult, DoseState))
    ensures r == (LookupUndefined, before)
  {
    if "get_dose_for_application" in ProductMethods then Recalculate(p, taskType, area, water, dose, before)
    else (LookupUndefined, before)
  }

  /**
   * A line the intended calculation settles (2 L/ha of a product on 10 ha)
   * fails as written.
   */
  lemma UndefinedLookupFailsSettledLine()
    ensures var p := Product(1, "P", None, None, Some(2.0), Some(LPerHa), None, None);
            var before := DoseState(None, 0.0, "L");
            Recalculate(p, Spraying, 10.0, Some(850.0), None, before) == (Calculated, DoseState(Some(LPerHa), 20.0, "L")) &&
            RecalculateAsWritten(p, Spraying, 10.0, Some(850.0), None, before).0 == LookupUndefined
  {
    var p := Product(1, "P", None, None, Some(2.0), Some(LPerHa), None, None);
    assert ResolveDose(p, Spraying, None, None) == Some(DoseChoice(2.0, Some(LPerHa)));
  }

  /** The worked examples: 10 ha sprayed with 850 L/ha. */
  lemma TotalDoseExamples()
    ensures TotalDoseFor(2.0, Some(LPerHa), 10.0, Some(850.0)) == Total(20.0)
    ensures TotalDoseFor(3.0, Some(KgPerHa), 10.0, Some(850.0)) == Total(30.0)
    ensures TotalDoseFor(5.0, Some(LPer1000L), 10.0, Some(850.0)) == Total(42.5)
    ensures TotalDoseFor(2.0, Some(KgPer1000L), 10.0, Some(850.0)) == Total(17.0)
    ensures TotalDoseFor(10.0, Some(Pct), 10.0, Some(850.0)) == Total(850.0)
  {
  }

  /** Recalculating a line that already holds its result changes nothing. */
  lemma {:induction false} RecalculateIdempotent(p: Product, taskType: string, area: real, water: Option<real>,
                                                 dose: Option<real>, before: DoseState)
    requires Recalculate(p, taskType, area, water, dose, before).0 == Calculated
    ensures var after := Recalculate(p, taskType, area, water, dose, before).1;
            Recalculate(p, taskType, area, water, dose, after) == (Calculated, after)
  {
    var after := Recalculate(p, taskType, area, water, dose, before).1;
    var c := ResolveDose(p, taskType, dose, before.doseType).value;
    if dose.Some? {
      assert c.doseType == before.doseType;
    }
    assert ResolveDose(p, taskType, dose, after.doseType) == Some(c);
  }

  /** A product line of a task, recalculated in place before it is saved. */
  class TaskProduct {
    const product: Product
    const taskType: string
    const fieldArea: real
    const taskWaterPerHa: Option<real>
    var dose: Option<real>
    var doseType: Option<string>
    var totalDose: real
    var totalDoseUnit: string

    constructor (product: Product, taskType: string, fieldArea: real, taskWaterPerHa: Option<real>,
                 dose: Option<real>, doseType: Option<string>, totalDose: real, totalDoseUnit: string)
      ensures this.product == product && this.taskType == taskType
      ensures this.fieldArea == fieldArea && this.taskWaterPerHa == taskWaterPerHa
      ensures this.dose == dose && this.doseType == doseType
      ensures this.totalDose == totalDose && this.totalDoseUnit == totalDoseUnit
    {
      this.product := product;
      this.taskType := taskType;
      this.fieldArea := fieldArea;
      this.taskWaterPerHa := taskWaterPerHa;
      this.dose := dose;
      this.doseType := doseType;
      this.totalDose := totalDose;
      this.totalDoseUnit := totalDoseUnit;
    }

    function State(): DoseState
      reads this
    {
      DoseState(doseType, totalDose, totalDoseUnit)
    }

    /** Rewrites dose type, unit and total; the outcome names an exception, if one was raised. */
    method CalculateTotalDose() returns (outcome: CalcResult)
      modifies this
      ensures (outcome, State()) == Recalculate(product, taskType, fieldArea, taskWaterPerHa, old(dose), old(State()))
      ensures dose == old(dose)
    {
      var choice := ResolveDose(product, taskType, dose, doseType);
      if choice.None? {
        return DoseUndetermined;
      }
      var c := choice.value;
      doseType := c.doseType;
      if doseType == Some(KgPer1000L) || doseType == Some(KgPerHa) {
        totalDoseUnit := "kg";
      } else {
        totalDoseUnit := "L";
      }
      if doseType == Some(KgPer1000L) || doseType == Some(LPer1000L) {
        if taskWaterPerHa.None? {
          return WaterUndefined;
        }
        var totalWater := taskWaterPerHa.value * fieldArea;
        totalDose := (c.dose * totalWater) / 1000.0;
        assert TotalDoseFor(c.dose, c.doseType, fieldArea, taskWaterPerHa) == Total(totalDose);
      } else if doseType == Some(KgPerHa) || doseType == Some(LPerHa) {
        totalDose := c.dose * fieldArea;
        assert TotalDoseFor(c.dose, c.doseType, fieldArea, taskWaterPerHa) == Total(totalDose);
      } else if doseType == Some(Pct) {
        if taskWaterPerHa.None? {
          return WaterUndefined;
        }
        var totalWater := taskWaterPerHa.value * fieldArea;
        totalDose := (c.dose / 100.0) * totalWater;
        totalDoseUnit := "L";
        assert TotalDoseFor(c.dose, c.doseType, fieldArea, taskWaterPerHa) == Total(totalDose);
      }
      outcome := Calculated;
    }
  }
}
