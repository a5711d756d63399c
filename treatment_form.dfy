// The treatment form in the browser: estimating each product row's total
// dose from its dose (and back), keeping the rows' formset indexes, the
// first step's completion check and type switch, and submit validation.
//
// A text input holding a number is `Some(x)`; an empty one is `None`.
// `toFixed(2)` is the parameter `fix2`: the number the two-decimal text denotes.

module TreatmentForm {
  import opened Common
  import FarmModels

  /** How a dose type scales, judged by the substrings the form looks for, in its order. */
  datatype Scaling = PerHa | Per1000L | Per2000L | NoScaling

  function ScalingOf(doseType: string): (k: Scaling)
    ensures k == PerHa <==> Contains(doseType, "_per_ha")
    ensures k == Per1000L <==> !Contains(doseType, "_per_ha") && Contains(doseType, "_per_1000l")
  {
    if Contains(doseType, "_per_ha") then PerHa
    else if Contains(doseType, "_per_1000l") then Per1000L
    else if Contains(doseType, "_per_2000l") then Per2000L
    else NoScaling
  }

  /** The estimate the form shows before `toFixed`: 0 for a type it does not scale. */
  function EstimateTotal(dose: real, doseType: string, area: real, waterPerHa: real): (t: real)
    ensures ScalingOf(doseType) == PerHa ==> t == dose * area
    ensures ScalingOf(doseType) == Per1000L ==> t == dose * waterPerHa * area / 1000.0
    ensures ScalingOf(doseType) == Per2000L ==> t == dose * waterPerHa * area / 2000.0
    ensures ScalingOf(doseType) == NoScaling ==> t == 0.0
  {
    var totalWater := area * waterPerHa;
    match ScalingOf(doseType)
    case PerHa => dose * area
    case Per1000L => (dose / 1000.0) * totalWater
    case Per2000L => (dose / 2000.0) * totalWater
    case NoScaling => 0.0
  }

  /** The dose recovered from a total; None where the division is by zero (a non-finite result). */
  function DoseFromTotal(total: real, doseType: string, area: real, waterPerHa: real): (d: Option<real>)
    ensures ScalingOf(doseType) == PerHa ==> (d.None? <==> area == 0.0)
    ensures ScalingOf(doseType) in {Per1000L, Per2000L} ==> (d.None? <==> area * waterPerHa == 0.0)
    ensures ScalingOf(doseType) == NoScaling ==> d == Some(0.0)
  {
    var totalWater := area * waterPerHa;
    match ScalingOf(doseType)
    case PerHa => if area == 0.0 then None else Some(total / area)
    case Per1000L => if totalWater == 0.0 then None else Some((total * 1000.0) / totalWater)
    case Per2000L => if totalWater == 0.0 then None else Some((total * 2000.0) / totalWater)
    case NoScaling => Some(0.0)
  }

  /** Scaling a dose per `c` litres of a water volume `w` and back returns the dose. */
  lemma ScaleBack(dose: real, c: real, w: real, t: real)
    requires c > 0.0 && w > 0.0 && t == (dose / c) * w
    ensures (t * c) / w == dose
  {
    assert t * c == dose * w;
  }

  /** The water volume of a field with area and water per hectare. */
  lemma WaterVolumePositive(area: real, waterPerHa: real)
    requires area > 0.0 && waterPerHa > 0.0
    ensures area * waterPerHa > 0.0
  {
  }

  /** The volume case of `DoseFromEstimate`, for the dose type scaled per `c` litres. */
  lemma UndoPerVolume(dose: real, doseType: string, area: real, waterPerHa: real, c: real)
    requires (ScalingOf(doseType) == Per1000L && c == 1000.0) || (ScalingOf(doseType) == Per2000L && c == 2000.0)
    requires area > 0.0 && waterPerHa > 0.0
    ensures DoseFromTotal(EstimateTotal(dose, doseType, area, waterPerHa), doseType, area, waterPerHa) == Some(dose)
  {
    var w := area * waterPerHa;
    var e := EstimateTotal(dose, doseType, area, waterPerHa);
    WaterVolumePositive(area, waterPerHa);
    assert e == (dose / c) * w;
    assert DoseFromTotal(e, doseType, area, waterPerHa) == Some((e * c) / w);
    ScaleBack(dose, c, w, e);
  }

  /** Undoing an estimate gives the dose back whenever area and water make the scaling invertible. */
  lemma DoseFromEstimate(dose: real, doseType: string, area: real, waterPerHa: real)
    requires ScalingOf(doseType) != NoScaling
    requires area > 0.0
    requires ScalingOf(doseType) != PerHa ==> waterPerHa > 0.0
    ensures DoseFromTotal(EstimateTotal(dose, doseType, area, waterPerHa), doseType, area, waterPerHa) == Some(dose)
  {
    match ScalingOf(doseType)
    case PerHa =>
      assert dose * area / area == dose;
    case Per1000L =>
      UndoPerVolume(dose, doseType, area, waterPerHa, 1000.0);
    case Per2000L =>
      UndoPerVolume(dose, doseType, area, waterPerHa, 2000.0);
  }

  /** And estimating from a recovered dose gives the total back. */
  lemma EstimateFromDose(total: real, doseType: string, area: real, waterPerHa: real)
    requires ScalingOf(doseType) != NoScaling
    requires DoseFromTotal(total, doseType, area, waterPerHa).Some?
    ensures EstimateTotal(DoseFromTotal(total, doseType, area, waterPerHa).value, doseType, area, waterPerHa) == total
  {
    var w := area * waterPerHa;
    match ScalingOf(doseType)
    case PerHa =>
      assert total / area * area == total;
    case Per1000L =>
      assert (total * 1000.0 / w) / 1000.0 * w == total;
    case Per2000L =>
      assert (total * 2000.0 / w) / 2000.0 * w == total;
  }

  /** Substring facts for the product dose types the server stores. */
  lemma ScalingOfDoseTypes()
    ensures ScalingOf(FarmModels.LPerHa) == PerHa && ScalingOf(FarmModels.KgPerHa) == PerHa
    ensures ScalingOf(FarmModels.LPer1000L) == Per1000L && ScalingOf(FarmModels.KgPer1000L) == Per1000L
    ensures ScalingOf(FarmModels.Pct) == NoScaling
  {
    assert Contains("l_per_ha"[1..], "_per_ha");
    assert Contains("kg_per_ha"[2..], "_per_ha");
    LitresPerThousandNotPerHa();
    KilosPerThousandNotPerHa();
  }

  lemma LitresPerThousandNotPerHa()
    ensures !Contains("l_per_1000l", "_per_ha") && Contains("l_per_1000l", "_per_1000l")
  {
    var l := "l_per_1000l";
    assert !Contains(l[5..], "_per_ha");
    assert l[4..][..7][0] == 'r';
    assert !Contains(l[4..], "_per_ha");
    assert !Contains(l[3..], "_per_ha");
    assert !Contains(l[2..], "_per_ha");
    assert l[1..][..7][5] == '1';
    assert !Contains(l[1..], "_per_ha");
    assert Contains(l[1..], "_per_1000l");
  }

  lemma KilosPerThousandNotPerHa()
    ensures !Contains("kg_per_1000l", "_per_ha") && Contains("kg_per_1000l", "_per_1000l")
  {
    var k := "kg_per_1000l";
    assert !Contains(k[6..], "_per_ha");
    assert k[5..][..7][0] == 'r';
    assert !Contains(k[5..], "_per_ha");
    assert !Contains(k[4..], "_per_ha");
    assert !Contains(k[3..], "_per_ha");
    assert k[2..][..7][5] == '1';
    assert !Contains(k[2..], "_per_ha");
    assert !Contains(k[1..], "_per_ha");
    assert Contains(k[2..], "_per_1000l");
  }

  /**
   * The form's estimate and the server's stored total agree for the per-hectare
   * and per-1000 L dose types; for percentage doses the form estimates nothing.
   */
  lemma EstimateMatchesServerTotal(dose: real, area: real, waterPerHa: real)
    ensures FarmModels.TotalDoseFor(dose, Some(FarmModels.LPerHa), area, Some(waterPerHa))
            == FarmModels.Total(EstimateTotal(dose, FarmModels.LPerHa, area, waterPerHa))
    ensures FarmModels.TotalDoseFor(dose, Some(FarmModels.KgPerHa), area, Some(waterPerHa))
            == FarmModels.Total(EstimateTotal(dose, FarmModels.KgPerHa, area, waterPerHa))
    ensures FarmModels.TotalDoseFor(dose, Some(FarmModels.LPer1000L), area, Some(waterPerHa))
            == FarmModels.Total(EstimateTotal(dose, FarmModels.LPer1000L, area, waterPerHa))
    ensures FarmModels.TotalDoseFor(dose, Some(FarmModels.KgPer1000L), area, Some(waterPerHa))
            == FarmModels.Total(EstimateTotal(dose, FarmModels.KgPer1000L, area, waterPerHa))
    ensures EstimateTotal(dose, FarmModels.Pct, area, waterPerHa) == 0.0
  {
    ScalingOfDoseTypes();
    EstimateMatchesPerHa(dose, FarmModels.LPerHa, area, waterPerHa);
    EstimateMatchesPerHa(dose, FarmModels.KgPerHa, area, waterPerHa);
    EstimateMatchesPer1000L(dose, FarmModels.LPer1000L, area, waterPerHa);
    EstimateMatchesPer1000L(dose, FarmModels.KgPer1000L, area, waterPerHa);
  }

  /** A per-hectare type: both sides are the dose times the area. */
  lemma {:induction false} EstimateMatchesPerHa(dose: real, doseType: string, area: real, waterPerHa: real)
    requires ScalingOf(doseType) == PerHa && FarmModels.PerArea(Some(doseType))
    ensures FarmModels.TotalDoseFor(dose, Some(doseType), area, Some(waterPerHa))
            == FarmModels.Total(EstimateTotal(dose, doseType, area, waterPerHa))
  {
    assert EstimateTotal(dose, doseType, area, waterPerHa) == dose * area;
  }

  /** A per-1000 L type: both sides are the dose per litre times the spray water. */
  lemma {:induction false} EstimateMatchesPer1000L(dose: real, doseType: string, area: real, waterPerHa: real)
    requires ScalingOf(doseType) == Per1000L && FarmModels.PerWaterVolume(Some(doseType))
    ensures FarmModels.TotalDoseFor(dose, Some(doseType), area, Some(waterPerHa))
            == FarmModels.Total(EstimateTotal(dose, doseType, area, waterPerHa))
  {
    ServerTotalPer1000L(dose, doseType, area, waterPerHa);
    assert EstimateTotal(dose, doseType, area, waterPerHa) == dose * waterPerHa * area / 1000.0;
  }

  /** The server's total for a per-1000 L type. */
  lemma {:induction false} ServerTotalPer1000L(dose: real, doseType: string, area: real, waterPerHa: real)
    requires FarmModels.PerWaterVolume(Some(doseType))
    ensures FarmModels.TotalDoseFor(dose, Some(doseType), area, Some(waterPerHa))
            == FarmModels.Total(dose * waterPerHa * area / 1000.0)
  {
  }

  /** Kilograms when the dose type mentions kg, litres otherwise. */
  function UnitOf(doseType: string): (u: string)
    ensures u == "kg" <==> Contains(doseType, "kg")
    ensures u == "L" <==> !Contains(doseType, "kg")
  {
    if Contains(doseType, "kg") then "kg" else "L"
  }

  /**
   * The decimal-places guard on dose inputs: with more than two digits after
   * the first point, keeps the text before it and two digits; anything after
   * a second point is dropped in that case.
   */
  function LimitDecimalPlaces(value: string): (r: string)
    ensures |Split(value, '.')| >= 2 && |Split(value, '.')[1]| > 2 ==>
      r == Split(value, '.')[0] + "." + Split(value, '.')[1][..2]
    ensures !(|Split(value, '.')| >= 2 && |Split(value, '.')[1]| > 2) ==> r == value
  {
    if '.' in value then
      var parts := Split(value, '.');
      if |parts| >= 2 && |parts[1]| > 2 then parts[0] + "." + parts[1][..2] else value
    else
      SplitNoSep(value, '.');
      value
  }

  /** Applying the guard twice is the same as applying it once. */
  lemma LimitDecimalPlacesIdempotent(value: string)
    ensures LimitDecimalPlaces(LimitDecimalPlaces(value)) == LimitDecimalPlaces(value)
  {
    var r := LimitDecimalPlaces(value);
    if r != value {
      var parts := Split(value, '.');
      var kept := [parts[0], parts[1][..2]];
      assert '.' !in parts[1][..2] by {
        assert forall i :: 0 <= i < 2 ==> parts[1][..2][i] == parts[1][i];
      }
      assert Join(kept, '.') == parts[0] + "." + parts[1][..2];
      SplitJoin(kept, '.');
      assert Split(r, '.') == kept;
    }
  }

  /** Example: more than two decimals are cut to two. */
  lemma LimitDecimalPlacesTruncates()
    ensures LimitDecimalPlaces("1.234") == "1.23"
  {
    SplitJoin(["1", "234"], '.');
    assert Join(["1", "234"], '.') == "1.234";
  }

  /** Example: with two decimals before a second point, the text is left alone. */
  lemma LimitDecimalPlacesKeepsSecondPoint()
    ensures LimitDecimalPlaces("1.23.45") == "1.23.45"
  {
    SplitJoin(["1", "23", "45"], '.');
    assert Join(["1", "23", "45"], '.') == "1.23.45";
  }

  /** Example: with more than two decimals, whatever follows a second point is lost. */
  lemma LimitDecimalPlacesDropsTail()
    ensures LimitDecimalPlaces("1.234.5") == "1.23"
  {
    SplitJoin(["1", "234", "5"], '.');
    assert Join(["1", "234", "5"], '.') == "1.234.5";
  }

  // ---------------------------------------------------------------------------
  // Product rows
  // ---------------------------------------------------------------------------

  /** One product row: selected product id ("" for none), dose, estimated total, unit label, formset index. */
  datatype Row = Row(productId: string, dose: Option<real>, estimate: Option<real>, unit: string, prefix: int)

  /** JavaScript `parseFloat(text) || 0` on a number input. */
  function NumberOrZero(v: Option<real>): real
  {
    if v.Some? then v.value else 0.0
  }

  /**
   * A row after the estimate pass: no product clears the estimate; a row whose
   * total was typed last and is non-empty keeps it; a zero dose clears it;
   * otherwise the estimate and unit follow the dose.
   */
  function RowAfterEstimate(row: Row, lastTotal: bool, area: real, waterPerHa: real,
                            products: map<string, string>, fix2: real -> real): (r: Row)
    ensures r.productId == row.productId && r.dose == row.dose && r.prefix == row.prefix
    ensures row.productId == "" || row.productId !in products ==> r == row.(estimate := None)
    ensures row.productId != "" && row.productId in products && lastTotal && row.estimate.Some? ==> r == row
    ensures row.productId != "" && row.productId in products && !(lastTotal && row.estimate.Some?)
            && NumberOrZero(row.dose) == 0.0 ==>
              r == row.(estimate := None)
    ensures row.productId != "" && row.productId in products && !(lastTotal && row.estimate.Some?)
            && NumberOrZero(row.dose) != 0.0 ==>
              r.estimate == Some(fix2(EstimateTotal(row.dose.value, products[row.productId], area, waterPerHa)))
              && r.unit == UnitOf(products[row.productId])
  {
    if row.productId == "" || row.productId !in products then row.(estimate := None)
    else
      var dose := NumberOrZero(row.dose);
      if lastTotal && row.estimate.Some? then row
      else if dose == 0.0 then row.(estimate := None)
      else
        var doseType := products[row.productId];
        row.(estimate := Some(fix2(EstimateTotal(dose, doseType, area, waterPerHa))), unit := UnitOf(doseType))
  }

  predicate LastModifiedTotal(lastModified: map<int, Option<string>>, index: int)
  {
    index in lastModified && lastModified[index] == Some("total")
  }

  /** How a click on "add product" ends: a row added, the maximum's alert, or the TypeError of cloning a missing row. */
  datatype AddOutcome = Added | Refused | NoTemplateRow

  /** The rows of the product step, with the per-row "last edited" marks and the formset counter. */
  class ProductRows {
    var rows: seq<Row>
    var lastModified: map<int, Option<string>>
    var formCount: int
    const maxForms: int

    /** Rows carry their position as formset index and the counter equals their number. */
    predicate Indexed()
      reads this
    {
      formCount == |rows| && forall i :: 0 <= i < |rows| ==> rows[i].prefix == i
    }

    /** The rows the page was rendered with and the counter of its `data-form-count`; no edit marks yet. */
    constructor (initial: seq<Row>, formCount: int, maxForms: int)
      ensures rows == initial && lastModified == map[] && this.formCount == formCount && this.maxForms == maxForms
      ensures Indexed() <==> formCount == |initial| && forall i :: 0 <= i < |initial| ==> initial[i].prefix == i
    {
      rows := initial;
      lastModified := map[];
      this.formCount := formCount;
      this.maxForms := maxForms;
    }

    /** `calculateTotalDoses`: without a selected field nothing changes. */
    method CalculateTotalDoses(field: Option<real>, waterText: Option<real>,
                               products: map<string, string>, fix2: real -> real)
      modifies this
      ensures lastModified == old(lastModified) && formCount == old(formCount)
      ensures field.None? ==> rows == old(rows)
      ensures field.Some? ==> (|rows| == |old(rows)| &&
        forall i :: 0 <= i < |rows| ==>
          rows[i] == RowAfterEstimate(old(rows)[i], LastModifiedTotal(lastModified, i), field.value,
                                      NumberOrZero(waterText), products, fix2))
      ensures old(Indexed()) ==> Indexed()
    {
      if field.None? {
        return;
      }
      var waterPerHa := NumberOrZero(waterText);
      var i := 0;
      while i < |rows|
        invariant 0 <= i <= |rows| == |old(rows)|
        invariant lastModified == old(lastModified) && formCount == old(formCount)
        invariant forall j :: 0 <= j < i ==>
          rows[j] == RowAfterEstimate(old(rows)[j], LastModifiedTotal(lastModified, j), field.value,
                                      waterPerHa, products, fix2)
        invariant forall j :: i <= j < |rows| ==> rows[j] == old(rows)[j]
      {
        rows := rows[i := RowAfterEstimate(rows[i], LastModifiedTotal(lastModified, i), field.value,
                                           waterPerHa, products, fix2)];
        i := i + 1;
      }
    }

    /**
     * `calculateDoseFromTotal` for the row at `index`: marks the total as last
     * edited, then rewrites the dose from the typed total.
     */
    method CalculateDoseFromTotal(index: int, field: Option<real>, waterText: Option<real>,
                                  products: map<string, string>, fix2: real -> real)
      requires 0 <= index < |rows|
      modifies this
      ensures lastModified == old(lastModified)[index := Some("total")]
      ensures formCount == old(formCount) && |rows| == |old(rows)|
      ensures forall i :: 0 <= i < |rows| && i != index ==> rows[i] == old(rows)[i]
      ensures var row := old(rows)[index];
        rows[index] ==
          if row.productId == "" || row.productId !in products || field.None? then row
          else if NumberOrZero(row.estimate) == 0.0 then row.(dose := None)
          else
            var d := DoseFromTotal(row.estimate.value, products[row.productId], field.value, NumberOrZero(waterText));
            row.(dose := if d.Some? then Some(fix2(d.value)) else None)
      ensures old(Indexed()) ==> Indexed()
    {
      lastModified := lastModified[index := Some("total")];
      var row := rows[index];
      if row.productId == "" || row.productId !in products || field.None? {
        return;
      }
      var total := NumberOrZero(row.estimate);
      if total == 0.0 {
        rows := rows[index := row.(dose := None)];
        return;
      }
      var d := DoseFromTotal(total, products[row.productId], field.value, NumberOrZero(waterText));
      rows := rows[index := row.(dose := if d.Some? then Some(fix2(d.value)) else None)];
    }

    /** `handleDoseChange`: marks the dose as last edited and reruns the estimate pass. */
    method HandleDoseChange(index: int, field: Option<real>, waterText: Option<real>,
                            products: map<string, string>, fix2: real -> real)
      requires 0 <= index < |rows|
      modifies this
      ensures lastModified == old(lastModified)[index := Some("dose")]
      ensures formCount == old(formCount)
      ensures field.None? ==> rows == old(rows)
      ensures field.Some? ==> (|rows| == |old(rows)| &&
        forall i :: 0 <= i < |rows| ==>
          rows[i] == RowAfterEstimate(old(rows)[i], LastModifiedTotal(lastModified, i), field.value,
                                      NumberOrZero(waterText), products, fix2))
      ensures old(Indexed()) ==> Indexed()
    {
      lastModified := lastModified[index := Some("dose")];
      CalculateTotalDoses(field, waterText, products, fix2);
    }

    /**
     * `addProductRow`: refused (the alert) once the counter reaches the
     * formset maximum; otherwise the first row is cloned, so with every row
     * removed the clone is a TypeError on `null` and nothing changes.
     */
    method AddProductRow() returns (outcome: AddOutcome)
      modifies this
      ensures outcome == Refused <==> old(formCount) >= maxForms
      ensures outcome == NoTemplateRow <==> old(formCount) < maxForms && old(|rows|) == 0
      ensures outcome != Added ==> rows == old(rows) && formCount == old(formCount) && lastModified == old(lastModified)
      ensures outcome == Added ==> rows == old(rows) + [Row("", None, None, "-", old(formCount))]
      ensures outcome == Added ==> formCount == old(formCount) + 1
      ensures outcome == Added ==> lastModified == old(lastModified)[old(formCount) := None]
      ensures old(Indexed()) ==> Indexed()
    {
      if formCount >= maxForms {
        return Refused;
      }
      if |rows| == 0 {
        return NoTemplateRow;
      }
      rows := rows + [Row("", None, None, "-", formCount)];
      lastModified := lastModified[formCount := None];
      formCount := formCount + 1;
      outcome := Added;
    }

    /** Removing a row's element, then `updateFormIndexes`. */
    method RemoveRow(k: int)
      requires 0 <= k < |rows|
      modifies this
      ensures |rows| == |old(rows)| - 1
      ensures forall i :: 0 <= i < |rows| ==>
        rows[i] == (if i < k then old(rows)[i] else old(rows)[i + 1]).(prefix := i)
      ensures lastModified == old(lastModified)
      ensures Indexed()
    {
      rows := rows[..k] + rows[k + 1..];
      UpdateFormIndexes();
    }

    /** `updateFormIndexes`: renumbers every row by its position and resets the counter. */
    method UpdateFormIndexes()
      modifies this
      ensures |rows| == |old(rows)|
      ensures forall i :: 0 <= i < |rows| ==> rows[i] == old(rows)[i].(prefix := i)
      ensures lastModified == old(lastModified)
      ensures Indexed()
    {
      var i := 0;
      while i < |rows|
        invariant 0 <= i <= |rows| == |old(rows)|
        invariant lastModified == old(lastModified)
        invariant forall j :: 0 <= j < i ==> rows[j] == old(rows)[j].(prefix := j)
        invariant forall j :: i <= j < |rows| ==> rows[j] == old(rows)[j]
      {
        rows := rows[i := rows[i].(prefix := i)];
        i := i + 1;
      }
      formCount := |rows|;
    }

    /**
     * `resetProductsTable`, run when step two opens: every row but the first
     * goes, the first keeps its product only when the new catalogue still
     * offers it (`populateProductSelects`), its dose and estimate are cleared
     * and its unit reads "-", and the counter is set to one even when no row
     * is left.
     */
    method ResetProductsTable(products: map<string, string>)
      modifies this
      ensures formCount == 1 && lastModified == old(lastModified)
      ensures old(rows) == [] ==> rows == []
      ensures old(rows) != [] ==> rows == [old(rows)[0].(
        productId := if old(rows)[0].productId in products then old(rows)[0].productId else "",
        dose := None, estimate := None, unit := "-")]
      ensures old(Indexed()) && old(rows) != [] ==> Indexed()
    {
      if |rows| > 0 {
        var first := rows[0];
        var keep := if first.productId in products then first.productId else "";
        rows := [first.(productId := keep, dose := None, estimate := None, unit := "-")];
      }
      formCount := 1;
    }
  }

  // ---------------------------------------------------------------------------
  // Step one and submit validation
  // ---------------------------------------------------------------------------

  /** The general-information inputs as text; the completion date is a day number or empty. */
  datatype GeneralInfo = GeneralInfo(
    fieldId: string, treatmentType: string, machine: string, water: string,
    name: string, date: string, completedDate: Option<int>)

  /** The completion date may be left empty but may not lie after today. */
  function ValidateCompletedDate(completed: Option<int>, today: int): (ok: bool)
    ensures ok <==> completed.None? || completed.value <= today
  {
    if completed.None? then true else !(completed.value > today)
  }

  /** Whether the "next" button is disabled. */
  function NextDisabled(info: GeneralInfo, today: int): (disabled: bool)
    ensures !disabled <==>
      info.fieldId != "" && info.treatmentType != "" && info.name != "" && info.date != ""
      && (info.treatmentType == "spraying" ==> info.machine != "" && info.water != "")
      && ValidateCompletedDate(info.completedDate, today)
  {
    var requiredFilled := info.fieldId != "" && info.treatmentType != "" && info.name != "" && info.date != "";
    var conditionalValid := if info.treatmentType == "spraying" then info.machine != "" && info.water != "" else true;
    !(requiredFilled && conditionalValid && ValidateCompletedDate(info.completedDate, today))
  }

  /** The inputs after a change of treatment type: spraying defaults the water, fertigation clears the machine. */
  function AfterTypeChange(info: GeneralInfo): (r: GeneralInfo)
    ensures r.treatmentType == info.treatmentType && r.fieldId == info.fieldId && r.name == info.name
    ensures r.date == info.date && r.completedDate == info.completedDate
    ensures info.treatmentType == "spraying" ==>
      r.machine == info.machine && r.water != "" && r.water != "0" && (info.water !in {"", "0"} ==> r.water == info.water)
    ensures info.treatmentType == "fertigation" ==> r.machine == "" && r.water == "0"
    ensures info.treatmentType !in {"spraying", "fertigation"} ==> r == info
  {
    if info.treatmentType == "" then info
    else if info.treatmentType == "spraying" then
      if info.water == "" || info.water == "0" then info.(water := "850") else info
    else if info.treatmentType == "fertigation" then info.(machine := "", water := "0")
    else info
  }

  /** After choosing spraying with a machine, the spraying conditions of step one hold. */
  lemma SprayingTypeChangeFillsWater(info: GeneralInfo, today: int)
    requires info.treatmentType == "spraying" && info.machine != ""
    requires info.fieldId != "" && info.name != "" && info.date != ""
    requires ValidateCompletedDate(info.completedDate, today)
    ensures !NextDisabled(AfterTypeChange(info), today)
  {
  }

  /** The rows with a product and a dose. */
  function ValidProductRows(rows: seq<Row>): (r: seq<Row>)
    ensures |r| == 0 <==> forall i :: 0 <= i < |rows| ==> rows[i].productId == "" || rows[i].dose.None?
  {
    var r := Filter(rows, (row: Row) => row.productId != "" && row.dose.Some?);
    assert |r| > 0 ==> r[0] in rows;
    r
  }

  datatype Verdict = Accept | Reject(message: string, step: int)

  /** Submit validation: the first failing check, in the form's order, with the step it returns to. */
  function ValidateForm(info: GeneralInfo, rows: seq<Row>, today: int): (v: Verdict)
    ensures v.Accept? <==>
      info.name != "" && info.date != "" && info.treatmentType != ""
      && (info.treatmentType == "spraying" ==> info.machine != "" && info.water != "")
      && (exists i :: 0 <= i < |rows| && rows[i].productId != "" && rows[i].dose.Some?)
      && ValidateCompletedDate(info.completedDate, today)
    ensures v.Reject? ==> v.step in {1, 2}
    ensures v.Reject? && v.step == 2 ==> forall i :: 0 <= i < |rows| ==> rows[i].productId == "" || rows[i].dose.None?
  {
    if info.name == "" then Reject("Debe ingresar un nombre para el tratamiento", 1)
    else if info.date == "" then Reject("Debe seleccionar una fecha para el tratamiento", 1)
    else if info.treatmentType == "" then Reject("Debe seleccionar un tipo de tratamiento", 1)
    else if info.treatmentType == "spraying" && info.machine == "" then
      Reject("Para tratamientos de pulverización, debe seleccionar una máquina", 1)
    else if info.treatmentType == "spraying" && info.water == "" then
      Reject("Para tratamientos de pulverización, debe indicar el volumen de caldo (L/ha)", 1)
    else if |ValidProductRows(rows)| == 0 then
      Reject("Debe agregar al menos un producto al tratamiento", 2)
    else if info.completedDate.Some? && !ValidateCompletedDate(info.completedDate, today) then
      Reject("La fecha de finalización no puede ser en el futuro", 1)
    else Accept
  }
}
