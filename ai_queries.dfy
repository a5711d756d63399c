// The farm assistant: a guided dialogue whose requests carry a flow name, a
// step number, the user's last selection and the context gathered so far, and
// whose answers are menus, pickers, number prompts, dose results and price lists.

module Assistant {
  import opened Common
  import opened FarmModels

  // ---------------------------------------------------------------------------
  // Request data
  // ---------------------------------------------------------------------------

  /** A decoded JSON value: Python None, bool, int, float, str or dict. */
  datatype Value = Null | Bool(b: bool) | Int(i: int) | Num(r: real) | Str(s: string) | Obj(m: map<string, Value>)

  /** The request context: a dict from names to JSON values. */
  type Context = map<string, Value>

  /** Python truthiness. */
  predicate Truthy(v: Value)
  {
    match v
    case Null => false
    case Bool(b) => b
    case Int(i) => i != 0
    case Num(r) => r != 0.0
    case Str(s) => s != ""
    case Obj(m) => |m| > 0
  }

  /** Python `v == n` for an int literal `n`: `1.0 == 1` and `True == 1` hold. */
  predicate EqualsInt(v: Value, n: int)
  {
    v == Int(n) || v == Num(n as real) || (v.Bool? && (if v.b then 1 else 0) == n)
  }

  /** `d.get(k, default)`: the default only when the key is absent. */
  function Get(d: Context, k: string, default: Value): Value
  {
    if k in d then d[k] else default
  }

  /** Python `int(x)` of a float: truncation toward zero. */
  function Truncate(x: real): (n: int)
    ensures x >= 0.0 ==> n as real <= x < n as real + 1.0
    ensures x < 0.0 ==> n as real - 1.0 < x <= n as real
  {
    if x >= 0.0 then x.Floor else 0 - (0.0 - x).Floor
  }

  /** Python `float(v)`; None is the TypeError or ValueError it raises. */
  function ToFloat(v: Value): (r: Option<real>)
    ensures v.Int? ==> r == Some(v.i as real)
    ensures v.Num? ==> r == Some(v.r)
    ensures v.Null? || v.Obj? ==> r.None?
    ensures v.Str? && IsDigits(v.s) ==> r == Some(DigitsValue(v.s) as real)
  {
    match v
    case Null => None
    case Bool(b) => Some(if b then 1.0 else 0.0)
    case Int(i) => Some(i as real)
    case Num(x) => Some(x)
    case Str(s) => TrimmedDigits(s); ParseDecimal(Trim(s))
    case Obj(_) => None
  }

  /** Python `int(v)`; None is the TypeError or ValueError it raises. */
  function ToInt(v: Value): (r: Option<int>)
    ensures v.Int? ==> r == Some(v.i)
    ensures v.Num? ==> r == Some(Truncate(v.r))
    ensures v.Null? || v.Obj? ==> r.None?
    ensures v.Str? && IsDigits(v.s) ==> r == Some(DigitsValue(v.s))
  {
    match v
    case Null => None
    case Bool(b) => Some(if b then 1 else 0)
    case Int(i) => Some(i)
    case Num(x) => Some(Truncate(x))
    case Str(s) => TrimmedDigits(s); ParseInt(Trim(s))
    case Obj(_) => None
  }

  /**
   * How `.get(id=v)` treats the value: None matches no row, anything `int()`
   * accepts is an id, and anything else makes the lookup raise.
   */
  datatype IdKey = NoId | Id(n: int) | BadId

  function LookupKey(v: Value): (k: IdKey)
    ensures k.NoId? <==> v.Null?
    ensures k.BadId? <==> !v.Null? && ToInt(v).None?
    ensures k.Id? ==> ToInt(v) == Some(k.n)
  {
    if v.Null? then NoId
    else match ToInt(v)
      case Some(n) => Id(n)
      case None => BadId
  }

  function FindProduct(ps: seq<Product>, key: IdKey): (r: Option<Product>)
    requires !key.BadId?
    ensures r.Some? ==> key.Id? && r.value in ps && r.value.id == key.n
    ensures r.None? <==> key.NoId? || forall i :: 0 <= i < |ps| ==> ps[i].id != key.n
  {
    if key.NoId? then None else Find(ps, (p: Product) => p.id == key.n)
  }

  function FindField(fs: seq<Field>, key: IdKey): (r: Option<Field>)
    requires !key.BadId?
    ensures r.Some? ==> key.Id? && r.value in fs && r.value.id == key.n
    ensures r.None? <==> key.NoId? || forall i :: 0 <= i < |fs| ==> fs[i].id != key.n
  {
    if key.NoId? then None else Find(fs, (f: Field) => f.id == key.n)
  }

  // ---------------------------------------------------------------------------
  // Answers
  // ---------------------------------------------------------------------------

  datatype ProductEntry = ProductEntry(id: int, name: string, typeName: string, applications: seq<string>, price: real)

  datatype DoseInfo = DoseInfo(application: string, caption: string, dose: real, doseType: string,
                               display: Option<string>)

  /** One result line: `quantity` is the hectares or the machine's litres. */
  datatype DoseLine = DoseLine(caption: string, dose: real, doseType: string, quantity: real,
                               total: real, unit: string, cost: real)

  datatype AreaInfo = Hectares(ha: real) | InField(fieldName: string, area: real) | Machine(capacity: int)

  /**
   * The answer of a step. The menu's fixed options and the display strings
   * are not represented; `InternalError` is an exception escaping the view
   * (HTTP 500); the treatment-history and cost-analysis flows are handed
   * their step and not modelled further.
   */
  datatype Response =
    | Menu
    | Error(reason: string)
    | ProductSelection(products: seq<ProductEntry>, searchable: bool)
    | DoseOptions(productName: string, typeName: string, price: real, doseInfo: seq<DoseInfo>)
    | NumberInput(title: Value, message: Value, placeholder: Value, min: Value, step: Value)
    | FieldSelection(title: Value, message: Value, fields: seq<Field>, searchable: bool)
    | DoseResult(productName: string, area: AreaInfo, results: seq<DoseLine>)
    | PriceList(byType: seq<(string, seq<Product>)>)
    | TreatmentHistoryFlow(step: Value)
    | CostAnalysisFlow(step: Value)
    | InternalError

  const SprayingCaption := "Pulverización"
  const FertigationCaption := "Fertirrigación"
  const NoProductsMessage := "No tienes productos configurados. Añade productos primero."
  const ProductNotFoundMessage := "Producto no encontrado"
  const FieldNotFoundMessage := "Parcela no encontrada"
  const InvalidCalcTypeMessage := "Tipo de cálculo no válido"
  const InvalidStepMessage := "Paso no válido"
  const UnknownFlowMessage := "Flujo no reconocido"
  const NoPricesMessage := "No hay productos con precios configurados."

  /** `float(product.price) if product.price else 0`. */
  function ShownPrice(p: Product): (r: real)
    ensures p.price.Some? && p.price.value != 0.0 ==> r == p.price.value
    ensures p.price.None? || p.price.value == 0.0 ==> r == 0.0
  {
    if p.price.Some? && p.price.value != 0.0 then p.price.value else 0.0
  }

  // ---------------------------------------------------------------------------
  // Steps
  // ---------------------------------------------------------------------------

  /** The products offered for the context's `application_filter`. */
  function SelectableProducts(ctx: Context, ps: seq<Product>): (r: seq<Product>)
    ensures forall i :: 0 <= i < |r| ==> r[i] in ps
    ensures Get(ctx, "application_filter", Null) == Str(Spraying) ==>
      forall i :: 0 <= i < |ps| ==> (ps[i] in r <==> SupportsSpraying(ps[i]))
    ensures Get(ctx, "application_filter", Null) == Str(Fertigation) ==>
      forall i :: 0 <= i < |ps| ==> (ps[i] in r <==> SupportsFertigation(ps[i]))
    ensures (Get(ctx, "application_filter", Null) != Str(Spraying) &&
             Get(ctx, "application_filter", Null) != Str(Fertigation)) ==> r == ps
  {
    var filter := Get(ctx, "application_filter", Null);
    if filter == Str(Spraying) then Filter(ps, (p: Product) => SupportsSpraying(p))
    else if filter == Str(Fertigation) then Filter(ps, (p: Product) => SupportsFertigation(p))
    else ps
  }

  function Applications(p: Product): (r: seq<string>)
    ensures SprayingCaption in r <==> SupportsSpraying(p)
    ensures FertigationCaption in r <==> SupportsFertigation(p)
  {
    (if SupportsSpraying(p) then [SprayingCaption] else []) +
    (if SupportsFertigation(p) then [FertigationCaption] else [])
  }

  /** `_format_product` over a list; None when a product has no type (`None.name`). */
  function FormatProducts(ps: seq<Product>): (r: Option<seq<ProductEntry>>)
    ensures r.Some? <==> forall i :: 0 <= i < |ps| ==> ps[i].productType.Some?
    ensures r.Some? ==> |r.value| == |ps| && forall i :: 0 <= i < |ps| ==>
      r.value[i] == ProductEntry(ps[i].id, ps[i].name, ps[i].productType.value, Applications(ps[i]), ShownPrice(ps[i]))
  {
    if |ps| == 0 then Some([])
    else
      var rest := FormatProducts(ps[1..]);
      if ps[0].productType.None? || rest.None? then None
      else Some([ProductEntry(ps[0].id, ps[0].name, ps[0].productType.value, Applications(ps[0]), ShownPrice(ps[0]))]
                + rest.value)
  }

  /** `ProductSelectionStep.execute`. */
  function ProductSelectionStep(ctx: Context, ps: seq<Product>): (r: Response)
    ensures r == Error(NoProductsMessage) <==> |SelectableProducts(ctx, ps)| == 0
    ensures r.ProductSelection? ==>
      |r.products| == |SelectableProducts(ctx, ps)| && (r.searchable <==> |r.products| > 5)
    ensures r.ProductSelection? <==>
      |SelectableProducts(ctx, ps)| > 0 && FormatProducts(SelectableProducts(ctx, ps)).Some?
    ensures r.ProductSelection? ==> Some(r.products) == FormatProducts(SelectableProducts(ctx, ps))
    ensures r.InternalError? <==>
      exists i :: 0 <= i < |SelectableProducts(ctx, ps)| && SelectableProducts(ctx, ps)[i].productType.None?
    ensures r.Error? ==> r.reason == NoProductsMessage
    ensures r.Error? || r.ProductSelection? || r.InternalError?
  {
    var chosen := SelectableProducts(ctx, ps);
    if |chosen| == 0 then Error(NoProductsMessage)
    else match FormatProducts(chosen)
      case None => InternalError
      case Some(entries) => ProductSelection(entries, |chosen| > 5)
  }

  function DoseInfos(p: Product): (r: seq<DoseInfo>)
    ensures |r| <= 2
    ensures SupportsSpraying(p) <==> |r| > 0 && r[0].application == Spraying
    ensures SupportsFertigation(p) <==> |r| > 0 && r[|r| - 1].application == Fertigation
    ensures forall i :: 0 <= i < |r| ==>
      GetDose(p, r[i].application) == Some(r[i].dose) && GetDoseType(p, r[i].application) == Some(r[i].doseType) &&
      r[i].display == GetDoseTypeName(p, r[i].application)
  {
    var spraying := if SupportsSpraying(p)
      then [DoseInfo(Spraying, SprayingCaption, p.sprayingDose.value, p.sprayingDoseType.value,
                     GetDoseTypeName(p, Spraying))]
      else [];
    var fertigation := if SupportsFertigation(p)
      then [DoseInfo(Fertigation, FertigationCaption, p.fertigationDose.value, p.fertigationDoseType.value,
                     GetDoseTypeName(p, Fertigation))]
      else [];
    assert Spraying != Fertigation by { assert |Spraying| != |Fertigation|; }
    spraying + fertigation
  }

  /** `DoseOptionsStep.execute`: the product named by `product_id`. */
  function DoseOptionsStep(ctx: Context, ps: seq<Product>): (r: Response)
    ensures var key := LookupKey(Get(ctx, "product_id", Null));
      (r.InternalError? <==> key.BadId? || (FindProduct(ps, key).Some? && FindProduct(ps, key).value.productType.None?)) &&
      (r == Error(ProductNotFoundMessage) <==> !key.BadId? && FindProduct(ps, key).None?) &&
      (r.DoseOptions? ==> (!key.BadId? && FindProduct(ps, key).Some? &&
        var p := FindProduct(ps, key).value;
        r == DoseOptions(p.name, p.productType.value, ShownPrice(p), DoseInfos(p))))
    ensures r.Error? ==> r.reason == ProductNotFoundMessage
    ensures r.InternalError? || r.Error? || r.DoseOptions?
  {
    var key := LookupKey(Get(ctx, "product_id", Null));
    if key.BadId? then InternalError
    else match FindProduct(ps, key)
      case None => Error(ProductNotFoundMessage)
      case Some(p) =>
        if p.productType.None? then InternalError
        else DoseOptions(p.name, p.productType.value, ShownPrice(p), DoseInfos(p))
  }

  /** `FieldSelectionStep.execute`: the prompt texts fall back to their defaults. */
  function FieldSelectionStep(ctx: Context, fields: seq<Field>): (r: Response)
    ensures r.FieldSelection? && r.fields == fields && (r.searchable <==> |fields| > 5)
    ensures "title" !in ctx ==> r.title == Str("🏞️ Seleccionar parcela")
    ensures "message" !in ctx ==> r.message == Str("Elige la parcela:")
  {
    FieldSelection(Get(ctx, "title", Str("🏞️ Seleccionar parcela")), Get(ctx, "message", Str("Elige la parcela:")),
                   fields, |fields| > 5)
  }

  /** `NumberInputStep.execute`. */
  function NumberInputStep(ctx: Context): (r: Response)
    ensures r.NumberInput?
    ensures "title" !in ctx ==> r.title == Str("Introducir valor")
    ensures "message" !in ctx ==> r.message == Str("Introduce el valor:")
    ensures "placeholder" !in ctx ==> r.placeholder == Str("Ej: 5.5")
    ensures "min" !in ctx ==> r.min == Num(0.1)
    ensures "step" !in ctx ==> r.step == Num(0.1)
  {
    NumberInput(Get(ctx, "title", Str("Introducir valor")), Get(ctx, "message", Str("Introduce el valor:")),
                Get(ctx, "placeholder", Str("Ej: 5.5")), Get(ctx, "min", Num(0.1)), Get(ctx, "step", Num(0.1)))
  }

  // ---------------------------------------------------------------------------
  // Dose calculator
  // ---------------------------------------------------------------------------

  predicate PerHectareType(t: string) { t == LPerHa || t == KgPerHa }

  predicate PerThousandLitresType(t: string) { t == LPer1000L || t == KgPer1000L }

  /** `'L' if 'l_' in dose_type else 'kg'`. */
  function LineUnit(doseType: string): (u: string)
    ensures u == "L" <==> Contains(doseType, "l_")
    ensures u == "L" || u == "kg"
  {
    if Contains(doseType, "l_") then "L" else "kg"
  }

  /** `float(product.price * total) if product.price else 0`. */
  function LineCost(price: Option<real>, total: real): (c: real)
    ensures price.Some? && price.value != 0.0 ==> c == price.value * total
    ensures price.None? || price.value == 0.0 ==> c == 0.0
  {
    if price.Some? && price.value != 0.0 then price.value * total else 0.0
  }

  /** The line of one application method for `ha` hectares, when its dose is per hectare. */
  function PerHectareLine(caption: string, dose: Option<real>, doseType: Option<string>, ha: real,
                          price: Option<real>): (r: seq<DoseLine>)
    ensures |r| <= 1
    ensures |r| == 1 <==> dose.Some? && doseType.Some? && PerHectareType(doseType.value)
    ensures |r| == 1 ==>
      r[0].caption == caption && r[0].dose == dose.value && r[0].doseType == doseType.value &&
      r[0].quantity == ha && r[0].total == dose.value * ha && r[0].unit == LineUnit(doseType.value) &&
      r[0].cost == LineCost(price, r[0].total)
  {
    if dose.Some? && doseType.Some? && PerHectareType(doseType.value) then
      [DoseLine(caption, dose.value, doseType.value, ha, dose.value * ha, LineUnit(doseType.value),
                LineCost(price, dose.value * ha))]
    else []
  }

  /** The lines `calculate_for_hectares` returns: spraying first, then fertigation. */
  /** A line for a per-hectare dose over `ha` hectares at the product's price. */
  predicate HectareLineShape(line: DoseLine, ha: real, price: Option<real>)
  {
    PerHectareType(line.doseType) && line.quantity == ha && line.total == line.dose * ha &&
    line.unit == LineUnit(line.doseType) && line.cost == LineCost(price, line.total)
  }

  function HectareLines(p: Product, ha: real): (r: seq<DoseLine>)
    ensures |r| <= 2
    ensures forall i :: 0 <= i < |r| ==> HectareLineShape(r[i], ha, p.price)
  {
    var spraying := PerHectareLine(SprayingCaption, p.sprayingDose, p.sprayingDoseType, ha, p.price);
    var fertigation := PerHectareLine(FertigationCaption, p.fertigationDose, p.fertigationDoseType, ha, p.price);
    assert forall i :: 0 <= i < |spraying| ==> HectareLineShape(spraying[i], ha, p.price);
    assert forall i :: 0 <= i < |fertigation| ==> HectareLineShape(fertigation[i], ha, p.price);
    spraying + fertigation
  }

  /**
   * `calculate_for_hectares` gives the spraying line first when the spraying
   * dose is per hectare, and the fertigation line last when that one is.
   */
  lemma HectareLinesPerApplication(p: Product, ha: real)
    ensures var r := HectareLines(p, ha);
      ((SupportsSpraying(p) && PerHectareType(p.sprayingDoseType.value)) <==>
         |r| > 0 && r[0].caption == SprayingCaption) &&
      ((SupportsFertigation(p) && PerHectareType(p.fertigationDoseType.value)) <==>
         |r| > 0 && r[|r| - 1].caption == FertigationCaption) &&
      (|r| > 0 && r[0].caption == SprayingCaption ==>
         p.sprayingDose == Some(r[0].dose) && p.sprayingDoseType == Some(r[0].doseType)) &&
      (|r| > 0 && r[|r| - 1].caption == FertigationCaption ==>
         p.fertigationDose == Some(r[|r| - 1].dose) && p.fertigationDoseType == Some(r[|r| - 1].doseType))
  {
    var spraying := PerHectareLine(SprayingCaption, p.sprayingDose, p.sprayingDoseType, ha, p.price);
    var fertigation := PerHectareLine(FertigationCaption, p.fertigationDose, p.fertigationDoseType, ha, p.price);
    assert HectareLines(p, ha) == spraying + fertigation;
    assert SprayingCaption != FertigationCaption by { assert SprayingCaption[0] != FertigationCaption[0]; }
  }

  /** `(dose * capacity) / divisor`: a dose per `divisor` litres of a machine load. */
  function LoadShare(dose: real, capacity: int, divisor: real): real
    requires divisor != 0.0
  {
    (dose * capacity as real) / divisor
  }

  /** The line `calculate_for_machine` returns, if any: spraying doses only. */
  function MachineLines(p: Product, capacity: int): (r: seq<DoseLine>)
    ensures |r| <= 1
    ensures SupportsSpraying(p) && PerThousandLitresType(p.sprayingDoseType.value) ==>
      |r| == 1 && r[0].total == LoadShare(p.sprayingDose.value, capacity, 1000.0) &&
      r[0].unit == LineUnit(p.sprayingDoseType.value)
    ensures SupportsSpraying(p) && p.sprayingDoseType.value == Pct ==>
      |r| == 1 && r[0].total == LoadShare(p.sprayingDose.value, capacity, 100.0) && r[0].unit == "L"
  {
    if !SupportsSpraying(p) then []
    else
      var dose := p.sprayingDose.value;
      var doseType := p.sprayingDoseType.value;
      var c := capacity as real;
      if PerThousandLitresType(doseType) then
        var total := LoadShare(dose, capacity, 1000.0);
        [DoseLine(SprayingCaption, dose, doseType, c, total, LineUnit(doseType), LineCost(p.price, total))]
      else if doseType == Pct then
        var total := LoadShare(dose, capacity, 100.0);
        [DoseLine(SprayingCaption, dose, doseType, c, total, "L", LineCost(p.price, total))]
      else []
  }

  /** `calculate_for_machine` answers only for a spraying dose per 1000 L or in percent. */
  lemma MachineLinesSprayingOnly(p: Product, capacity: int)
    ensures var r := MachineLines(p, capacity);
      (|r| == 1 <==> (SupportsSpraying(p) &&
         (PerThousandLitresType(p.sprayingDoseType.value) || p.sprayingDoseType.value == Pct))) &&
      (|r| == 1 ==>
         r[0].caption == SprayingCaption && p.sprayingDose == Some(r[0].dose) &&
         p.sprayingDoseType == Some(r[0].doseType) && r[0].quantity == capacity as real &&
         r[0].cost == LineCost(p.price, r[0].total))
  {
  }

  /** `DoseCalculator.calculate_for_hectares`. */
  method CalculateForHectares(p: Product, ha: real) returns (results: seq<DoseLine>)
    ensures results == HectareLines(p, ha)
  {
    results := [];
    if SupportsSpraying(p) {
      var dose := p.sprayingDose.value;
      var doseType := p.sprayingDoseType.value;
      if PerHectareType(doseType) {
        var total := dose * ha;
        var unit := LineUnit(doseType);
        results := results + [DoseLine(SprayingCaption, dose, doseType, ha, total, unit, LineCost(p.price, total))];
        SameLine(results, PerHectareLine(SprayingCaption, p.sprayingDose, p.sprayingDoseType, ha, p.price));
      }
    }
    ghost var spraying := results;
    assert spraying == PerHectareLine(SprayingCaption, p.sprayingDose, p.sprayingDoseType, ha, p.price);
    if SupportsFertigation(p) {
      var dose := p.fertigationDose.value;
      var doseType := p.fertigationDoseType.value;
      if PerHectareType(doseType) {
        var total := dose * ha;
        var unit := LineUnit(doseType);
        var line := [DoseLine(FertigationCaption, dose, doseType, ha, total, unit, LineCost(p.price, total))];
        SameLine(line, PerHectareLine(FertigationCaption, p.fertigationDose, p.fertigationDoseType, ha, p.price));
        results := results + line;
      }
    }
    assert results == spraying + PerHectareLine(FertigationCaption, p.fertigationDose, p.fertigationDoseType, ha, p.price);
  }

  /** Two one-line results with the same fields are the same result. */
  lemma SameLine(a: seq<DoseLine>, b: seq<DoseLine>)
    requires |a| == 1 && |b| == 1
    requires a[0].caption == b[0].caption && a[0].dose == b[0].dose && a[0].doseType == b[0].doseType
    requires a[0].quantity == b[0].quantity && a[0].total == b[0].total && a[0].unit == b[0].unit
    requires a[0].cost == b[0].cost
    ensures a == b
  {
  }

  /** `DoseCalculator.calculate_for_machine`. */
  method CalculateForMachine(p: Product, capacity: int) returns (results: seq<DoseLine>)
    ensures results == MachineLines(p, capacity)
  {
    results := [];
    if SupportsSpraying(p) {
      var dose := p.sprayingDose.value;
      var doseType := p.sprayingDoseType.value;
      if doseType == LPer1000L || doseType == KgPer1000L {
        var total := LoadShare(dose, capacity, 1000.0);
        var unit := LineUnit(doseType);
        results := results + [DoseLine(SprayingCaption, dose, doseType, capacity as real, total, unit,
                                       LineCost(p.price, total))];
        SameLine(results, MachineLines(p, capacity));
      } else if doseType == Pct {
        var total := LoadShare(dose, capacity, 100.0);
        results := results + [DoseLine(SprayingCaption, dose, doseType, capacity as real, total, "L",
                                       LineCost(p.price, total))];
        SameLine(results, MachineLines(p, capacity));
      }
    }
  }

  lemma DoseTypeUnits()
    ensures LineUnit(LPerHa) == "L" && LineUnit(KgPerHa) == "kg"
    ensures LineUnit(LPer1000L) == "L" && LineUnit(KgPer1000L) == "kg"
  {
    assert LPerHa[..2] == "l_";
    assert LPer1000L[..2] == "l_";
    NoLitrePrefix(KgPerHa);
    NoLitrePrefix(KgPer1000L);
  }

  /** "l_" occurs in no string whose only 'l' is last or that has no 'l' followed by '_'. */
  lemma {:induction false} NoLitrePrefix(s: string)
    requires forall i :: 0 <= i < |s| - 1 ==> !(s[i] == 'l' && s[i + 1] == '_')
    ensures !Contains(s, "l_")
  {
    if |s| >= 2 {
      assert s[..2] != "l_" by {
        assert !(s[0] == 'l' && s[1] == '_');
      }
      NoLitrePrefix(s[1..]);
    }
  }

  /**
   * The assistant's per-hectare totals are the ones a task line stores for
   * the same dose over the same area, in the same unit.
   */
  lemma HectareLinesMatchTaskProduct(p: Product, ha: real, water: Option<real>)
    ensures forall i :: 0 <= i < |HectareLines(p, ha)| ==>
      var line := HectareLines(p, ha)[i];
      TotalDoseFor(line.dose, Some(line.doseType), ha, water) == Total(line.total) &&
      line.unit == UnitFor(Some(line.doseType))
  {
    var r := HectareLines(p, ha);
    forall i | 0 <= i < |r|
      ensures TotalDoseFor(r[i].dose, Some(r[i].doseType), ha, water) == Total(r[i].total) &&
              r[i].unit == UnitFor(Some(r[i].doseType))
    {
      assert HectareLineShape(r[i], ha, p.price);
      PerHectareMatches(r[i].dose, r[i].doseType, ha, water);
    }
  }

  /** A per-hectare dose gives the TaskProduct line's total and unit whatever the water. */
  lemma PerHectareMatches(dose: real, doseType: string, ha: real, water: Option<real>)
    requires PerHectareType(doseType)
    ensures TotalDoseFor(dose, Some(doseType), ha, water) == Total(dose * ha)
    ensures LineUnit(doseType) == UnitFor(Some(doseType))
  {
    DoseTypeUnits();
  }

  /**
   * A machine load of `capacity` litres needs what a task line stores for one
   * hectare sprayed at `capacity` L/ha, in the same unit.
   */
  lemma MachineLinesMatchTaskProduct(p: Product, capacity: int)
    ensures var r := MachineLines(p, capacity);
      |r| == 1 ==>
        TotalDoseFor(r[0].dose, Some(r[0].doseType), 1.0, Some(capacity as real)) == Total(r[0].total) &&
        r[0].unit == UnitFor(Some(r[0].doseType))
  {
    DoseTypeUnits();
    MachineLinesSprayingOnly(p, capacity);
    var r := MachineLines(p, capacity);
    if |r| == 1 {
      LoadMatchesTotal(r[0].dose, r[0].doseType, capacity);
    }
  }

  /** One hectare sprayed at `capacity` L/ha takes what one machine load of `capacity` litres takes. */
  lemma LoadMatchesTotal(dose: real, doseType: string, capacity: int)
    requires PerThousandLitresType(doseType) || doseType == Pct
    ensures TotalDoseFor(dose, Some(doseType), 1.0, Some(capacity as real)) ==
      Total(LoadShare(dose, capacity, if doseType == Pct then 100.0 else 1000.0))
  {
    var c := capacity as real;
    if doseType == Pct {
      assert (dose / 100.0) * (c * 1.0) == (dose * c) / 100.0;
    } else {
      assert (dose * (c * 1.0)) / 1000.0 == (dose * c) / 1000.0;
    }
  }

  // ---------------------------------------------------------------------------
  // Dose flow
  // ---------------------------------------------------------------------------

  const HectaresPrompt: Context := map[
    "title" := Str("📏 Número de hectáreas"), "message" := Str("Introduce el número de hectáreas:"),
    "placeholder" := Str("Ej: 5.5"), "min" := Num(0.1), "step" := Num(0.1)]

  const FieldPrompt: Context := map[
    "title" := Str("🏞️ Seleccionar parcela"), "message" := Str("Elige la parcela:")]

  const MachinePrompt: Context := map[
    "title" := Str("🚜 Capacidad de máquina"), "message" := Str("Introduce la capacidad de la máquina en litros:"),
    "placeholder" := Str("Ej: 2000"), "min" := Int(100), "step" := Int(100)]

  /** The context after `_handle_dose_flow`'s own writes for the given step. */
  function DoseFlowContext(step: Value, ctx: Context): (r: Context)
    ensures EqualsInt(step, 2) ==> r == ctx["product_id" := Get(ctx, "selection", Null)]
    ensures EqualsInt(step, 3) ==> "calc_type" in r && r["calc_type"] == Get(ctx, "selection", Null)
    ensures !EqualsInt(step, 2) && !EqualsInt(step, 3) ==> r == ctx
  {
    var selection := Get(ctx, "selection", Null);
    if EqualsInt(step, 1) then ctx
    else if EqualsInt(step, 2) then ctx["product_id" := selection]
    else if EqualsInt(step, 3) then
      var c := ctx["calc_type" := selection];
      if selection == Str("hectares") then c + HectaresPrompt
      else if selection == Str("field") then c + FieldPrompt
      else if selection == Str("machine") then c + MachinePrompt
      else c
    else ctx
  }

  predicate KnownCalcType(v: Value)
  {
    v == Str("hectares") || v == Str("field") || v == Str("machine")
  }

  /** `_calculate_final_result`: the product, then the area the user chose. */
  function CalculateFinalResult(ctx: Context, ps: seq<Product>, fields: seq<Field>): (r: Response)
    ensures var key := LookupKey(Get(ctx, "product_id", Null));
      !key.BadId? && FindProduct(ps, key).None? <==> r == Error(ProductNotFoundMessage)
    ensures var key := LookupKey(Get(ctx, "product_id", Null));
      !key.BadId? && FindProduct(ps, key).Some? && !KnownCalcType(Get(ctx, "calc_type", Null)) ==>
        r == Error(InvalidCalcTypeMessage)
    ensures var key := LookupKey(Get(ctx, "product_id", Null));
      r.DoseResult? ==> (!key.BadId? && FindProduct(ps, key).Some? &&
        var p := FindProduct(ps, key).value;
        r.productName == p.name &&
        (r.area.Hectares? ==> r.results == HectareLines(p, r.area.ha)) &&
        (r.area.InField? ==> r.results == HectareLines(p, r.area.area)) &&
        (r.area.Machine? ==> r.results == MachineLines(p, r.area.capacity)))
    ensures r.Error? ==>
      r.reason == ProductNotFoundMessage || r.reason == FieldNotFoundMessage || r.reason == InvalidCalcTypeMessage
    ensures r.InternalError? || r.Error? || r.DoseResult?
    ensures LookupKey(Get(ctx, "product_id", Null)).BadId? ==> r == InternalError
    ensures var key := LookupKey(Get(ctx, "product_id", Null));
      var sel := Get(ctx, "selection", Null);
      !key.BadId? && FindProduct(ps, key).Some? && Get(ctx, "calc_type", Null) == Str("hectares") ==>
        var p := FindProduct(ps, key).value;
        r == if ToFloat(sel).None? then InternalError
             else DoseResult(p.name, Hectares(ToFloat(sel).value), HectareLines(p, ToFloat(sel).value))
    ensures var key := LookupKey(Get(ctx, "product_id", Null));
      var fieldKey := LookupKey(Get(ctx, "selection", Null));
      !key.BadId? && FindProduct(ps, key).Some? && Get(ctx, "calc_type", Null) == Str("field") ==>
        var p := FindProduct(ps, key).value;
        r == if fieldKey.BadId? then InternalError
             else if FindField(fields, fieldKey).None? then Error(FieldNotFoundMessage)
             else
               var f := FindField(fields, fieldKey).value;
               DoseResult(p.name, InField(f.name, f.area), HectareLines(p, f.area))
    ensures var key := LookupKey(Get(ctx, "product_id", Null));
      var sel := Get(ctx, "selection", Null);
      !key.BadId? && FindProduct(ps, key).Some? && Get(ctx, "calc_type", Null) == Str("machine") ==>
        var p := FindProduct(ps, key).value;
        r == if ToInt(sel).None? then InternalError
             else DoseResult(p.name, Machine(ToInt(sel).value), MachineLines(p, ToInt(sel).value))
  {
    var key := LookupKey(Get(ctx, "product_id", Null));
    if key.BadId? then InternalError
    else match FindProduct(ps, key)
      case None => Error(ProductNotFoundMessage)
      case Some(p) =>
        var calcType := Get(ctx, "calc_type", Null);
        var selection := Get(ctx, "selection", Null);
        if calcType == Str("hectares") then
          match ToFloat(selection)
          case None => InternalError
          case Some(ha) => DoseResult(p.name, Hectares(ha), HectareLines(p, ha))
        else if calcType == Str("field") then
          var fieldKey := LookupKey(selection);
          if fieldKey.BadId? then InternalError
          else match FindField(fields, fieldKey)
            case None => Error(FieldNotFoundMessage)
            case Some(f) => DoseResult(p.name, InField(f.name, f.area), HectareLines(p, f.area))
        else if calcType == Str("machine") then
          match ToInt(selection)
          case None => InternalError
          case Some(capacity) => DoseResult(p.name, Machine(capacity), MachineLines(p, capacity))
        else Error(InvalidCalcTypeMessage)
  }

  /** Choosing a field gives the same lines as typing in that field's area. */
  lemma FieldResultIsHectareResult(ctx: Context, ps: seq<Product>, fields: seq<Field>, f: Field)
    requires f in fields && FindField(fields, Id(f.id)) == Some(f)
    requires Get(ctx, "calc_type", Null) == Str("field") && Get(ctx, "selection", Null) == Int(f.id)
    ensures var byArea := ctx["calc_type" := Str("hectares")]["selection" := Num(f.area)];
      var r1 := CalculateFinalResult(ctx, ps, fields);
      var r2 := CalculateFinalResult(byArea, ps, fields);
      (r1.DoseResult? <==> r2.DoseResult?) && (r1.DoseResult? ==> r1.results == r2.results)
  {
    var byArea := ctx["calc_type" := Str("hectares")]["selection" := Num(f.area)];
    assert Get(byArea, "product_id", Null) == Get(ctx, "product_id", Null);
    assert Get(byArea, "calc_type", Null) == Str("hectares");
    assert Get(byArea, "selection", Null) == Num(f.area);
  }

  /** `_handle_dose_flow`: steps 1 to 4; anything else is an invalid step. */
  function HandleDoseFlow(step: Value, ctx: Context, ps: seq<Product>, fields: seq<Field>): (r: Response)
    ensures r == Error(InvalidStepMessage) <==>
      !(EqualsInt(step, 1) || EqualsInt(step, 2) || EqualsInt(step, 3) || EqualsInt(step, 4)) ||
      (EqualsInt(step, 3) && !KnownCalcType(Get(ctx, "selection", Null)))
    ensures EqualsInt(step, 1) ==> r == ProductSelectionStep(ctx, ps)
    ensures EqualsInt(step, 2) ==> r == DoseOptionsStep(ctx["product_id" := Get(ctx, "selection", Null)], ps)
    ensures EqualsInt(step, 4) ==> r == CalculateFinalResult(ctx, ps, fields)
  {
    assert InvalidStepMessage != NoProductsMessage && InvalidStepMessage != ProductNotFoundMessage &&
           InvalidStepMessage != FieldNotFoundMessage && InvalidStepMessage != InvalidCalcTypeMessage by {
      assert |InvalidStepMessage| != |NoProductsMessage| && |InvalidStepMessage| != |ProductNotFoundMessage|;
      assert |InvalidStepMessage| != |FieldNotFoundMessage| && |InvalidStepMessage| != |InvalidCalcTypeMessage|;
    }
    var c := DoseFlowContext(step, ctx);
    if EqualsInt(step, 1) then ProductSelectionStep(c, ps)
    else if EqualsInt(step, 2) then DoseOptionsStep(c, ps)
    else if EqualsInt(step, 3) then
      var calcType := Get(ctx, "selection", Null);
      if calcType == Str("hectares") || calcType == Str("machine") then NumberInputStep(c)
      else if calcType == Str("field") then FieldSelectionStep(c, fields)
      else Error(InvalidStepMessage)
    else if EqualsInt(step, 4) then CalculateFinalResult(c, ps, fields)
    else Error(InvalidStepMessage)
  }

  /** Step 3 answers with the prompt of the chosen way of giving the area. */
  lemma DoseFlowStepThreePrompts(step: Value, ctx: Context, ps: seq<Product>, fields: seq<Field>)
    requires EqualsInt(step, 3)
    ensures Get(ctx, "selection", Null) == Str("hectares") ==>
      HandleDoseFlow(step, ctx, ps, fields) ==
        NumberInput(Str("📏 Número de hectáreas"), Str("Introduce el número de hectáreas:"), Str("Ej: 5.5"),
                    Num(0.1), Num(0.1))
    ensures Get(ctx, "selection", Null) == Str("field") ==>
      HandleDoseFlow(step, ctx, ps, fields) ==
        FieldSelection(Str("🏞️ Seleccionar parcela"), Str("Elige la parcela:"), fields, |fields| > 5)
    ensures Get(ctx, "selection", Null) == Str("machine") ==>
      HandleDoseFlow(step, ctx, ps, fields) ==
        NumberInput(Str("🚜 Capacidad de máquina"), Str("Introduce la capacidad de la máquina en litros:"),
                    Str("Ej: 2000"), Int(100), Int(100))
  {
    var sel := Get(ctx, "selection", Null);
    if KnownCalcType(sel) {
      StepThreeAnswer(step, ctx, ps, fields);
      PromptAnswers(ctx["calc_type" := sel], fields);
    }
  }

  /** Step 3 with a known choice answers with the step for that choice over the prompt-filled context. */
  lemma StepThreeAnswer(step: Value, ctx: Context, ps: seq<Product>, fields: seq<Field>)
    requires EqualsInt(step, 3) && KnownCalcType(Get(ctx, "selection", Null))
    ensures var sel := Get(ctx, "selection", Null);
      var c := ctx["calc_type" := sel];
      HandleDoseFlow(step, ctx, ps, fields) ==
        if sel == Str("hectares") then NumberInputStep(c + HectaresPrompt)
        else if sel == Str("field") then FieldSelectionStep(c + FieldPrompt, fields)
        else NumberInputStep(c + MachinePrompt)
  {
    assert !EqualsInt(step, 1) && !EqualsInt(step, 2);
  }

  lemma PromptAnswers(c: Context, fields: seq<Field>)
    ensures NumberInputStep(c + HectaresPrompt) ==
      NumberInput(Str("📏 Número de hectáreas"), Str("Introduce el número de hectáreas:"), Str("Ej: 5.5"),
                  Num(0.1), Num(0.1))
    ensures FieldSelectionStep(c + FieldPrompt, fields) ==
      FieldSelection(Str("🏞️ Seleccionar parcela"), Str("Elige la parcela:"), fields, |fields| > 5)
    ensures NumberInputStep(c + MachinePrompt) ==
      NumberInput(Str("🚜 Capacidad de máquina"), Str("Introduce la capacidad de la máquina en litros:"),
                  Str("Ej: 2000"), Int(100), Int(100))
  {
  }

  // ---------------------------------------------------------------------------
  // Price flow
  // ---------------------------------------------------------------------------

  predicate HasPrice(p: Product) { p.price.Some? && p.price.value > 0.0 }

  /** The products of one type name, in their original order. */
  function OfType(ps: seq<Product>, k: string): seq<Product>
  {
    Filter(ps, (q: Product) => q.productType == Some(k))
  }

  lemma OfTypeAppend(ps: seq<Product>, p: Product, k: string)
    ensures OfType(ps + [p], k) == OfType(ps, k) + (if p.productType == Some(k) then [p] else [])
  {
    FilterAppend(ps, [p], (q: Product) => q.productType == Some(k));
  }

  predicate DistinctKeys(groups: seq<(string, seq<Product>)>)
  {
    forall i, j :: 0 <= i < j < |groups| ==> groups[i].0 != groups[j].0
  }

  /**
   * The grouping the price list promises: one group per type name present,
   * each holding exactly that type's products in their original order.
   */
  predicate GroupedByType(groups: seq<(string, seq<Product>)>, ps: seq<Product>)
  {
    DistinctKeys(groups) &&
    (forall i :: 0 <= i < |groups| ==> groups[i].1 == OfType(ps, groups[i].0) && |groups[i].1| > 0) &&
    (forall j :: 0 <= j < |ps| ==> exists i :: 0 <= i < |groups| && Some(groups[i].0) == ps[j].productType)
  }

  /** The type names in order of first appearance. */
  function TypeNames(ps: seq<Product>): (r: seq<string>)
    requires forall i :: 0 <= i < |ps| ==> ps[i].productType.Some?
    ensures forall a, b :: 0 <= a < b < |r| ==> r[a] != r[b]
  {
    if |ps| == 0 then []
    else
      var front := TypeNames(ps[..|ps| - 1]);
      var k := ps[|ps| - 1].productType.value;
      if k in front then front else front + [k]
  }

  /** A name is among the type names exactly when some product has that type. */
  lemma {:induction false} TypeNamesPresent(ps: seq<Product>)
    requires forall i :: 0 <= i < |ps| ==> ps[i].productType.Some?
    ensures forall k :: k in TypeNames(ps) <==> exists j :: 0 <= j < |ps| && ps[j].productType == Some(k)
  {
    if |ps| > 0 {
      var front := ps[..|ps| - 1];
      TypeNamesPresent(front);
      forall k
        ensures k in TypeNames(ps) <==> exists j :: 0 <= j < |ps| && ps[j].productType == Some(k)
      {
        if k in TypeNames(ps) && k != ps[|ps| - 1].productType.value {
          var j :| 0 <= j < |front| && front[j].productType == Some(k);
          assert ps[j] == front[j];
        }
        if exists j :: 0 <= j < |ps| && ps[j].productType == Some(k) {
          var j :| 0 <= j < |ps| && ps[j].productType == Some(k);
          if j < |ps| - 1 {
            assert front[j] == ps[j];
          }
        }
      }
    }
  }

  /** The price list's groups: one per type name, in first-appearance order. */
  function TypeGroups(ps: seq<Product>): (r: seq<(string, seq<Product>)>)
    requires forall i :: 0 <= i < |ps| ==> ps[i].productType.Some?
    ensures GroupedByType(r, ps)
  {
    var keys := TypeNames(ps);
    var r := seq(|keys|, a requires 0 <= a < |keys| => (keys[a], OfType(ps, keys[a])));
    TypeNamesPresent(ps);
    GroupsOfNames(ps, keys, r);
    r
  }

  /** Groups built from the type names present, one per name, are a grouping by type. */
  lemma GroupsOfNames(ps: seq<Product>, keys: seq<string>, r: seq<(string, seq<Product>)>)
    requires forall i :: 0 <= i < |ps| ==> ps[i].productType.Some?
    requires |r| == |keys| && forall a :: 0 <= a < |r| ==> r[a] == (keys[a], OfType(ps, keys[a]))
    requires forall a, b :: 0 <= a < b < |keys| ==> keys[a] != keys[b]
    requires forall k :: k in keys <==> exists j :: 0 <= j < |ps| && ps[j].productType == Some(k)
    ensures GroupedByType(r, ps)
  {
    forall a | 0 <= a < |r|
      ensures |r[a].1| > 0
    {
      assert keys[a] in keys;
      var j :| 0 <= j < |ps| && ps[j].productType == Some(keys[a]);
      assert ps[j] in OfType(ps, keys[a]);
    }
    forall j | 0 <= j < |ps|
      ensures exists a :: 0 <= a < |r| && Some(r[a].0) == ps[j].productType
    {
      NameHasGroup(ps, keys, r, j);
    }
    assert DistinctKeys(r);
  }

  lemma NameHasGroup(ps: seq<Product>, keys: seq<string>, r: seq<(string, seq<Product>)>, j: int)
    requires 0 <= j < |ps| && ps[j].productType.Some?
    requires |r| == |keys| && forall a :: 0 <= a < |r| ==> r[a].0 == keys[a]
    requires forall k :: k in keys <==> exists j :: 0 <= j < |ps| && ps[j].productType == Some(k)
    ensures exists a :: 0 <= a < |r| && Some(r[a].0) == ps[j].productType
  {
    var k := ps[j].productType.value;
    assert k in keys;
    var a :| 0 <= a < |keys| && keys[a] == k;
    assert Some(r[a].0) == ps[j].productType;
  }

  /**
   * `_handle_price_flow`'s loop: a dict from type name to products; `order`
   * is the dict's insertion order, which is the order of `TypeGroups`.
   */
  method GroupByTypeName(ps: seq<Product>) returns (order: seq<string>, byType: map<string, seq<Product>>)
    requires forall i :: 0 <= i < |ps| ==> ps[i].productType.Some?
    ensures order == TypeNames(ps)
    ensures forall k :: k in byType <==> k in order
    ensures forall k :: k in byType ==> byType[k] == OfType(ps, k)
  {
    order := [];
    byType := map[];
    var i := 0;
    while i < |ps|
      invariant 0 <= i <= |ps|
      invariant order == TypeNames(ps[..i])
      invariant forall k :: k in byType <==> k in order
      invariant forall k :: k in byType ==> byType[k] == OfType(ps[..i], k)
    {
      var front := ps[..i];
      assert ps[..i + 1] == front + [ps[i]];
      NamesStep(front, ps[i], order);
      GroupsStep(front, ps[i], order, byType);
      var typeName := ps[i].productType.value;
      var products: seq<Product> := [];
      if typeName in byType {
        products := byType[typeName];
      } else {
        order := order + [typeName];
      }
      byType := byType[typeName := products + [ps[i]]];
      i := i + 1;
    }
    assert ps[..i] == ps;
  }

  /** One turn of the grouping loop extends the type names seen so far. */
  lemma {:induction false} NamesStep(front: seq<Product>, p: Product, order: seq<string>)
    requires forall j :: 0 <= j < |front| ==> front[j].productType.Some?
    requires p.productType.Some?
    requires order == TypeNames(front)
    ensures forall j :: 0 <= j < |front + [p]| ==> (front + [p])[j].productType.Some?
    ensures TypeNames(front + [p]) ==
      if p.productType.value in order then order else order + [p.productType.value]
  {
    assert (front + [p])[..|front|] == front;
  }

  /** One turn of the grouping loop keeps each type's list equal to its products so far. */
  lemma {:induction false} GroupsStep(front: seq<Product>, p: Product, order: seq<string>, byType: map<string, seq<Product>>)
    requires forall j :: 0 <= j < |front| ==> front[j].productType.Some?
    requires p.productType.Some?
    requires order == TypeNames(front)
    requires forall k :: k in byType <==> k in order
    requires forall k :: k in byType ==> byType[k] == OfType(front, k)
    ensures var t := p.productType.value;
      var byType' := byType[t := (if t in byType then byType[t] else []) + [p]];
      forall k :: k in byType' <==> k in (if t in order then order else order + [t])
    ensures var t := p.productType.value;
      var byType' := byType[t := (if t in byType then byType[t] else []) + [p]];
      forall k :: k in byType' ==> byType'[k] == OfType(front + [p], k)
  {
    var t := p.productType.value;
    var byType' := byType[t := (if t in byType then byType[t] else []) + [p]];
    forall k | k in byType'
      ensures byType'[k] == OfType(front + [p], k)
    {
      OfTypeAppend(front, p, k);
      if k == t && t !in byType {
        TypeNamesPresent(front);
        FilterNoneKept(front, t);
      }
    }
  }

  /** A type name none of whose products has been seen has no products yet. */
  lemma {:induction false} FilterNoneKept(ps: seq<Product>, k: string)
    requires forall j :: 0 <= j < |ps| ==> ps[j].productType != Some(k)
    ensures OfType(ps, k) == []
  {
    if |ps| > 0 {
      FilterNoneKept(ps[1..], k);
    }
  }

  /** `_handle_price_flow`: step 1 lists the priced products by type. */
  function HandlePriceFlow(step: Value, ps: seq<Product>): (r: Response)
    ensures !EqualsInt(step, 1) ==> r == Error(InvalidStepMessage)
    ensures EqualsInt(step, 1) ==>
      (r == Error(NoPricesMessage) <==> forall i :: 0 <= i < |ps| ==> !HasPrice(ps[i]))
    ensures EqualsInt(step, 1) ==>
      (r.InternalError? <==> exists i :: 0 <= i < |ps| && HasPrice(ps[i]) && ps[i].productType.None?)
    ensures r.PriceList? ==> EqualsInt(step, 1) && GroupedByType(r.byType, Filter(ps, HasPrice))
    ensures r.PriceList? || r.Error? || r.InternalError?
  {
    if !EqualsInt(step, 1) then Error(InvalidStepMessage)
    else
      var priced := Filter(ps, HasPrice);
      if |priced| == 0 then Error(NoPricesMessage)
      else if exists i :: 0 <= i < |priced| && priced[i].productType.None? then InternalError
      else PriceList(TypeGroups(priced))
  }

  // ---------------------------------------------------------------------------
  // Router and request processing
  // ---------------------------------------------------------------------------

  /** `FlowRouter.route`. */
  function Route(flow: Value, step: Value, ctx: Context, ps: seq<Product>, fields: seq<Field>): (r: Response)
    ensures r == Menu <==> flow == Str("menu") || !Truthy(flow)
    ensures flow == Str("dosis") ==> r == HandleDoseFlow(step, ctx, ps, fields)
    ensures flow == Str("precio") ==> r == HandlePriceFlow(step, ps)
    ensures flow == Str("tratamiento") ==> r == TreatmentHistoryFlow(step)
    ensures flow == Str("coste") ==> r == CostAnalysisFlow(step)
    ensures r == Error(UnknownFlowMessage) <==>
      Truthy(flow) && flow !in {Str("menu"), Str("dosis"), Str("precio"), Str("tratamiento"), Str("coste")}
  {
    if flow == Str("menu") || !Truthy(flow) then Menu
    else if flow == Str("dosis") then HandleDoseFlow(step, ctx, ps, fields)
    else if flow == Str("precio") then HandlePriceFlow(step, ps)
    else if flow == Str("tratamiento") then TreatmentHistoryFlow(step)
    else if flow == Str("coste") then CostAnalysisFlow(step)
    else Error(UnknownFlowMessage)
  }

  /** Two contexts that agree on every key except "flow" and "step". */
  ghost predicate AgreeOffRoute(c1: Context, c2: Context)
  {
    forall k :: k != "flow" && k != "step" ==> (k in c1 <==> k in c2) && (k in c1 ==> c1[k] == c2[k])
  }

  /**
   * No dose step depends on the context's "flow" or "step" entries: the one
   * step that reads "step" (the number prompt) is only reached after the
   * prompt texts have overwritten it.
   */
  lemma RouteIgnoresContextFlowAndStep(flow: Value, step: Value, c1: Context, c2: Context,
                                       ps: seq<Product>, fields: seq<Field>)
    requires AgreeOffRoute(c1, c2)
    ensures Route(flow, step, c1, ps, fields) == Route(flow, step, c2, ps, fields)
  {
    if flow == Str("dosis") {
      DoseFlowIgnoresContextFlowAndStep(step, c1, c2, ps, fields);
    }
  }

  /** The dose flow alone: its answer does not depend on the context's "flow" or "step". */
  lemma DoseFlowIgnoresContextFlowAndStep(step: Value, c1: Context, c2: Context,
                                          ps: seq<Product>, fields: seq<Field>)
    requires AgreeOffRoute(c1, c2)
    ensures HandleDoseFlow(step, c1, ps, fields) == HandleDoseFlow(step, c2, ps, fields)
  {
    var d1 := DoseFlowContext(step, c1);
    var d2 := DoseFlowContext(step, c2);
    if EqualsInt(step, 1) {
      ProductSelectionReads(c1, c2, ps);
    } else if EqualsInt(step, 2) {
      assert AgreeOffRoute(d1, d2);
      DoseOptionsReads(d1, d2, ps);
    } else if EqualsInt(step, 3) {
      PromptStepIgnoresContextFlowAndStep(step, c1, c2, ps, fields);
    } else if EqualsInt(step, 4) {
      assert AgreeOffRoute(d1, d2);
      FinalResultReads(d1, d2, ps, fields);
    }
  }

  /** Step 3 of the dose flow does not depend on the context's "flow" or "step". */
  lemma PromptStepIgnoresContextFlowAndStep(step: Value, c1: Context, c2: Context,
                                            ps: seq<Product>, fields: seq<Field>)
    requires AgreeOffRoute(c1, c2) && EqualsInt(step, 3)
    ensures HandleDoseFlow(step, c1, ps, fields) == HandleDoseFlow(step, c2, ps, fields)
  {
    var sel := Get(c1, "selection", Null);
    assert Get(c2, "selection", Null) == sel;
    if KnownCalcType(sel) {
      StepThreeAnswer(step, c1, ps, fields);
      StepThreeAnswer(step, c2, ps, fields);
      PromptsIgnoreContext(c1["calc_type" := sel], c2["calc_type" := sel], fields);
    }
  }

  /** The step-3 prompts are the same whatever context they are merged into. */
  lemma PromptsIgnoreContext(e1: Context, e2: Context, fields: seq<Field>)
    ensures NumberInputStep(e1 + HectaresPrompt) == NumberInputStep(e2 + HectaresPrompt)
    ensures NumberInputStep(e1 + MachinePrompt) == NumberInputStep(e2 + MachinePrompt)
    ensures FieldSelectionStep(e1 + FieldPrompt, fields) == FieldSelectionStep(e2 + FieldPrompt, fields)
  {
    NumberInputReads(e1 + HectaresPrompt, e2 + HectaresPrompt);
    NumberInputReads(e1 + MachinePrompt, e2 + MachinePrompt);
    FieldSelectionReads(e1 + FieldPrompt, e2 + FieldPrompt, fields);
  }

  lemma ProductSelectionReads(c1: Context, c2: Context, ps: seq<Product>)
    requires Get(c1, "application_filter", Null) == Get(c2, "application_filter", Null)
    ensures ProductSelectionStep(c1, ps) == ProductSelectionStep(c2, ps)
  {
  }

  lemma DoseOptionsReads(c1: Context, c2: Context, ps: seq<Product>)
    requires Get(c1, "product_id", Null) == Get(c2, "product_id", Null)
    ensures DoseOptionsStep(c1, ps) == DoseOptionsStep(c2, ps)
  {
  }

  lemma FinalResultReads(c1: Context, c2: Context, ps: seq<Product>, fields: seq<Field>)
    requires Get(c1, "product_id", Null) == Get(c2, "product_id", Null)
    requires Get(c1, "calc_type", Null) == Get(c2, "calc_type", Null)
    requires Get(c1, "selection", Null) == Get(c2, "selection", Null)
    ensures CalculateFinalResult(c1, ps, fields) == CalculateFinalResult(c2, ps, fields)
  {
  }

  lemma NumberInputReads(c1: Context, c2: Context)
    requires "title" in c1 && "message" in c1 && "placeholder" in c1 && "min" in c1 && "step" in c1
    requires "title" in c2 && "message" in c2 && "placeholder" in c2 && "min" in c2 && "step" in c2
    requires c1["title"] == c2["title"] && c1["message"] == c2["message"]
    requires c1["placeholder"] == c2["placeholder"] && c1["min"] == c2["min"] && c1["step"] == c2["step"]
    ensures NumberInputStep(c1) == NumberInputStep(c2)
  {
  }

  lemma FieldSelectionReads(c1: Context, c2: Context, fields: seq<Field>)
    requires "title" in c1 && "message" in c1 && "title" in c2 && "message" in c2
    requires c1["title"] == c2["title"] && c1["message"] == c2["message"]
    ensures FieldSelectionStep(c1, fields) == FieldSelectionStep(c2, fields)
  {
  }

  /** The context `process_step` builds before routing. */
  function BaseContext(stepData: Context): Context
  {
    map["selection" := Get(stepData, "selection", Null),
        "flow" := Get(stepData, "flow", Str("menu")),
        "step" := Get(stepData, "step", Int(1))]
  }

  /**
   * `FarmFlowProcessor.process_step`: flow defaults to "menu" and step to 1,
   * a truthy `data` dict is merged over the context (a truthy `data` that is
   * not a dict makes `update` raise), and routing uses the request's own flow
   * and step.
   */
  method ProcessStep(stepData: Context, ps: seq<Product>, fields: seq<Field>) returns (r: Response, context: Context)
    ensures var data := Get(stepData, "data", Null);
      (Truthy(data) && !data.Obj? ==> r == InternalError) &&
      (Truthy(data) && data.Obj? ==> context == BaseContext(stepData) + data.m) &&
      (!Truthy(data) ==> context == BaseContext(stepData)) &&
      (!(Truthy(data) && !data.Obj?) ==>
        r == Route(Get(stepData, "flow", Str("menu")), Get(stepData, "step", Int(1)), context, ps, fields))
    ensures forall k :: k in context && k != "selection" && k != "flow" && k != "step" ==>
      Get(stepData, "data", Null).Obj? && context[k] == Get(stepData, "data", Null).m[k]
  {
    var flow := Get(stepData, "flow", Str("menu"));
    var step := Get(stepData, "step", Int(1));
    context := map["selection" := Get(stepData, "selection", Null), "flow" := flow, "step" := step];
    if "data" in stepData && Truthy(stepData["data"]) {
      var data := stepData["data"];
      if !data.Obj? {
        r := InternalError;
        return;
      }
      context := context + data.m;
    }
    r := Route(flow, step, context, ps, fields);
  }
}
