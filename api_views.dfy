// The JSON endpoints of farm/api_views.py: the product list for one
// application method, the calendar's filters and event dates, the cost report
// per field with its guarded per-hectare figures, and the hierarchical cost
// breakdown by product type and product. Querysets are sequences of records
// already restricted to the user's organization.

module ApiViews {
  import opened Common
  import opened FarmModels

  // ---------------------------------------------------------------------------
  // get_products
  // ---------------------------------------------------------------------------

  /** One entry of the product list: the dose and dose type of the requested method. */
  datatype ProductData = ProductData(
    id: int,
    name: string,
    dose: Option<real>,
    doseType: Option<string>,
    doseTypeDisplay: Option<string>)

  function ProductDataOf(p: Product, app: string): ProductData
  {
    ProductData(p.id, p.name, GetDose(p, app), GetDoseType(p, app), GetDoseTypeName(p, app))
  }

  /** The queryset filter of `get_products`: the product supports the method. */
  predicate Listed(p: Product, app: string)
  {
    SupportsApplicationType(p, app) == Some(true)
  }

  /**
   * The products that support the application method, in queryset order, each
   * with that method's dose; `supports_application_type` answers None (falsy)
   * for an unknown method, so nothing is listed then.
   */
  function GetProducts(ps: seq<Product>, app: string): (r: seq<ProductData>)
    ensures |r| <= |ps|
    ensures forall i :: 0 <= i < |r| ==> r[i].dose.Some? && r[i].doseType.Some?
    ensures app != Spraying && app != Fertigation ==> r == []
  {
    if |ps| == 0 then []
    else
      var rest := GetProducts(ps[1..], app);
      if Listed(ps[0], app) then [ProductDataOf(ps[0], app)] + rest else rest
  }

  /** An entry is listed exactly when it is the data of a product that supports the method. */
  lemma {:induction false} GetProductsMembers(ps: seq<Product>, app: string, d: ProductData)
    ensures d in GetProducts(ps, app) <==>
      exists j :: 0 <= j < |ps| && Listed(ps[j], app) && d == ProductDataOf(ps[j], app)
  {
    if |ps| > 0 {
      GetProductsMembers(ps[1..], app, d);
      if d in GetProducts(ps[1..], app) {
        var j :| 0 <= j < |ps| - 1 && Listed(ps[1..][j], app) && d == ProductDataOf(ps[1..][j], app);
        assert ps[j + 1] == ps[1..][j];
      }
      if exists j :: 0 <= j < |ps| && Listed(ps[j], app) && d == ProductDataOf(ps[j], app) {
        var j :| 0 <= j < |ps| && Listed(ps[j], app) && d == ProductDataOf(ps[j], app);
        if j > 0 {
          assert ps[1..][j - 1] == ps[j];
        }
      }
    }
  }

  // ---------------------------------------------------------------------------
  // get_calendar_treatments
  // ---------------------------------------------------------------------------

  /** `[int(id) for id in s.split(',') if id.isdigit()]`. */
  function DigitTokens(parts: seq<string>): (r: seq<int>)
    ensures |r| <= |parts|
    ensures forall i :: 0 <= i < |r| ==> r[i] >= 0
    ensures |r| == 0 <==> forall i :: 0 <= i < |parts| ==> !IsDigits(parts[i])
  {
    if |parts| == 0 then []
    else
      (if IsDigits(parts[0]) then [DigitsValue(parts[0]) as int] else []) + DigitTokens(parts[1..])
  }

  /**
   * The calendar's field filter; None means the treatments are not filtered by
   * field. An empty parameter, "all", or a list in which no token is all
   * digits leaves the field filter off.
   */
  function FieldIdFilter(fieldIds: string): (r: Option<seq<int>>)
    ensures r.None? ==>
      fieldIds == "" || fieldIds == "all" ||
      forall i :: 0 <= i < |Split(fieldIds, ',')| ==> !IsDigits(Split(fieldIds, ',')[i])
    ensures r.Some? ==>
      fieldIds != "" && fieldIds != "all" &&
      exists i :: 0 <= i < |Split(fieldIds, ',')| && IsDigits(Split(fieldIds, ',')[i])
    ensures r.Some? ==> |r.value| > 0 && r.value == DigitTokens(Split(fieldIds, ','))
  {
    if fieldIds == "" || fieldIds == "all" then None
    else
      var parts := Split(fieldIds, ',');
      var ids := DigitTokens(parts);
      if |ids| == 0 then None
      else
        Some(ids)
  }

  /** The decimal renderings of non-negative ids. */
  function IdStrings(ns: seq<int>): (r: seq<string>)
    requires forall i :: 0 <= i < |ns| ==> ns[i] >= 0
    ensures |r| == |ns|
    ensures forall i :: 0 <= i < |r| ==> IsDigits(r[i]) && DigitsValue(r[i]) == ns[i]
  {
    if |ns| == 0 then [] else [NatToDigits(ns[0])] + IdStrings(ns[1..])
  }

  lemma {:induction false} DigitTokensOfIds(ns: seq<int>)
    requires forall i :: 0 <= i < |ns| ==> ns[i] >= 0
    ensures DigitTokens(IdStrings(ns)) == ns
  {
    if |ns| > 0 {
      var parts := IdStrings(ns);
      assert parts == [NatToDigits(ns[0])] + IdStrings(ns[1..]);
      assert parts[1..] == IdStrings(ns[1..]);
      assert IsDigits(parts[0]) && DigitsValue(parts[0]) == ns[0];
      assert DigitTokens(parts) == [ns[0]] + DigitTokens(parts[1..]);
      DigitTokensOfIds(ns[1..]);
      assert [ns[0]] + ns[1..] == ns;
    }
  }

  /** A comma-separated list of ids, as the calendar page sends it, is read back exactly. */
  lemma {:induction false} FieldIdFilterRoundTrip(ns: seq<int>)
    requires |ns| > 0
    requires forall i :: 0 <= i < |ns| ==> ns[i] >= 0
    ensures FieldIdFilter(Join(IdStrings(ns), ',')) == Some(ns)
  {
    var parts := IdStrings(ns);
    var s := Join(parts, ',');
    assert forall i :: 0 <= i < |parts| ==> ',' !in parts[i] by {
      forall i | 0 <= i < |parts|
        ensures ',' !in parts[i]
      {
        assert IsDigits(parts[i]);
      }
    }
    SplitJoin(parts, ',');
    DigitTokensOfIds(ns);
  }

  /** Only the all-digit tokens are kept. */
  lemma {:induction false} FieldIdFilterKeepsDigits()
    ensures FieldIdFilter("3,x,12") == Some([3, 12])
  {
    var p2 := ["12"];
    assert DigitsValue("12") == 12 by {
      assert "12"[..1] == "1";
    }
    assert DigitTokens(p2) == [12] by {
      assert p2[1..] == [];
    }
    var p1 := ["x"] + p2;
    assert p1[1..] == p2;
    assert !IsDigit(p1[0][0]);
    var parts := ["3"] + p1;
    assert parts[1..] == p1;
    assert DigitTokens(parts) == [3, 12];
    assert Join(p1, ',') == "x,12";
    assert Join(parts, ',') == "3,x,12";
    SplitJoin(parts, ',');
  }

  /** Tokens that are not all digits, a sign included, are dropped; none left means no filter. */
  lemma {:induction false} FieldIdFilterDropsNonDigits()
    ensures FieldIdFilter("x,-1") == None
  {
    var bad := ["x", "-1"];
    assert Join(bad, ',') == "x,-1";
    SplitJoin(bad, ',');
    assert !IsDigit(bad[1][0]) && !IsDigit(bad[0][0]);
  }

  /** The type filter: any non-empty parameter filters by its comma-separated parts. */
  function TypeFilter(types: string): (r: Option<seq<string>>)
    ensures r.Some? <==> types != ""
    ensures r.Some? ==> |r.value| >= 1 && Join(r.value, ',') == types
  {
    if types == "" then None else Some(Split(types, ','))
  }

  /** A treatment as the calendar reads it. */
  datatype TreatmentRecord = TreatmentRecord(
    id: int,
    name: string,
    date: int,
    finishDate: Option<int>,
    fieldId: int,
    kind: string,
    waterPerHa: Option<real>)

  datatype CalendarEvent = CalendarEvent(
    id: int,
    name: string,
    date: int,
    finishDate: Option<int>,
    kind: string,
    waterPerHa: Option<real>)

  /** An event shows a finished treatment on its finish date and any other on its scheduled date. */
  predicate EventFor(e: CalendarEvent, t: TreatmentRecord)
  {
    e.id == t.id && e.name == t.name && e.kind == t.kind && e.waterPerHa == t.waterPerHa &&
    e.finishDate == t.finishDate &&
    (t.finishDate.Some? ==> e.date == t.finishDate.value) &&
    (t.finishDate.None? ==> e.date == t.date)
  }

  function EventOf(t: TreatmentRecord): (e: CalendarEvent)
    ensures EventFor(e, t)
  {
    CalendarEvent(t.id, t.name, if t.finishDate.Some? then t.finishDate.value else t.date,
                  t.finishDate, t.kind, t.waterPerHa)
  }

  /** The conjunction of whichever of the four filters are on. */
  predicate Selected(t: TreatmentRecord, start: Option<int>, end: Option<int>,
                     fields: Option<seq<int>>, types: Option<seq<string>>)
  {
    (start.None? || t.date >= start.value) &&
    (end.None? || t.date <= end.value) &&
    (fields.None? || t.fieldId in fields.value) &&
    (types.None? || t.kind in types.value)
  }

  /** The filtered treatments, in queryset order. */
  function CalendarScope(ts: seq<TreatmentRecord>, start: Option<int>, end: Option<int>,
                         fields: Option<seq<int>>, types: Option<seq<string>>): (r: seq<TreatmentRecord>)
    ensures forall i :: 0 <= i < |r| ==> r[i] in ts && Selected(r[i], start, end, fields, types)
    ensures forall i :: 0 <= i < |ts| && Selected(ts[i], start, end, fields, types) ==> ts[i] in r
  {
    Filter(ts, t => Selected(t, start, end, fields, types))
  }

  /**
   * The calendar feed. `start` and `end` are the parsed `start`/`end`
   * parameters, None when absent or empty.
   */
  method CalendarTreatments(ts: seq<TreatmentRecord>, start: Option<int>, end: Option<int>,
                            fieldIds: string, types: string) returns (result: seq<CalendarEvent>)
    ensures var scope := CalendarScope(ts, start, end, FieldIdFilter(fieldIds), TypeFilter(types));
      |result| == |scope| && forall i :: 0 <= i < |result| ==> EventFor(result[i], scope[i])
  {
    var scope := CalendarScope(ts, start, end, FieldIdFilter(fieldIds), TypeFilter(types));
    result := [];
    for i := 0 to |scope|
      invariant |result| == i
      invariant forall j :: 0 <= j < i ==> EventFor(result[j], scope[j])
    {
      result := result + [EventOf(scope[i])];
    }
  }

  // ---------------------------------------------------------------------------
  // field_costs_data: date range and per-hectare guards
  // ---------------------------------------------------------------------------

  /** The reporting range: the last 365 days up to today unless a bound is given. */
  function DateRange(today: int, dateFrom: Option<int>, dateTo: Option<int>): (r: (int, int))
  {
    (if dateFrom.Some? then dateFrom.value else today - 365,
     if dateTo.Some? then dateTo.value else today)
  }

  lemma {:induction false} DateRangeBounds(today: int, dateFrom: Option<int>, dateTo: Option<int>)
    ensures DateRange(today, None, None) == (today - 365, today)
    ensures DateRange(today, dateFrom, dateTo).0 == DateRange(today, dateFrom, None).0
    ensures DateRange(today, dateFrom, dateTo).1 == DateRange(today, None, dateTo).1
    ensures dateFrom.Some? ==> DateRange(today, dateFrom, dateTo).0 == dateFrom.value
    ensures dateTo.Some? ==> DateRange(today, dateFrom, dateTo).1 == dateTo.value
  {
  }

  /** Cost per hectare, 0 for a field without area. */
  function PerHa(total: real, area: real): (r: real)
    ensures area > 0.0 ==> r * area == total
    ensures area <= 0.0 ==> r == 0.0
  {
    if area > 0.0 then total / area else 0.0
  }

  // ---------------------------------------------------------------------------
  // get_field_product_breakdown
  // ---------------------------------------------------------------------------

  /** A treatment line item joined with its product, product type and treatment. */
  datatype CostRow = CostRow(
    productName: string,
    typeName: Option<string>,
    treatmentDate: int,
    fieldId: int,
    totalPrice: real)

  const NoCategory := "Sin categoría"

  function TypeKey(row: CostRow): Option<string> { row.typeName }
  function ProductName(row: CostRow): string { row.productName }
  function Price(row: CostRow): real { row.totalPrice }

  /** `name or 'Sin categoría'`: a missing or empty type name is shown as no category. */
  function DisplayName(k: Option<string>): (r: string)
    ensures k.Some? && k.value != "" ==> r == k.value
    ensures k.None? || k == Some("") ==> r == NoCategory
  {
    if k.None? || k.value == "" then NoCategory else k.value
  }

  /** The type a displayed name is looked up by: no category means a null type. */
  function ProductFilterKey(typeName: string): (r: Option<string>)
    ensures r.None? <==> typeName == NoCategory
    ensures r.Some? ==> r.value == typeName
  {
    if typeName == NoCategory then None else Some(typeName)
  }

  /** The display name leads back to the type's own rows exactly when it is neither empty nor "Sin categoría". */
  lemma {:induction false} FilterKeyOfDisplayName(k: Option<string>)
    ensures ProductFilterKey(DisplayName(k)) == k <==> k.None? || (k.value != "" && k.value != NoCategory)
  {
  }

  /** `part / whole * 100`, 0 when the whole is zero. */
  function Percentage(part: real, whole: real): (r: real)
    ensures whole != 0.0 ==> r * whole == part * 100.0
    ensures whole == 0.0 ==> r == 0.0
  {
    if whole != 0.0 then part / whole * 100.0 else 0.0
  }

  /** The line items of the given fields whose treatment falls within the range. */
  function InScope(rows: seq<CostRow>, fieldIds: seq<int>, start: int, end: int): (r: seq<CostRow>)
    ensures forall i :: 0 <= i < |r| ==>
      r[i] in rows && start <= r[i].treatmentDate <= end && r[i].fieldId in fieldIds
    ensures forall i :: 0 <= i < |rows| && start <= rows[i].treatmentDate <= end && rows[i].fieldId in fieldIds ==>
      rows[i] in r
  {
    Filter(rows, (row: CostRow) => start <= row.treatmentDate <= end && row.fieldId in fieldIds)
  }

  datatype ProductShare = ProductShare(name: string, total: real, percentage: real)

  datatype TypeShare = TypeShare(typeName: string, total: real, percentage: real, products: seq<ProductShare>)

  function ShareTotal(t: TypeShare): real { t.total }
  function SharePercentage(t: TypeShare): real { t.percentage }
  function ProductTotal(p: ProductShare): real { p.total }
  function ProductPercentage(p: ProductShare): real { p.percentage }

  /** The type groups, `values(type name).annotate(total=Sum).order_by('-total')`. */
  function TypeGroups(scope: seq<CostRow>): seq<(Option<string>, real)>
  {
    RankedGroups(scope, TypeKey, Price)
  }

  /** The product groups of the rows of one type, by product name, largest first. */
  function ProductGroups(scope: seq<CostRow>, k: Option<string>): seq<(string, real)>
  {
    RankedGroups(WithKey(scope, TypeKey, k), ProductName, Price)
  }

  /** Product entries with percentages relative to the type's total. */
  function ProductSharesOf(groups: seq<(string, real)>, typeTotal: real): (r: seq<ProductShare>)
    ensures |r| == |groups|
  {
    seq(|groups|, i requires 0 <= i < |groups| =>
      ProductShare(groups[i].0, groups[i].1, Percentage(groups[i].1, typeTotal)))
  }

  function TypeShareOf(scope: seq<CostRow>, g: (Option<string>, real), totalCost: real): TypeShare
  {
    var typeName := DisplayName(g.0);
    TypeShare(typeName, g.1, Percentage(g.1, totalCost),
              ProductSharesOf(ProductGroups(scope, ProductFilterKey(typeName)), g.1))
  }

  /** The breakdown of a set of line items, one entry per type group. */
  function Breakdown(scope: seq<CostRow>): (r: seq<TypeShare>)
    ensures |r| == |TypeGroups(scope)|
  {
    var groups := TypeGroups(scope);
    seq(|groups|, i requires 0 <= i < |groups| => TypeShareOf(scope, groups[i], SumOf(scope, Price)))
  }

  /** `b` is the breakdown of the first `|b|` groups. */
  predicate SharesOfGroups(b: seq<TypeShare>, scope: seq<CostRow>, groups: seq<(Option<string>, real)>, totalCost: real)
  {
    |b| <= |groups| && forall j :: 0 <= j < |b| ==> b[j] == TypeShareOf(scope, groups[j], totalCost)
  }

  lemma {:induction false} SharesStep(b: seq<TypeShare>, share: TypeShare, scope: seq<CostRow>, groups: seq<(Option<string>, real)>, totalCost: real)
    requires SharesOfGroups(b, scope, groups, totalCost)
    requires |b| < |groups| && share == TypeShareOf(scope, groups[|b|], totalCost)
    ensures SharesOfGroups(b + [share], scope, groups, totalCost)
  {
    var r := b + [share];
    forall j | 0 <= j < |r|
      ensures r[j] == TypeShareOf(scope, groups[j], totalCost)
    {
      if j < |b| {
        assert r[j] == b[j];
      }
    }
  }

  /** The view: the breakdown of the line items of the given fields within the range. */
  method GetFieldProductBreakdown(rows: seq<CostRow>, fieldIds: seq<int>, start: int, end: int)
    returns (breakdown: seq<TypeShare>)
    ensures breakdown == Breakdown(InScope(rows, fieldIds, start, end))
    ensures forall i :: 0 < i < |breakdown| ==> breakdown[i - 1].total >= breakdown[i].total
  {
    var query := InScope(rows, fieldIds, start, end);
    var totalCost := SumOf(query, Price);
    var productTypes := TypeGroups(query);
    breakdown := [];
    for i := 0 to |productTypes|
      invariant |breakdown| == i
      invariant SharesOfGroups(breakdown, query, productTypes, totalCost)
    {
      var typeName := DisplayName(productTypes[i].0);
      var typeTotal := productTypes[i].1;
      var typePercentage := Percentage(typeTotal, totalCost);
      var products := ProductGroups(query, ProductFilterKey(typeName));
      var productList := ProductSharesOf(products, typeTotal);
      var share := TypeShare(typeName, typeTotal, typePercentage, productList);
      assert share == TypeShareOf(query, productTypes[i], totalCost);
      SharesStep(breakdown, share, query, productTypes, totalCost);
      breakdown := breakdown + [share];
    }
    BreakdownOfShares(breakdown, query);
    BreakdownSorted(query);
  }

  lemma {:induction false} BreakdownOfShares(b: seq<TypeShare>, scope: seq<CostRow>)
    requires SharesOfGroups(b, scope, TypeGroups(scope), SumOf(scope, Price))
    requires |b| == |TypeGroups(scope)|
    ensures b == Breakdown(scope)
  {
  }

  /** The types are listed largest total first. */
  lemma {:induction false} BreakdownSorted(scope: seq<CostRow>)
    ensures var b := Breakdown(scope); forall i :: 0 < i < |b| ==> b[i - 1].total >= b[i].total
  {
    var b := Breakdown(scope);
    var groups := TypeGroups(scope);
    forall i | 0 < i < |b|
      ensures b[i - 1].total >= b[i].total
    {
      assert GroupTotal(groups[i - 1]) >= GroupTotal(groups[i]);
    }
  }

  /** The type totals add up to the total cost of the line items. */
  lemma {:induction false} BreakdownTotals(scope: seq<CostRow>)
    ensures SumOf(Breakdown(scope), ShareTotal) == SumOf(scope, Price)
  {
    SumPointwise(Breakdown(scope), ShareTotal, TypeGroups(scope), GroupTotal);
    SumRankedGroups(scope, TypeKey, Price);
  }

  /** With a non-zero total cost the type percentages add up to 100. */
  lemma {:induction false} BreakdownPercentages(scope: seq<CostRow>)
    requires SumOf(scope, Price) != 0.0
    ensures SumOf(Breakdown(scope), SharePercentage) == 100.0
  {
    var b := Breakdown(scope);
    var total := SumOf(scope, Price);
    forall i | 0 <= i < |b|
      ensures SharePercentage(b[i]) == ShareTotal(b[i]) / total * 100.0
    {
      assert b[i] == TypeShareOf(scope, TypeGroups(scope)[i], total);
    }
    SumScaled(b, ShareTotal, SharePercentage, total);
    BreakdownTotals(scope);
    WholeIsHundredPercent(total);
  }

  lemma WholeIsHundredPercent(whole: real)
    requires whole != 0.0
    ensures whole / whole * 100.0 == 100.0
  {
  }

  /** Each type group holds the total of the line items of its type, of which there is one at least. */
  lemma {:induction false} TypeGroupTotal(scope: seq<CostRow>, i: nat)
    requires i < |TypeGroups(scope)|
    ensures var g := TypeGroups(scope)[i];
      g.1 == SumOf(WithKey(scope, TypeKey, g.0), Price) && |WithKey(scope, TypeKey, g.0)| > 0
  {
    RankedGroupOfKey(scope, TypeKey, Price, i);
  }

  /** No two breakdown entries come from the same product type. */
  lemma {:induction false} TypeGroupsDistinct(scope: seq<CostRow>, i: nat, j: nat)
    requires i < j < |TypeGroups(scope)|
    ensures TypeGroups(scope)[i].0 != TypeGroups(scope)[j].0
  {
    RankedKeysDistinct(scope, TypeKey, Price, i, j);
  }

  /** Every line item's product type has an entry. */
  lemma {:induction false} TypeGroupsCover(scope: seq<CostRow>, j: nat)
    requires j < |scope|
    ensures exists i :: 0 <= i < |TypeGroups(scope)| && TypeGroups(scope)[i].0 == scope[j].typeName
  {
    RankedCovers(scope, TypeKey, Price, j);
    var g := RankedGroups(scope, TypeKey, Price);
    var i :| 0 <= i < |g| && g[i].0 == TypeKey(scope[j]);
    assert TypeGroups(scope)[i].0 == scope[j].typeName;
  }

  /** Each type's products are listed largest first. */
  lemma {:induction false} BreakdownProductsSorted(scope: seq<CostRow>, i: int)
    requires 0 <= i < |Breakdown(scope)|
    ensures var ps := Breakdown(scope)[i].products;
      forall j :: 0 < j < |ps| ==> ps[j - 1].total >= ps[j].total
  {
    var k := ProductFilterKey(DisplayName(TypeGroups(scope)[i].0));
    assert SortedDesc(ProductGroups(scope, k), GroupTotal);
  }

  /**
   * For a type other than an empty or "Sin categoría" name, the product totals
   * add up to the type's total, and to 100 percent when that total is not zero.
   */
  lemma {:induction false} BreakdownProductTotals(scope: seq<CostRow>, i: int)
    requires 0 <= i < |Breakdown(scope)|
    requires var k := TypeGroups(scope)[i].0; k.None? || (k.value != "" && k.value != NoCategory)
    ensures var t := Breakdown(scope)[i];
      SumOf(t.products, ProductTotal) == t.total &&
      (t.total != 0.0 ==> SumOf(t.products, ProductPercentage) == 100.0)
  {
    var g := TypeGroups(scope)[i];
    FilterKeyOfDisplayName(g.0);
    assert Breakdown(scope)[i].products == ProductSharesOf(ProductGroups(scope, g.0), g.1);
    ProductSharesSums(ProductGroups(scope, g.0), g.1);
    SumRankedGroups(WithKey(scope, TypeKey, g.0), ProductName, Price);
    TypeGroupTotal(scope, i);
    if g.1 != 0.0 {
      WholeIsHundredPercent(g.1);
    }
  }

  lemma {:induction false} ProductSharesSums(groups: seq<(string, real)>, typeTotal: real)
    ensures SumOf(ProductSharesOf(groups, typeTotal), ProductTotal) == SumOf(groups, GroupTotal)
    ensures typeTotal != 0.0 ==>
      SumOf(ProductSharesOf(groups, typeTotal), ProductPercentage) == SumOf(groups, GroupTotal) / typeTotal * 100.0
  {
    var ps := ProductSharesOf(groups, typeTotal);
    SumPointwise(ps, ProductTotal, groups, GroupTotal);
    if typeTotal != 0.0 {
      SumScaled(ps, ProductTotal, ProductPercentage, typeTotal);
    }
  }

  // ---------------------------------------------------------------------------
  // field_costs_data
  // ---------------------------------------------------------------------------

  /** `fields.filter(id__in=field_ids)` when ids are given, every field otherwise. */
  function SelectFields(fields: seq<Field>, ids: seq<int>): (r: seq<Field>)
    ensures ids == [] ==> r == fields
    ensures ids != [] ==> forall i :: 0 <= i < |r| ==> r[i] in fields && r[i].id in ids
    ensures ids != [] ==> forall i :: 0 <= i < |fields| && fields[i].id in ids ==> fields[i] in r
  {
    if ids == [] then fields else Filter(fields, (f: Field) => f.id in ids)
  }

  function FieldIds(fields: seq<Field>): (r: seq<int>)
    ensures |r| == |fields| && forall i :: 0 <= i < |r| ==> r[i] == fields[i].id
  {
    seq(|fields|, i requires 0 <= i < |fields| => fields[i].id)
  }

  function Area(f: Field): real { f.area }

  datatype FieldCost = FieldCost(
    id: int,
    name: string,
    totalCost: real,
    costPerHa: real,
    breakdown: seq<TypeShare>,
    area: real)

  function FieldTotal(c: FieldCost): real { c.totalCost }

  datatype CostsReport = CostsReport(
    fields: seq<FieldCost>,
    totalArea: real,
    totalCost: real,
    costPerHa: real,
    breakdown: seq<TypeShare>)

  /**
   * One field's entry: `treatmentsCost` stands for `Field.get_treatments_cost`,
   * whose definition is not part of this model.
   */
  predicate FieldCostFor(c: FieldCost, f: Field, rows: seq<CostRow>, start: int, end: int,
                         treatmentsCost: (Field, int, int) -> real)
  {
    c.id == f.id && c.name == f.name && c.area == f.area &&
    c.totalCost == treatmentsCost(f, start, end) &&
    c.costPerHa == PerHa(c.totalCost, f.area) &&
    c.breakdown == Breakdown(InScope(rows, [f.id], start, end))
  }

  /** `cs` holds the entries of the first `|cs|` fields. */
  predicate CostsOfFields(cs: seq<FieldCost>, fields: seq<Field>, rows: seq<CostRow>, start: int, end: int,
                          treatmentsCost: (Field, int, int) -> real)
  {
    |cs| <= |fields| && forall j :: 0 <= j < |cs| ==> FieldCostFor(cs[j], fields[j], rows, start, end, treatmentsCost)
  }

  lemma {:induction false} CostsStep(cs: seq<FieldCost>, c: FieldCost, fields: seq<Field>, rows: seq<CostRow>,
                                     start: int, end: int, treatmentsCost: (Field, int, int) -> real)
    requires CostsOfFields(cs, fields, rows, start, end, treatmentsCost)
    requires |cs| < |fields| && FieldCostFor(c, fields[|cs|], rows, start, end, treatmentsCost)
    ensures CostsOfFields(cs + [c], fields, rows, start, end, treatmentsCost)
  {
  }

  /**
   * The cost report: one entry per selected field, the summed area and cost
   * with the guarded overall cost per hectare, and the breakdown over all the
   * selected fields together.
   */
  method FieldCostsData(allFields: seq<Field>, fieldIds: seq<int>, rows: seq<CostRow>,
                        today: int, dateFrom: Option<int>, dateTo: Option<int>,
                        treatmentsCost: (Field, int, int) -> real) returns (report: CostsReport)
    ensures var (start, end) := DateRange(today, dateFrom, dateTo);
      var fields := SelectFields(allFields, fieldIds);
      |report.fields| == |fields| && CostsOfFields(report.fields, fields, rows, start, end, treatmentsCost) &&
      report.totalArea == SumOf(fields, Area) &&
      report.totalCost == SumOf(report.fields, FieldTotal) &&
      report.costPerHa == PerHa(report.totalCost, report.totalArea) &&
      report.breakdown == Breakdown(InScope(rows, FieldIds(fields), start, end))
  {
    var range := DateRange(today, dateFrom, dateTo);
    var start, end := range.0, range.1;
    var fields := SelectFields(allFields, fieldIds);
    var fieldCosts: seq<FieldCost> := [];
    for i := 0 to |fields|
      invariant |fieldCosts| == i
      invariant CostsOfFields(fieldCosts, fields, rows, start, end, treatmentsCost)
    {
      var field := fields[i];
      var totalCost := treatmentsCost(field, start, end);
      var costPerHa := PerHa(totalCost, field.area);
      var fieldProducts := GetFieldProductBreakdown(rows, [field.id], start, end);
      var entry := FieldCost(field.id, field.name, totalCost, costPerHa, fieldProducts, field.area);
      CostsStep(fieldCosts, entry, fields, rows, start, end, treatmentsCost);
      fieldCosts := fieldCosts + [entry];
    }
    var totalArea := SumOf(fields, Area);
    var totalCost := SumOf(fieldCosts, FieldTotal);
    var general := GetFieldProductBreakdown(rows, FieldIds(fields), start, end);
    report := CostsReport(fieldCosts, totalArea, totalCost, PerHa(totalCost, totalArea), general);
  }

  /** The overall breakdown accounts for the full cost of the selected fields' line items. */
  lemma {:induction false} ReportBreakdownTotal(rows: seq<CostRow>, fields: seq<Field>, start: int, end: int)
    ensures SumOf(Breakdown(InScope(rows, FieldIds(fields), start, end)), ShareTotal) ==
            SumOf(InScope(rows, FieldIds(fields), start, end), Price)
  {
    BreakdownTotals(InScope(rows, FieldIds(fields), start, end));
  }
}
