// The naming and layout rules of the CRUD generator: which model fields it
// emits and how, the readable names it gives fields and models, when a list
// page gets a filter column, which fields a list card shows, how a form lays
// out its controls, and the four routes it writes. The rules work on fields
// already extracted from the models text; reading files and the regular
// expressions themselves are not modelled, and generated markup is modelled
// as the data each fragment carries rather than as text.

module CrudGenerator {
  import opened Common

  // ---------------------------------------------------------------------------
  // Fields
  // ---------------------------------------------------------------------------

  /** The field kinds the generator recognises, in the order its patterns are tried. */
  datatype FieldType =
    CharField | TextField | IntegerField | FloatField | DecimalField |
    DateField | DateTimeField | BooleanField | ForeignKey

  /**
   * One match of a field pattern in the model's class body, with what the
   * lookups on the field's definition text found: the number after
   * `max_length=`, the choices list read through `choices=NAME`, the
   * `help_text` string. `relatedModel` is the quoted model of a ForeignKey
   * pattern.
   */
  datatype RawMatch = RawMatch(
    name: string,
    fieldType: FieldType,
    relatedModel: string,
    definition: string,
    maxLength: Option<int>,
    choices: Option<seq<(string, string)>>,
    helpText: Option<string>)

  /** FieldInfo. */
  datatype FieldInfo = FieldInfo(
    name: string,
    fieldType: FieldType,
    verboseName: string,
    choices: Option<seq<(string, string)>>,
    relatedModel: Option<string>,
    isRequired: bool,
    maxLength: Option<int>,
    helpText: string)

  /** Columns every model inherits; the generator never emits them. */
  const InheritedFields: seq<string> := ["organization", "created_at", "updated_at", "id"]

  predicate Emitted(m: RawMatch)
  {
    m.name !in InheritedFields
  }

  /** The FieldInfo built for one emitted match. */
  function BuildField(m: RawMatch): (f: FieldInfo)
    ensures f.name == m.name && f.fieldType == m.fieldType
    ensures f.verboseName == GenerateVerboseName(m.name)
    ensures f.isRequired <==> !Contains(m.definition, "null=True") && !Contains(m.definition, "blank=True")
    ensures f.maxLength.Some? ==> f.fieldType == CharField
    ensures f.relatedModel.Some? <==> f.fieldType == ForeignKey
  {
    FieldInfo(
      m.name, m.fieldType, GenerateVerboseName(m.name), m.choices,
      if m.fieldType == ForeignKey then Some(m.relatedModel) else None,
      !(Contains(m.definition, "null=True") || Contains(m.definition, "blank=True")),
      if m.fieldType == CharField then m.maxLength else None,
      if m.helpText.Some? then m.helpText.value else "")
  }

  /** The fields the extraction returns for a class body's matches, in match order. */
  function FieldsOf(ms: seq<RawMatch>): (fs: seq<FieldInfo>)
    ensures |fs| <= |ms|
    ensures forall i :: 0 <= i < |fs| ==> fs[i].name !in InheritedFields
    decreases |ms|
  {
    if ms == [] then []
    else
      var m := ms[|ms| - 1];
      FieldsOf(ms[..|ms| - 1]) + (if Emitted(m) then [BuildField(m)] else [])
  }

  /** Exactly the non-inherited matches become fields. */
  lemma {:induction false} FieldsOfMembers(ms: seq<RawMatch>, f: FieldInfo)
    ensures f in FieldsOf(ms) <==> exists m :: m in ms && Emitted(m) && f == BuildField(m)
    decreases |ms|
  {
    if ms != [] {
      var front, m := ms[..|ms| - 1], ms[|ms| - 1];
      FieldsOfMembers(front, f);
      assert ms == front + [m];
      if f in FieldsOf(ms) && f !in FieldsOf(front) {
        assert Emitted(m) && f == BuildField(m);
      }
      if exists m' :: m' in ms && Emitted(m') && f == BuildField(m') {
        var m' :| m' in ms && Emitted(m') && f == BuildField(m');
        if m' in front {
          assert f in FieldsOf(front);
        } else {
          assert m' == m;
        }
      }
    }
  }

  /** A definition that says `null=True` (or `blank=True`) anywhere makes the field optional. */
  lemma {:induction false} OptionalWhenNullable(m: RawMatch, flag: string, i: nat)
    requires flag == "null=True" || flag == "blank=True"
    requires i + |flag| <= |m.definition| && m.definition[i..i + |flag|] == flag
    ensures !BuildField(m).isRequired
  {
    ContainsAt(m.definition, flag, i);
  }

  /**
   * _extract_model_fields over the class body found for the model: None is
   * the ValueError for a model whose class is not in the file.
   */
  method ExtractModelFields(body: Option<seq<RawMatch>>) returns (fields: Option<seq<FieldInfo>>)
    ensures fields.None? <==> body.None?
    ensures body.Some? ==> fields == Some(FieldsOf(body.value))
  {
    if body.None? {
      return None;
    }
    var ms := body.value;
    var fs: seq<FieldInfo> := [];
    var i := 0;
    while i < |ms|
      invariant 0 <= i <= |ms|
      invariant fs == FieldsOf(ms[..i])
    {
      assert ms[..i + 1][..i] == ms[..i];
      var m := ms[i];
      if m.name in ["organization", "created_at", "updated_at", "id"] {
        i := i + 1;
        continue;
      }
      fs := fs + [BuildField(m)];
      i := i + 1;
    }
    assert ms[..i] == ms;
    fields := Some(fs);
  }

  // ---------------------------------------------------------------------------
  // Readable names
  // ---------------------------------------------------------------------------

  predicate IsAsciiLetter(c: char)
  {
    'a' <= c <= 'z' || 'A' <= c <= 'Z'
  }

  function UpperChar(c: char): char
  {
    if 'a' <= c <= 'z' then (c as int - 32) as char else c
  }

  /** `title()` on one character, given whether the previous character was a letter. */
  function TitleChar(c: char, afterLetter: bool): char
  {
    if !IsAsciiLetter(c) then c else if afterLetter then LowerChar(c) else UpperChar(c)
  }

  function TitleFrom(s: string, afterLetter: bool): (r: string)
    ensures |r| == |s|
  {
    if s == [] then [] else [TitleChar(s[0], afterLetter)] + TitleFrom(s[1..], IsAsciiLetter(s[0]))
  }

  /** ASCII `str.title()`: each letter upper case when it starts a run of letters, lower case otherwise. */
  function Title(s: string): (r: string)
    ensures |r| == |s|
  {
    TitleFrom(s, false)
  }

  lemma {:induction false} TitleFromAt(s: string, afterLetter: bool, i: nat)
    requires i < |s|
    ensures TitleFrom(s, afterLetter)[i] == TitleChar(s[i], if i == 0 then afterLetter else IsAsciiLetter(s[i - 1]))
    decreases i
  {
    if i > 0 {
      TitleFromAt(s[1..], IsAsciiLetter(s[0]), i - 1);
    }
  }

  /** Each character of `title()` depends only on itself and its predecessor. */
  lemma {:induction false} TitleAt(s: string, i: nat)
    requires i < |s|
    ensures Title(s)[i] == TitleChar(s[i], i > 0 && IsAsciiLetter(s[i - 1]))
  {
    TitleFromAt(s, false, i);
  }

  /** The readable names the generator knows for common field names. */
  const VerboseMap: map<string, string> := map[
    "name" := "Nombre",
    "type" := "Tipo",
    "area" := "\U{221A}\U{C5}rea (ha)",
    "crop" := "Cultivo",
    "planting_year" := "A\U{221A}\U{B1}o de plantaci\U{221A}\U{2265}n",
    "location" := "Ubicaci\U{221A}\U{2265}n",
    "capacity" := "Capacidad (L)",
    "description" := "Descripci\U{221A}\U{2265}n",
    "price" := "Precio",
    "comments" := "Comentarios",
    "product_type" := "Tipo de producto",
    "spraying_dose" := "Dosis pulverizaci\U{221A}\U{2265}n",
    "fertigation_dose" := "Dosis fertirrigaci\U{221A}\U{2265}n",
    "spraying_dose_type" := "Tipo dosis pulverizaci\U{221A}\U{2265}n",
    "fertigation_dose_type" := "Tipo dosis fertirrigaci\U{221A}\U{2265}n"]

  /** _generate_verbose_name: the known name, or the field name with spaces for underscores, in title case. */
  function GenerateVerboseName(fieldName: string): (v: string)
    ensures fieldName in VerboseMap ==> v == VerboseMap[fieldName]
    ensures fieldName !in VerboseMap ==> |v| == |fieldName|
  {
    if fieldName in VerboseMap then VerboseMap[fieldName] else Title(ReplaceChar(fieldName, '_', ' '))
  }

  /**
   * An unknown field name is read character by character: an underscore
   * becomes a space, a letter is upper case exactly when the character
   * before it is not a letter (so every word starts with a capital).
   */
  lemma {:induction false} VerboseNameAt(fieldName: string, i: nat)
    requires fieldName !in VerboseMap && i < |fieldName|
    ensures GenerateVerboseName(fieldName)[i] ==
      if fieldName[i] == '_' then ' ' else TitleChar(fieldName[i], i > 0 && IsAsciiLetter(fieldName[i - 1]))
  {
    var spaced := ReplaceChar(fieldName, '_', ' ');
    TitleAt(spaced, i);
    if i > 0 {
      assert IsAsciiLetter(spaced[i - 1]) == IsAsciiLetter(fieldName[i - 1]);
    }
  }

  /** A known name is looked up. */
  lemma {:induction false} KnownVerboseName()
    ensures GenerateVerboseName("planting_year") == "A\U{221A}\U{B1}o de plantaci\U{221A}\U{2265}n"
  {
  }

  /** The readable names of the four models the generator knows. */
  const ModelVerboseNames: map<string, string> := map[
    "Field" := "Parcela",
    "Machine" := "M\U{221A}\U{B0}quina",
    "Product" := "Producto",
    "ProductType" := "Tipo de Producto"]

  /** _get_model_verbose_name: the known name, or the class name itself. */
  function ModelVerboseName(modelName: string): (v: string)
    ensures modelName in ModelVerboseNames ==> v == ModelVerboseNames[modelName]
    ensures modelName !in ModelVerboseNames ==> v == modelName
  {
    if modelName in ModelVerboseNames then ModelVerboseNames[modelName] else modelName
  }

  /** A model the generator does not know, such as Expense, keeps its class name in its pages. */
  lemma {:induction false} UnknownModelKeepsName()
    ensures ModelVerboseName("Expense") == "Expense"
    ensures ModelVerboseName("Product") == "Producto"
  {
    assert "Expense" !in ModelVerboseNames;
  }

  // ---------------------------------------------------------------------------
  // List page
  // ---------------------------------------------------------------------------

  /** `any(f.field_type == 'ForeignKey' for f in fields)`. */
  function AnyForeignKey(fields: seq<FieldInfo>): (r: bool)
    ensures r <==> exists i :: 0 <= i < |fields| && fields[i].fieldType == ForeignKey
  {
    if fields == [] then false
    else if fields[0].fieldType == ForeignKey then true
    else
      var rest := AnyForeignKey(fields[1..]);
      assert forall i :: 1 <= i < |fields| ==> fields[i] == fields[1..][i - 1];
      rest
  }

  /** _needs_filters: the product model in any case, more than four fields, or any relation. */
  function NeedsFilters(modelName: string, fields: seq<FieldInfo>): (r: bool)
    ensures r <==> Lower(modelName) == "product" || |fields| > 4 ||
                   exists i :: 0 <= i < |fields| && fields[i].fieldType == ForeignKey
  {
    if Lower(modelName) == "product" then true
    else if |fields| > 4 || AnyForeignKey(fields) then true
    else false
  }

  /** Adding fields to a model never takes its filters away. */
  lemma {:induction false} NeedsFiltersMonotone(modelName: string, fields: seq<FieldInfo>, more: seq<FieldInfo>)
    requires NeedsFilters(modelName, fields)
    ensures NeedsFilters(modelName, fields + more)
  {
    if exists i :: 0 <= i < |fields| && fields[i].fieldType == ForeignKey {
      var i :| 0 <= i < |fields| && fields[i].fieldType == ForeignKey;
      assert (fields + more)[i] == fields[i];
    }
  }

  /** The width of the results column: narrowed beside the filters. */
  function ContentColumn(needsFilters: bool): (c: string)
    ensures c == "col-lg-9" <==> needsFilters
    ensures !needsFilters ==> c == "col-12"
  {
    if needsFilters then "col-lg-9" else "col-12"
  }

  /** Fields a list card may show: not the name (the card's title) nor the long texts. */
  predicate ShownOnCard(f: FieldInfo)
  {
    f.name !in ["name", "description", "comments"]
  }

  function ShownOnCardOf(): FieldInfo -> bool
  {
    f => ShownOnCard(f)
  }

  /** `main_fields`: the first three fields a card may show, in field order. */
  function MainFields(fields: seq<FieldInfo>): (r: seq<FieldInfo>)
    ensures |r| == if CountIf(fields, ShownOnCardOf()) < 3 then CountIf(fields, ShownOnCardOf()) else 3
    ensures forall i :: 0 <= i < |r| ==> ShownOnCard(r[i]) && r[i] in fields
  {
    var shown := Filter(fields, ShownOnCardOf());
    FilterMembers(fields, ShownOnCardOf());
    if |shown| <= 3 then shown else shown[..3]
  }

  /** A field that may not be shown is passed over. */
  lemma {:induction false} MainFieldsSkipHidden(f: FieldInfo, rest: seq<FieldInfo>)
    requires !ShownOnCard(f)
    ensures MainFields([f] + rest) == MainFields(rest)
  {
    FilterAppend([f], rest, ShownOnCardOf());
    assert [f][1..] == [];
    assert Filter([f], ShownOnCardOf()) == [];
    assert Filter([f] + rest, ShownOnCardOf()) == Filter(rest, ShownOnCardOf());
  }

  /** A first field that may be shown comes first on the card. */
  lemma {:induction false} MainFieldsTakeShown(f: FieldInfo, rest: seq<FieldInfo>)
    requires ShownOnCard(f)
    ensures MainFields([f] + rest) == [f] + (if |MainFields(rest)| == 3 then MainFields(rest)[..2] else MainFields(rest))
  {
    FilterAppend([f], rest, ShownOnCardOf());
  }

  /** Once three fields qualify, later fields never change the card. */
  lemma {:induction false} MainFieldsIgnoreLater(fields: seq<FieldInfo>, more: seq<FieldInfo>)
    requires CountIf(fields, ShownOnCardOf()) >= 3
    ensures MainFields(fields + more) == MainFields(fields)
  {
    FilterAppend(fields, more, ShownOnCardOf());
    var a := Filter(fields, ShownOnCardOf());
    var b := Filter(more, ShownOnCardOf());
    assert (a + b)[..3] == a[..3];
  }

  /** One line of a list card: the field's label and the template expression that shows its value. */
  datatype CardLine = CardLine(caption: string, expression: string)

  /** A field with a non-empty choices list (and not a relation) shows its display value. */
  predicate ShowsDisplay(f: FieldInfo)
  {
    f.fieldType != ForeignKey && f.choices.Some? && |f.choices.value| > 0
  }

  function CardLineOf(modelLower: string, f: FieldInfo): (c: CardLine)
    ensures c.caption == f.verboseName
    ensures ShowsDisplay(f) ==> c.expression == modelLower + ".get_" + f.name + "_display"
    ensures !ShowsDisplay(f) ==> c.expression == modelLower + "." + f.name
  {
    if f.fieldType == ForeignKey then CardLine(f.verboseName, modelLower + "." + f.name)
    else if f.choices.Some? && |f.choices.value| > 0 then
      CardLine(f.verboseName, modelLower + ".get_" + f.name + "_display")
    else CardLine(f.verboseName, modelLower + "." + f.name)
  }

  /** The card loop of generate_list_template: one line per main field, in order. */
  method CardLines(modelName: string, fields: seq<FieldInfo>) returns (lines: seq<CardLine>)
    ensures |lines| == |MainFields(fields)| <= 3
    ensures forall i :: 0 <= i < |lines| ==> lines[i] == CardLineOf(Lower(modelName), MainFields(fields)[i])
  {
    var modelLower := Lower(modelName);
    var main := MainFields(fields);
    lines := [];
    for i := 0 to |main|
      invariant |lines| == i
      invariant forall j :: 0 <= j < i ==> lines[j] == CardLineOf(modelLower, main[j])
    {
      lines := lines + [CardLineOf(modelLower, main[i])];
    }
  }

  // ---------------------------------------------------------------------------
  // Form page
  // ---------------------------------------------------------------------------

  /** The input a field gets on the form. */
  datatype Widget =
    | TextArea
    | RelatedSelect
    | ChoiceSelect
    | DateInput(inputType: string)
    | Checkbox
    | TextInput(inputType: string, decimalStep: bool, maxLength: Option<int>)

  /** One form control: its column class, label, label suffix, widget and help note. */
  datatype FormControl = FormControl(
    column: string,
    caption: string,
    suffix: string,
    widget: Widget,
    helpNote: Option<string>)

  /** A form with more than four fields puts every non-text field in a half-width column. */
  function ColumnClass(fieldCount: nat, f: FieldInfo): (c: string)
    ensures c == "col-md-6" <==> fieldCount > 4 && f.fieldType != TextField
    ensures c != "col-md-6" ==> c == "col-12"
  {
    if fieldCount > 4 && f.fieldType != TextField then "col-md-6" else "col-12"
  }

  function LabelSuffix(f: FieldInfo): (s: string)
    ensures s == "" <==> f.isRequired
    ensures !f.isRequired ==> s == " (opcional)"
  {
    if f.isRequired then "" else " (opcional)"
  }

  function WidgetOf(f: FieldInfo): (w: Widget)
    ensures w == TextArea <==> f.fieldType == TextField
    ensures w == RelatedSelect <==> f.fieldType == ForeignKey
    ensures w.DateInput? <==> f.fieldType in {DateField, DateTimeField} && !(f.choices.Some? && |f.choices.value| > 0)
    ensures w.TextInput? ==> (w.inputType == "number" <==> f.fieldType in {IntegerField, FloatField, DecimalField})
  {
    if f.fieldType == TextField then TextArea
    else if f.fieldType == ForeignKey then RelatedSelect
    else if f.choices.Some? && |f.choices.value| > 0 then ChoiceSelect
    else if f.fieldType == DateField then DateInput("date")
    else if f.fieldType == DateTimeField then DateInput("datetime-local")
    else if f.fieldType == BooleanField then Checkbox
    else TextInput(
      if f.fieldType in {IntegerField, FloatField, DecimalField} then "number" else "text",
      f.fieldType in {FloatField, DecimalField},
      if f.maxLength.Some? && f.maxLength.value != 0 then f.maxLength else None)
  }

  function FormControlOf(fieldCount: nat, f: FieldInfo): (c: FormControl)
    ensures c.column == ColumnClass(fieldCount, f) && c.caption == f.verboseName
    ensures c.suffix == LabelSuffix(f) && c.widget == WidgetOf(f)
    ensures c.helpNote.Some? <==> f.helpText != ""
  {
    FormControl(ColumnClass(fieldCount, f), f.verboseName, LabelSuffix(f), WidgetOf(f),
                if f.helpText != "" then Some(f.helpText) else None)
  }

  /** The field loop of generate_form_template: one control per field, in order. */
  method FormControls(fields: seq<FieldInfo>) returns (controls: seq<FormControl>)
    ensures |controls| == |fields|
    ensures forall i :: 0 <= i < |fields| ==> controls[i] == FormControlOf(|fields|, fields[i])
  {
    controls := [];
    for i := 0 to |fields|
      invariant |controls| == i
      invariant forall j :: 0 <= j < i ==> controls[j] == FormControlOf(|fields|, fields[j])
    {
      controls := controls + [FormControlOf(|fields|, fields[i])];
    }
  }

  /** A form of at most four fields is a single column; an optional field is marked as such. */
  lemma {:induction false} SmallFormFullWidth(fields: seq<FieldInfo>, i: nat)
    requires |fields| <= 4 && i < |fields|
    ensures FormControlOf(|fields|, fields[i]).column == "col-12"
    ensures !fields[i].isRequired ==> FormControlOf(|fields|, fields[i]).suffix == " (opcional)"
  {
  }

  // ---------------------------------------------------------------------------
  // Routes
  // ---------------------------------------------------------------------------

  datatype Route = Route(path: string, view: string, name: string)

  /** The four operations, with the suffix of their route names. */
  const RouteSuffixes: seq<string> := ["-list", "-create", "-edit", "-delete"]

  /** generate_urls: list, create, edit and delete, under `admin/<model>/`. */
  function GenerateUrls(modelName: string): (routes: seq<Route>)
    ensures |routes| == 4
    ensures forall k :: 0 <= k < 4 ==> routes[k].name == Lower(modelName) + RouteSuffixes[k]
  {
    var m := Lower(modelName);
    [ Route("admin/" + m + "/", modelName + "ListView", m + "-list"),
      Route("admin/" + m + "/create/", modelName + "CreateView", m + "-create"),
      Route("admin/" + m + "/<int:pk>/edit/", modelName + "UpdateView", m + "-edit"),
      Route("admin/" + m + "/<int:pk>/delete/", modelName + "DeleteView", m + "-delete") ]
  }

  /** The last four characters of a string that ends with `suffix`. */
  lemma {:induction false} LastFour(a: string, suffix: string)
    requires |suffix| >= 4
    ensures (a + suffix)[|a + suffix| - 4..] == suffix[|suffix| - 4..]
  {
  }

  /**
   * Route names never clash: within one model the four differ, and two
   * models whose lower-case names differ share none.
   */
  lemma {:induction false} RouteNamesDistinct(m1: string, m2: string, k1: nat, k2: nat)
    requires k1 < 4 && k2 < 4
    requires k1 != k2 || Lower(m1) != Lower(m2)
    ensures GenerateUrls(m1)[k1].name != GenerateUrls(m2)[k2].name
  {
    var l1, l2 := Lower(m1), Lower(m2);
    var s1, s2 := RouteSuffixes[k1], RouteSuffixes[k2];
    var n1, n2 := l1 + s1, l2 + s2;
    if k1 != k2 {
      LastFour(l1, s1);
      LastFour(l2, s2);
      assert s1[|s1| - 4..] != s2[|s2| - 4..];
      assert n1[|n1| - 4..] != n2[|n2| - 4..];
    } else if |l1| == |l2| {
      var i :| 0 <= i < |l1| && l1[i] != l2[i];
      assert n1[i] == l1[i] && n2[i] == l2[i];
    } else {
      assert |n1| != |n2|;
    }
  }
}
