// The field-costs dashboard in the browser: field cards ordered by cost per
// hectare with a colour for each, the per-type breakdown bars, the top-eight
// bar chart and the colour shading helper of the charts.

module FieldCosts {
  import opened Common

  /** A field as the dashboard reads it; `productTypes` is None when the record carries no breakdown. */
  datatype FieldCard = FieldCard(
    name: string, area: real, totalCost: real, costPerHa: real, productTypes: Option<seq<TypeTotal>>)

  /** One breakdown entry: the product type name (possibly missing or empty) and its total. */
  datatype TypeTotal = TypeTotal(typeName: Option<string>, total: real)

  function CostPerHaOf(f: FieldCard): real { f.costPerHa }

  function CostsOf(fields: seq<FieldCard>): (costs: seq<real>)
    ensures |costs| == |fields|
    ensures forall i :: 0 <= i < |fields| ==> costs[i] == fields[i].costPerHa
  {
    seq(|fields|, i requires 0 <= i < |fields| => fields[i].costPerHa)
  }

  // ---------------------------------------------------------------------------
  // Card colour
  // ---------------------------------------------------------------------------

  function MaxOf(s: seq<real>): (m: real)
    requires |s| > 0
    ensures m in s
    ensures forall i :: 0 <= i < |s| ==> s[i] <= m
  {
    if |s| == 1 then s[0]
    else
      var rest := MaxOf(s[1..]);
      if s[0] >= rest then s[0] else rest
  }

  function MinOf(s: seq<real>): (m: real)
    requires |s| > 0
    ensures m in s
    ensures forall i :: 0 <= i < |s| ==> m <= s[i]
  {
    if |s| == 1 then s[0]
    else
      var rest := MinOf(s[1..]);
      if s[0] <= rest then s[0] else rest
  }

  /** Where a cost lies between the cheapest and the dearest (0.5 when all are equal). */
  function Normalized(cost: real, costs: seq<real>): (n: real)
    requires |costs| > 0
    ensures MaxOf(costs) == MinOf(costs) ==> n == 0.5
    ensures MinOf(costs) <= cost <= MaxOf(costs) ==> 0.0 <= n <= 1.0
    ensures MaxOf(costs) != MinOf(costs) && cost == MaxOf(costs) ==> n == 1.0
    ensures MaxOf(costs) != MinOf(costs) && cost == MinOf(costs) ==> n == 0.0
  {
    var hi := MaxOf(costs);
    var lo := MinOf(costs);
    var range := hi - lo;
    if range == 0.0 then 0.5
    else
      UnitInterval(cost - lo, range);
      (cost - lo) / range
  }

  lemma UnitInterval(a: real, b: real)
    requires b != 0.0
    ensures 0.0 <= a <= b ==> 0.0 <= a / b <= 1.0
    ensures a == b ==> a / b == 1.0
  {
    if 0.0 <= a <= b {
      assert b > 0.0;
      assert a / b * b == a;
    }
  }

  function ColorForLevel(n: real): string
  {
    if n > 0.8 then "danger"
    else if n > 0.6 then "warning"
    else if n > 0.4 then "primary"
    else if n > 0.2 then "info"
    else "success"
  }

  /** The badge colour of a card: by the normalized cost among all fields, "primary" with at most one field. */
  function GetProgressColor(cost: real, fields: seq<FieldCard>): (c: string)
    ensures c in {"danger", "warning", "primary", "info", "success"}
    ensures |fields| <= 1 ==> c == "primary"
    ensures |fields| > 1 ==> c == ColorForLevel(Normalized(cost, CostsOf(fields)))
  {
    if |fields| <= 1 then "primary"
    else ColorForLevel(Normalized(cost, CostsOf(fields)))
  }

  /** Among differing costs the dearest field is "danger" and the cheapest "success"; equal costs are all "primary". */
  lemma ProgressColorExtremes(fields: seq<FieldCard>)
    requires |fields| > 1
    ensures var costs := CostsOf(fields);
      MaxOf(costs) != MinOf(costs) ==>
        GetProgressColor(MaxOf(costs), fields) == "danger" && GetProgressColor(MinOf(costs), fields) == "success"
    ensures var costs := CostsOf(fields);
      MaxOf(costs) == MinOf(costs) ==> forall i :: 0 <= i < |fields| ==> GetProgressColor(fields[i].costPerHa, fields) == "primary"
  {
  }

  // ---------------------------------------------------------------------------
  // Breakdown bars
  // ---------------------------------------------------------------------------

  const BarColors: seq<string> := ["primary", "success", "danger", "warning", "info", "secondary", "dark"]

  /** A bar: label, amount, percentage of the card's total (None when that total is 0) and colour. */
  datatype Bar = Bar(caption: string, total: real, percent: Option<real>, color: string)

  datatype BreakdownView = NoData | Bars(bars: seq<Bar>)

  function TotalOf(t: TypeTotal): real { t.total }

  /** `name || 'Sin categoría'`. */
  function TypeLabel(name: Option<string>): (l: string)
    ensures name.Some? && name.value != "" ==> l == name.value
    ensures name.None? || name.value == "" ==> l == "Sin categoría"
  {
    if name.Some? && name.value != "" then name.value else "Sin categoría"
  }

  /** `renderProductTypeBreakdown`: one bar per entry, colours cycling through seven. */
  /** The view of a breakdown: no data, or one bar per entry in the given order. */
  function BreakdownOf(productTypes: Option<seq<TypeTotal>>): BreakdownView
  {
    if productTypes.None? || |productTypes.value| == 0 then NoData
    else
      var types := productTypes.value;
      var total := SumOf(types, TotalOf);
      Bars(seq(|types|, i requires 0 <= i < |types| =>
        Bar(TypeLabel(types[i].typeName), types[i].total, Share(types[i].total, total), BarColors[i % 7])))
  }

  method RenderProductTypeBreakdown(productTypes: Option<seq<TypeTotal>>) returns (view: BreakdownView)
    ensures view == BreakdownOf(productTypes)
    ensures view.NoData? <==> productTypes.None? || |productTypes.value| == 0
    ensures view.Bars? ==> |view.bars| == |productTypes.value|
    ensures view.Bars? ==> forall i :: 0 <= i < |view.bars| ==>
      var t := productTypes.value[i];
      view.bars[i] == Bar(TypeLabel(t.typeName), t.total,
                          Share(t.total, SumOf(productTypes.value, TotalOf)), BarColors[i % 7])
  {
    if productTypes.None? || |productTypes.value| == 0 {
      return NoData;
    }
    var types := productTypes.value;
    var total := SumOf(types, TotalOf);
    var bars: seq<Bar> := [];
    var i := 0;
    while i < |types|
      invariant 0 <= i <= |types|
      invariant |bars| == i
      invariant forall j :: 0 <= j < i ==>
        bars[j] == Bar(TypeLabel(types[j].typeName), types[j].total, Share(types[j].total, total), BarColors[j % 7])
    {
      var t := types[i];
      bars := bars + [Bar(TypeLabel(t.typeName), t.total, Share(t.total, total), BarColors[i % |BarColors|])];
      i := i + 1;
    }
    view := Bars(bars);
    assert bars == BreakdownOf(productTypes).bars;
  }

  /** `part / total * 100`; None is the NaN or infinity of a zero total. */
  function Share(part: real, total: real): (p: Option<real>)
    ensures p.Some? <==> total != 0.0
    ensures total != 0.0 ==> p.value * total == part * 100.0
  {
    if total == 0.0 then None else Some(part / total * 100.0)
  }

  /** The percentages of the entries against `total`, added up. */
  function SharesSum(types: seq<TypeTotal>, total: real): real
    requires total != 0.0
  {
    if |types| == 0 then 0.0 else types[0].total / total * 100.0 + SharesSum(types[1..], total)
  }

  lemma {:induction false} SharesSumScaled(types: seq<TypeTotal>, total: real)
    requires total != 0.0
    ensures SharesSum(types, total) == SumOf(types, TotalOf) / total * 100.0
  {
    if |types| > 0 {
      SharesSumScaled(types[1..], total);
      assert SharesSum(types, total)
          == types[0].total / total * 100.0 + SumOf(types[1..], TotalOf) / total * 100.0;
    }
  }

  /** With a non-zero total, the bars' percentages add up to 100. */
  lemma BreakdownPercentsSumTo100(types: seq<TypeTotal>)
    requires SumOf(types, TotalOf) != 0.0
    ensures SharesSum(types, SumOf(types, TotalOf)) == 100.0
  {
    var d := SumOf(types, TotalOf);
    SharesSumScaled(types, d);
    assert d / d == 1.0;
  }

  // ---------------------------------------------------------------------------
  // Cards and the top-eight chart
  // ---------------------------------------------------------------------------

  /** A rendered card: the field, its badge colour and its breakdown. */
  datatype Card = Card(field: FieldCard, color: string, breakdown: BreakdownView)

  /**
   * `renderFieldCards`: sorts the fields in place, dearest per hectare first
   * (stable), and renders one card per field in that order.
   */
  method RenderFieldCards(fields: array<FieldCard>) returns (cards: seq<Card>)
    modifies fields
    ensures fields[..] == SortDesc(old(fields[..]), CostPerHaOf)
    ensures |cards| == fields.Length
    ensures forall i :: 0 <= i < |cards| ==>
      cards[i].field == fields[i] && cards[i].color == GetProgressColor(fields[i].costPerHa, fields[..])
    ensures forall i :: 0 <= i < |cards| ==> cards[i].breakdown == BreakdownOf(fields[i].productTypes)
  {
    var sorted := SortDesc(fields[..], CostPerHaOf);
    var k := 0;
    while k < fields.Length
      invariant 0 <= k <= fields.Length == |sorted|
      invariant forall j :: 0 <= j < k ==> fields[j] == sorted[j]
    {
      fields[k] := sorted[k];
      k := k + 1;
    }
    assert fields[..] == sorted;
    cards := RenderCards(sorted);
  }

  /** The card of field `f` among the rendered fields `shown`. */
  function CardOf(f: FieldCard, shown: seq<FieldCard>): Card
  {
    Card(f, GetProgressColor(f.costPerHa, shown), BreakdownOf(f.productTypes))
  }

  /** The `forEach` of `renderFieldCards`: one card per field, in order. */
  method RenderCards(shown: seq<FieldCard>) returns (cards: seq<Card>)
    ensures |cards| == |shown| && forall i :: 0 <= i < |cards| ==> cards[i] == CardOf(shown[i], shown)
  {
    cards := [];
    var i := 0;
    while i < |shown|
      invariant 0 <= i <= |shown| && |cards| == i
      invariant forall j :: 0 <= j < i ==> cards[j] == CardOf(shown[j], shown)
    {
      var view := RenderProductTypeBreakdown(shown[i].productTypes);
      cards := cards + [Card(shown[i], GetProgressColor(shown[i].costPerHa, shown), view)];
      i := i + 1;
    }
  }

  /** The chart data: labels, total costs and costs per hectare of the eight dearest fields. */
  datatype ChartRow = ChartRow(caption: string, totalCost: real, costPerHa: real)

  function TopFields(fields: seq<FieldCard>): (top: seq<FieldCard>)
    ensures |top| == if |fields| < 8 then |fields| else 8
    ensures SortedDesc(top, CostPerHaOf)
    ensures multiset(top) <= multiset(fields)
    ensures forall x, y :: x in multiset(fields) - multiset(top) && y in top ==> y.costPerHa >= x.costPerHa
  {
    var sorted := SortDesc(fields, CostPerHaOf);
    var k := if |fields| < 8 then |fields| else 8;
    SortedDescSplit(sorted, CostPerHaOf, k);
    assert multiset(sorted) == multiset(fields);
    sorted[..k]
  }

  function PrepareFieldCostChartData(fields: seq<FieldCard>): (rows: seq<ChartRow>)
    ensures |rows| == |TopFields(fields)|
    ensures forall i :: 0 <= i < |rows| ==>
      rows[i] == ChartRow(TopFields(fields)[i].name, TopFields(fields)[i].totalCost, TopFields(fields)[i].costPerHa)
  {
    var top := TopFields(fields);
    seq(|top|, i requires 0 <= i < |top| => ChartRow(top[i].name, top[i].totalCost, top[i].costPerHa))
  }

  // ---------------------------------------------------------------------------
  // Colour shading
  // ---------------------------------------------------------------------------

  /** `Math.min(Math.max(num, 0), 255)`. */
  function Clamp(n: int): (r: int)
    ensures 0 <= r <= 255
    ensures 0 <= n <= 255 ==> r == n
    ensures n < 0 ==> r == 0
    ensures n > 255 ==> r == 255
  {
    if n < 0 then 0 else if n > 255 then 255 else n
  }

  function HexDigitValue(c: char): (v: int)
    ensures -1 <= v < 16
  {
    if '0' <= c <= '9' then c as int - '0' as int
    else if 'a' <= c <= 'f' then c as int - 'a' as int + 10
    else if 'A' <= c <= 'F' then c as int - 'A' as int + 10
    else -1
  }

  predicate IsHexDigit(c: char) { HexDigitValue(c) >= 0 }

  /** Number of leading hexadecimal digits. */
  function HexRun(s: string): (k: nat)
    ensures k <= |s|
    ensures forall i :: 0 <= i < k ==> IsHexDigit(s[i])
    ensures k < |s| ==> !IsHexDigit(s[k])
  {
    if |s| > 0 && IsHexDigit(s[0]) then 1 + HexRun(s[1..]) else 0
  }

  function HexValue(s: string): (v: nat)
    requires forall i :: 0 <= i < |s| ==> IsHexDigit(s[i])
  {
    if |s| == 0 then 0
    else
      assert IsHexDigit(s[|s| - 1]);
      16 * HexValue(s[..|s| - 1]) + HexDigitValue(s[|s| - 1])
  }

  /** `parseInt(s, 16)` on its longest hexadecimal prefix; None is NaN. */
  function ParseHex(s: string): (r: Option<nat>)
    ensures r.None? <==> HexRun(s) == 0
  {
    var k := HexRun(s);
    if k == 0 then None else Some(HexValue(s[..k]))
  }

  function HexChar(d: int): (c: char)
    requires 0 <= d < 16
    ensures IsHexDigit(c) && HexDigitValue(c) == d
    ensures '0' <= c <= '9' || 'a' <= c <= 'f'
  {
    if d < 10 then ('0' as int + d) as char else ('a' as int + d - 10) as char
  }

  /** The `k` lowest hexadecimal digits of `v`, most significant first, in lower case. */
  function HexDigits(v: nat, k: nat): (s: string)
    ensures |s| == k
    ensures forall i :: 0 <= i < k ==> IsHexDigit(s[i]) && ('0' <= s[i] <= '9' || 'a' <= s[i] <= 'f')
  {
    if k == 0 then "" else HexDigits(v / 16, k - 1) + [HexChar(v % 16)]
  }

  function Pow16(k: nat): (p: nat)
    ensures p >= 1
  {
    if k == 0 then 1 else 16 * Pow16(k - 1)
  }

  /** Below 16^k, the k-digit rendering reads back as the number. */
  lemma {:induction false} HexDigitsValue(v: nat, k: nat)
    requires v < Pow16(k)
    ensures HexValue(HexDigits(v, k)) == v
  {
    if k > 0 {
      HexDigitsValue(v / 16, k - 1);
      var s := HexDigits(v, k);
      assert s[..|s| - 1] == HexDigits(v / 16, k - 1);
    }
  }

  /**
   * `((r << 16) | (g << 8) | b).toString(16).padStart(6, '0')` for channels in
   * 0..255: the value is below 2^24, so its hexadecimal text has at most six
   * digits and the padding gives exactly the six-digit form.
   */
  function RgbHex(r: int, g: int, b: int): (s: string)
    requires 0 <= r <= 255 && 0 <= g <= 255 && 0 <= b <= 255
    ensures |s| == 6
  {
    HexDigits(ColorNumber((r, g, b)), 6)
  }

  /** The three channels of a colour number, as `>>` and `& 255` extract them. */
  function Channels(num: nat): (int, int, int)
  {
    ((num / 65536) % 256, (num / 256) % 256, num % 256)
  }

  /** The colour number of three channels, `(r << 16) | (g << 8) | b` for channels in 0..255. */
  function ColorNumber(c: (int, int, int)): (n: nat)
    requires 0 <= c.0 <= 255 && 0 <= c.1 <= 255 && 0 <= c.2 <= 255
    ensures n < 16777216
  {
    c.0 * 65536 + c.1 * 256 + c.2
  }

  /** The channels of the text's colour number, each moved by `amt` and clamped. */
  function ShadedChannels(body: string, amt: int): (c: (int, int, int))
    ensures 0 <= c.0 <= 255 && 0 <= c.1 <= 255 && 0 <= c.2 <= 255
  {
    var parsed := ParseHex(body);
    var num := if parsed.Some? then parsed.value else 0;
    var (r, g, b) := Channels(num);
    (Clamp(r + amt), Clamp(g + amt), Clamp(b + amt))
  }

  /**
   * `lightenDarkenColor`: shifts every channel by `amt`, clamped to 0..255, and
   * keeps a leading '#'. A text without a hexadecimal prefix counts as 0.
   */
  function LightenDarkenColor(col: string, amt: int): (out: string)
    ensures |col| > 0 && col[0] == '#' ==> |out| == 7 && out[0] == '#'
    ensures !(|col| > 0 && col[0] == '#') ==> |out| == 6
  {
    var usePound := |col| > 0 && col[0] == '#';
    var body := if usePound then col[1..] else col;
    var c := ShadedChannels(body, amt);
    (if usePound then "#" else "") + RgbHex(c.0, c.1, c.2)
  }

  /** The six-digit text of three channels reads back as their colour number. */
  lemma {:induction false} RgbHexRoundTrip(r: int, g: int, b: int)
    requires 0 <= r <= 255 && 0 <= g <= 255 && 0 <= b <= 255
    ensures ParseHex(RgbHex(r, g, b)) == Some(ColorNumber((r, g, b)))
  {
    var s := RgbHex(r, g, b);
    assert Pow16(6) == 16777216;
    HexDigitsValue(ColorNumber((r, g, b)), 6);
    HexRunAll(s);
    assert s[..6] == s;
  }

  lemma {:induction false} ChannelsOfRgb(r: int, g: int, b: int)
    requires 0 <= r <= 255 && 0 <= g <= 255 && 0 <= b <= 255
    ensures Channels(ColorNumber((r, g, b))) == (r, g, b)
  {
    var v := ColorNumber((r, g, b));
    assert v == r * 65536 + g * 256 + b;
    assert v / 256 == r * 256 + g && v % 256 == b;
    assert v / 65536 == r;
    assert (r * 256 + g) % 256 == g;
  }

  /** Reading the shaded colour back gives each channel of the original moved by `amt` and clamped. */
  lemma {:induction false} LightenDarkenChannels(col: string, amt: int)
    requires |col| > 0 && col[0] == '#'
    ensures ParseHex(LightenDarkenColor(col, amt)[1..]) == Some(ColorNumber(ShadedChannels(col[1..], amt)))
    ensures Channels(ColorNumber(ShadedChannels(col[1..], amt))) == ShadedChannels(col[1..], amt)
  {
    var c := ShadedChannels(col[1..], amt);
    var out := LightenDarkenColor(col, amt);
    assert out[1..] == RgbHex(c.0, c.1, c.2);
    RgbHexRoundTrip(c.0, c.1, c.2);
    ChannelsOfRgb(c.0, c.1, c.2);
  }

  lemma {:induction false} HexRunAll(s: string)
    requires forall i :: 0 <= i < |s| ==> IsHexDigit(s[i])
    ensures HexRun(s) == |s|
  {
    if |s| > 0 {
      HexRunAll(s[1..]);
    }
  }

  /** The hover colours of the doughnut chart: the palette darkened by 20. */
  const ChartPalette: seq<string> := [
    "#4e73df", "#1cc88a", "#36b9cc", "#f6c23e", "#e74a3b", "#858796",
    "#5a5c69", "#6610f2", "#fd7e14", "#20c997", "#e83e8c", "#17a2b8"]

  /** Every palette entry is a '#' followed by six characters. */
  lemma {:induction false} PaletteHasPound(i: int)
    requires 0 <= i < |ChartPalette|
    ensures |ChartPalette[i]| == 7 && ChartPalette[i][0] == '#'
  {
  }

  datatype TypeChart = TypeChart(labels: seq<string>, values: seq<real>, background: seq<string>, hover: seq<string>)

  /** `prepareProductTypeChartData`: one label and value per type, palette colours for the first twelve. */
  function PrepareProductTypeChartData(types: seq<TypeTotal>): (c: TypeChart)
    ensures |c.labels| == |c.values| == |types|
    ensures |c.background| == |c.hover| == (if |types| < 12 then |types| else 12)
    ensures c.background == ChartPalette[..|c.background|]
    ensures forall i :: 0 <= i < |types| ==> c.labels[i] == TypeLabel(types[i].typeName) && c.values[i] == types[i].total
    ensures forall i :: 0 <= i < |c.hover| ==> c.hover[i] == LightenDarkenColor(ChartPalette[i], -20)
  {
    var n := if |types| < 12 then |types| else 12;
    var background := ChartPalette[..n];
    TypeChart(
      seq(|types|, i requires 0 <= i < |types| => TypeLabel(types[i].typeName)),
      seq(|types|, i requires 0 <= i < |types| => types[i].total),
      background,
      seq(n, i requires 0 <= i < n => LightenDarkenColor(background[i], -20)))
  }

  /** The hover colours keep the palette's '#' form. */
  lemma {:induction false} HoverColorsArePound(types: seq<TypeTotal>, i: int)
    requires 0 <= i < |PrepareProductTypeChartData(types).hover|
    ensures |PrepareProductTypeChartData(types).hover[i]| == 7
    ensures PrepareProductTypeChartData(types).hover[i][0] == '#'
  {
    PaletteHasPound(i);
  }
}
