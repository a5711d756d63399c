// The treatment views of the back office: the shopping list that adds up
// the product lines of pending and delayed treatments per (product, unit),
// the filtered treatment list, the cost roll-up of the detail page and the
// guard of the "finish treatment" endpoint.

module TreatmentViews {
  import opened Common
  import ApiViews

  // ---------------------------------------------------------------------------
  // Shopping list (ShoppingListView)
  // ---------------------------------------------------------------------------

  /** One product line of a treatment, with what the query joins to it. */
  datatype LineItem = LineItem(
    productId: int,
    productName: string,
    productType: Option<string>,   // name of the product's type; None when the product has none
    unit: string,                  // total_dose_unit
    totalDose: real,
    totalPrice: real,
    treatmentStatus: string,
    fieldId: int,
    fieldName: string)

  function ItemKey(x: LineItem): (int, string) { (x.productId, x.unit) }
  function ItemDose(x: LineItem): real { x.totalDose }
  function ItemPrice(x: LineItem): real { x.totalPrice }
  function ItemFieldName(x: LineItem): string { x.fieldName }

  predicate Outstanding(x: LineItem)
  {
    x.treatmentStatus == "pending" || x.treatmentStatus == "delayed"
  }

  predicate InShoppingScope(x: LineItem, selectedFields: seq<int>)
  {
    Outstanding(x) && (selectedFields == [] || x.fieldId in selectedFields)
  }

  /** The lines of pending or delayed treatments, restricted to the selected fields when any are selected. */
  function ShoppingScope(items: seq<LineItem>, selectedFields: seq<int>): (r: seq<LineItem>)
    ensures forall x :: x in r <==>
      x in items && Outstanding(x) && (selectedFields == [] || x.fieldId in selectedFields)
  {
    Filter(items, (x: LineItem) => InShoppingScope(x, selectedFields))
  }

  /** The lines of one (product, unit) group, in query order. */
  function ItemsOf(s: seq<LineItem>, k: (int, string)): seq<LineItem>
  {
    WithKey(s, ItemKey, k)
  }

  /** The group exists and its first line's product has a type (else `product_type.name` fails). */
  predicate KnownType(s: seq<LineItem>, k: (int, string))
  {
    |ItemsOf(s, k)| > 0 && ItemsOf(s, k)[0].productType.Some?
  }

  /** Every (product, unit) group's first line has a product type. */
  ghost predicate TypesKnown(s: seq<LineItem>)
  {
    forall k :: |ItemsOf(s, k)| > 0 ==> ItemsOf(s, k)[0].productType.Some?
  }

  /** The running entry of one group: the dict value before formatting. */
  datatype Totals = Totals(
    productName: string,
    productType: string,
    unit: string,
    totalDose: real,
    totalPrice: real,
    treatmentCount: nat,
    fields: seq<string>)   // the set of field names, in insertion order

  /** What a group's entry holds once every line of the group has been added. */
  function TotalsOf(s: seq<LineItem>, k: (int, string)): Totals
    requires KnownType(s, k)
  {
    var items := ItemsOf(s, k);
    Totals(items[0].productName, items[0].productType.value, items[0].unit,
           SumOf(items, ItemDose), SumOf(items, ItemPrice), |items|,
           DistinctKeys(items, ItemFieldName))
  }

  /** The entry created for a new key, before the first line is added to it. */
  function Fresh(x: LineItem): Totals
    requires x.productType.Some?
  {
    Totals(x.productName, x.productType.value, x.unit, 0.0, 0.0, 0, [])
  }

  /** Adding one line to an entry: `+=` on the sums and the count, `add` on the field set. */
  function Add(t: Totals, x: LineItem): Totals
  {
    Totals(t.productName, t.productType, t.unit,
           t.totalDose + x.totalDose,
           t.totalPrice + x.totalPrice,
           t.treatmentCount + 1,
           if x.fieldName in t.fields then t.fields else t.fields + [x.fieldName])
  }

  lemma {:induction false} ItemsSnoc(front: seq<LineItem>, x: LineItem, k: (int, string))
    ensures ItemsOf(front + [x], k) == ItemsOf(front, k) + (if ItemKey(x) == k then [x] else [])
  {
    WithKeyAppend(front, [x], ItemKey, k);
    WithKeyHead(x, [], ItemKey, k);
    assert [x] + [] == [x];
  }

  lemma {:induction false} DistinctKeysSnoc<T, K>(front: seq<T>, x: T, key: T -> K)
    ensures DistinctKeys(front + [x], key) ==
      (if key(x) in DistinctKeys(front, key) then DistinctKeys(front, key) else DistinctKeys(front, key) + [key(x)])
  {
    assert (front + [x])[..|front|] == front;
  }

  /** The sums and the field set of a group after one more of its lines. */
  lemma {:induction false} GroupSnoc(items: seq<LineItem>, x: LineItem)
    ensures SumOf(items + [x], ItemDose) == SumOf(items, ItemDose) + x.totalDose
    ensures SumOf(items + [x], ItemPrice) == SumOf(items, ItemPrice) + x.totalPrice
    ensures var fields := DistinctKeys(items, ItemFieldName);
            DistinctKeys(items + [x], ItemFieldName) ==
              (if x.fieldName in fields then fields else fields + [x.fieldName])
  {
    SumAppend(items, [x], ItemDose);
    assert SumOf([x], ItemDose) == x.totalDose + SumOf([], ItemDose);
    SumAppend(items, [x], ItemPrice);
    assert SumOf([x], ItemPrice) == x.totalPrice + SumOf([], ItemPrice);
    DistinctKeysSnoc(items, x, ItemFieldName);
  }

  /** The first line of a group creates its entry. */
  lemma {:induction false} TotalsFirst(front: seq<LineItem>, x: LineItem)
    requires |ItemsOf(front, ItemKey(x))| == 0 && x.productType.Some?
    ensures KnownType(front + [x], ItemKey(x))
    ensures TotalsOf(front + [x], ItemKey(x)) == Add(Fresh(x), x)
  {
    var k := ItemKey(x);
    assert ItemsOf(front + [x], k) == [x] by {
      ItemsSnoc(front, x, k);
      assert ItemsOf(front, k) + [x] == [x];
    }
    assert SumOf([x], ItemDose) == x.totalDose + SumOf([], ItemDose);
    assert SumOf([x], ItemPrice) == x.totalPrice + SumOf([], ItemPrice);
    assert DistinctKeys([x], ItemFieldName) == [x.fieldName] by {
      assert [x][..0] == [];
    }
  }

  /** A further line of a group is added to its entry. */
  lemma {:induction false} TotalsNext(front: seq<LineItem>, x: LineItem)
    requires KnownType(front, ItemKey(x))
    ensures KnownType(front + [x], ItemKey(x))
    ensures TotalsOf(front + [x], ItemKey(x)) == Add(TotalsOf(front, ItemKey(x)), x)
  {
    var k := ItemKey(x);
    var items := ItemsOf(front, k);
    assert ItemsOf(front + [x], k) == items + [x] by {
      ItemsSnoc(front, x, k);
    }
    assert (items + [x])[0] == items[0];
    GroupSnoc(items, x);
  }

  /** Keys seen before keep a typed first line when a line is appended. */
  lemma {:induction false} TypesStep(front: seq<LineItem>, x: LineItem)
    requires TypesKnown(front) && KnownType(front + [x], ItemKey(x))
    ensures TypesKnown(front + [x])
  {
    forall k | |ItemsOf(front + [x], k)| > 0
      ensures ItemsOf(front + [x], k)[0].productType.Some?
    {
      ItemsSnoc(front, x, k);
      if |ItemsOf(front, k)| > 0 {
        assert ItemsOf(front + [x], k)[0] == ItemsOf(front, k)[0];
      }
    }
  }

  /** Entries of other keys are unaffected by a line of key `ItemKey(x)`. */
  lemma {:induction false} EntriesStep(front: seq<LineItem>, x: LineItem, totals: map<(int, string), Totals>, t: Totals)
    requires forall k :: k in totals ==> KnownType(front, k) && totals[k] == TotalsOf(front, k)
    requires KnownType(front + [x], ItemKey(x)) && t == TotalsOf(front + [x], ItemKey(x))
    ensures forall k :: k in totals[ItemKey(x) := t] ==>
      KnownType(front + [x], k) && totals[ItemKey(x) := t][k] == TotalsOf(front + [x], k)
  {
    forall k | k in totals && k != ItemKey(x)
      ensures KnownType(front + [x], k) && totals[k] == TotalsOf(front + [x], k)
    {
      TotalsOther(front, x, k);
    }
  }

  /** A line of another key leaves a group's entry as it was. */
  lemma {:induction false} TotalsOther(front: seq<LineItem>, x: LineItem, k: (int, string))
    requires ItemKey(x) != k && KnownType(front, k)
    ensures KnownType(front + [x], k) && TotalsOf(front + [x], k) == TotalsOf(front, k)
  {
    assert ItemsOf(front + [x], k) == ItemsOf(front, k) by {
      ItemsSnoc(front, x, k);
      assert ItemsOf(front, k) + [] == ItemsOf(front, k);
    }
  }

  /** One iteration of the grouping loop keeps the entries exact. Before it, the key order
      `order` (the dict's insertion order) and the entries `totals` describe the lines `front`;
      after it, `order'` and `totals'` describe `s`, which is `front` followed by `x`. */
  lemma {:induction false} AccumulateStep(front: seq<LineItem>, x: LineItem, s: seq<LineItem>,
                                          order: seq<(int, string)>, totals: map<(int, string), Totals>,
                                          order': seq<(int, string)>, totals': map<(int, string), Totals>)
    requires s == front + [x]
    requires order == DistinctKeys(front, ItemKey)
    requires forall k :: k in totals <==> k in order
    requires TypesKnown(front)
    requires forall k :: k in totals ==> KnownType(front, k) && totals[k] == TotalsOf(front, k)
    requires ItemKey(x) in totals || x.productType.Some?
    requires order' == if ItemKey(x) in totals then order else order + [ItemKey(x)]
    requires totals' == totals[ItemKey(x) := Add(if ItemKey(x) in totals then totals[ItemKey(x)] else Fresh(x), x)]
    ensures order' == DistinctKeys(s, ItemKey)
    ensures forall k :: k in totals' <==> k in order'
    ensures TypesKnown(s)
    ensures forall k :: k in totals' ==> KnownType(s, k) && totals'[k] == TotalsOf(s, k)
  {
    var k := ItemKey(x);
    var base := if k in totals then totals[k] else Fresh(x);
    assert KnownType(front + [x], k) && Add(base, x) == TotalsOf(front + [x], k) by {
      if k in totals {
        TotalsNext(front, x);
      } else {
        DistinctKeysMember(front, ItemKey, k);
        TotalsFirst(front, x);
      }
    }
    EntriesStep(front, x, totals, Add(base, x));
    TypesStep(front, x);
    DistinctKeysSnoc(front, x, ItemKey);
  }

  /** A new key whose first line has no product type makes the whole list fail. */
  lemma {:induction false} MissingTypeFails(scope: seq<LineItem>, i: nat)
    requires i < |scope|
    requires ItemKey(scope[i]) !in DistinctKeys(scope[..i], ItemKey) && scope[i].productType.None?
    ensures !TypesKnown(scope)
  {
    var k := ItemKey(scope[i]);
    var rest := [scope[i]] + scope[i + 1..];
    assert ItemsOf(scope[..i], k) == [] by {
      DistinctKeysMember(scope[..i], ItemKey, k);
    }
    assert ItemsOf(scope, k) == ItemsOf(scope[..i], k) + ItemsOf(rest, k) by {
      assert scope == scope[..i] + rest;
      WithKeyAppend(scope[..i], rest, ItemKey, k);
    }
    assert ItemsOf(rest, k) == [scope[i]] + ItemsOf(scope[i + 1..], k) by {
      WithKeyHead(scope[i], scope[i + 1..], ItemKey, k);
    }
    assert ItemsOf(scope, k)[0] == scope[i];
  }

  /** A key whose first line is typed stays so when the last line is dropped. */
  lemma {:induction false} TypesPrefix(front: seq<LineItem>, x: LineItem)
    requires TypesKnown(front + [x])
    ensures TypesKnown(front)
  {
    forall k | |ItemsOf(front, k)| > 0
      ensures ItemsOf(front, k)[0].productType.Some?
    {
      ItemsSnoc(front, x, k);
      assert ItemsOf(front + [x], k)[0] == ItemsOf(front, k)[0];
    }
  }

  /** The dict of the loop: its keys in insertion order and its entries. */
  datatype Groups = Groups(order: seq<(int, string)>, totals: map<(int, string), Totals>)

  /** One pass of the loop body; None where the source dereferences a missing product type. */
  function Insert(g: Groups, x: LineItem): Option<Groups>
  {
    var k := ItemKey(x);
    if k in g.totals then Some(Groups(g.order, g.totals[k := Add(g.totals[k], x)]))
    else if x.productType.None? then None
    else Some(Groups(g.order + [k], g.totals[k := Add(Fresh(x), x)]))
  }

  /** The dict once the loop has consumed `s`, or None if the loop raised. */
  function Grouped(s: seq<LineItem>): Option<Groups>
  {
    if s == [] then Some(Groups([], map[]))
    else
      match Grouped(s[..|s| - 1])
      case None => None
      case Some(g) => Insert(g, s[|s| - 1])
  }

  /** Once the loop has raised on a prefix, it raises on the whole scope. */
  lemma {:induction false} GroupedFailsLater(s: seq<LineItem>, i: nat)
    requires i <= |s| && Grouped(s[..i]).None?
    ensures Grouped(s).None?
    decreases |s|
  {
    if i == |s| {
      assert s[..i] == s;
    } else {
      var front := s[..|s| - 1];
      assert front[..i] == s[..i];
      GroupedFailsLater(front, i);
    }
  }

  /** The loop's dict is exact: it completes exactly when every group's first line has a
      type, and then its keys are the groups in first-seen order and each entry holds its
      group's name, type, unit, sums, count and field names. */
  lemma {:induction false} GroupedMeaning(s: seq<LineItem>)
    ensures Grouped(s).Some? <==> TypesKnown(s)
    ensures Grouped(s).Some? ==> Grouped(s).value.order == DistinctKeys(s, ItemKey)
    ensures Grouped(s).Some? ==> forall k :: k in Grouped(s).value.totals <==> k in Grouped(s).value.order
    ensures Grouped(s).Some? ==> forall k :: k in Grouped(s).value.totals ==>
              KnownType(s, k) && Grouped(s).value.totals[k] == TotalsOf(s, k)
  {
    if s == [] {
      assert forall k :: ItemsOf(s, k) == [];
    } else {
      var front, x := s[..|s| - 1], s[|s| - 1];
      assert s == front + [x];
      GroupedMeaning(front);
      match Grouped(front)
      case None =>
        if TypesKnown(s) {
          TypesPrefix(front, x);
        }
      case Some(g) =>
        var k := ItemKey(x);
        if k !in g.totals && x.productType.None? {
          assert s[..|front|] == front;
          MissingTypeFails(s, |front|);
        } else {
          var g' := Insert(g, x).value;
          AccumulateStep(front, x, s, g.order, g.totals, g'.order, g'.totals);
        }
    }
  }

  /** Every listed key has a typed first line. */
  lemma {:induction false} KeysKnown(s: seq<LineItem>)
    requires TypesKnown(s)
    ensures forall j :: 0 <= j < |DistinctKeys(s, ItemKey)| ==> KnownType(s, DistinctKeys(s, ItemKey)[j])
  {
    var keys := DistinctKeys(s, ItemKey);
    forall j | 0 <= j < |keys|
      ensures KnownType(s, keys[j])
    {
      DistinctKeysMember(s, ItemKey, keys[j]);
    }
  }

  /** A formatted row of the list. */
  datatype ShoppingRow = ShoppingRow(
    productId: int,
    productName: string,
    productType: string,
    unit: string,
    totalDose: real,
    totalPrice: real,
    treatmentCount: nat,
    fields: string)

  function RowName(r: ShoppingRow): string { r.productName }
  function RowPrice(r: ShoppingRow): real { r.totalPrice }
  function RowKey(r: ShoppingRow): (int, string) { (r.productId, r.unit) }

  /** `", ".join(sorted(names))`. */
  function FieldsText(names: seq<string>): string
  {
    JoinWith(SortByName(names, Itself), ", ")
  }

  /** One dict entry as a result row; `round` stands for `round(..., 2)`. */
  function Format(k: (int, string), t: Totals, round: real -> real): ShoppingRow
  {
    ShoppingRow(k.0, t.productName, t.productType, t.unit, round(t.totalDose), round(t.totalPrice),
                t.treatmentCount, FieldsText(t.fields))
  }

  /** The row of one group. */
  function RowOf(s: seq<LineItem>, k: (int, string), round: real -> real): ShoppingRow
    requires KnownType(s, k)
  {
    Format(k, TotalsOf(s, k), round)
  }

  /** The rows in key order, one per (product, unit) group. */
  function UnsortedRows(s: seq<LineItem>, round: real -> real): (r: seq<ShoppingRow>)
    requires TypesKnown(s)
    ensures |r| == |DistinctKeys(s, ItemKey)|
  {
    var keys := DistinctKeys(s, ItemKey);
    KeysKnown(s);
    seq(|keys|, j requires 0 <= j < |keys| => RowOf(s, keys[j], round))
  }

  /** The shopping list: the group rows sorted by product name (a stable sort). */
  function ShoppingRows(s: seq<LineItem>, round: real -> real): (r: seq<ShoppingRow>)
    requires TypesKnown(s)
    ensures SortedByName(r, RowName)
    ensures |r| == |DistinctKeys(s, ItemKey)|
  {
    SortByName(UnsortedRows(s, round), RowName)
  }

  datatype ShoppingOutcome = Rows(rows: seq<ShoppingRow>) | MissingProductType

  ghost function ShoppingOutcomeOf(scope: seq<LineItem>, round: real -> real): ShoppingOutcome
  {
    if TypesKnown(scope) then Rows(ShoppingRows(scope, round)) else MissingProductType
  }

  /** ShoppingListView.get_queryset: group the scope's lines by (product, unit), then format and sort. */
  method ShoppingList(items: seq<LineItem>, selectedFields: seq<int>, round: real -> real)
    returns (outcome: ShoppingOutcome)
    ensures outcome == ShoppingOutcomeOf(ShoppingScope(items, selectedFields), round)
  {
    var scope := ShoppingScope(items, selectedFields);
    var complete, order, totals := GroupLines(scope);
    GroupedMeaning(scope);
    if !complete {
      return MissingProductType;
    }
    var rows := FormatRows(order, totals, round);
    FormattedGroups(scope, order, totals, round, rows);
    outcome := Rows(SortByName(rows, RowName));
  }

  /** The loop that fills the dict keyed by (product, unit); `complete` is false where the source raises. */
  method GroupLines(scope: seq<LineItem>)
    returns (complete: bool, order: seq<(int, string)>, totals: map<(int, string), Totals>)
    ensures complete <==> Grouped(scope).Some?
    ensures complete ==> Grouped(scope) == Some(Groups(order, totals))
  {
    totals := map[];
    order := [];
    var i := 0;
    while i < |scope|
      invariant 0 <= i <= |scope|
      invariant Grouped(scope[..i]) == Some(Groups(order, totals))
    {
      var x := scope[i];
      var k := ItemKey(x);
      assert scope[..i + 1][..i] == scope[..i];
      var t: Totals;
      if k in totals {
        t := totals[k];
      } else {
        if x.productType.None? {
          GroupedFailsLater(scope, i + 1);
          return false, order, totals;
        }
        t := Fresh(x);
        order := order + [k];
      }
      t := t.(totalDose := t.totalDose + x.totalDose);
      t := t.(totalPrice := t.totalPrice + x.totalPrice);
      t := t.(treatmentCount := t.treatmentCount + 1);
      if x.fieldName !in t.fields {
        t := t.(fields := t.fields + [x.fieldName]);
      }
      totals := totals[k := t];
      i := i + 1;
    }
    assert scope[..i] == scope;
    complete := true;
  }

  /** The loop that turns each entry, in insertion order, into a formatted row. */
  method FormatRows(order: seq<(int, string)>, totals: map<(int, string), Totals>, round: real -> real)
    returns (rows: seq<ShoppingRow>)
    requires forall k :: k in order ==> k in totals
    ensures |rows| == |order|
    ensures forall m :: 0 <= m < |rows| ==> rows[m] == Format(order[m], totals[order[m]], round)
  {
    rows := [];
    var j := 0;
    while j < |order|
      invariant 0 <= j <= |order|
      invariant |rows| == j
      invariant forall m :: 0 <= m < j ==> rows[m] == Format(order[m], totals[order[m]], round)
    {
      var k := order[j];
      var t := totals[k];
      var row := ShoppingRow(k.0, t.productName, t.productType, t.unit, round(t.totalDose),
                             round(t.totalPrice), t.treatmentCount, FieldsText(t.fields));
      rows := rows + [row];
      j := j + 1;
    }
  }

  /** Formatting the completed dict in insertion order gives the rows of the groups in first-seen order. */
  lemma {:induction false} FormattedGroups(scope: seq<LineItem>, order: seq<(int, string)>,
                                           totals: map<(int, string), Totals>, round: real -> real,
                                           rows: seq<ShoppingRow>)
    requires TypesKnown(scope)
    requires order == DistinctKeys(scope, ItemKey)
    requires forall k :: k in totals ==> KnownType(scope, k) && totals[k] == TotalsOf(scope, k)
    requires forall k :: k in order ==> k in totals
    requires |rows| == |order|
    requires forall m :: 0 <= m < |rows| ==> rows[m] == Format(order[m], totals[order[m]], round)
    ensures rows == UnsortedRows(scope, round)
  {
    var u := UnsortedRows(scope, round);
    forall m | 0 <= m < |rows|
      ensures rows[m] == u[m]
    {
      assert order[m] in totals;
    }
  }

  // ---------------------------------------------------------------------------
  // What the shopping list contains
  // ---------------------------------------------------------------------------

  /** The row of a group names its key and carries the group's sums, count and field names. */
  lemma {:induction false} RowOfGroup(s: seq<LineItem>, k: (int, string), round: real -> real)
    requires KnownType(s, k)
    ensures var row := RowOf(s, k, round);
            RowKey(row) == k &&
            row.productName == ItemsOf(s, k)[0].productName &&
            row.totalDose == round(SumOf(ItemsOf(s, k), ItemDose)) &&
            row.totalPrice == round(SumOf(ItemsOf(s, k), ItemPrice)) &&
            row.treatmentCount == |ItemsOf(s, k)| &&
            row.fields == FieldsText(TotalsOf(s, k).fields)
  {
    assert ItemKey(ItemsOf(s, k)[0]) == k by {
      WithKeyAt(s, ItemKey, k, 0);
    }
  }

  /** A group's field names are those of its lines, each listed once. */
  lemma {:induction false} GroupFieldNames(s: seq<LineItem>, k: (int, string), name: string)
    requires KnownType(s, k)
    ensures name in TotalsOf(s, k).fields <==> exists j :: 0 <= j < |s| && ItemKey(s[j]) == k && s[j].fieldName == name
    ensures forall a, b :: 0 <= a < b < |TotalsOf(s, k).fields| ==> TotalsOf(s, k).fields[a] != TotalsOf(s, k).fields[b]
  {
    var items := ItemsOf(s, k);
    DistinctKeysMember(items, ItemFieldName, name);
    WithKeyMembers(items, ItemFieldName, name);
    WithKeyMembers(s, ItemKey, k);
    if name in TotalsOf(s, k).fields {
      var w := WithKey(items, ItemFieldName, name)[0];
      assert w in items;
      var j :| 0 <= j < |s| && s[j] == w;
    }
    if exists j :: 0 <= j < |s| && ItemKey(s[j]) == k && s[j].fieldName == name {
      var j :| 0 <= j < |s| && ItemKey(s[j]) == k && s[j].fieldName == name;
      WithKeyHas(s, ItemKey, k, j);
      var m :| 0 <= m < |items| && items[m] == s[j];
      WithKeyHas(items, ItemFieldName, name, m);
    }
  }

  /** Every line of the scope is counted in a row: the row of its (product, unit). */
  lemma {:induction false} ShoppingRowsCover(s: seq<LineItem>, round: real -> real, j: nat)
    requires TypesKnown(s) && j < |s|
    ensures KnownType(s, ItemKey(s[j]))
    ensures exists i :: 0 <= i < |ShoppingRows(s, round)| && ShoppingRows(s, round)[i] == RowOf(s, ItemKey(s[j]), round)
  {
    var k := ItemKey(s[j]);
    WithKeyHas(s, ItemKey, k, j);
    DistinctKeysMember(s, ItemKey, k);
    var keys := DistinctKeys(s, ItemKey);
    var m :| 0 <= m < |keys| && keys[m] == k;
    var u := UnsortedRows(s, round);
    assert u[m] == RowOf(s, k, round);
    assert u[m] in multiset(ShoppingRows(s, round));
  }

  /** Every row is the row of a group of the scope. */
  lemma {:induction false} ShoppingRowsFromGroups(s: seq<LineItem>, round: real -> real, i: nat)
    requires TypesKnown(s) && i < |ShoppingRows(s, round)|
    ensures exists k :: KnownType(s, k) && ShoppingRows(s, round)[i] == RowOf(s, k, round)
  {
    var rows := ShoppingRows(s, round);
    var u := UnsortedRows(s, round);
    assert rows[i] in multiset(u);
    var m :| 0 <= m < |u| && u[m] == rows[i];
    KeysKnown(s);
  }

  /** No two rows share a (product, unit) key. */
  lemma {:induction false} ShoppingRowKeysDistinct(s: seq<LineItem>, round: real -> real, i: nat, j: nat)
    requires TypesKnown(s) && i < j < |ShoppingRows(s, round)|
    ensures RowKey(ShoppingRows(s, round)[i]) != RowKey(ShoppingRows(s, round)[j])
  {
    var rows := ShoppingRows(s, round);
    var u := UnsortedRows(s, round);
    var keys := DistinctKeys(s, ItemKey);
    KeysKnown(s);
    forall a, b | 0 <= a < b < |u|
      ensures u[a] != u[b]
    {
      RowOfGroup(s, keys[a], round);
      RowOfGroup(s, keys[b], round);
    }
    PermutationDistinct(u, rows, i, j);
    ShoppingRowsFromGroups(s, round, i);
    ShoppingRowsFromGroups(s, round, j);
    var ki :| KnownType(s, ki) && rows[i] == RowOf(s, ki, round);
    var kj :| KnownType(s, kj) && rows[j] == RowOf(s, kj, round);
    RowOfGroup(s, ki, round);
    RowOfGroup(s, kj, round);
  }

  /** The loop's dict after one and after two lines. */
  lemma {:induction false} GroupedOfTwo(a: LineItem, b: LineItem)
    requires a.productType.Some?
    ensures Grouped([a]) == Some(Groups([ItemKey(a)], map[ItemKey(a) := Add(Fresh(a), a)]))
    ensures Grouped([a, b]) == Insert(Groups([ItemKey(a)], map[ItemKey(a) := Add(Fresh(a), a)]), b)
  {
    var k := ItemKey(a);
    var empty: map<(int, string), Totals> := map[];
    assert [a][..0] == [];
    assert Grouped([a]) == Insert(Groups([], empty), a);
    assert [] + [k] == [k];
    assert empty[k := Add(Fresh(a), a)] == map[k := Add(Fresh(a), a)];
    assert [a, b][..1] == [a];
  }

  /** A completed loop: every group is typed and the dict's keys are the groups in order. */
  lemma {:induction false} GroupedOrder(s: seq<LineItem>)
    requires Grouped(s).Some?
    ensures TypesKnown(s)
    ensures Grouped(s).value.order == DistinctKeys(s, ItemKey)
  {
    GroupedMeaning(s);
  }

  /** A completed loop: the entry of a key is its group's totals. */
  lemma {:induction false} GroupedEntry(s: seq<LineItem>, k: (int, string))
    requires Grouped(s).Some? && k in Grouped(s).value.totals
    ensures KnownType(s, k) && Grouped(s).value.totals[k] == TotalsOf(s, k)
  {
    GroupedMeaning(s);
  }

  /** The same product in L and in kg gives two rows. */
  lemma {:induction false} TwoUnitsTwoRows(a: LineItem, b: LineItem, round: real -> real)
    requires a.productId == b.productId && a.unit != b.unit
    requires a.productType.Some? && b.productType.Some?
    ensures TypesKnown([a, b])
    ensures |ShoppingRows([a, b], round)| == 2
  {
    var s := [a, b];
    GroupedOfTwo(a, b);
    assert Grouped(s).Some?;
    GroupedOrder(s);
    assert Grouped(s).value.order == [ItemKey(a), ItemKey(b)];
  }

  /** The loop's dict for two lines of one key: one entry with both lines added. */
  lemma {:induction false} GroupedSameKey(a: LineItem, b: LineItem)
    requires ItemKey(a) == ItemKey(b) && a.productType.Some?
    ensures Grouped([a, b]) == Some(Groups([ItemKey(a)], map[ItemKey(a) := Add(Add(Fresh(a), a), b)]))
  {
    var k := ItemKey(a);
    GroupedOfTwo(a, b);
    var m := map[k := Add(Fresh(a), a)];
    assert m[k := Add(m[k], b)] == map[k := Add(Add(Fresh(a), a), b)];
  }

  /** Two lines of the same product and unit merge into one row that adds them up. */
  lemma {:induction false} SameKeyOneRow(a: LineItem, b: LineItem, round: real -> real)
    requires ItemKey(a) == ItemKey(b) && a.productType.Some?
    ensures TypesKnown([a, b])
    ensures |ShoppingRows([a, b], round)| == 1
    ensures ShoppingRows([a, b], round)[0].treatmentCount == 2
    ensures ShoppingRows([a, b], round)[0].totalDose == round(a.totalDose + b.totalDose)
    ensures ShoppingRows([a, b], round)[0].totalPrice == round(a.totalPrice + b.totalPrice)
  {
    var s := [a, b];
    var k := ItemKey(a);
    var t := Add(Add(Fresh(a), a), b);
    GroupedSameKey(a, b);
    GroupedOrder(s);
    GroupedEntry(s, k);
    var u := UnsortedRows(s, round);
    assert u == [Format(k, t, round)] by {
      assert |u| == 1;
      assert u[0] == RowOf(s, k, round);
    }
    assert SortByName(u, RowName) == u;
    assert t.totalDose == a.totalDose + b.totalDose && t.totalPrice == a.totalPrice + b.totalPrice;
    assert ShoppingRows(s, round)[0] == Format(k, t, round);
  }

  // ---------------------------------------------------------------------------
  // ShoppingListView.get_context_data
  // ---------------------------------------------------------------------------

  datatype ShoppingSummary = ShoppingSummary(totalPrice: real, totalCount: nat)

  /** `round(sum(item['total_price']))` and `len(object_list)`. */
  function Summary(rows: seq<ShoppingRow>, round: real -> real): (r: ShoppingSummary)
    ensures r.totalCount == |rows|
  {
    ShoppingSummary(round(SumOf(rows, RowPrice)), |rows|)
  }

  /** The summary counts the (product, unit) groups, and its total does not depend on the sort. */
  lemma {:induction false} SummaryOfGroups(s: seq<LineItem>, round: real -> real)
    requires TypesKnown(s)
    ensures Summary(ShoppingRows(s, round), round).totalCount == |DistinctKeys(s, ItemKey)|
    ensures Summary(ShoppingRows(s, round), round).totalPrice == round(SumOf(UnsortedRows(s, round), RowPrice))
  {
    SumSortByName(UnsortedRows(s, round), RowName, RowPrice);
  }


  // ---------------------------------------------------------------------------
  // TreatmentListView
  // ---------------------------------------------------------------------------

  /** A treatment with the values its list filters look at. */
  datatype Treatment = Treatment(
    id: int,
    fieldId: int,
    kind: string,                // type: 'spraying' or 'fertigation'
    productIds: seq<int>,        // its products, through the line items
    productTypeIds: seq<int>,    // the product types of those products
    date: int,                   // day number
    status: string)

  /** The GET parameters of the list; an empty list or None is a parameter that was not sent. */
  datatype ListQuery = ListQuery(
    fieldIds: seq<int>,
    types: seq<string>,
    statuses: seq<string>,
    productIds: seq<int>,
    dateFrom: Option<int>,
    dateTo: Option<int>,
    productTypes: seq<int>)

  function TreatmentDate(t: Treatment): real { t.date as real }

  predicate Overlaps(a: seq<int>, b: seq<int>)
  {
    exists i :: 0 <= i < |a| && a[i] in b
  }

  /** `status_filters = getlist('status') or [PENDING, DELAYED]`. */
  function DefaultStatuses(statuses: seq<string>): (r: seq<string>)
    ensures statuses != [] ==> r == statuses
    ensures statuses == [] ==> "pending" in r && "delayed" in r && "completed" !in r
  {
    if statuses == [] then ["pending", "delayed"] else statuses
  }

  // One predicate per filter; each holds for every treatment when its parameter was not sent.
  predicate ByField(q: ListQuery, t: Treatment) { q.fieldIds == [] || t.fieldId in q.fieldIds }
  predicate ByType(q: ListQuery, t: Treatment) { q.types == [] || t.kind in q.types }
  predicate ByProduct(q: ListQuery, t: Treatment) { q.productIds == [] || Overlaps(t.productIds, q.productIds) }
  predicate ByDateFrom(q: ListQuery, t: Treatment) { q.dateFrom.None? || t.date >= q.dateFrom.value }
  predicate ByDateTo(q: ListQuery, t: Treatment) { q.dateTo.None? || t.date <= q.dateTo.value }
  predicate ByProductType(q: ListQuery, t: Treatment) { q.productTypes == [] || Overlaps(t.productTypeIds, q.productTypes) }
  predicate ByStatus(q: ListQuery, t: Treatment) { q.statuses == [] || t.status in q.statuses }

  /** What a treatment must satisfy to pass every filter that was sent. */
  predicate Matches(q: ListQuery, t: Treatment)
  {
    ByField(q, t) && ByType(q, t) && ByProduct(q, t) && ByDateFrom(q, t) && ByDateTo(q, t) &&
    ByProductType(q, t) && ByStatus(q, t)
  }

  /** The filters on the treatment's own columns, which keep or drop it without joining. */
  predicate PassesColumns(q: ListQuery, t: Treatment)
  {
    ByField(q, t) && ByType(q, t) && ByDateFrom(q, t) && ByDateTo(q, t) && ByStatus(q, t)
  }

  /** How many of a treatment's product lines carry one of the sent values. */
  function Hits(lines: seq<int>, sent: seq<int>): nat
  {
    CountIf(lines, (v: int) => v in sent)
  }

  /** A treatment gives at least one joined row exactly when one of its lines matches. */
  lemma HitsOverlap(lines: seq<int>, sent: seq<int>)
    ensures Hits(lines, sent) <= |lines|
    ensures Hits(lines, sent) > 0 <==> Overlaps(lines, sent)
  {
    var keep := (v: int) => v in sent;
    FilterMembers(lines, keep);
    if Overlaps(lines, sent) {
      var i :| 0 <= i < |lines| && lines[i] in sent;
      assert lines[i] in Filter(lines, keep);
    }
    if |Filter(lines, keep)| > 0 {
      assert Filter(lines, keep)[0] in lines;
    }
  }

  /** Rows a treatment gives after `filter(products__id__in=...)`: one per matching product line. */
  function ProductJoinRows(q: ListQuery, t: Treatment): nat
  {
    if q.productIds == [] then 1 else Hits(t.productIds, q.productIds)
  }

  /** Rows per row after `filter(products__product_type__in=...)`, a second, separate join. */
  function TypeJoinRows(q: ListQuery, t: Treatment): nat
  {
    if q.productTypes == [] then 1 else Hits(t.productTypeIds, q.productTypes)
  }

  /** The rows a treatment gives after both joins: the two counts multiply. */
  function JoinRows(q: ListQuery, t: Treatment): nat
  {
    ProductJoinRows(q, t) * TypeJoinRows(q, t)
  }

  /** A treatment gives a row exactly when it passes every filter, and then as many as its joins. */
  lemma {:induction false} JoinRowsMatch(q: ListQuery, t: Treatment)
    ensures ProductJoinRows(q, t) > 0 <==> ByProduct(q, t)
    ensures TypeJoinRows(q, t) > 0 <==> ByProductType(q, t)
    ensures PassesColumns(q, t) && JoinRows(q, t) > 0 <==> Matches(q, t)
    ensures q.productIds == [] && q.productTypes == [] ==> JoinRows(q, t) == 1
  {
    HitsOverlap(t.productIds, q.productIds);
    HitsOverlap(t.productTypeIds, q.productTypes);
    var a, b := ProductJoinRows(q, t), TypeJoinRows(q, t);
    assert a * b > 0 <==> a > 0 && b > 0;
  }

  /** A treatment with lines for products 1 and 2 is listed twice for `?products=1&products=2`,
      and a type filter matching both lines doubles that again. */
  lemma {:induction false} MatchingLinesRepeatTreatment(q: ListQuery, t: Treatment)
    requires t.productIds == [1, 2] && t.productTypeIds == [7, 7]
    requires q.productIds == [1, 2]
    ensures q.productTypes == [] ==> JoinRows(q, t) == 2
    ensures q.productTypes == [7] ==> JoinRows(q, t) == 4
  {
    var inIds := (v: int) => v in q.productIds;
    assert Filter([1, 2], inIds) == [1, 2] by { FilterAll([1, 2], inIds); }
    if q.productTypes == [7] {
      var inTypes := (v: int) => v in q.productTypes;
      assert Filter([7, 7], inTypes) == [7, 7] by { FilterAll([7, 7], inTypes); }
    }
  }

  /** One `queryset.filter(...)` on the treatment's own columns: what it keeps, and that it keeps
      the date order. */
  method FilterQuery(r: seq<Treatment>, keep: Treatment -> bool) returns (r': seq<Treatment>)
    ensures forall t :: t in r' <==> t in r && keep(t)
    ensures forall t :: multiset(r')[t] == if keep(t) then multiset(r)[t] else 0
    ensures |r'| <= |r|
    ensures SortedDesc(r, TreatmentDate) ==> SortedDesc(r', TreatmentDate)
  {
    FilterMembers(r, keep);
    forall t
      ensures multiset(Filter(r, keep))[t] == if keep(t) then multiset(r)[t] else 0
    {
      FilterCount(r, keep, t);
    }
    if SortedDesc(r, TreatmentDate) {
      FilterSortedDesc(r, keep, TreatmentDate);
    }
    r' := Filter(r, keep);
  }

  /** One `queryset.filter(...)` across the product lines: each row comes out once per matching
      line, the date order is kept, and no row is added when every treatment matches at most once. */
  method JoinQuery(r: seq<Treatment>, rows: Treatment -> nat) returns (r': seq<Treatment>)
    ensures forall t :: t in r' <==> t in r && rows(t) > 0
    ensures forall t :: multiset(r')[t] == multiset(r)[t] * rows(t)
    ensures (forall t :: rows(t) <= 1) ==> |r'| <= |r|
    ensures SortedDesc(r, TreatmentDate) ==> SortedDesc(r', TreatmentDate)
  {
    JoinedMembers(r, rows);
    forall t
      ensures multiset(Joined(r, rows))[t] == multiset(r)[t] * rows(t)
    {
      JoinedCount(r, rows, t);
    }
    if forall t :: rows(t) <= 1 {
      JoinedShort(r, rows);
    }
    if SortedDesc(r, TreatmentDate) {
      JoinedSortedDesc(r, rows, TreatmentDate);
    }
    r' := Joined(r, rows);
  }

  /**
   * The chain of `if param: queryset = queryset.filter(...)` shared by both list views. A
   * treatment that passes the column filters is repeated once per matching line pair of the
   * two product joins; without product filters nothing is repeated.
   */
  method ApplyListFilters(ts: seq<Treatment>, q: ListQuery) returns (r: seq<Treatment>)
    ensures forall t :: t in r <==> t in ts && Matches(q, t)
    ensures forall t :: multiset(r)[t] == if PassesColumns(q, t) then multiset(ts)[t] * JoinRows(q, t) else 0
    ensures q.productIds == [] && q.productTypes == [] ==> |r| <= |ts|
    ensures SortedDesc(ts, TreatmentDate) ==> SortedDesc(r, TreatmentDate)
  {
    var byRecord := RecordFilters(ts, q);
    r := DateAndStatusFilters(byRecord, q);
    forall t
      ensures multiset(r)[t] == if PassesColumns(q, t) then multiset(ts)[t] * JoinRows(q, t) else 0
    {
      var m, a, b := multiset(ts)[t], ProductJoinRows(q, t), TypeJoinRows(q, t);
      var n := multiset(byRecord)[t];
      assert n == if ByField(q, t) && ByType(q, t) then m * a else 0;
      assert multiset(r)[t] == if ByDateFrom(q, t) && ByDateTo(q, t) && ByStatus(q, t) then n * b else 0;
      JoinedTwice(m, a, b);
    }
  }

  /** The field, type and product filters of the chain. */
  method RecordFilters(ts: seq<Treatment>, q: ListQuery) returns (r: seq<Treatment>)
    ensures forall t :: t in r <==> t in ts && ByField(q, t) && ByType(q, t) && ByProduct(q, t)
    ensures forall t :: (multiset(r)[t] ==
      if ByField(q, t) && ByType(q, t) then multiset(ts)[t] * ProductJoinRows(q, t) else 0)
    ensures q.productIds == [] ==> |r| <= |ts|
    ensures SortedDesc(ts, TreatmentDate) ==> SortedDesc(r, TreatmentDate)
  {
    r := ts;
    if q.fieldIds != [] {
      r := FilterQuery(r, (t: Treatment) => ByField(q, t));
    }
    if q.types != [] {
      r := FilterQuery(r, (t: Treatment) => ByType(q, t));
    }
    if q.productIds != [] {
      r := JoinQuery(r, (t: Treatment) => ProductJoinRows(q, t));
    }
    forall t
      ensures ProductJoinRows(q, t) > 0 <==> ByProduct(q, t)
    {
      JoinRowsMatch(q, t);
    }
  }

  /** The date, product type and status filters of the chain. */
  method DateAndStatusFilters(ts: seq<Treatment>, q: ListQuery) returns (r: seq<Treatment>)
    ensures forall t :: t in r <==> t in ts && ByDateFrom(q, t) && ByDateTo(q, t) && ByProductType(q, t) && ByStatus(q, t)
    ensures forall t :: (multiset(r)[t] ==
      if ByDateFrom(q, t) && ByDateTo(q, t) && ByStatus(q, t) then multiset(ts)[t] * TypeJoinRows(q, t) else 0)
    ensures q.productTypes == [] ==> |r| <= |ts|
    ensures SortedDesc(ts, TreatmentDate) ==> SortedDesc(r, TreatmentDate)
  {
    r := ts;
    if q.dateFrom.Some? {
      r := FilterQuery(r, (t: Treatment) => ByDateFrom(q, t));
    }
    if q.dateTo.Some? {
      r := FilterQuery(r, (t: Treatment) => ByDateTo(q, t));
    }
    if q.productTypes != [] {
      r := JoinQuery(r, (t: Treatment) => TypeJoinRows(q, t));
    }
    if q.statuses != [] {
      r := FilterQuery(r, (t: Treatment) => ByStatus(q, t));
    }
    forall t
      ensures TypeJoinRows(q, t) > 0 <==> ByProductType(q, t)
    {
      JoinRowsMatch(q, t);
    }
  }


  /** TreatmentListView.get_queryset: the filters, with pending and delayed as the default status
      filter, then `order_by('-date')`. */
  method TreatmentList(ts: seq<Treatment>, q: ListQuery) returns (r: seq<Treatment>)
    ensures forall t :: t in r <==> t in ts && Matches(q.(statuses := DefaultStatuses(q.statuses)), t)
    ensures forall t :: (
      var q' := q.(statuses := DefaultStatuses(q.statuses));
      multiset(r)[t] == if PassesColumns(q', t) then multiset(ts)[t] * JoinRows(q', t) else 0)
    ensures q.statuses == [] ==> forall t :: t in r ==> t.status == "pending" || t.status == "delayed"
    ensures SortedDesc(r, TreatmentDate)
    ensures q.productIds == [] && q.productTypes == [] ==> |r| <= |ts|
  {
    var query := q.(statuses := DefaultStatuses(q.statuses));
    var filtered := ApplyListFilters(ts, query);
    r := SortDesc(filtered, TreatmentDate);
    assert forall t :: t in r <==> t in multiset(filtered);
  }

  // ---------------------------------------------------------------------------
  // TreatmentDetailView.get_context_data
  // ---------------------------------------------------------------------------

  datatype DetailCosts = DetailCosts(totalCost: real, costPerHa: real)

  function Amount(x: real): real { x }

  /** `sum(total_price)` over the treatment's product lines, and the cost per hectare of its
      field; `area` is None for a treatment without a field. */
  function TreatmentCosts(linePrices: seq<real>, area: Option<real>): (r: DetailCosts)
    ensures r.totalCost == SumOf(linePrices, Amount)
    ensures area.Some? && area.value > 0.0 ==> r.costPerHa * area.value == r.totalCost
    ensures area.None? || area.value <= 0.0 ==> r.costPerHa == 0.0
  {
    var total := SumOf(linePrices, Amount);
    DetailCosts(total, if area.Some? then ApiViews.PerHa(total, area.value) else 0.0)
  }

  /** Costs are additive over the product lines. */
  lemma {:induction false} TreatmentCostsAppend(a: seq<real>, b: seq<real>, area: Option<real>)
    ensures TreatmentCosts(a + b, area).totalCost == TreatmentCosts(a, area).totalCost + TreatmentCosts(b, area).totalCost
    ensures area.Some? && area.value > 0.0 ==>
      TreatmentCosts(a + b, area).costPerHa == TreatmentCosts(a, area).costPerHa + TreatmentCosts(b, area).costPerHa
  {
    SumAppend(a, b, Amount);
    if area.Some? && area.value > 0.0 {
      var ta, tb := SumOf(a, Amount), SumOf(b, Amount);
      assert TreatmentCosts(a + b, area).costPerHa == (ta + tb) / area.value;
      assert TreatmentCosts(a, area).costPerHa == ta / area.value;
      assert TreatmentCosts(b, area).costPerHa == tb / area.value;
      assert (ta + tb) / area.value == ta / area.value + tb / area.value;
    }
  }

  // ---------------------------------------------------------------------------
  // FinishTreatmentView.post
  // ---------------------------------------------------------------------------

  /** A 400 response, or the call `treatment.finish_treatment(finish_date, real_water_used)`. */
  datatype FinishReply = BadRequest | Finished(finishDate: string, realWaterUsed: Option<string>)

  /** POST parameters are None when absent. */
  function FinishTreatmentPost(finishDate: Option<string>, realWaterUsed: Option<string>): (r: FinishReply)
    ensures r == BadRequest <==> finishDate.None? || finishDate.value == ""
    ensures r.Finished? ==> finishDate == Some(r.finishDate) && r.realWaterUsed == realWaterUsed
  {
    if finishDate.None? || finishDate.value == "" then BadRequest
    else Finished(finishDate.value, realWaterUsed)
  }

}
