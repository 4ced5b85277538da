/**
 * `<cc-pricing-table>`: one row per plan, one cell per global feature column,
 * and an "add-item" event carrying the plan of the clicked row.
 *
 * The lookup `itemFeatures.find(...).value` throws a TypeError when a column
 * names a feature that the plan does not list; that throw aborts the whole
 * render and is modelled as `None`.
 */
module PricingTable {
  import opened Wrappers

  /** A feature as a plan lists it: matched by `name`, displayed through its precomputed `value`. */
  datatype ItemFeature = ItemFeature(name: string, value: string)

  /** A plan. `price` is a real number: JavaScript floating-point rounding is not modelled. */
  datatype Item = Item(id: string, name: string, price: real, features: seq<ItemFeature>)

  /** A global feature column (`features` property of the table). */
  datatype Column = Column(name: string, code: string)

  /** One rendered body row: the Add button (which captures `item`), the plan name, the feature cells and the price. */
  datatype Row = Row(item: Item, name: string, cells: seq<string>, price: real)

  /** The "add-item" event. */
  datatype TableEvent = AddItem(item: Item)

  /** The table's properties; `pricingCurrency` is only used by the i18n price formatter. */
  datatype TableProps = TableProps(error: bool, skeleton: bool, items: seq<Item>, features: seq<Column>)

  /** A fresh table whose parent then binds `items` and `features`. */
  function NewTable(items: seq<Item>, features: seq<Column>): (t: TableProps)
    ensures !t.error && !t.skeleton
    ensures t.items == items && t.features == features
  {
    TableProps(false, false, items, features)
  }

  predicate Lists(fs: seq<ItemFeature>, name: string)
  {
    exists i | 0 <= i < |fs| :: fs[i].name == name
  }

  /** `Array.prototype.find` by name: the index of the FIRST feature called `name`. */
  function FindIndex(fs: seq<ItemFeature>, name: string): (r: Option<nat>)
    ensures r.None? <==> !Lists(fs, name)
    ensures r.Some? ==> r.value < |fs| && fs[r.value].name == name
    ensures r.Some? ==> forall j | 0 <= j < r.value :: fs[j].name != name
  {
    if |fs| == 0 then None
    else if fs[0].name == name then Some(0)
    else
      match FindIndex(fs[1..], name)
      case None =>
        assert forall i | 1 <= i < |fs| :: fs[i] == fs[1..][i - 1];
        None
      case Some(i) => Some(i + 1)
  }

  /** The cells of one row, in the order of the global `columns`, or `None` when a lookup fails. */
  function RenderItemFeatures(columns: seq<Column>, fs: seq<ItemFeature>): (r: Option<seq<string>>)
    ensures r.Some? <==> forall c | 0 <= c < |columns| :: Lists(fs, columns[c].name)
    ensures r.Some? ==> |r.value| == |columns|
    ensures r.Some? ==> forall c | 0 <= c < |columns| ::
      FindIndex(fs, columns[c].name).Some? && r.value[c] == fs[FindIndex(fs, columns[c].name).value].value
  {
    if |columns| == 0 then Some([])
    else
      match (FindIndex(fs, columns[0].name), RenderItemFeatures(columns[1..], fs))
      case (Some(i), Some(rest)) => Some([fs[i].value] + rest)
      case (None, _) => None
      case (_, None) =>
        assert exists c | 1 <= c < |columns| :: !Lists(fs, columns[c].name) by {
          var c' :| 0 <= c' < |columns| - 1 && !Lists(fs, columns[1..][c'].name);
          assert columns[1..][c'] == columns[c' + 1];
        }
        None
  }

  /** The row of one plan whose cells render. */
  function RowOf(columns: seq<Column>, item: Item): (row: Row)
    requires RenderItemFeatures(columns, item.features).Some?
    ensures row.item == item && row.name == item.name && row.price == item.price
    ensures Some(row.cells) == RenderItemFeatures(columns, item.features)
  {
    Row(item, item.name, RenderItemFeatures(columns, item.features).value, item.price)
  }

  /** The body rows, one per plan and in the order of `items` (no sorting), or `None` when a lookup fails. */
  function RenderItems(columns: seq<Column>, items: seq<Item>): (r: Option<seq<Row>>)
    ensures r.Some? <==> forall i | 0 <= i < |items| :: RenderItemFeatures(columns, items[i].features).Some?
    ensures r.Some? ==> |r.value| == |items|
    ensures r.Some? ==> forall i | 0 <= i < |items| ::
      && r.value[i].item == items[i]
      && r.value[i].name == items[i].name
      && r.value[i].price == items[i].price
      && Some(r.value[i].cells) == RenderItemFeatures(columns, items[i].features)
      && |r.value[i].cells| + 3 == |Header(columns)|
  {
    if forall i | 0 <= i < |items| :: RenderItemFeatures(columns, items[i].features).Some? then
      Some(seq(|items|, i requires 0 <= i < |items| => RowOf(columns, items[i])))
    else
      None
  }

  /** The header row: an empty cell, "Plan", one cell per column name, then "Price". */
  function Header(columns: seq<Column>): (h: seq<string>)
    ensures |h| == |columns| + 3
    ensures h[0] == "" && h[1] == "Plan" && h[|h| - 1] == "Price"
    ensures forall c | 0 <= c < |columns| :: h[c + 2] == columns[c].name
  {
    ["", "Plan"] + seq(|columns|, c requires 0 <= c < |columns| => columns[c].name) + ["Price"]
  }

  /** The Add button of a row: the plan it was rendered for, unchanged. */
  function OnAddItem(item: Item): (e: TableEvent)
    ensures e.item == item
  {
    AddItem(item)
  }

  predicate DistinctNames(fs: seq<ItemFeature>)
  {
    forall i, j | 0 <= i < j < |fs| :: fs[i].name != fs[j].name
  }

  /** With distinct names, the feature `find` returns is the only one of that name. */
  lemma {:induction false} FoundIsUnique(fs: seq<ItemFeature>, f: ItemFeature)
    requires DistinctNames(fs) && f in fs
    ensures FindIndex(fs, f.name).Some? && fs[FindIndex(fs, f.name).value] == f
  {
    var k :| 0 <= k < |fs| && fs[k] == f;
    var i := FindIndex(fs, f.name).value;
    assert !(i < k) && !(k < i);
  }

  /**
   * The cells do not depend on the order in which a plan lists its features:
   * two listings of the same features (each with distinct names) render the same row.
   */
  lemma {:induction false} CellsIgnoreFeatureOrder(columns: seq<Column>, fs1: seq<ItemFeature>, fs2: seq<ItemFeature>)
    requires DistinctNames(fs1) && DistinctNames(fs2)
    requires forall f :: f in fs1 <==> f in fs2
    ensures RenderItemFeatures(columns, fs1) == RenderItemFeatures(columns, fs2)
  {
    if |columns| > 0 {
      CellsIgnoreFeatureOrder(columns[1..], fs1, fs2);
      var name := columns[0].name;
      match FindIndex(fs1, name)
      case Some(i) =>
        FoundIsUnique(fs2, fs1[i]);
      case None =>
        if FindIndex(fs2, name).Some? {
          FoundIsUnique(fs1, fs2[FindIndex(fs2, name).value]);
        }
    }
  }

  /** The cells are exactly the values the lookups find, whenever every lookup succeeds. */
  lemma CellsFromLookups(columns: seq<Column>, fs: seq<ItemFeature>, expected: seq<string>)
    requires |expected| == |columns|
    requires forall c | 0 <= c < |columns| ::
      FindIndex(fs, columns[c].name).Some? && fs[FindIndex(fs, columns[c].name).value].value == expected[c]
    ensures RenderItemFeatures(columns, fs) == Some(expected)
  {
    var r := RenderItemFeatures(columns, fs);
    assert r.Some?;
    assert r.value == expected;
  }

  /**
   * When the features have distinct names and column `c` is named like feature `at[c]`,
   * the row is exactly the values of those features, in column order.
   */
  lemma CellsByPosition(columns: seq<Column>, fs: seq<ItemFeature>, at: seq<nat>, expected: seq<string>)
    requires DistinctNames(fs) && |at| == |columns| == |expected|
    requires forall c | 0 <= c < |columns| ::
      at[c] < |fs| && columns[c].name == fs[at[c]].name && fs[at[c]].value == expected[c]
    ensures RenderItemFeatures(columns, fs) == Some(expected)
  {
    forall c | 0 <= c < |columns|
      ensures FindIndex(fs, columns[c].name).Some? && fs[FindIndex(fs, columns[c].name).value] == fs[at[c]]
    {
      FoundIsUnique(fs, fs[at[c]]);
    }
    CellsFromLookups(columns, fs, expected);
  }

  /**
   * The Redis "S" plan of the catalogue stories lists its features in an order that differs from
   * the global columns; its cells still come out in column order.
   */
  lemma RedisPlanCellsFollowColumns()
    ensures RenderItemFeatures(RedisColumns(), RedisPlanS()) == Some(["Dedicated", "Dedicated", "100", "1 vCPU", "100", "100MB"])
  {
    var plan, columns := RedisPlanS(), RedisColumns();
    var expected := ["Dedicated", "Dedicated", "100", "1 vCPU", "100", "100MB"];
    var at: seq<nat> := [3, 4, 1, 5, 0, 2];
    assert DistinctNames(plan);
    CellsByPosition(columns, plan, at, expected);
  }

  function RedisPlanS(): seq<ItemFeature>
  {
    [ ItemFeature("Connection limit", "100"), ItemFeature("Databases", "100"),
      ItemFeature("Size", "100MB"), ItemFeature("Isolation", "Dedicated"),
      ItemFeature("Type", "Dedicated"), ItemFeature("CPU", "1 vCPU") ]
  }

  function RedisColumns(): seq<Column>
  {
    [ Column("Isolation", "isolation"), Column("Type", "type-shared"),
      Column("Databases", "database"), Column("CPU", "cpu"),
      Column("Connection limit", "connection-limit"), Column("Size", "disk-size") ]
  }
}
