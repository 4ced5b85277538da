/**
 * The event pipeline across components: table "add-item" -> product
 * "add-product" -> page selection -> estimation total and "+"/"-" buttons
 * -> page "change-quantity".
 */
module PricingFlow {
  import opened Wrappers
  import opened PricingTable
  import opened PricingProduct
  import opened Selection
  import opened PricingEstimation
  import opened PricingPage

  /** Two adds of the same plan into an empty selection give one entry of quantity 2. */
  lemma AddTwiceFromEmpty(p: ProductSelected)
    ensures AddProduct(AddProduct(map[], p), p) == map[p.item.id := Some(SelectedProduct(p.productName, p.item, 2))]
  {
    var m := AddProduct(AddProduct(map[], p), p);
    assert m.Keys == {p.item.id};
  }

  /** A quantity of 0 or less leaves the key in place mapped to `null`; a later add starts again from 1. */
  lemma ClearThenAddRestarts(m: Selection, e: SelectedProduct, p: ProductSelected)
    requires e.quantity <= 0 && e.item.id == p.item.id
    ensures ChangeQuantity(m, e).Some?
    ensures var cleared := ChangeQuantity(m, e).value;
      && p.item.id in cleared && cleared[p.item.id].None?
      && AddProduct(cleared, p)[p.item.id] == Some(SelectedProduct(p.productName, p.item, 1))
  {
  }

  /** Clicking Add on row `i` of a product's table selects that plan under the product's title. */
  lemma {:induction false} TableAddSelectsPlan(prod: ProductProps, m: Selection, i: nat)
    requires RenderItems(InnerTable(prod).features, InnerTable(prod).items).Some?
    requires i < |prod.items|
    requires IsNull(m, prod.items[i].id)
    ensures var row := RenderItems(InnerTable(prod).features, InnerTable(prod).items).value[i];
      var m' := AddProduct(m, OnAddProduct(prod, OnAddItem(row.item)));
      m'[prod.items[i].id] == Some(SelectedProduct(prod.title, prod.items[i], 1))
  {
  }

  /** A write keeps the key order an enumeration of the selection. */
  lemma WriteKeepsEnumeration(keys: seq<string>, m: Selection, id: string, v: Option<SelectedProduct>)
    requires Enumerates(keys, m)
    ensures Enumerates(KeysAfter(keys, id), m[id := v])
  {
  }

  /** Overwriting an enumerated key changes exactly one position of the values. */
  lemma ValuesAfterOverwrite(keys: seq<string>, m: Selection, j: nat, v: Option<SelectedProduct>)
    requires Distinct(keys) && j < |keys|
    requires forall i | 0 <= i < |keys| :: keys[i] in m
    ensures ValuesOf(keys, m[keys[j] := v]) == ValuesOf(keys, m)[j := v]
  {
  }

  /** Writing a new key appends its value. */
  lemma ValuesAfterAppend(keys: seq<string>, m: Selection, id: string, v: Option<SelectedProduct>)
    requires id !in keys
    requires forall i | 0 <= i < |keys| :: keys[i] in m
    ensures ValuesOf(keys + [id], m[id := v]) == ValuesOf(keys, m) + [v]
  {
  }

  /** Overwriting an enumerated key changes the total by the difference of the two amounts. */
  lemma TotalAfterOverwrite(keys: seq<string>, m: Selection, j: nat, v: Option<SelectedProduct>)
    requires Distinct(keys) && j < |keys|
    requires forall i | 0 <= i < |keys| :: keys[i] in m
    ensures Total(ValuesOf(keys, m[keys[j] := v])) == Total(ValuesOf(keys, m)) - Amount(m[keys[j]]) + Amount(v)
  {
    ValuesAfterOverwrite(keys, m, j, v);
    TotalUpdate(ValuesOf(keys, m), j, v);
  }

  /** Writing `v` at `id` changes the total of the enumerated values by the difference of the amounts. */
  lemma TotalAfterWrite(keys: seq<string>, m: Selection, id: string, v: Option<SelectedProduct>)
    requires Enumerates(keys, m)
    ensures Enumerates(KeysAfter(keys, id), m[id := v])
    ensures Total(ValuesOf(KeysAfter(keys, id), m[id := v]))
         == Total(ValuesOf(keys, m)) - (if id in m then Amount(m[id]) else 0.0) + Amount(v)
  {
    WriteKeepsEnumeration(keys, m, id, v);
    if id in keys {
      var j :| 0 <= j < |keys| && keys[j] == id;
      TotalAfterOverwrite(keys, m, j, v);
    } else {
      ValuesAfterAppend(keys, m, id, v);
      TotalAppend(ValuesOf(keys, m), v);
    }
  }

  /** An add raises the total by the price of the plan stored under its id. */
  lemma AddRaisesTotal(keys: seq<string>, m: Selection, p: ProductSelected)
    requires Enumerates(keys, m)
    ensures Enumerates(KeysAfter(keys, p.item.id), AddProduct(m, p))
    ensures Total(ValuesOf(KeysAfter(keys, p.item.id), AddProduct(m, p)))
         == Total(ValuesOf(keys, m)) + (if IsNull(m, p.item.id) then p.item.price else m[p.item.id].value.item.price)
  {
    var id := p.item.id;
    var v := AddProduct(m, p)[id];
    assert AddProduct(m, p) == m[id := v];
    TotalAfterWrite(keys, m, id, v);
    AddAmount(m, p);
  }

  /** The value an add stores is worth one plan price more than what was stored before. */
  lemma AddAmount(m: Selection, p: ProductSelected)
    ensures Amount(AddProduct(m, p)[p.item.id])
         == (if p.item.id in m then Amount(m[p.item.id]) else 0.0)
          + (if IsNull(m, p.item.id) then p.item.price else m[p.item.id].value.item.price)
  {
    if IsNull(m, p.item.id) {
      assert LinePrice(SelectedProduct(p.productName, p.item, 1)) == p.item.price * 1.0;
    } else {
      PlusAmount(m[p.item.id].value);
    }
  }

  /** A "change-quantity" payload built from the entry stored under `k` writes at `k` and nowhere else. */
  lemma ChangeQuantityOfEntry(m: Selection, k: string, q: int)
    requires WellFormed(m) && k in m && m[k].Some?
    ensures ChangeQuantity(m, m[k].value.(quantity := q))
         == Some(m[k := if q <= 0 then None else Some(m[k].value.(quantity := q))])
  {
  }

  /**
   * The "+" button of a line of a well-formed selection never hits the TypeError: it raises the
   * entry's quantity by one, keeps the key order, and raises the total by the plan's price.
   */
  lemma PlusButtonAddsOne(keys: seq<string>, m: Selection, k: string)
    requires Enumerates(keys, m) && WellFormed(m)
    requires k in m && m[k].Some?
    ensures var e := m[k].value;
      var r := ChangeQuantity(m, OnChangeQuantity(e, PlusAction).value);
      && r.Some?
      && r.value == m[k := Some(e.(quantity := e.quantity + 1))]
      && KeysAfter(keys, k) == keys
      && Total(ValuesOf(keys, r.value)) == Total(ValuesOf(keys, m)) + e.item.price
  {
    var e := m[k].value;
    ChangeQuantityOfEntry(m, k, e.quantity + 1);
    TotalAfterPlus(keys, m, k, e);
  }

  /** The total after the "+" payload of the entry under `k` is written back. */
  lemma TotalAfterPlus(keys: seq<string>, m: Selection, k: string, e: SelectedProduct)
    requires Enumerates(keys, m) && k in m && m[k] == Some(e)
    ensures Total(ValuesOf(keys, m[k := Some(OnChangeQuantity(e, PlusAction).value)])) == Total(ValuesOf(keys, m)) + e.item.price
  {
    var j :| 0 <= j < |keys| && keys[j] == k;
    TotalAfterOverwrite(keys, m, j, Some(OnChangeQuantity(e, PlusAction).value));
    PlusAmount(e);
  }

  /**
   * The "-" button of a line of a well-formed selection never hits the TypeError: it lowers the
   * quantity by one, or sets the value to `null` when the quantity was 1, and lowers the total
   * by the plan's price in both cases.
   */
  lemma MinusButtonRemovesOne(keys: seq<string>, m: Selection, k: string)
    requires Enumerates(keys, m) && WellFormed(m)
    requires k in m && m[k].Some?
    ensures var e := m[k].value;
      var r := ChangeQuantity(m, OnChangeQuantity(e, MinusAction).value);
      && r.Some?
      && r.value == m[k := if e.quantity == 1 then None else Some(e.(quantity := e.quantity - 1))]
      && KeysAfter(keys, k) == keys
      && Total(ValuesOf(keys, r.value)) == Total(ValuesOf(keys, m)) - e.item.price
  {
    var e := m[k].value;
    ChangeQuantityOfEntry(m, k, e.quantity - 1);
    TotalAfterMinus(keys, m, k, e);
  }

  /** The total after the "-" payload of the entry under `k` is written back. */
  lemma TotalAfterMinus(keys: seq<string>, m: Selection, k: string, e: SelectedProduct)
    requires Enumerates(keys, m) && k in m && m[k] == Some(e) && e.quantity >= 1
    ensures var d := OnChangeQuantity(e, MinusAction).value;
      Total(ValuesOf(keys, m[k := if d.quantity <= 0 then None else Some(d)])) == Total(ValuesOf(keys, m)) - e.item.price
  {
    var d := OnChangeQuantity(e, MinusAction).value;
    var j :| 0 <= j < |keys| && keys[j] == k;
    TotalAfterOverwrite(keys, m, j, if d.quantity <= 0 then None else Some(d));
    MinusAmount(e);
  }

  /** A well-formed selection stays well formed under both reducers. */
  lemma ReducersKeepWellFormed(m: Selection, p: ProductSelected, e: SelectedProduct)
    requires WellFormed(m)
    ensures WellFormed(AddProduct(m, p))
    ensures ChangeQuantity(m, e).Some? ==> WellFormed(ChangeQuantity(m, e).value)
  {
  }
}
