/**
 * `<cc-pricing-page>`: the composition root. It owns the selection and the
 * currency, and reduces the "add-product", "change-quantity" and
 * "change-currency" events of its children into them.
 */
module PricingPage {
  import opened Wrappers
  import opened PricingTable
  import opened PricingProduct
  import opened Selection

  /** The selection after "add-product": a new entry with quantity 1, or the stored entry one higher. */
  function AddProduct(m: Selection, p: ProductSelected): (m': Selection)
    ensures p.item.id in m' && m'[p.item.id].Some?
    ensures IsNull(m, p.item.id) ==> m'[p.item.id] == Some(SelectedProduct(p.productName, p.item, 1))
    ensures !IsNull(m, p.item.id) ==>
      var stored := m[p.item.id].value;
      m'[p.item.id] == Some(SelectedProduct(stored.productName, stored.item, stored.quantity + 1))
    ensures forall k | k != p.item.id :: (k in m' <==> k in m) && (k in m ==> m'[k] == m[k])
  {
    var id := p.item.id;
    var entry := if IsNull(m, id) then SelectedProduct(p.productName, p.item, 0) else m[id].value;
    m[id := Some(entry.(quantity := entry.quantity + 1))]
  }

  /**
   * The selection after "change-quantity": `null` at the id when the requested quantity is not
   * positive, otherwise the stored entry with that quantity. `None` is the TypeError raised when
   * a positive quantity targets an id whose value is `null` or missing.
   */
  function ChangeQuantity(m: Selection, p: SelectedProduct): (r: Option<Selection>)
    ensures r.None? <==> p.quantity > 0 && IsNull(m, p.item.id)
    ensures r.Some? ==> p.item.id in r.value
    ensures r.Some? && p.quantity <= 0 ==> r.value[p.item.id].None?
    ensures r.Some? && p.quantity > 0 ==>
      var stored := m[p.item.id].value;
      r.value[p.item.id] == Some(SelectedProduct(stored.productName, stored.item, p.quantity))
    ensures r.Some? ==> forall k | k != p.item.id :: (k in r.value <==> k in m) && (k in m ==> r.value[k] == m[k])
  {
    var id := p.item.id;
    if p.quantity <= 0 then Some(m[id := None])
    else if IsNull(m, id) then None
    else Some(m[id := Some(m[id].value.(quantity := p.quantity))])
  }

  /** Property order after a write at `id`: a new property goes last, an existing one keeps its place. */
  function KeysAfter(keys: seq<string>, id: string): (keys': seq<string>)
    ensures id in keys'
    ensures forall k :: k in keys' <==> k in keys || k == id
    ensures Distinct(keys) ==> Distinct(keys')
    ensures id !in keys ==> keys' == keys + [id]
    ensures id in keys ==> keys' == keys
  {
    if id in keys then keys else keys + [id]
  }

  class CcPricingPage {
    var selectedProducts: Selection
    /** The enumeration order of `selectedProducts`: the order in which its keys were first written. */
    var keyOrder: seq<string>
    var currency: string

    ghost predicate Valid()
      reads this
    {
      Enumerates(keyOrder, selectedProducts) && WellFormed(selectedProducts)
    }

    constructor ()
      ensures Valid()
      ensures selectedProducts == map[] && keyOrder == [] && currency == "EUR"
    {
      selectedProducts := map[];
      keyOrder := [];
      currency := "EUR";
    }

    /** What the page binds to `.selectedProducts` of the estimation, seen through `Object.values`. */
    function Values(): (vs: seq<Option<SelectedProduct>>)
      reads this
      requires Valid()
      ensures |vs| == |keyOrder| == |selectedProducts|
      ensures forall i | 0 <= i < |keyOrder| :: vs[i] == selectedProducts[keyOrder[i]]
    {
      EnumerationSize(keyOrder, selectedProducts);
      ValuesOf(keyOrder, selectedProducts)
    }

    method OnAddProduct(p: ProductSelected)
      requires Valid()
      modifies this`selectedProducts, this`keyOrder
      ensures Valid()
      ensures selectedProducts == AddProduct(old(selectedProducts), p)
      ensures keyOrder == KeysAfter(old(keyOrder), p.item.id)
    {
      var id := p.item.id;
      keyOrder := KeysAfter(keyOrder, id);
      if id !in selectedProducts || selectedProducts[id] == None {
        selectedProducts := selectedProducts[id := Some(SelectedProduct(p.productName, p.item, 0))];
      }
      var entry := selectedProducts[id].value;
      selectedProducts := selectedProducts[id := Some(entry.(quantity := entry.quantity + 1))];
    }

    /** Returns false, changing nothing, where the source throws its TypeError. */
    method OnQuantityChanged(p: SelectedProduct) returns (ok: bool)
      requires Valid()
      modifies this`selectedProducts, this`keyOrder
      ensures Valid()
      ensures ok <==> ChangeQuantity(old(selectedProducts), p).Some?
      ensures ok ==> selectedProducts == ChangeQuantity(old(selectedProducts), p).value
      ensures ok ==> keyOrder == KeysAfter(old(keyOrder), p.item.id)
      ensures !ok ==> selectedProducts == old(selectedProducts) && keyOrder == old(keyOrder)
    {
      var id := p.item.id;
      if p.quantity <= 0 {
        keyOrder := KeysAfter(keyOrder, id);
        selectedProducts := selectedProducts[id := None];
        ok := true;
      } else if id !in selectedProducts || selectedProducts[id] == None {
        ok := false;
      } else {
        var entry := selectedProducts[id].value;
        selectedProducts := selectedProducts[id := Some(entry.(quantity := p.quantity))];
        ok := true;
      }
    }

    method OnCurrencyChanged(c: string)
      modifies this`currency
      ensures currency == c
    {
      currency := c;
    }
  }

  /** A key order enumerating a selection has one key per entry. */
  lemma {:induction false} EnumerationSize(keys: seq<string>, m: Selection)
    requires Enumerates(keys, m)
    ensures |keys| == |m|
  {
    if |keys| == 0 {
      assert m.Keys == {};
    } else {
      var last := keys[|keys| - 1];
      DropLastKey(keys, m);
      EnumerationSize(keys[..|keys| - 1], m - {last});
      assert m.Keys == (m - {last}).Keys + {last};
    }
  }

  /** Without its last key, the order enumerates the selection without that key. */
  lemma DropLastKey(keys: seq<string>, m: Selection)
    requires Enumerates(keys, m) && |keys| > 0
    ensures Enumerates(keys[..|keys| - 1], m - {keys[|keys| - 1]})
  {
    var last := keys[|keys| - 1];
    var init := keys[..|keys| - 1];
    assert Distinct(init);
    forall k | k in init ensures k != last {
      var i :| 0 <= i < |init| && init[i] == k;
      assert keys[i] == k;
    }
    forall k | k in m && k != last ensures k in init {
      var i :| 0 <= i < |keys| && keys[i] == k;
      assert init[i] == k;
    }
  }
}
