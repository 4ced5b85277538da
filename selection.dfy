/**
 * The selection the pricing page owns: `_selectedProducts`, an object keyed by
 * plan id whose values are a selected product or `null`.
 */
module Selection {
  import opened Wrappers
  import opened PricingTable

  /** A selected product `{ productName, item, quantity }`. */
  datatype SelectedProduct = SelectedProduct(productName: string, item: Item, quantity: int)

  /** The selection object; `None` is a key set to `null`. */
  type Selection = map<string, Option<SelectedProduct>>

  /** `selection[id] == null` in JavaScript: the key is absent or holds `null`. */
  predicate IsNull(m: Selection, id: string)
  {
    id !in m || m[id].None?
  }

  /** What the page keeps true of every non-null entry: it sits under its own item's id and has a positive quantity. */
  ghost predicate WellFormed(m: Selection)
  {
    forall k | k in m && m[k].Some? :: m[k].value.item.id == k && m[k].value.quantity >= 1
  }

  predicate Distinct(keys: seq<string>)
  {
    forall i, j | 0 <= i < j < |keys| :: keys[i] != keys[j]
  }

  /** `keys` is the object's property order: each key of `m` exactly once. */
  ghost predicate Enumerates(keys: seq<string>, m: Selection)
  {
    Distinct(keys) && forall k :: k in keys <==> k in m
  }

  /** `Object.values(m)` when the properties are enumerated in the order `keys`. */
  function ValuesOf(keys: seq<string>, m: Selection): (vs: seq<Option<SelectedProduct>>)
    requires forall i | 0 <= i < |keys| :: keys[i] in m
    ensures |vs| == |keys|
    ensures forall i | 0 <= i < |keys| :: vs[i] == m[keys[i]]
  {
    seq(|keys|, i requires 0 <= i < |keys| => m[keys[i]])
  }
}
