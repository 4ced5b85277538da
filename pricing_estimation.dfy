/**
 * `<cc-pricing-estimation>`: one line per non-null selected product with "+"/"-"
 * buttons, and the total price accumulated while the lines are rendered.
 */
module PricingEstimation {
  import opened Wrappers
  import opened PricingTable
  import opened Selection

  /** The action names of the two buttons are swapped relative to their labels. */
  const PlusAction := "remove"
  const MinusAction := "add"

  /** One line: the buttons (which capture `product`), product name, plan name, quantity and line price. */
  datatype Line = Line(product: SelectedProduct, productName: string, itemName: string, quantity: int, price: real)

  /** The amount passed to the price formatter for one line. */
  function LinePrice(p: SelectedProduct): real
  {
    p.item.price * p.quantity as real
  }

  function LineOf(p: SelectedProduct): (l: Line)
    ensures l.product == p && l.quantity == p.quantity && l.price == LinePrice(p)
    ensures l.productName == p.productName && l.itemName == p.item.name
  {
    Line(p, p.productName, p.item.name, p.quantity, LinePrice(p))
  }

  /** What one value of the selection adds to the total: nothing for `null`. */
  function Amount(v: Option<SelectedProduct>): real
  {
    if v.Some? then LinePrice(v.value) else 0.0
  }

  /** The sum of `price * quantity` over the non-null values, in enumeration order. */
  function Total(vs: seq<Option<SelectedProduct>>): real
  {
    if |vs| == 0 then 0.0 else Total(vs[..|vs| - 1]) + Amount(vs[|vs| - 1])
  }

  /** The rendered lines: one per non-null value, in enumeration order. */
  function Lines(vs: seq<Option<SelectedProduct>>): seq<Line>
  {
    if |vs| == 0 then []
    else Lines(vs[..|vs| - 1]) + (if vs[|vs| - 1].Some? then [LineOf(vs[|vs| - 1].value)] else [])
  }

  function SumPrices(ls: seq<Line>): real
  {
    if |ls| == 0 then 0.0 else SumPrices(ls[..|ls| - 1]) + ls[|ls| - 1].price
  }

  function CountSelected(vs: seq<Option<SelectedProduct>>): nat
  {
    if |vs| == 0 then 0 else CountSelected(vs[..|vs| - 1]) + (if vs[|vs| - 1].Some? then 1 else 0)
  }

  /** Handler of the two buttons: a copy of the product with only `quantity` moved by one, or no event. */
  function OnChangeQuantity(p: SelectedProduct, action: string): (e: Option<SelectedProduct>)
    ensures e.Some? <==> action == PlusAction || action == MinusAction
    ensures e.Some? ==> e.value.productName == p.productName && e.value.item == p.item
    ensures action == PlusAction ==> e.Some? && e.value.quantity == p.quantity + 1
    ensures action == MinusAction ==> e.Some? && e.value.quantity == p.quantity - 1
  {
    if action == PlusAction then Some(p.(quantity := p.quantity + 1))
    else if action == MinusAction then Some(p.(quantity := p.quantity - 1))
    else None
  }

  class CcPricingEstimation {
    /** `Object.values(selectedProducts)`, in the object's enumeration order. */
    var selectedProducts: seq<Option<SelectedProduct>>
    var totalPrice: real

    constructor ()
      ensures selectedProducts == [] && totalPrice == 0.0
    {
      selectedProducts := [];
      totalPrice := 0.0;
    }

    /** Renders the lines; `totalPrice` is reset and re-accumulated, so it never depends on its old value. */
    method RenderSelProducts() returns (lines: seq<Line>)
      modifies this`totalPrice
      ensures totalPrice == Total(selectedProducts)
      ensures lines == Lines(selectedProducts)
    {
      totalPrice := 0.0;
      lines := [];
      var i := 0;
      while i < |selectedProducts|
        invariant 0 <= i <= |selectedProducts|
        invariant totalPrice == Total(selectedProducts[..i])
        invariant lines == Lines(selectedProducts[..i])
      {
        var p := selectedProducts[i];
        assert selectedProducts[..i + 1][..i] == selectedProducts[..i];
        if p != None {
          totalPrice := totalPrice + p.value.item.price * p.value.quantity as real;
          lines := lines + [LineOf(p.value)];
        }
        i := i + 1;
      }
      assert selectedProducts[..i] == selectedProducts;
    }
  }

  /** Moving the quantity by `d` moves the line price by `d` times the plan's price. */
  lemma LinePriceShift(p: SelectedProduct, d: int)
    ensures LinePrice(p.(quantity := p.quantity + d)) == LinePrice(p) + d as real * p.item.price
  {
    assert (p.quantity + d) as real == p.quantity as real + d as real;
  }

  /** The line a "+" payload would show is worth one plan price more than the line it came from. */
  lemma PlusAmount(p: SelectedProduct)
    ensures Amount(Some(OnChangeQuantity(p, PlusAction).value)) == Amount(Some(p)) + p.item.price
  {
    LinePriceShift(p, 1);
  }

  /**
   * A "-" payload of a line with quantity 1 clears the entry, otherwise it lowers the quantity;
   * either way the amount drops by one plan price.
   */
  lemma MinusAmount(p: SelectedProduct)
    requires p.quantity >= 1
    ensures var e := OnChangeQuantity(p, MinusAction).value;
      Amount(if e.quantity <= 0 then None else Some(e)) == Amount(Some(p)) - p.item.price
  {
    if p.quantity == 1 {
      assert LinePrice(p) == p.item.price * 1.0;
    } else {
      LinePriceShift(p, -1);
    }
  }

  /** Appending a value adds exactly its amount. */
  lemma TotalAppend(vs: seq<Option<SelectedProduct>>, v: Option<SelectedProduct>)
    ensures Total(vs + [v]) == Total(vs) + Amount(v)
  {
    assert (vs + [v])[..|vs|] == vs;
  }

  /** Replacing one value changes the total by exactly the difference of the two amounts. */
  lemma {:induction false} TotalUpdate(vs: seq<Option<SelectedProduct>>, i: nat, v: Option<SelectedProduct>)
    requires i < |vs|
    ensures Total(vs[i := v]) == Total(vs) - Amount(vs[i]) + Amount(v)
  {
    var n := |vs| - 1;
    assert vs[i := v][..n] == if i == n then vs[..n] else vs[..n][i := v];
    if i < n {
      TotalUpdate(vs[..n], i, v);
    }
  }

  /** A selection that is empty or all `null` totals 0 and renders no line. */
  lemma {:induction false} AllNullTotalsZero(vs: seq<Option<SelectedProduct>>)
    requires forall i | 0 <= i < |vs| :: vs[i].None?
    ensures Total(vs) == 0.0 && Lines(vs) == []
  {
    if |vs| > 0 {
      AllNullTotalsZero(vs[..|vs| - 1]);
    }
  }

  /** The displayed line prices add up to the displayed total, and there is one line per non-null value. */
  lemma {:induction false} LinesAddUpToTotal(vs: seq<Option<SelectedProduct>>)
    ensures SumPrices(Lines(vs)) == Total(vs)
    ensures |Lines(vs)| == CountSelected(vs)
  {
    if |vs| > 0 {
      var init := vs[..|vs| - 1];
      LinesAddUpToTotal(init);
      var extra := if vs[|vs| - 1].Some? then [LineOf(vs[|vs| - 1].value)] else [];
      assert Lines(vs) == Lines(init) + extra;
      assert Lines(init) + [] == Lines(init);
      assert (Lines(init) + extra)[..|Lines(init)|] == Lines(init);
    }
  }

  /** With non-negative prices and quantities the total is never negative. */
  lemma {:induction false} TotalNonNegative(vs: seq<Option<SelectedProduct>>)
    requires forall i | 0 <= i < |vs| :: vs[i].Some? ==> vs[i].value.item.price >= 0.0 && vs[i].value.quantity >= 0
    ensures Total(vs) >= 0.0
  {
    if |vs| > 0 {
      TotalNonNegative(vs[..|vs| - 1]);
    }
  }
}
