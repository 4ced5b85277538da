/**
 * `<cc-pricing-product>`: a title and description above a `<cc-pricing-table>`,
 * relaying each "add-item" from the table as an "add-product" naming the product.
 */
module PricingProduct {
  import opened PricingTable

  /** The "add-product" payload `{ productName, item }`. */
  datatype ProductSelected = ProductSelected(productName: string, item: Item)

  datatype ProductProps = ProductProps(
    icon: string, title: string, description: string,
    error: bool, skeleton: bool,
    items: seq<Item>, features: seq<Column>)

  /** A fresh product component whose parent then binds its other properties. */
  function NewProduct(icon: string, title: string, description: string, items: seq<Item>, features: seq<Column>): (p: ProductProps)
    ensures !p.error && !p.skeleton
    ensures p.title == title && p.items == items && p.features == features
    ensures p.icon == icon && p.description == description
  {
    ProductProps(icon, title, description, false, false, items, features)
  }

  /**
   * The table the product renders. Only `items` and `features` are bound;
   * the table's `error` and `skeleton` keep their defaults whatever the product's are.
   */
  function InnerTable(p: ProductProps): (t: TableProps)
    ensures t.items == p.items && t.features == p.features
    ensures !t.error && !t.skeleton
  {
    NewTable(p.items, p.features)
  }

  /** Handler of "add-item": the product's title becomes `productName`, the item passes through. */
  function OnAddProduct(p: ProductProps, e: TableEvent): (out: ProductSelected)
    ensures out.productName == p.title
    ensures out.item == e.item
  {
    ProductSelected(p.title, e.item)
  }

  /** The "add-product" events emitted for a sequence of received "add-item" events: exactly one each, in order. */
  function Relay(p: ProductProps, received: seq<TableEvent>): (emitted: seq<ProductSelected>)
    ensures |emitted| == |received|
    ensures forall i | 0 <= i < |received| ::
      emitted[i].productName == p.title && emitted[i].item == received[i].item
  {
    if |received| == 0 then []
    else [OnAddProduct(p, received[0])] + Relay(p, received[1..])
  }
}
