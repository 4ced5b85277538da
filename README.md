# Pricing widgets and text input, modelled in Dafny

This project models the logic of the pricing widgets of clever-components and of
its `cc-input-text` atom. The pricing widgets form one event pipeline:

1. `<cc-pricing-table>` renders one row per plan. Each row has one cell per global
   feature column, in column order. Its Add button emits "add-item" with the plan.
2. `<cc-pricing-product>` relays "add-item" as "add-product" `{ productName, item }`,
   where `productName` is its own title.
3. `<cc-pricing-page>` owns the selection: an object keyed by plan id whose values
   are `{ productName, item, quantity }` or `null`. It also owns the currency.
4. `<cc-pricing-estimation>` renders one line per non-null entry and sums
   `price × quantity` into its total. Its "+"/"-" buttons emit "change-quantity"
   with a copy of the entry whose quantity is one higher or one lower. The page
   then reduces that event.

Modules:

- `Wrappers` holds `Option`, which stands for `null`/`undefined` and for "no event".
- `PricingTable` holds plans, columns, row and header rendering, and the Add event.
- `PricingProduct` holds the relay and the properties it forwards to the table.
- `Selection` holds the selection object and its enumeration order.
- `PricingEstimation` holds the total, the lines, the ± payloads and the
  `CcPricingEstimation` class, whose render loop resets and accumulates `totalPrice`.
- `PricingPage` holds the reducers `AddProduct` and `ChangeQuantity`, and the
  `CcPricingPage` class. That class keeps the selection map, its key order and the currency.
- `PricingFlow` holds lemmas across components. For example, an Add click selects
  the plan under the product's title. The "+"/"-" buttons never reach the
  page's TypeError, and each one moves the total by exactly the plan's price.
- `InputText` holds the `CcInputText` class: row count, disabled flag, clipboard
  button, input handler and copy-confirmation flag.

Event dispatch is modelled as a returned value: a handler returns its payload,
or `None` when it emits nothing. A JavaScript TypeError is modelled as `None`.
This covers a failed feature lookup in the table, and a positive quantity sent for a
plan whose entry is `null` or missing. Prices are `real` numbers. Quantities are
integers.

Some behaviour of the code worth stating outright:

- Columns are matched to plan features by `name`. The `code` field is not used.
- Plans are not sorted.
- A quantity of 0 or less sets the value to `null` and leaves the key in place.
- The "+" button's action is named `'remove'` and the "-" button's is named `'add'`.
  The emitted quantities are still +1 and −1.

## Model

| member | source | states |
|---|---|---|
| PricingTable.NewTable | src/pricing/cc-pricing-table.js:73-77 | a new table has `error` and `skeleton` false, with the bound items and features |
| PricingTable.FindIndex | src/pricing/cc-pricing-table.js:102 | `find` by name: none iff no feature has that name, otherwise the index of the first feature with that name |
| PricingTable.RenderItemFeatures | src/pricing/cc-pricing-table.js:100-105 | the row's cells exist iff every column name occurs among the plan's features; then there is one cell per column, in column order, holding the value of the first feature of that name |
| PricingTable.RowOf | src/pricing/cc-pricing-table.js:83-92 | the row keeps the plan, its name and its price, and its cells are the rendering of the plan's features for the columns, one per column |
| PricingTable.RenderItems | src/pricing/cc-pricing-table.js:83-92 | the rows render iff every plan's cells render; then there is one row per plan in `items` order, and each row carries its plan unchanged (the Add payload), the plan's name and price, and as many cells as the header has feature columns |
| PricingTable.OnAddItem | src/pricing/cc-pricing-table.js:111-113 | the Add button of a row emits an "add-item" event carrying that row's plan, unchanged |
| PricingTable.Header | src/pricing/cc-pricing-table.js:119-124 | the header is an empty cell, "Plan", one cell per column name in order, then "Price" |
| PricingTable.FoundIsUnique | src/pricing/cc-pricing-table.js:102 | when names are distinct, `find` returns the one feature with the searched name |
| PricingTable.CellsIgnoreFeatureOrder | src/pricing/cc-pricing-table.js:94-105 | two listings of the same features (distinct names) render identical cells, whatever order the plan lists them in |
| PricingTable.CellsFromLookups | src/pricing/cc-pricing-table.js:100-105 | when every lookup succeeds, the cells are exactly the looked-up values |
| PricingTable.CellsByPosition | src/pricing/cc-pricing-table.js:100-105 | when column `c` names feature `at[c]` (distinct names), the cells are those features' values in column order |
| PricingTable.RedisPlanCellsFollowColumns | src/pricing/cc-pricing-table.js:100-105 | the Redis "S" plan (data of stories/pricing/cc-pricing-table.stories.js) lists features in another order than the columns, yet renders its cells in column order |
| PricingProduct.NewProduct | src/pricing/cc-pricing-product.js:73-77 | a new product has `error` and `skeleton` false |
| PricingProduct.InnerTable | src/pricing/cc-pricing-product.js:96-100 | the inner table receives `items` and `features` unchanged; its `error` and `skeleton` stay false, because they are not forwarded |
| PricingProduct.OnAddProduct | src/pricing/cc-pricing-product.js:83-86 | the "add-product" payload has `productName` equal to the product title and carries the received item unchanged |
| PricingProduct.Relay | src/pricing/cc-pricing-product.js:83-86 | exactly one "add-product" per "add-item", in order, each naming the title and carrying its item |
| Selection.ValuesOf | src/pricing/cc-pricing-estimation.js:99 | `Object.values` in a given key order: one value per key, the value at position `i` being that of key `i` |
| PricingEstimation.LineOf | src/pricing/cc-pricing-estimation.js:102-112 | a line shows its entry's product name, plan name and quantity, and the amount `item.price × quantity` |
| PricingEstimation.OnChangeQuantity | src/pricing/cc-pricing-estimation.js:119-126 | an event is emitted iff the action is `'remove'` or `'add'`; `'remove'` ("+") gives quantity + 1 and `'add'` ("-") gives quantity − 1; productName and item are unchanged |
| PricingEstimation.CcPricingEstimation.constructor | src/pricing/cc-pricing-estimation.js:79-86 | a new estimation has an empty selection and total 0 |
| PricingEstimation.CcPricingEstimation.RenderSelProducts | src/pricing/cc-pricing-estimation.js:97-117 | after rendering, `totalPrice` is the sum of `price × quantity` over non-null entries, whatever its old value; the lines are one per non-null entry in enumeration order |
| PricingEstimation.LinePriceShift | src/pricing/cc-pricing-estimation.js:111 | moving the quantity by `d` moves the line amount by `d × price` |
| PricingEstimation.PlusAmount | src/pricing/cc-pricing-estimation.js:120-122 | the line a "+" payload describes is worth one plan price more than the line it came from |
| PricingEstimation.MinusAmount | src/pricing/cc-pricing-estimation.js:123-125 | for a quantity ≥ 1, the value a "-" payload leads to (`null` at quantity 1) is worth one plan price less |
| PricingEstimation.TotalAppend | src/pricing/cc-pricing-estimation.js:98-101 | one more value adds exactly its amount (0 for `null`) |
| PricingEstimation.TotalUpdate | src/pricing/cc-pricing-estimation.js:98-101 | replacing one value changes the total by exactly the difference of the two amounts |
| PricingEstimation.AllNullTotalsZero | src/pricing/cc-pricing-estimation.js:98-101 | an empty or all-`null` selection totals 0 and renders no line |
| PricingEstimation.LinesAddUpToTotal | src/pricing/cc-pricing-estimation.js:99-112 | the line amounts add up to the total, and there is one line per non-null entry |
| PricingEstimation.TotalNonNegative | src/pricing/cc-pricing-estimation.js:101 | with non-negative prices and quantities the total is non-negative |
| PricingPage.AddProduct | src/pricing/cc-pricing-page.js:126-133 | an add to a null or missing id creates `{productName, item, quantity: 1}`; otherwise it raises the stored quantity by 1 and keeps the stored productName and item; every other key keeps its value |
| PricingPage.ChangeQuantity | src/pricing/cc-pricing-page.js:135-141 | a quantity ≤ 0 sets the id to `null` (the key stays); a positive quantity overwrites the stored quantity; a positive quantity on a null or missing id is the TypeError; every other key keeps its value |
| PricingPage.KeysAfter | src/pricing/cc-pricing-page.js:126-141 | writing a new key appends it to the enumeration order; writing an existing key leaves the order unchanged; keys stay distinct |
| PricingPage.CcPricingPage.constructor | src/pricing/cc-pricing-page.js:83-87 | a new page has an empty selection and currency `'EUR'` |
| PricingPage.CcPricingPage.Values | src/pricing/cc-pricing-page.js:188-194 | what the estimation receives: one value per key, in the selection's enumeration order |
| PricingPage.CcPricingPage.OnAddProduct | src/pricing/cc-pricing-page.js:126-133 | the selection becomes `AddProduct` of the old one, and the page invariant (positive quantities, entries under their own id, key order) is kept |
| PricingPage.CcPricingPage.OnQuantityChanged | src/pricing/cc-pricing-page.js:135-141 | the selection becomes `ChangeQuantity` of the old one; where the source throws, nothing changes; the page invariant is kept |
| PricingPage.CcPricingPage.OnCurrencyChanged | src/pricing/cc-pricing-page.js:143-146 | the currency is replaced; only the currency field may change, so the selection is untouched |
| PricingPage.EnumerationSize | src/pricing/cc-pricing-page.js:126-141 | a key order enumerating the selection has exactly one key per entry |
| PricingPage.DropLastKey | src/pricing/cc-pricing-page.js:126-141 | dropping the last key of an enumeration leaves an enumeration of the selection without that key |
| PricingFlow.AddTwiceFromEmpty | src/pricing/cc-pricing-page.js:126-133 | adding the same plan twice to an empty selection yields one entry with quantity 2 |
| PricingFlow.ClearThenAddRestarts | src/pricing/cc-pricing-page.js:128-137 | a quantity change to ≤ 0 leaves the key mapped to `null`; a later add of that id starts again at quantity 1 |
| PricingFlow.TableAddSelectsPlan | src/pricing/cc-pricing-product.js:83-86 | clicking Add on row `i` of a product's table, relayed by the product into the page, selects plan `i` under the product's title with quantity 1 |
| PricingFlow.WriteKeepsEnumeration | src/pricing/cc-pricing-page.js:126-141 | a write at any id keeps the key order an enumeration of the selection |
| PricingFlow.ValuesAfterOverwrite | src/pricing/cc-pricing-page.js:126-141 | overwriting an existing key changes exactly one position of the values |
| PricingFlow.ValuesAfterAppend | src/pricing/cc-pricing-page.js:126-141 | writing a new key appends its value to the values |
| PricingFlow.TotalAfterOverwrite | src/pricing/cc-pricing-estimation.js:98-101 | overwriting the value of an enumerated key changes the total by the new amount minus the old one |
| PricingFlow.TotalAfterWrite | src/pricing/cc-pricing-estimation.js:98-101 | after a write at one id, the estimation total differs only by the old and new amounts at that id |
| PricingFlow.AddRaisesTotal | src/pricing/cc-pricing-page.js:126-133 | an add raises the estimation total by exactly the price of the plan stored under its id |
| PricingFlow.AddAmount | src/pricing/cc-pricing-page.js:126-133 | the value an add stores is worth the old value's amount (0 for `null` or missing) plus one plan price |
| PricingFlow.PlusButtonAddsOne | src/pricing/cc-pricing-estimation.js:119-122 | on a well-formed selection, "+" never reaches the TypeError; it raises that entry's quantity by 1, keeps the key order and raises the total by the plan's price |
| PricingFlow.ChangeQuantityOfEntry | src/pricing/cc-pricing-page.js:135-141 | a "change-quantity" payload copied from a stored entry writes `null` (quantity ≤ 0) or the entry with the new quantity at that key, and nothing else |
| PricingFlow.TotalAfterPlus | src/pricing/cc-pricing-estimation.js:120-122 | writing back the "+" payload of an entry raises the estimation total by the plan's price |
| PricingFlow.MinusButtonRemovesOne | src/pricing/cc-pricing-estimation.js:123-125 | on a well-formed selection, "-" never reaches the TypeError; it lowers the quantity by 1, or sets `null` at quantity 1; it keeps the key order and lowers the total by the plan's price |
| PricingFlow.TotalAfterMinus | src/pricing/cc-pricing-estimation.js:123-125 | writing back the "-" payload of an entry with quantity ≥ 1 lowers the estimation total by the plan's price |
| PricingFlow.ReducersKeepWellFormed | src/pricing/cc-pricing-page.js:126-141 | both reducers keep every non-null entry under its own plan id with quantity ≥ 1 |
| InputText.Split | components/atoms/cc-input-text.js:96 | `split` on one separator character returns at least one piece, and no piece contains the separator |
| InputText.SplitCount | components/atoms/cc-input-text.js:96 | there is one piece more than there are separators |
| InputText.JoinSplit | components/atoms/cc-input-text.js:96 | joining the pieces with the separator gives the string back |
| InputText.RowCount | components/atoms/cc-input-text.js:96 | the row count is the number of `'\n'` in the value plus 1, and 1 for the empty value |
| InputText.CcInputText.constructor | components/atoms/cc-input-text.js:59-65 | `name`, `value` and `placeholder` are empty and `_copyOk` is false |
| InputText.CcInputText.Render | components/atoms/cc-input-text.js:94-141 | a textarea with the row count iff `multi`, else a text input; the control is disabled iff `disabled` or `skeleton`; the clipboard button shows iff `clipboard && !disabled && !skeleton`; when it shows, it is enabled, and it shows the tick iff `_copyOk` |
| InputText.CcInputText.OnInput | components/atoms/cc-input-text.js:71-74 | `value` becomes the input's value, and that same value is emitted |
| InputText.CcInputText.OnCopied | components/atoms/cc-input-text.js:82-85 | when the copy succeeds, the tick shows (`_copyOk` true) |
| InputText.CcInputText.OnCopyTimeout | components/atoms/cc-input-text.js:85 | when the timer fires, the clipboard icon is back (`_copyOk` false) |

## Left out

- Markup and styles are not modelled: lit templates, CSS and `classMap`. Rows, lines and views are values.
- The `cc-img` and `cc-button` children are not modelled.
- The i18n formatting of prices and labels is a foreign call. Only the numeric amount passed to it is kept.
- `dispatchCustomEvent` is not modelled. Each handler returns its payload instead.
- The estimation's resize observation (`withResizeObserver`, `breakpoints`) is asynchronous and external.
- The clipboard-copy promise and `setTimeout` are asynchronous. Only their two callbacks are modelled (`OnCopied`, `OnCopyTimeout`), not their scheduling.
- `_onFocus` text selection, `_stopPropagation` and `focus()` are DOM behaviour and are not modelled.
- The page's object identity is not modelled: the fresh-object reassignment, and entry objects shared by page and estimation. Dafny maps are values.
- `console.log` in the currency handler is not modelled.
- The template stubs are not modelled: the `one` getter/setter, `publicMethod`, `MY_AWESOME_CONST` and `SKELETON_FOOBAR`.
- The page's `_renderProducts` and `render` only bind properties into markup. Only what the estimation receives is modelled (`Values`).
- src/pricing/cc-pricing-header.js is not part of this model. Its `render` is fixed placeholder markup.
- Prices are `real`. JavaScript floating-point rounding is not modelled.
- Quantities are integers. A fractional quantity in a hand-made event is not modelled.
- A feature `value` is a string, the precomputed display text. A missing `value` (rendered as `undefined`) is not modelled.
- InputText.RowCount: takes `value` as a string. The `|| ''` fallback for an `undefined` or `null` value is not modelled.
- PricingPage.KeysAfter: key order is modelled as first-write order. JavaScript puts integer-like keys first in ascending order. Plan ids are `plan_…` strings, so the two orders agree on them.
- PricingPage.AddProduct: plan ids are treated as plain own keys of the selection, and so are they in PricingPage.ChangeQuantity. An id naming an `Object.prototype` member is not modelled. For `"toString"` the inherited function is not `== null`, so an add writes `quantity` onto it and selects nothing, and a positive quantity change does not throw. For `"__proto__"` a write replaces the object's prototype instead of creating a key.
- InputText.CcInputText.constructor: unset boolean properties are modelled as false. In JavaScript they are `undefined`, which has the same effect in every condition of `render`.
