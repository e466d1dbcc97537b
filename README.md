# Invoice form of one:64.vault — a Dafny model

The application is a single-page invoice form for a toy-car shop. The shop owner
picks catalogue products (each with a quantity), adds free-form custom line items,
enters the customer's details, shipping and the amount paid, and sees a live
invoice preview. This project models the form's state and its pricing:

- the record types of `types.ts` and the three-product catalogue of `constants.ts`
  (`types.dfy`, `catalog.dfy`);
- every handler of `App` as a pure map from the previous `InvoiceState` to the next
  one (`invoice.dfy`), and the component that owns the state and replaces it through
  `setState`, as the class `Form.InvoiceForm` whose methods are proved equal to those
  maps and keep the invariant "every stored quantity is at least 1" (`form.dfy`);
- the derived subtotal, final total and balance (`pricing.dfy`). The source folds
  over `Object.entries(selectedProducts)`, whose order Dafny cannot know, so the fold
  is modelled over ANY listing of the map, and `Pricing.StandardSubtotal` proves that
  every listing gives the same catalogue-order sum;
- the decisions `InvoicePreview` makes: the combined item list, the placeholder row,
  the payment banner, the `'---'` / `'Custom Item'` fallbacks, the logo or wordmark,
  and the DD/MM/YYYY date (`preview.dfy`, with `decimal.dfy` for `String(n)` and
  `padStart`).

Money is exact `real` and quantities are `int`: this abstracts JavaScript's IEEE
doubles (no rounding, no `NaN`). The results of `parseInt` / `parseFloat` are an
`Option` (`None` for an entry that does not parse), which the `|| 1` / `|| 0`
coercions of the inputs turn into a number. `Date.now()` is a parameter `now: nat`,
and the date shown is built from day, 0-based month and year given as parameters.

The JavaScript test `selectedProducts[id]` is truthiness: the key is present and its
quantity is not 0. It is modelled as such (`Invoice.Selected`); under the invariant
every handler keeps, it is plain membership (`Invoice.SelectedIsPresence`).

Facts about the code that the model keeps as they are:
- `handleQuantityChange` inserts the key even for a product that is not selected
  (App.tsx:47-50); the quantity box is rendered only for a key that is present
  (App.tsx:207), so the form never does this;
- the custom-item price and quantity boxes only coerce an unparseable entry (and, for
  quantity, 0) to 0 / 1, and the shipping and paid boxes coerce an unparseable entry to 0;
  negative entries are kept as typed in all four (App.tsx:232, 241, 264-265);
- no handler checks that an id is a catalogue id; an unknown id is charged 0 and not
  shown, and the form only ever passes catalogue ids (App.tsx:198-208).

Two custom items added within the same millisecond get the same id
(`Invoice.SameInstantAddsCollide`: one removal then deletes both).

## Model

| member | source | states |
|---|---|---|
| `Catalog.ProductsWellFormed` | constants.ts:4-8 | the catalogue has three products with distinct ids, non-negative prices, and mainline 179, silver 299, premium 549 |
| `Types.LineTotal` | App.tsx:85 | `price * quantity` of one row, as written (also the line total at App.tsx:359); `Preview.ItemRowsTotal` and `Pricing.CustomSumAppend` give its sums |
| `Catalog.Find` | App.tsx:82 | `PRODUCTS.find` is `None` exactly when no product has the id; otherwise it is the first product carrying that id |
| `Catalog.UnitPriceOfListed` | App.tsx:82-83 | with distinct ids, the price looked up for a listed product's id is that product's price |
| `Catalog.UnitPrice` | App.tsx:82-83 | `product?.price || 0`: 0 for an id no product carries, otherwise the price of a product with that id |
| `Invoice.InitialState` | App.tsx:11-18 | the `useState` initial value, as written; `Preview.ExampleEmptyInvoice` gives its preview and totals |
| `Invoice.Selected` | App.tsx:34 | the truthiness test `selectedProducts[id]` (also App.tsx:304): it holds only for a present key; `Invoice.SelectedIsPresence` gives it as membership |
| `Invoice.SelectedIsPresence` | App.tsx:34 | while all quantities are at least 1, the truthiness test is exactly key membership |
| `Invoice.ToggleProduct` | App.tsx:31-41 | a selected id is removed, any other id is added with quantity 1; every other key and every other field is unchanged |
| `Invoice.ToggleTwiceUnselected` | App.tsx:31-41 | toggling an unselected product twice restores the original state |
| `Invoice.ToggleTwiceSelected` | App.tsx:31-41 | toggling a selected product off and on resets its quantity to 1, losing any custom quantity |
| `Invoice.ToggleKeepsPositive` | App.tsx:31-41 | toggling keeps every stored quantity at least 1 |
| `Invoice.ClampQuantity` | App.tsx:44 | `Math.max(1, q)`: at least 1 and at least q, and equal to one of them |
| `Invoice.ChangeQuantity` | App.tsx:43-52 | stores exactly `max(1, q)` under the id (inserting it if absent); every other key and field is unchanged |
| `Invoice.ChangeQuantityKeepsPositive` | App.tsx:43-52 | a quantity change keeps every stored quantity at least 1 |
| `Invoice.QuantityInput` | App.tsx:208 | `parseInt(text) || 1`: never 0; an unparseable entry or 0 becomes 1; any other number passes through |
| `Invoice.CustomId` | App.tsx:56 | `custom-${Date.now()}`: the prefix `custom-` followed by the clock reading's decimal digits |
| `Invoice.NewCustomItem` | App.tsx:55-60 | the blank item literal, as written; `Invoice.AddCustomItem` states what it is |
| `Invoice.CustomIdInjective` | App.tsx:56 | `custom-${now}` ids from different clock readings differ |
| `Invoice.AddCustomItem` | App.tsx:54-62 | the list grows by exactly one item at the end (id from the clock, name empty, price 0, quantity 1); the prefix and all other fields are unchanged |
| `Invoice.ApplyUpdate` | App.tsx:68 | `{ ...item, [field]: value }` changes the named field only |
| `Invoice.FloatInput` | App.tsx:232 | `parseFloat(text) || 0` of the price, shipping and paid boxes: an unparseable entry becomes 0, a number is kept, and the result is negative exactly when a negative number was typed |
| `Invoice.UpdateItems` | App.tsx:67-69 | the mapped list has the same length and order; items with the id are updated, all others are identical |
| `Invoice.UpdateCustomItem` | App.tsx:64-71 | `updateCustomItem` preserves length and order, changes only the named field of the items carrying the id, and no other field of the state |
| `Invoice.UpdateAbsentIsNoOp` | App.tsx:64-71 | updating an id no item carries leaves the state unchanged |
| `Invoice.Without` | App.tsx:76 | the filter drops exactly the items carrying the id: its length falls by their count and it keeps every other item |
| `Invoice.WithoutAppend` | App.tsx:76 | the filter distributes over concatenation, so the remaining items keep their relative order |
| `Invoice.WithoutAbsent` | App.tsx:76 | filtering out an id no item carries gives the same list |
| `Invoice.RemoveCustomItem` | App.tsx:73-78 | `removeCustomItem` removes every item with the id, keeps all others, and changes no other field |
| `Invoice.RemoveAbsentIsNoOp` | App.tsx:73-78 | removing an id no item carries is a no-op |
| `Invoice.RemoveUndoesAdd` | App.tsx:54-78 | removing the item just added, when its id was new, restores the previous state |
| `Invoice.SameInstantAddsCollide` | App.tsx:56 | two items added at the same clock reading share an id, so one removal deletes both and leaves exactly the earlier list filtered by that id |
| `Invoice.SetCustomerField` | App.tsx:189-191 | each customer input writes its own field and nothing else |
| `Invoice.SetShipping` | App.tsx:264 | the shipping input writes `shippingCharges` and no other field |
| `Invoice.SetAmountPaid` | App.tsx:265 | the paid input writes `amountPaid` and no other field |
| `Invoice.SetLogo` | App.tsx:180 | setting or clearing the logo writes `logo` and no other field |
| `Pricing.CatalogSum` | App.tsx:81-84 | reference definition of the catalogue part: price times quantity of each selected catalogue product, in catalogue order; `Pricing.StandardSubtotal` ties the source's fold to it |
| `Pricing.EntriesSum` | App.tsx:81-84 | the left fold over a listing of `Object.entries`, as written; `Pricing.StandardSubtotal` gives its value |
| `Pricing.CustomSum` | App.tsx:85 | the left fold over the custom items, as written; `Pricing.CustomSumAppend` and `Pricing.CustomSumSplit` give its value |
| `Pricing.Subtotal` | App.tsx:80-87 | reference subtotal, independent of enumeration order: catalogue sum plus custom sum; `Pricing.ComputedSubtotalIsSubtotal` ties the source's value to it |
| `Pricing.FinalTotal` | App.tsx:89 | `subtotal + shippingCharges`, as written; `Pricing.ComputedSubtotalIsSubtotal` gives its value |
| `Pricing.Balance` | App.tsx:90 | `finalTotal - amountPaid`, as written; `Pricing.ComputedSubtotalIsSubtotal` and `Preview.BannerOfState` give its value and sign |
| `Pricing.ComputedSubtotal` | App.tsx:80-87 | the `useMemo` subtotal for a listing, as written; `Pricing.ComputedSubtotalIsSubtotal` gives its value |
| `Pricing.CatalogSumExcept` | App.tsx:81-84 | changing the selection at one key moves the catalogue sum by exactly that key's old and new contributions |
| `Pricing.MapOf` | App.tsx:81 | the map a list of pairs describes has exactly the listed keys |
| `Pricing.MapOfEntries` | App.tsx:81 | any `Object.entries` listing of the selection describes the selection |
| `Pricing.EntriesSumIsCatalogSum` | App.tsx:81-84 | the source's fold over a list of distinct keys equals the catalogue-order sum of the map they describe |
| `Pricing.StandardSubtotal` | App.tsx:81-84 | whatever order `Object.entries` lists the selection in, the fold gives the catalogue-order sum, unknown ids contributing 0 |
| `Pricing.CatalogSumEmpty` | App.tsx:81-84 | nothing selected contributes 0 |
| `Pricing.CustomSumAppend` | App.tsx:85 | the custom fold over a concatenation is the sum of the folds |
| `Pricing.CustomSumPointwise` | App.tsx:85 | lists whose line totals agree item by item have the same custom sum |
| `Pricing.CustomSumSplit` | App.tsx:76-85 | the custom sum is the sum of the items a removal keeps plus the line totals of those it drops |
| `Pricing.ComputedSubtotalIsSubtotal` | App.tsx:80-90 | for every listing, the computed subtotal, `finalTotal = subtotal + shipping` and `balance = finalTotal - paid` equal the state's order-independent totals |
| `Pricing.ToggleSubtotal` | App.tsx:31-41 | toggling on adds the product's unit price to the subtotal; toggling off removes its line |
| `Pricing.ChangeQuantitySubtotal` | App.tsx:43-52 | a quantity change replaces the product's line by unit price times the clamped quantity |
| `Pricing.AddCustomItemKeepsTotals` | App.tsx:54-62 | a new blank item changes neither subtotal nor balance |
| `Pricing.RemoveCustomItemSubtotal` | App.tsx:73-78 | removing an id lowers the subtotal by exactly the line totals of the items carrying it |
| `Pricing.UpdateLabelKeepsTotals` | App.tsx:64-71 | renaming an item or changing its id leaves the subtotal unchanged |
| `Pricing.SubtotalNonNegative` | App.tsx:80-87 | with quantities at least 1 and custom prices and quantities non-negative, the subtotal is non-negative |
| `Pricing.CatalogSumNonNegative` | App.tsx:81-84 | with quantities at least 1 and non-negative prices, the catalogue sum is non-negative |
| `Pricing.CustomSumNonNegative` | App.tsx:85 | with non-negative prices and quantities, the custom sum is non-negative |
| `Preview.ProductRow` | App.tsx:304-309 | the row object built for a selected product, as written; `Preview.StandardItems` and `Preview.AllItemsInCatalogOrder` state which rows appear |
| `Preview.StandardItems` | App.tsx:304-309 | a row appears exactly for each catalogue product that tests as selected, with its stored quantity; never more rows than products |
| `Preview.StandardItemsAppend` | App.tsx:304-309 | the filter-then-map keeps catalogue order |
| `Preview.AllItems` | App.tsx:311 | the combined list ends with the custom items and holds at most one row per catalogue product before them |
| `Preview.AllItemsInCatalogOrder` | App.tsx:304-311 | the list is mainline, silver, premium (each only if selected), then the custom items in insertion order |
| `Preview.AllItemsEmpty` | App.tsx:304-311 | the list is empty exactly when no catalogue product tests as selected and there are no custom items |
| `Preview.StandardItemsTotal` | App.tsx:304-309 | the catalogue rows' line totals add up to the catalogue sum |
| `Preview.Description` | App.tsx:362 | `item.name || 'Custom Item'`: never empty; a non-empty name is shown as is |
| `Preview.ItemRows` | App.tsx:358-367 | one row per item in list order, with description, price, quantity and price times quantity |
| `Preview.TableRows` | App.tsx:358-368 | an empty list gives exactly the single "No Items Selected" row; otherwise that row never appears and the rows are exactly the item rows, one per item in list order |
| `Preview.ItemRowsTotal` | App.tsx:358-367 | the table's line totals add up to the custom fold of the list |
| `Preview.PreviewTotalIsSubtotal` | App.tsx:80-87 | for every state, the line totals shown in the table add up to the subtotal |
| `Preview.PaymentBanner` | App.tsx:380-381 | "Full Payment Done" exactly when balance <= 0; otherwise "Balance Due" with exactly the balance, which is positive |
| `Preview.BannerOfState` | App.tsx:380-381 | "Full Payment Done" exactly when the amount paid covers the final total; otherwise the shortfall is shown |
| `Preview.MastheadOf` | App.tsx:320 | the logo image is shown exactly when a non-empty logo is set, otherwise the brand wordmark |
| `Preview.OrDash` | App.tsx:335-337 | `text || '---'`: an empty field shows `---`, any other shows itself |
| `Preview.BillToOf` | App.tsx:335-337 | every bill-to line is non-empty and shows its customer field when that is non-empty |
| `Decimal.DecimalString` | App.tsx:314 | `String(n)`: at least one digit, digits only, no leading zero beyond a single digit |
| `Decimal.ParseDecimalString` | App.tsx:314 | reading back `String(n)` gives `n` |
| `Decimal.DecimalStringInjective` | App.tsx:56 | different numbers have different `String(n)` spellings |
| `Decimal.PadStart` | App.tsx:314 | `padStart(width, c)` reaches the width with `c` characters in front and keeps the string as its suffix |
| `Preview.TwoDigits` | App.tsx:314 | `String(n).padStart(2, '0')`, as written; `Preview.TwoDigitsRoundTrip` gives its value |
| `Preview.FormatDate` | App.tsx:313-314 | the date line built from day, 0-based month and year, as written; `Preview.FormatDateRoundTrip` gives its shape and fields |
| `Preview.TwoDigitsRoundTrip` | App.tsx:314 | a number below 100 padded to two digits is two digits long and reads back unchanged |
| `Preview.FormatDateRoundTrip` | App.tsx:313-314 | the date line is DD/MM/YYYY: slashes at positions 2 and 5, fields read back as day, 1-based month and year, ten characters for a four-digit year |
| `Preview.ExampleInvoice` | App.tsx:80-90 | mainline x2 + silver x1 is 657, plus shipping 50 is 707, and paid 700 leaves "Balance Due" 7 over two rows |
| `Preview.ExampleEmptyInvoice` | App.tsx:11-18 | the initial form shows only the placeholder row, subtotal 0 and "Full Payment Done" |
| `Form.InvoiceForm.constructor` | App.tsx:11-18 | the form starts empty, with subtotal and balance 0, and the quantity invariant holds |
| `Form.InvoiceForm.HandleProductToggle` | App.tsx:31-41 | copies the selection, deletes or sets the id in the copy, and the new state is exactly `ToggleProduct` of the old one; an absent id becomes present and a present id absent; the invariant is kept |
| `Form.InvoiceForm.HandleQuantityChange` | App.tsx:43-52 | the new state is `ChangeQuantity` of the old one with the coerced input; the stored quantity is at least 1 |
| `Form.InvoiceForm.AddCustomItem` | App.tsx:54-62 | the new state is `AddCustomItem` of the old one and the subtotal is unchanged |
| `Form.InvoiceForm.UpdateCustomItem` | App.tsx:64-71 | the new state is `UpdateCustomItem` of the old one |
| `Form.InvoiceForm.EditCustomItemName` | App.tsx:223 | the name box writes the typed text into the name of the items carrying the id |
| `Form.InvoiceForm.EditCustomItemPrice` | App.tsx:232 | the price box writes `parseFloat(text) || 0` into the price of the items carrying the id |
| `Form.InvoiceForm.EditCustomItemQuantity` | App.tsx:241 | the quantity box writes `parseInt(text) || 1` into the quantity of the items carrying the id, which is then never 0 |
| `Form.InvoiceForm.RemoveCustomItem` | App.tsx:73-78 | the new state is `RemoveCustomItem` of the old one and the subtotal drops by the removed line totals |
| `Form.InvoiceForm.SetCustomerField` | App.tsx:189-191 | the new state is `SetCustomerField` of the old one |
| `Form.InvoiceForm.SetShipping` | App.tsx:264 | the new state has the coerced shipping and nothing else changed |
| `Form.InvoiceForm.SetAmountPaid` | App.tsx:265 | the new state has the coerced amount paid and nothing else changed |
| `Form.InvoiceForm.SetLogo` | App.tsx:180 | the new state has the given logo and nothing else changed |
| `Form.InvoiceForm.Totals` | App.tsx:80-90 | the render-time subtotal, final total and balance, for any `Object.entries` order, are the state's subtotal, that plus shipping, and that minus paid |
| `Form.InvoiceForm.Banner` | App.tsx:380-381 | the banner of the current state is "Full Payment Done" exactly when paid covers the final total, else the shortfall |

## Left out

- PDF export (`handleDownloadPDF`, App.tsx:92-143) and the `isExporting` flag that gates it: DOM lookup, `html2canvas`, `jsPDF`, `alert` and the file download are foreign code.
- Reading the logo file (`FileReader`, App.tsx:20-29): browser I/O; only the resulting set/clear of the logo string is modelled.
- Monetary formatting with `toLocaleString('en-IN')` and the rupee glyph: a locale library call; amounts are modelled as numbers.
- IEEE-754 doubles, `NaN` and the text parsing of `parseInt` / `parseFloat`: money is exact `real`, a parse result is an `Option`.
- `Date.now()` and `new Date()`: the clock reading and the day, month and year are parameters.
- The CSS `uppercase` on the customer name, all JSX layout and styling, the policy text (`PolicyContent`, `PolicyPage`, the `showPolicy` flag), the shop address and thank-you note (constants.ts:10-11) and the footer year: static presentation.
- `Invoice.Selected`, `Invoice.ToggleProduct`: the selection is a Dafny map, so an id naming a member every JavaScript object inherits (`toString`, `constructor`, `hasOwnProperty`) is not modelled; for such an id `selectedProducts[id]` is truthy without an own key and `handleProductToggle` deletes nothing, while `ToggleProduct` adds the key. The form only passes catalogue ids (App.tsx:198-208).
- `Decimal.DecimalString`: models `String(n)` only below 10^21; from there JavaScript writes exponent notation (`1e+21`). Clock readings and years are far below that bound.
- `Form.InvoiceForm.Valid` keeps "every quantity is at least 1" but not "every key is a catalogue id", because the handlers accept any id; unknown ids are charged 0 and never shown.
