# Receipt forms: a Dafny model

The repository holds two browser pages that mock up a retail receipt. Each
page keeps an ordered list of item rows in a form. After every change it
re-derives the printed receipt from that list.

- **Target-style form** (`script.js`). Rows hold a name and a price. The page
  opens with three sample rows. Add appends a row, and remove refuses to
  delete the last row. `updateReceipt` rebuilds the store header (with
  default texts), one line for each row whose name and price are both
  filled in, the total, and the date as `MM/DD/YYYY`.
- **Walmart-style form** (`walmart-script.js`). Rows also carry an item code.
  Remove is unconditional. `generateReceipt` counts the rows that have a
  name and a price above zero, and adds up their subtotal, a 6.5% tax and
  the total. A random receipt flattens a categorised catalog into a pool,
  shuffles it, and replaces the rows with the first 5 to 12 items. Each of
  those items gets a nine-digit item code.

The DOM holds the state in the source. Here each form is a `class` whose
fields are the form fields (`rows: seq<Row>`, the store fields) and the
preview (`receipt`). Each event handler is a method with a `modifies` frame.
The derived receipt is a pure function (`Render`) of the fields, and each
`forEach` accumulator loop is a method (`Tally`, `FlattenCatalog`) proved
equal to its specification function.

Modelling choices:
- Prices are integers in cents. A price of `None` is a number input whose
  text is empty; the browser empties a number input it cannot parse.
- The Walmart tax and total are exact `real` cents.
- Randomness comes in as parameters, each limited to its range: the item
  count, the shuffle order and the item codes.
- The fetched catalog comes in as a parameter: a failed fetch, or the
  parsed document.
- The chosen date comes in as its year, month and day numbers.

Files: `basics.dfy` (Option, Min), `text.dfy` (decimal rendering,
`padStart`, upper-casing), `target_receipt.dfy`, `catalog.dfy` (flattening
and selection), `walmart_receipt.dfy`.

The model follows what the code does, also where it departs from the pages' intended design:
- `script.js` counts any non-empty price text. A zero price gives a `$0.00`
  line, and a negative price lowers the total. The Target page computes no
  tax and has no zero-price placeholder.
- `walmart-script.js` removes rows with no minimum-length guard.
- The random count is capped by the pool size: a pool of fewer than five
  items gives fewer than five rows.
- A parsed catalog without `target_items` fails only after the rows have
  been cleared (line 21). The list is then left empty, not untouched.
- Neither script contains any persistence (snapshot, history), so none is
  modelled.

## Model

| member | source | states |
|---|---|---|
| `TargetReceipt.Form.constructor` | script.js:7-12 | after load the date field holds the given calendar fields of today, the rows are exactly the three sample rows, and, by the first recompute at script.js:112, the preview shows their receipt and that date formatted |
| `TargetReceipt.Form.AddItemRow` | script.js:45-54 | exactly one row, with the given name and price (blank by default), is appended at the end; earlier rows are unchanged and there is no recompute |
| `TargetReceipt.Form.AddSampleItems` | script.js:56-64 | whatever the list held, it becomes exactly DOVE CREAM SERUM $100.00, BLUE BUFFALO DRY DOG FOOD $80.00, BASIL HAYDEN WHISKEY $68.00, in that order |
| `TargetReceipt.Form.ClickRemove` | script.js:20-26 | removal happens exactly when more than one row is left; it then deletes just the clicked row, keeps the others in order and recomputes the preview; otherwise nothing changes; at least one row always remains |
| `TargetReceipt.Form.Input` | script.js:29-32 | an edit of one field changes that field alone and is followed by a full recompute |
| `TargetReceipt.Form.UpdateReceipt` | script.js:66-109 | the preview becomes the receipt of the current rows and header, recomputed from scratch (also what the submit handler runs); the date text is reformatted only when the date field is set |
| `TargetReceipt.Included` | script.js:86 | a row is on the receipt exactly when its name text and its price text are both non-empty |
| `TargetReceipt.Lines` | script.js:82-98 | one upper-cased line per included row, in row order, so never more lines than rows |
| `TargetReceipt.Total` | script.js:79-88 | the total starts at 0 and adds the price of each included row |
| `TargetReceipt.Render` | script.js:66-101 | the preview: store name and location with their defaults (so never empty), the lines and the total |
| `TargetReceipt.FormatDate` | script.js:106 | month and day each padded to two digits, then the year, joined by slashes |
| `TargetReceipt.SampleRows` | script.js:61-63 | the three sample rows with their prices in cents |
| `TargetReceipt.Tally` | script.js:79-98 | the loop, starting from an empty line list and a zero total, yields exactly `Lines(rows)` and `Total(rows)` |
| `TargetReceipt.OrDefault` | script.js:67-73 | an empty store name or location shows the default text, a non-empty one is shown unchanged |
| `TargetReceipt.NextDateText` | script.js:103-108 | the date text is the formatted date when the date field is non-empty and the previous text otherwise |
| `TargetReceipt.NextDateTextIdempotent` | script.js:103-108 | recomputing twice leaves the date text as one recompute does |
| `TargetReceipt.LinesAppend` | script.js:82-98 | lines and total of a concatenation of rows are those of the parts, in order: lines follow row order |
| `TargetReceipt.LinesSingleton` | script.js:86-97 | a row yields one line (its upper-cased name and price) and adds its price when name and price are both non-empty, and nothing otherwise |
| `TargetReceipt.LinesCount` | script.js:86-97 | the receipt has exactly one line per included row |
| `TargetReceipt.TotalIsSumOfLines` | script.js:86-101 | the total shown is the sum of the amounts of the receipt lines |
| `TargetReceipt.ExcludedRowIsInvisible` | script.js:86 | a row with an empty name or an empty price changes neither the lines nor the total, wherever it stands |
| `TargetReceipt.RemoveRowLines` | script.js:22-24 | after removing row i the lines are those of the rows before and after it, i.e. exactly that row's line goes |
| `TargetReceipt.RemoveRowTotal` | script.js:22-24 | removing row i lowers the total by exactly that row's contribution |
| `TargetReceipt.SampleReceipt` | script.js:61-63 | the three sample rows all appear on the receipt in order and total $248.00 |
| `TargetReceipt.PartialRowsExcluded` | script.js:86-88 | rows ("Milk", $3.50), ("", $2.00), ("Bread", blank) total $3.50 |
| `TargetReceipt.PaddedFieldRoundTrip` | script.js:106 | a month or day renders as exactly two digits that read back as the number |
| `TargetReceipt.FormatDateRoundTrip` | script.js:104-107 | the date text is two-digit month, slash, two-digit day, slash, year, and reads back as the three numbers |
| `Text.NatToString` | script.js:106 | `toString` of a non-negative integer: at least one character, all decimal digits |
| `Text.NatToStringRoundTrip` | script.js:106 | the decimal rendering is all digits, has no leading zero and reads back as the number |
| `Text.NatToStringLength` | walmart-script.js:48 | a number with k decimal digits renders to exactly k characters |
| `Text.PadStartTwo` | script.js:106 | `padStart(2, '0')` gives length max(2, n), ending with the original text and preceded by zeros only |
| `Text.PadStartTwoValue` | script.js:106 | padding a digit string keeps it a digit string with the same value |
| `Text.ToUpper` | script.js:93 | upper-casing keeps the length, leaves no lower-case ASCII letter, maps each lower-case letter to its capital and keeps every other character |
| `Text.ToUpperIdempotent` | walmart-script.js:155 | upper-casing is idempotent and keeps a name non-empty |
| `Catalog.Flatten` | walmart-script.js:28-36 | every item of every category tagged with its category name, category by category |
| `Catalog.Shuffle` | walmart-script.js:39 | the pool reordered by the given permutation, which keeps its length |
| `Catalog.Select` | walmart-script.js:40 | `slice(0, n)` of the shuffled pool: min(n, pool size) items |
| `Catalog.FlattenCatalog` | walmart-script.js:25-36 | the nested loop pushes exactly the items of every category, category by category, in document order |
| `Catalog.FlattenLength` | walmart-script.js:28-36 | the pool's length is the sum of the category sizes |
| `Catalog.FlattenAt` | walmart-script.js:28-36 | item j of category c is at pool position (items of the earlier categories) + j, tagged with c's name |
| `Catalog.PickSubMultiset` | walmart-script.js:39-40 | taking distinct positions of the pool uses no pool entry more often than the pool holds it |
| `Catalog.SelectFromPool` | walmart-script.js:24-40 | the selection has min(n, pool size) items, so at most 12 and at least 5 when the pool has 5; every selected item is in the pool and none is used twice |
| `WalmartReceipt.ParsedPrice` | walmart-script.js:148 | `parseFloat` with a fallback to 0: an empty price counts as 0 |
| `WalmartReceipt.Included` | walmart-script.js:150 | a row is on the receipt exactly when its name is non-empty and its parsed price is above 0 |
| `WalmartReceipt.Lines` | walmart-script.js:145-165 | one line (upper-cased name, code, price) per included row, in row order, so never more lines than rows |
| `WalmartReceipt.Subtotal` | walmart-script.js:138-162 | the subtotal starts at 0 and adds the parsed price of each included row |
| `WalmartReceipt.ItemCount` | walmart-script.js:139-163 | the count starts at 0 and adds one for each included row |
| `WalmartReceipt.Tax` | walmart-script.js:168 | 6.5% of the subtotal, between 0 and the subtotal for a non-negative subtotal |
| `WalmartReceipt.Render` | walmart-script.js:126-186 | the receipt: address, lines, subtotal, tax, total = subtotal + tax, payment = total, and the items-sold text |
| `WalmartReceipt.GeneratedRows` | walmart-script.js:43-56 | one row per selected item, in selection order, with its name, price and its own item code text |
| `WalmartReceipt.PoolOf` | walmart-script.js:17-36 | the flattened pool when the fetch and parse succeed and the document has `target_items`, and nothing otherwise |
| `WalmartReceipt.Tally` | walmart-script.js:138-165 | the loop, starting from zero, yields exactly `Lines(rows)`, `Subtotal(rows)` and `ItemCount(rows)` |
| `WalmartReceipt.TallyAppend` | walmart-script.js:145-165 | lines, subtotal and item count of a concatenation are those of the parts, in row order |
| `WalmartReceipt.SubtotalAndCountMatchLines` | walmart-script.js:150-165 | the subtotal is the sum of the line amounts and the item count is the number of lines |
| `WalmartReceipt.SubtotalCoversCount` | walmart-script.js:148-163 | every counted item adds at least one cent, so the subtotal is positive exactly when some item is counted |
| `WalmartReceipt.ExcludedRowIsInvisible` | walmart-script.js:146-150 | a row with an empty name, an unparseable or blank price (counted as 0) or a price at or below 0 changes neither lines, subtotal nor count |
| `WalmartReceipt.ReceiptTotals` | walmart-script.js:167-186 | tax is subtotal × 0.065, total is subtotal × 1.065 and not below the subtotal, the payment amount equals the total, and the items-sold text shows the number of lines |
| `WalmartReceipt.TaxExample` | walmart-script.js:168-169 | a $100.00 subtotal gives $6.50 tax and a $106.50 total |
| `WalmartReceipt.GeneratedRowsFacts` | walmart-script.js:39-56 | generated rows number min(n, pool size) and carry a distinct pool entry's name and price each, and each item code is nine digits in [100000000, 999999999] |
| `WalmartReceipt.Form.constructor` | walmart-script.js:1-12 | the page starts from its rows and store fields with no generated receipt |
| `WalmartReceipt.Form.AddItem` | walmart-script.js:74-89 | exactly one blank row (no name, code or price) is appended; the receipt is not regenerated |
| `WalmartReceipt.Form.ClickRemove` | walmart-script.js:91-96 | the clicked row is deleted, whatever the length, the others keep their order, and the receipt is not regenerated |
| `WalmartReceipt.Form.Input` | walmart-script.js:98-102 | an edit changes one field (a row's name, code or price, or a store field) and nothing else; the receipt is not regenerated, since only the submit handler and line 65 call `generateReceipt` |
| `WalmartReceipt.Form.GenerateReceipt` | walmart-script.js:126-186 | the receipt becomes the one derived afresh from the current rows and store fields (also what the submit handler runs) |
| `WalmartReceipt.Form.GenerateRandom` | walmart-script.js:15-71 | a fetch or parse failure changes nothing; a document without `target_items` leaves the rows empty; otherwise the rows become exactly the selected items in selection order with their codes, no earlier row remaining, and the receipt is generated |

## Left out

- DOM construction, event-listener wiring and the print window are not modelled.
- `GenerateRandom`, `GeneratedRows`: the row templates (walmart-script.js:50-55, script.js:48-52) write names and prices as HTML attribute values (`value="${item.name}"`). A name containing `"` is therefore cut at that character, and a character reference such as `&amp;` is decoded. The model copies names and prices unchanged, so "exactly the selected items" holds only for names and prices without such characters. HTML parsing is not modelled.
- The receipt-line templates also build the preview through `innerHTML`. The model keeps the line texts as values and does not model their HTML parsing.
- `fetch`, `response.json()` and the alert: the outcome is the `Fetched` parameter, and the alert is the `false` result.
- Malformed catalogs other than a missing `target_items` are not modelled, such as a category without an `items` array or an item without a name.
- The random generation awaits twice (walmart-script.js:17-18). Meanwhile, other handlers can add, remove or edit rows, and a second click can start another generation. The model treats the handler as one step. This is sound because the handler only touches the rows after both awaits resolve. Lines 21-65 then run without suspending, and line 21 wipes any edits made in between. The interleaving of two overlapping generations is not modelled.
- `Math.random` is not modelled: its distribution, the bias of the comparator shuffle and the transaction ID are out. The count, the order and the codes are parameters within their stated ranges.
- `parseFloat` and `toFixed(2)` are not modelled. Prices are integer cents, so floating-point accumulation, rounding and prices finer than a cent are out.
- `new Date(...)`, `toISOString`, `toLocaleDateString` and `toLocaleTimeString` are not modelled. This leaves out the time-zone shift when an ISO date is parsed, and the Walmart footer date and time. The model formats given year, month and day numbers.
- `Text.ToUpper`: models the ASCII letters only; the full Unicode case mapping of `toUpperCase` (such as 'ß' to "SS") is not modelled.
- The Walmart store number and location are joined into the address. The manager name is read but never shown, so it is not modelled.
- Rows of the Walmart form have their own remove listener as well as the document-wide one. Both remove the same element, so the model removes once.
- The static preview the Walmart page shows before the first generation is not modelled (`receipt == None`). The same goes for the initial field values from the HTML, which are constructor parameters.
- utils.js is not part of this model. Its currency, date and ID helpers wrap `Intl`, `Date` and `Math.random`, and its theme code is commented out.
