# StockFlow inventory core in Dafny

A model of the logic of StockFlow, a single-store inventory and point-of-sale
web app, with its properties proved. What is modelled is what the React pages
and the product provider compute once rendering, toasts and the document
database client are set aside:

- **Sale cart** (`src/app/sell/page.tsx`): the cart of line items keyed by
  product id; the scan path, which adds one unit; the manual path from the
  search list, which adds `saleQuantity` units at `salePrice`; line removal;
  the total; and completing a sale. Completing a sale issues one stock
  update per line and then empties the cart. Module `Cart` holds these as
  functions on values, with the lemmas. Module `SellPage` holds the page
  state as the class `SaleSession`. Each of its actions is proved to leave
  exactly the cart that `Cart` specifies. `SellPage` also holds the product
  search (`FilteredProducts`) and the scanner's barcode dispatch.
- **Low-inventory view** (`src/app/low-inventory/page.tsx`): the
  order-preserving filter `stock <= lowInventoryFactor` and the
  "Out of Stock" / "Low Stock" badge (module `LowInventory`).
- **Product provider** (`src/context/ProductContext.tsx`): the store is a
  `map<string, Fields>` from document id to the product's other fields
  (module `Catalog`). It covers the id strip and reattach used when writing
  and reading, the seeding of an empty store, the fallback list on a read
  error, updates that are swallowed for missing documents, and the
  first-match barcode lookup. The class `ProductStore` holds the store, the
  product list and the loading flag.
- **Add-product form** (`src/app/add-product/page.tsx`): the schema rules,
  the duplicate-barcode guard, the product built from a form (`id` is the
  barcode; `ean` and `description` get defaults), and the guards and prefill
  of the details lookup (module `AddProduct`, class `AddProductForm`).

Money (`mrp`, `salePrice`, totals) is `real`. Stock, thresholds and
quantities are `int`. The add-product schema refuses a negative stock or
threshold, and no code path changes a threshold afterwards. A stored stock
can still become negative, but only through a completed sale, and a cart
quantity can be zero or negative only through the manual add, which does
not check its sign. The numeric inputs of the form are
`real` so that the schema's whole-number rule can be stated.

## Behaviour as written

The model follows the code wherever it differs from the intended design of
the cart:

- The manual add compares only the requested quantity with the stock. It
  ignores what the cart already holds for that product, so a merged line can
  exceed the stock (`Cart.ManualMergeExceedsStock`). The scan path does count
  the existing line.
- The manual add accepts a zero or negative `saleQuantity`. Only
  `saleQuantity > stock` is refused.
- A completed sale writes the product snapshot stored in the line when the
  product was first added. It does not write the catalog's current entry, so
  the stock it writes can be stale or negative
  (`Cart.SaleUsesSnapshot`, `Cart.ManualOversellDrivesStockNegative`).
- Completing an empty cart is a no-op that shows an error toast and returns
  no error result. Completing a non-empty cart always empties it.
- The low-stock badge reads "Low Stock" for any stock other than 0,
  including a negative one.

## Model

| member | source | states |
|---|---|---|
| `Catalog.Rebuild` | src/context/ProductContext.tsx:55-58 | A document read back becomes a product whose id is the document key and whose other fields are the stored ones; stripping it again gives the same key and document |
| `Catalog.Strip` | src/context/ProductContext.tsx:76 | `const { id, ...productData } = product`: splits a product into its id, the document key, and the remaining fields; `Rebuild` inverts it both ways |
| `Catalog.StripRebuild` | src/context/ProductContext.tsx:76-78 | Splitting a product into its id and the remaining fields, then rebuilding `{id, ...fields}`, gives back the original product |
| `Catalog.FindByBarcode` | src/context/ProductContext.tsx:94-96 | Returns the first product in list order with the barcode; returns nothing exactly when no product has it |
| `Catalog.Put` | src/context/ProductContext.tsx:74-78 | After `setDoc`, the product is stored under its id and reads back as itself; no other key changes, and the key set gains only the product's id |
| `Catalog.Update` | src/context/ProductContext.tsx:84-92 | `updateDoc` replaces the fields under the product's id and reads back as the product; other entries are unchanged; a missing id leaves the store as it was, because the error is caught |
| `Catalog.Snapshot` | src/context/ProductContext.tsx:55-59 | The product list a snapshot yields has one entry per listed document, in snapshot order, and each entry strips back to its key and stored fields |
| `Catalog.WriteThenRead` | src/context/ProductContext.tsx:74-78 | After a product is written, any full snapshot of the store contains that product |
| `Catalog.WriteBatch` | src/context/ProductContext.tsx:45-50 | The batch built by setting each product's fields under its id, in list order, is exactly the fold of single writes `PutAll` over the list |
| `Catalog.PutAllKeys` | src/context/ProductContext.tsx:45-51 | Writing a batch adds exactly the batch's ids to the store's keys |
| `Catalog.PutAllStoresEach` | src/context/ProductContext.tsx:45-51 | A batch of products with distinct ids stores each product under its own id, so it reads back unchanged |
| `Catalog.PutAll` | src/context/ProductContext.tsx:45-51 | The seeding batch as a fold of single `setDoc` writes over the product list; what it stores is stated by `PutAllKeys` and `PutAllStoresEach` |
| `Catalog.UpdateAll` | src/app/sell/page.tsx:190-193 | The `updateProduct` calls of a sale applied one after the other; the key set never changes, and what each document holds afterwards is stated by `UpdateAllStoresEach` and `UpdateAllKeepsOthers` |
| `Catalog.UpdateAllKeepsOthers` | src/context/ProductContext.tsx:84-92 | A document whose id none of the updates carries is unchanged after all of them |
| `Catalog.UpdateAllStoresEach` | src/context/ProductContext.tsx:84-92 | With distinct ids, each update whose document exists reads back as the update itself; updates to missing documents are dropped |
| `Catalog.SeedRoundTrip` | src/context/ProductContext.tsx:42-51 | Seeding an empty store puts each dummy product under its id, and reading the seeded store back in dummy order gives exactly the dummy list |
| `Catalog.ProductStore.constructor` | src/context/ProductContext.tsx:35-36 | The provider starts with an empty product list and is loading |
| `Catalog.ProductStore.AddProduct` | src/context/ProductContext.tsx:74-82 | The store becomes `Put(old store, product)` |
| `Catalog.ProductStore.UpdateProduct` | src/context/ProductContext.tsx:84-92 | The store becomes `Update(old store, product)`; a missing document changes nothing |
| `Catalog.ProductStore.OnSnapshot` | src/context/ProductContext.tsx:38-62 | An empty store is seeded with the dummy products and the product list is left alone; otherwise the store is unchanged and the list becomes the snapshot read back; loading ends in both cases |
| `Catalog.ProductStore.OnReadError` | src/context/ProductContext.tsx:63-68 | A read error sets the product list to the dummy list and ends loading |
| `LowInventory.LowInventoryProducts` | src/app/low-inventory/page.tsx:20-22 | Lists exactly the catalog products with `stock <= lowInventoryFactor`, as a subsequence of the catalog in catalog order; each listed product appears as many times as in the catalog |
| `LowInventory.Status` | src/app/low-inventory/page.tsx:59-60 | The badge: Out of Stock for stock 0, Low Stock for any other stock; its meaning on listed products is `StatusOfListed` |
| `LowInventory.OutOfStockListed` | src/app/low-inventory/page.tsx:21 | A product with stock 0 and a non-negative threshold is always listed, with the Out of Stock badge |
| `LowInventory.StatusOfListed` | src/app/low-inventory/page.tsx:59-60 | A listed product comes from the catalog; its badge is Out of Stock exactly when stock is 0, and Low Stock exactly when stock is non-zero and at or below the threshold |
| `LowInventory.LowInventoryIdempotent` | src/app/low-inventory/page.tsx:21 | Filtering the filtered list again changes nothing |
| `LowInventory.SeedLowInventory` | src/lib/dummy-data.ts:14-23 | On the seed catalog only the Cadbury bar (stock 8, threshold 15) is listed, and its badge is Low Stock |
| `Cart.LineIndex` | src/app/sell/page.tsx:48 | `findIndex` returns the first line with the product id, or nothing exactly when no line has that id |
| `Cart.ScanAdd` | src/app/sell/page.tsx:46-68 | `addScannedItemToCart` as a function of the cart; its behaviour is stated by the `ScanAdd…` lemmas below |
| `Cart.ManualAdd` | src/app/sell/page.tsx:154-168 | `addToCart`'s new cart as a function of the cart and the popover inputs; its behaviour is stated by the `ManualAdd…` lemmas below |
| `Cart.RemoveLine` | src/app/sell/page.tsx:177-179 | `removeFromCart`'s `filter`; its behaviour is stated by `RemoveLineKeepsOthers`, `RemoveLineKeepsUnique` and `RemoveLineTotal` |
| `Cart.Total` | src/app/sell/page.tsx:181-183 | `cartTotal`, the left-to-right `reduce` of `salePrice * quantity` from 0; it is tied to the front-recursive sum by `TotalIsSum` |
| `Cart.SaleUpdate` | src/app/sell/page.tsx:191 | The product written for one line: the line's snapshot with its quantity taken off the snapshot's stock; the whole sale is `SaleUpdates` |
| `Cart.ScanAddLine` | src/app/sell/page.tsx:46-68 | A scan is accepted exactly when the cart quantity plus one is within the live stock. A missing line is then appended at the end as 1 unit at the MRP. An existing line gains exactly 1 unit, keeps its price and stays at its index. A refused scan leaves the cart unchanged |
| `Cart.ScanAddKeepsOtherLines` | src/app/sell/page.tsx:55-65 | A scan leaves every line of every other product unchanged and in order |
| `Cart.ScanAddKeepsUnique` | src/app/sell/page.tsx:48-65 | A scan never creates a second line for a product id |
| `Cart.ScanAddTotal` | src/app/sell/page.tsx:50-65 | An accepted scan raises the cart total by one unit at the price it charges (the existing line's price, or the MRP for a new line); a refused one leaves the total unchanged |
| `Cart.ScanAddWithinStock` | src/app/sell/page.tsx:51 | While a line's product entry does not change, scans keep every line's quantity within its product's stock |
| `Cart.ManualAddLine` | src/app/sell/page.tsx:154-168 | A manual add is refused, with the cart unchanged, exactly when the requested quantity alone exceeds stock. Otherwise a new line is appended with that quantity at `salePrice`, or at the MRP when `salePrice` is 0. An existing line gains the quantity, keeps its price and stays at its index |
| `Cart.ManualAddKeepsOtherLines` | src/app/sell/page.tsx:160-168 | A manual add leaves every line of every other product unchanged and in order |
| `Cart.ManualAddKeepsUnique` | src/app/sell/page.tsx:160-168 | A manual add never creates a second line for a product id |
| `Cart.ManualAddTotal` | src/app/sell/page.tsx:162-168 | An accepted manual add raises the total by the requested quantity times the unit price it charges (the existing line's price, otherwise the entered price, or the MRP for a price of 0); a refused one leaves the total unchanged |
| `Cart.ManualMergeExceedsStock` | src/app/sell/page.tsx:155-165 | When the requested quantity fits the stock but the existing line plus that quantity does not, the merged line exceeds the stock, and the scan path would then refuse the product |
| `Cart.RemoveLineKeepsOthers` | src/app/sell/page.tsx:177-179 | Removing an id leaves no line with it and keeps every other line in its original order; when the id is absent, nothing changes |
| `Cart.RemoveLineKeepsUnique` | src/app/sell/page.tsx:177-179 | Removing a product keeps a cart with one line per product id |
| `Cart.RemoveLineTotal` | src/app/sell/page.tsx:177-183 | With one line per id, removing a product lowers the total by exactly that line's subtotal |
| `Cart.TotalIsSum` | src/app/sell/page.tsx:181-183 | The `reduce` total equals the sum of `salePrice * quantity` over the lines taken from the front, and is 0 for an empty cart |
| `Cart.SaleUpdates` | src/app/sell/page.tsx:190-193 | A sale makes one update per line, in cart order. Each update has the line's product id, the snapshot's stock minus the quantity, and every other field from the snapshot |
| `Cart.SaleWithinStockNonNegative` | src/app/sell/page.tsx:190-193 | If every line's quantity is within its snapshot's stock, no update writes a negative stock |
| `Cart.ManualOversellDrivesStockNegative` | src/app/sell/page.tsx:191 | Two manual adds of 3 units of a product with stock 5 are both accepted; the line holds 6 and the sale writes stock -1 |
| `Cart.SaleUsesSnapshot` | src/app/sell/page.tsx:191 | After a scan, a second scan is checked against the catalog's current entry. The sale still writes the first snapshot's fields, with that snapshot's stock minus 2 |
| `SellPage.FilteredProducts` | src/app/sell/page.tsx:37-44 | `filteredProducts`: nothing for an empty query, otherwise the first five hits; its properties are `FilteredProductsSpec` |
| `SellPage.FilteredProductsSpec` | src/app/sell/page.tsx:37-44 | The search list is empty for an empty query. Otherwise it holds at most 5 matching catalog products in catalog order, and it is exactly the hits of some prefix of the catalog, so no hit is skipped for a later one (the first five). When it has fewer than 5, it is exactly the catalog's list of hits, repeats included |
| `SellPage.SaleStoresEach` | src/app/sell/page.tsx:190-193 | After a sale of a cart with one line per product, each sold product's existing document reads back as the line's snapshot with the quantity taken off its stock; documents of products not in the cart are unchanged |
| `SellPage.SaleSession.constructor` | src/app/sell/page.tsx:28-33 | The page starts with an empty cart and query, quantity 1, price 0 and the scanner closed |
| `SellPage.SaleSession.AddScannedItemToCart` | src/app/sell/page.tsx:46-68 | The cart becomes `ScanAdd(old cart, product)`, and the result reports whether the scan was accepted; the cart keeps one line per product id |
| `SellPage.SaleSession.AddToCart` | src/app/sell/page.tsx:154-175 | The cart becomes `ManualAdd(old cart, product, saleQuantity, salePrice)`. It is accepted exactly when `saleQuantity <= stock`. On acceptance the query resets to "", the quantity to 1 and the price to 0; on refusal they are unchanged; the cart keeps one line per product id |
| `SellPage.SaleSession.RemoveFromCart` | src/app/sell/page.tsx:177-179 | The cart becomes `RemoveLine(old cart, id)`; the cart keeps one line per product id |
| `SellPage.SaleSession.CompleteSale` | src/app/sell/page.tsx:185-196 | An empty cart issues no updates and leaves the store unchanged. Otherwise the updates are exactly `SaleUpdates(old cart)`, applied in order to the store: each sold product's stored stock becomes its snapshot stock less the quantity, other documents and the key set are unchanged. The returned total is the old cart's total, and the cart ends empty |
| `SellPage.SaleSession.OnDetected` | src/app/sell/page.tsx:112-129 | A non-empty code closes the scanner. The first catalog product with that barcode is scanned into the cart; an unknown or empty code leaves the cart unchanged; the cart keeps one line per product id |
| `AddProduct.SchemaRules` | src/app/add-product/page.tsx:32-41 | A form is valid exactly when the barcode has length >= 1 and the name has length >= 2 (lengths in characters), the MRP is >= 0, and the stock and the threshold are integers >= 0 |
| `AddProduct.DefaultValuesRejected` | src/app/add-product/page.tsx:51-60 | The empty default form fails exactly the barcode and name rules |
| `AddProduct.SchemaErrors` | src/app/add-product/page.tsx:32-41 | The fields whose zod rule a form breaks; which forms pass is stated by `SchemaRules` |
| `AddProduct.BuildProduct` | src/app/add-product/page.tsx:123-128 | The built product has `id == barcode` and keeps every submitted field. `ean` falls back to the barcode when empty or absent, and `description` to "" when absent |
| `AddProduct.BuiltProductWellFormed` | src/app/add-product/page.tsx:123-128 | A built product is keyed by its barcode and has a non-empty EAN. Its name has at least 2 characters, and its MRP, stock and threshold are not negative |
| `AddProduct.AddedProductFound` | src/app/add-product/page.tsx:115-122 | Once a built product is written and the store read back, its barcode is found, so resubmitting it is refused |
| `AddProduct.PrefillSpec` | src/app/add-product/page.tsx:81-86 | The name becomes the looked-up name when that is non-empty and otherwise stays; the description likewise. The prefill changes only the name and description. It never empties a filled one, and applying it twice equals applying it once |
| `AddProduct.Prefill` | src/app/add-product/page.tsx:81-86 | Overwrites the name and the description only with non-empty looked-up values; its properties are `PrefillSpec` |
| `AddProduct.AddProductForm.constructor` | src/app/add-product/page.tsx:46-61 | The form starts at its default values with no error and not fetching |
| `AddProduct.AddProductForm.HandleFetchDetails` | src/app/add-product/page.tsx:63-101 | An empty barcode records the barcode error and changes nothing else. Otherwise `ean` becomes the barcode. An existing barcode stops before any lookup. Otherwise the lookup runs, and a successful result fills only non-empty values. Fetching is off at the end |
| `AddProduct.AddProductForm.HandleBarcodeScanned` | src/app/add-product/page.tsx:103-112 | A scanned code fills the barcode and EAN fields and a lookup runs exactly when the code is non-empty and unknown. The other fields change only through the prefill of a made lookup. An empty code records the barcode error, otherwise the error is untouched. Fetching is off after a lookup |
| `AddProduct.AddProductForm.Submit` | src/app/add-product/page.tsx:114-134 | An invalid form returns its failed fields and changes nothing. A barcode already in the catalog is refused and changes nothing. Otherwise the built product is written under its barcode and the form resets to its defaults. In every case the barcode's message becomes the schema's: "Barcode is required" for an empty barcode, none otherwise |

## Left out

- Camera and decoder set-up, start and stop for the sell page scanner (`src/app/sell/page.tsx` lines 70-151, apart from the detection dispatch) and `src/components/BarcodeScanner.tsx`: these are third-party decoder plumbing.
- The prefill lookup of `src/ai/flows/prefill-product-details.ts` (an HTTP fetch wrapped in a language-model tool call): it is the parameter `lookup`, either the returned name and description or `None` when the call throws.
- The document database client: its subscription lifecycle, asynchronous writes and logging. Each write is applied at once to a `map`. The order in which a snapshot lists its documents is a parameter that must list every key once.
- Toasts, rendering, `useMemo`/`useCallback`, and the batching of React state updates: each user action is one sequential state transition.
- Floating-point money, `toFixed(2)` and rounding: prices and totals are exact `real`s.
- `toLowerCase` in the search: the parameter `lower`.
- `SellPage.SaleSession.AddScannedItemToCart`, `SellPage.SaleSession.AddToCart`: the source bumps `quantity` on the line object that the previous cart array shares. The model replaces the line by value, so it does not capture that aliasing.
- `saleQuantity` and `salePrice` come from `Number(...)` of a text input. Fractional quantities and `NaN` are not modelled: the quantity is an `int`.
- Optional form fields left `undefined`: the form's default values make `costPriceCode` a string, and the model keeps it one.
- The seed products in `src/lib/dummy-data.ts` have no `ean` field. The model gives them an empty `ean`.
- The add-product page's scanner dialog flag (`src/app/add-product/page.tsx` lines 47 and 104) only opens and closes the dialog and is not modelled.
- Form error messages other than the barcode's are not stored in the form: a failed submit returns the set of failing fields instead.
- `AddProduct.SchemaRules`: states the length rules in characters, as `SchemaErrors` does (next line).
- `AddProduct.SchemaErrors`: zod's `.min(n)` counts a string's length in UTF-16 code units, and the model counts characters (`|s|`). A name made of one character outside the Basic Multilingual Plane, such as an emoji, is refused by the model but accepted by the source.
- `isFetching` is `true` only while the lookup is awaited. The model shows its value after the handler, where it is `false` again.
- Presentation-only pages (`src/app/products/page.tsx`, `src/app/page.tsx`, `src/app/layout.tsx`, `src/components/AppHeader.tsx`).
