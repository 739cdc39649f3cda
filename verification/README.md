# A Dafny model of the OrderMate Pro sales page

OrderMate Pro is a point-of-sale page. A salesman searches a fixed product
catalog and adds product variants to a cart. The cart shows live totals with
18% GST. At checkout the salesman enters the customer's name and phone and
issues a pending or paid invoice. A small serverless function stands in for
the database: it serves the catalog, stores invoices in memory and acknowledges
stock updates.

This project models the logic of that system as pure Dafny functions over
immutable values, one module per concern of the code:

| module | file | models |
|---|---|---|
| `Wrappers` | wrappers.dfy | `Option` and `Result` |
| `Seqs` | seqs.dfy | `Array.prototype.filter`, and the subsequence relation it keeps |
| `Text` | text.dfy | `toLowerCase`, `includes`, `trim`, `toString` of a non-negative integer, `padStart` |
| `SalesTypes` | sales_types.dfy | the records of src/types/sales.ts |
| `Cart`, `CartSums`, `CartProperties` | cart.dfy, cart_sums.dfy, cart_properties.dfy | the cart hook src/hooks/useCart.ts |
| `ProductSearch` | product_search.dfy | the catalog query of src/hooks/useProducts.ts |
| `Checkout` | checkout.dfy | invoice numbers and `handleGenerateInvoice` of src/components/sales/InvoiceReview.tsx |
| `Backend` | backend.dfy | the action dispatcher of supabase/functions/mongodb/index.ts |
| `Storefront` | page.dfy | the page src/pages/Index.tsx: views, search box, handlers |

Modelling choices:

- A cart is a `seq<CartItem>`. Each operation returns a new cart, as the React
  state updaters do.
- Prices are exact `real`s. Quantities and stock are `int`s.
- The tax is `subtotal * 18 / 100`, which is the code's `subtotal * 0.18` read exactly.
- A JSON object is a `map<string, Json>`. The object spread
  `{ _id, ...data, createdAt }` is the right-biased map union
  `map["_id" := …] + data + map["createdAt" := …]`, so a later key wins, as in JavaScript.
- Anything the code takes from the outside world becomes a parameter. This covers:
  - `new Date()`, which becomes a `CalendarDate` (year, 0-based month, day);
  - `Math.random()`, which becomes the already-floored value below 10000;
  - `crypto.randomUUID()` and the ISO timestamp, which become an `Environment`;
  - the backend's replies, which become `Reply` values.
- The page is a `PageState` value that user actions step. The checkout is a
  method that returns the requests it sends, in order.

Two properties of the code that shape the contracts:

- `getFullYear()` is printed unpadded, so only the years 1000 to 9999 give an
  invoice number of the form `INV-YYYYMMDD-RRRR`. `Checkout.InvoiceNumberLayout`
  requires a four-digit year; the contract of `Checkout.InvoiceNumber` holds for every year.
- The `error` returned by the `updateStock` calls is never read, so
  `Checkout.GenerateInvoice` takes the stock replies as input and its contract
  does not depend on them.

## Model

| member | source | states |
|---|---|---|
| Cart.FindIndex | src/hooks/useCart.ts:15-17 | the result is -1 exactly when no line carries the (productId, sku) key; otherwise it is the first line that does |
| Cart.AddToCart | src/hooks/useCart.ts:7-30 | afterwards the key is in the cart; a known key's first line gains `quantity` units in place, keeping its name, variant and image, and no line is added; a new key is appended as one line with the given name, variant, quantity and image; every other line, including later lines of the same key, is untouched |
| Cart.RemoveFromCart | src/hooks/useCart.ts:46-50 | afterwards no line carries the key; every line of another key is kept as often as it occurred; nothing new appears; the order of the kept lines is preserved |
| Cart.UpdateQuantity | src/hooks/useCart.ts:32-44 | a quantity of zero or less is a removal of the key; a positive one keeps the length and sets the quantity of every line with the key, leaving the other lines as they were |
| Cart.ClearCart | src/hooks/useCart.ts:52-54 | the cleared cart is empty and valid |
| Cart.TotalsOf | src/hooks/useCart.ts:56-66 | total is 118% of subtotal, and total minus subtotal is the tax |
| Cart.ToInvoiceItem | src/hooks/useCart.ts:70-75 | a line's amount is its price times its quantity |
| Cart.ToInvoiceItems | src/hooks/useCart.ts:69-76 | one invoice line per cart line, in cart order, named "product - size", with the line's quantity and unit price |
| Cart.UniqueKeyPosition | src/hooks/useCart.ts:15-28 | in a cart without duplicate keys, a key found at one position appears at no other |
| CartProperties.AddToExistingLine | src/hooks/useCart.ts:19-25 | in a cart without duplicate keys, adding the key of line i increments exactly line i |
| CartProperties.AddNewLine | src/hooks/useCart.ts:28 | adding a key the cart lacks appends exactly the new line |
| CartProperties.AddTwiceMerges | src/hooks/useCart.ts:14-29 | two adds of the same key equal one add of the summed quantity |
| CartProperties.AddPreservesValid | src/hooks/useCart.ts:14-29 | a positive add keeps keys unique and quantities positive |
| CartProperties.RemoveAbsentKey | src/hooks/useCart.ts:47-49 | removing a key the cart lacks changes nothing |
| CartProperties.RemoveDeletesOneLine | src/hooks/useCart.ts:47-49 | in a cart without duplicate keys, removing line i's key yields the cart without line i |
| CartProperties.RemoveIdempotent | src/hooks/useCart.ts:46-50 | removing twice equals removing once |
| CartProperties.RemovePreservesValid | src/hooks/useCart.ts:46-50 | removal keeps the cart valid |
| CartProperties.FilterKeepsUnique | src/hooks/useCart.ts:35 | any filter of a valid cart is valid |
| CartProperties.UpdateAbsentKey | src/hooks/useCart.ts:32-44 | updating a key the cart lacks changes nothing, whatever the quantity |
| CartProperties.UpdateOverwritesOneLine | src/hooks/useCart.ts:38-42 | in a cart without duplicate keys, a positive update of line i's key sets exactly line i's quantity |
| CartProperties.UpdatePreservesValid | src/hooks/useCart.ts:32-44 | an update keeps the cart valid for every quantity, because a non-positive one removes |
| CartProperties.UpdatePreservesUniqueKeys | src/hooks/useCart.ts:38-42 | a positive update never creates a duplicate key |
| CartProperties.AddQuantityOf | src/hooks/useCart.ts:14-29 | viewed as a key-to-quantity table, an add raises its key by the quantity and leaves every other key unchanged |
| CartProperties.RemoveQuantityOf | src/hooks/useCart.ts:47-49 | after a removal the key holds zero units, and every other key holds what it held |
| CartProperties.UpdateQuantityOf | src/hooks/useCart.ts:32-44 | in a cart without duplicate keys, a positive update makes the key hold exactly that quantity if it was present, and zero otherwise; other keys are unchanged |
| CartProperties.OnlyLineCounts | src/hooks/useCart.ts:63 | a key carried by exactly one line holds that line's quantity |
| CartProperties.ClearedTotals | src/hooks/useCart.ts:52-66 | an empty cart has totals 0, 0, 0 and 0 units |
| CartProperties.TotalsExample | src/hooks/useCart.ts:56-66 | 2 × 450 plus 1 × 280 gives subtotal 1180, tax 212.4, total 1392.4 and 3 units |
| CartProperties.AddTotals | src/hooks/useCart.ts:14-29 | an add raises the unit count by the quantity, and the subtotal by that many units at the price of the line that receives them |
| CartProperties.AddExistingTotals | src/hooks/useCart.ts:19-25 | an add to a known key is the bump of its first line, which raises the unit count and the subtotal accordingly |
| CartProperties.AddNewTotals | src/hooks/useCart.ts:28 | an add of a new key raises the unit count by the quantity and the subtotal by price × quantity |
| CartProperties.BumpTotals | src/hooks/useCart.ts:57-63 | raising one line's quantity raises the unit count by the same amount and the subtotal by that many units of its price |
| CartProperties.AppendTotals | src/hooks/useCart.ts:57-63 | appending a line adds its units and its amount to the totals |
| CartProperties.LineAmountGrows | src/hooks/useCart.ts:58 | a line's amount grows linearly in its quantity |
| CartProperties.RemoveTotals | src/hooks/useCart.ts:46-66 | removing a line of a cart without duplicate keys takes exactly its units and its amount out of the totals |
| CartProperties.DeleteTotals | src/hooks/useCart.ts:56-66 | deleting a line takes exactly its units and its amount out of the totals |
| CartProperties.TotalsBounds | src/hooks/useCart.ts:56-66 | with non-negative prices, 0 ≤ subtotal ≤ total; a valid cart has at least one unit per line, and zero units exactly when empty |
| CartProperties.InvoiceAmountIsSubtotal | src/hooks/useCart.ts:56-76 | the invoice lines' amounts add up to the cart subtotal |
| CartProperties.InvoiceLineAmounts | src/hooks/useCart.ts:74 | every invoice line's amount is price times quantity |
| CartSums.SumIntAppend | src/hooks/useCart.ts:63 | the unit count of a concatenation is the sum of the parts' counts |
| CartSums.SumRealAppend | src/hooks/useCart.ts:57-60 | the amount of a concatenation is the sum of the parts' amounts |
| CartSums.SumIntUpdate | src/hooks/useCart.ts:63 | replacing one line changes the count by the difference of the two lines |
| CartSums.SumRealUpdate | src/hooks/useCart.ts:57-60 | replacing one line changes the amount by the difference of the two lines |
| CartSums.SumIntDelete | src/hooks/useCart.ts:63 | deleting one line takes its count out of the sum |
| CartSums.SumRealDelete | src/hooks/useCart.ts:57-60 | deleting one line takes its amount out of the sum |
| CartSums.SumIntFilterDropsZeros | src/hooks/useCart.ts:47-49 | filtering out only lines that count zero keeps the sum |
| CartSums.SumIntAllZero | src/hooks/useCart.ts:63 | a sum over lines that all count zero is zero |
| CartSums.SumRealNonNegative | src/hooks/useCart.ts:57-60 | a sum of non-negative amounts is non-negative |
| CartSums.SumIntAtLeastLength | src/hooks/useCart.ts:63 | a sum of counts that are each at least one is at least the number of lines |
| Seqs.Filter | src/hooks/useCart.ts:47-49 | the result holds only elements that pass and keeps every element that passes; each element occurs in it exactly as often as in the input when it passes, and not at all otherwise |
| Seqs.FilterIsSubsequence | src/hooks/useCart.ts:47-49 | a filter's result is a subsequence of its input, so order is kept |
| Seqs.SubsequenceReflexive | src/pages/Index.tsx:32 | returning the products unfiltered returns a subsequence of them |
| Seqs.FilterAllKept | src/hooks/useProducts.ts:18-25 | when every element passes, the filter returns its input |
| Seqs.FilterIdempotent | src/hooks/useCart.ts:47-49 | filtering twice with one test equals filtering once |
| Seqs.FilterRemovesOne | src/hooks/useCart.ts:47-49 | when exactly one element fails, the filter deletes exactly that element |
| Text.Lower | src/hooks/useProducts.ts:19 | lower-casing keeps the length, turns each upper-case letter into the lower-case letter at the same place of the alphabet and keeps every other character, so no upper-case letter is left |
| Text.LowerIdempotent | src/hooks/useProducts.ts:19-23 | lower-casing twice equals lower-casing once |
| Text.Includes | src/hooks/useProducts.ts:21-23 | `includes` holds exactly when the needle occurs at some position of the haystack |
| Text.TrimStart | src/components/sales/InvoiceReview.tsx:46 | what is left is a suffix of the input, everything dropped is white space, and it is empty or starts with a non-white-space character |
| Text.TrimEnd | src/components/sales/InvoiceReview.tsx:46 | what is left is a prefix of the input, everything dropped is white space, and it is empty or ends with a non-white-space character |
| Text.Trim | src/components/sales/InvoiceReview.tsx:46 | the result sits in the input between a blank prefix and a blank suffix, and neither of its ends is white space |
| Text.TrimEmptyIff | src/components/sales/InvoiceReview.tsx:46 | `trim()` gives the empty string exactly for a blank name |
| Text.NatToString | src/components/sales/InvoiceReview.tsx:40-41 | a number's decimal rendering is a non-empty string of digits |
| Text.NatToStringRoundTrip | src/components/sales/InvoiceReview.tsx:40-41 | rendering a number in decimal and reading it back gives the number |
| Text.NatToStringShort | src/components/sales/InvoiceReview.tsx:41 | a number below 10^k has at most k digits |
| Text.NatToStringLong | src/components/sales/InvoiceReview.tsx:40 | a number of at least 10^k has more than k digits |
| Text.PadStart | src/components/sales/InvoiceReview.tsx:40-41 | `padStart` returns a long-enough string unchanged, and otherwise pads on the left with the fill to exactly the width, ending in the input |
| Text.DigitsValueAppend | src/components/sales/InvoiceReview.tsx:40 | the value of concatenated digit strings is the first value shifted by the second's length plus the second value |
| Text.ZerosValue | src/components/sales/InvoiceReview.tsx:41 | a run of zeros is a digit string of value zero |
| Text.ZeroPadRoundTrip | src/components/sales/InvoiceReview.tsx:41 | zero-padding a number below 10^width gives exactly width digits that read back as the number |
| ProductSearch.FilterByQuery | src/hooks/useProducts.ts:18-25 | an empty query keeps every product; otherwise a product is kept exactly when it matches; every product occurs in the result as often as in the input when it matches and not at all otherwise; the order is kept |
| ProductSearch.QueryProducts | src/hooks/useProducts.ts:8-28 | a fetch error is passed on unchanged; fetched products are left whole for an empty query, and otherwise narrowed to a subsequence holding each matching product as often as the fetch did and no other product |
| ProductSearch.SearchProducts | src/hooks/useProducts.ts:36-44 | an empty query returns every product; otherwise a product is returned exactly when its name or category matches, as often as it occurs in the input, and the order is kept |
| ProductSearch.EmptyQueryMatchesAll | src/hooks/useProducts.ts:18-25 | the empty query matches every product under both tests, so skipping the filter for it loses nothing |
| ProductSearch.MatchIgnoresQueryCase | src/hooks/useProducts.ts:19-23 | a query and its lower-cased form match the same products |
| ProductSearch.SearchWithinQuery | src/hooks/useProducts.ts:36-44 | every product `searchProducts` finds, the query filter finds too |
| ProductSearch.DescriptionOnlyMatch | src/hooks/useProducts.ts:40-43 | a product that matches only in its description is found by the query filter but not by `searchProducts` |
| Checkout.InvoiceNumber | src/components/sales/InvoiceReview.tsx:37-43 | for every date the number starts with "INV-" and is at least 14 characters; for a random value below 10000 it ends in "-" and four digits that read back as that value, and every other character after "INV-" is a digit |
| Checkout.Pad2 | src/components/sales/InvoiceReview.tsx:40 | a padded month or day is at least two characters, all digits |
| Checkout.DatePart | src/components/sales/InvoiceReview.tsx:40 | the date part is at least five characters, all digits, whatever the year |
| Checkout.InvoiceNumberLayout | src/components/sales/InvoiceReview.tsx:37-43 | with a four-digit year, the number is the 17 characters INV-YYYYMMDD-RRRR, and the date and the random value read back from it |
| Checkout.DatePartDigits | src/components/sales/InvoiceReview.tsx:40 | with a four-digit year, the date part is 8 digits reading year, 1-based month and day |
| Checkout.FourDigitYear | src/components/sales/InvoiceReview.tsx:40 | a four-digit year renders as exactly four digits holding its value |
| Checkout.TwoDigitField | src/components/sales/InvoiceReview.tsx:40 | a month or day below 100 pads to exactly two digits holding its value |
| Checkout.ThreeFieldValue | src/components/sales/InvoiceReview.tsx:40 | digit fields of widths 4, 2 and 2 concatenate to the value y·10000 + m·100 + d |
| Checkout.GenerateInvoice | src/components/sales/InvoiceReview.tsx:45-100 | a blank name sends nothing and changes nothing. Otherwise `createInvoice` is sent first with the new number and the cart's figures. An error reply stops there and leaves the invoice ungenerated. On success, one stock decrement per cart line follows, in cart order, and the invoice is marked generated with that number. `isProcessing` is set while requests are sent and cleared at the end |
| Checkout.NameIsBlank | src/components/sales/InvoiceReview.tsx:46 | the guard `!customerName.trim()` holds exactly for a name made only of white space |
| Checkout.SubmitInvoice | src/components/sales/InvoiceReview.tsx:51-99 | for a given number: `createInvoice` with the figures, status and customer goes first; an error reply ends the run with nothing generated; otherwise one stock request per cart line follows in order and the invoice is generated with that number; processing is set on every request and cleared at the end |
| Checkout.SendStockRequests | src/components/sales/InvoiceReview.tsx:77-88 | one `updateStock` request per cart line, in cart order, each for minus the line's quantity of its product and sku, and each sent under the review's processing flag as it stands during the loop |
| Checkout.DataHasNoId | src/components/sales/InvoiceReview.tsx:61-70 | the request the checkout sends carries no `_id` |
| Checkout.StoredShape | src/types/sales.ts:37-49 | a stored invoice with an id and customer details but no salesman is the union of its parts |
| Checkout.CheckoutInvoiceStored | supabase/functions/mongodb/index.ts:121-133 | the checkout's request makes the backend store the invoice with the server's id and timestamp and the checkout's fields, and report that id |
| Checkout.CheckoutAddsOneInvoice | src/components/sales/InvoiceReview.tsx:57-88 | serving a successful checkout's requests in order adds exactly the one invoice it created |
| Checkout.OnlyFirstCreates | supabase/functions/mongodb/index.ts:116-150 | when only the first call is `createInvoice`, the run creates exactly its record |
| Backend.NewInvoiceRecord | supabase/functions/mongodb/index.ts:122-126 | the record has `_id` and `createdAt`; `createdAt` is the server's; `_id` is the caller's if given, else the server's; every other field of the data is copied; the keys are the data's plus those two |
| Backend.Handle | supabase/functions/mongodb/index.ts:106-164 | a preflight is answered without touching the store; a body that does not parse is answered with its parse error and leaves the store alone; no error reply changes the store; the invoice list only grows, and by at most one |
| Backend.Dispatch | supabase/functions/mongodb/index.ts:116-150 | only `createInvoice` changes the store, and it adds exactly one record; nothing is ever removed |
| Backend.CreateInvoiceAppends | supabase/functions/mongodb/index.ts:121-133 | `createInvoice` appends the new record and answers with it and its `_id` |
| Backend.CreateInvoiceIds | supabase/functions/mongodb/index.ts:122-129 | without a caller `_id` the answer carries the server's uuid, and `createdAt` is the server's time |
| Backend.UpdateStockIsNoOp | supabase/functions/mongodb/index.ts:135-142 | `updateStock` answers one modified document and changes nothing |
| Backend.GetProductsIsCatalog | supabase/functions/mongodb/index.ts:117-119 | `getProducts` answers the fixed catalog and changes nothing |
| Backend.UnknownActionFails | supabase/functions/mongodb/index.ts:148-163 | any other action gets status 500 with "Unknown action: " and the action, and changes nothing |
| Backend.CatalogWellFormed | supabase/functions/mongodb/index.ts:9-101 | the catalog has eight products, each with at least one variant, distinct skus, positive prices and non-negative stock |
| Backend.LubricantsWellFormed | supabase/functions/mongodb/index.ts:10-55 | the engine oil (product 1) and transmission fluid (product 4) are well formed |
| Backend.MoreLubricantsWellFormed | supabase/functions/mongodb/index.ts:67-89 | the diesel oil (product 6) and gear oil (product 7) are well formed |
| Backend.FluidsWellFormed | supabase/functions/mongodb/index.ts:22-44 | the brake fluid (product 2) and coolant (product 3) are well formed |
| Backend.MoreFluidsWellFormed | supabase/functions/mongodb/index.ts:56-100 | the steering fluid (product 5) and windshield washer (product 8) are well formed |
| Backend.CatalogIdsDistinct | supabase/functions/mongodb/index.ts:9-101 | no two catalog products share an id |
| Backend.Serve | supabase/functions/mongodb/index.ts:104-133 | over any run of calls the earlier invoices stay in place as a prefix, and the list grows by at most one record per call |
| Backend.ServeAppendsCreated | supabase/functions/mongodb/index.ts:104-133 | serving a run of calls appends exactly the records its `createInvoice` calls create, in order |
| Backend.GetInvoicesReturnsHistory | supabase/functions/mongodb/index.ts:144-146 | from a fresh start, `getInvoices` returns every invoice created so far, oldest first |
| Storefront.FilteredProducts | src/pages/Index.tsx:30-40 | nothing before the products load; all of them for an empty query; otherwise exactly the matching products, each as often as loaded, in order |
| Storefront.HandleAddToCart | src/pages/Index.tsx:42-44 | one more unit under the product's id and the variant's sku; a product already in the cart has its first line's quantity raised by one in place, with that line's name, variant and image and every other line kept in position, and every other key keeps its quantity; a product not yet in the cart arrives as one new line of quantity 1 with the product's id, name and image; the view, the search and the review's generated flag are kept |
| Storefront.AddKeepsOtherKeys | src/pages/Index.tsx:42-44 | the page's one-unit add raises its own key by one and leaves the quantity of every other key unchanged |
| Storefront.HandleCheckout | src/pages/Index.tsx:46-48 | the review is shown, freshly mounted with no invoice generated; cart and search are kept |
| Storefront.HandleBackToCatalog | src/pages/Index.tsx:50-52 | the catalog is shown again; cart and search are kept |
| Storefront.HandleOrderComplete | src/pages/Index.tsx:54-58 | the cart is emptied, the search cleared and the catalog shown: the page is back in its initial state |
| Storefront.Step | src/pages/Index.tsx:60-162 | an action `Offered` does not allow changes nothing; only typing or completing an order changes the search; while the review is shown only completing the order changes the cart |
| Storefront.StepKeepsInvariant | src/pages/Index.tsx:42-58 | every action keeps the cart valid, the review open only over a non-empty cart, and a generated invoice only while the review is shown |
| Storefront.RunKeepsInvariant | src/pages/Index.tsx:14-58 | any sequence of actions keeps that invariant |
| Storefront.ReachableInvariant | src/pages/Index.tsx:14-58 | every page reachable from the start has a valid cart, shows the review only with items in the cart, and holds a generated invoice only in the review |
| Storefront.ViewSwitches | src/pages/Index.tsx:46-52 | from the catalog with items in the cart, checkout opens a fresh review; from the review before generating, back shows the catalog; neither changes the cart or the search |
| Storefront.GeneratedOnlyCompletes | src/components/sales/InvoiceReview.tsx:143-226 | once the invoice is generated, "New Order" is the only action the review offers, and it is offered only then |
| Storefront.OrderCompleteResets | src/pages/Index.tsx:54-58 | completing an order from a review with a generated invoice, whatever the cart and search held, empties the cart, clears the search and shows the catalog: the page is back in its initial state |
| Storefront.BackThenCheckout | src/pages/Index.tsx:46-52 | going back to the catalog before generating and checking out again restores the same page |
| Storefront.FilteredAgreesWithQuery | src/pages/Index.tsx:30-40 | the page's filter and the hook's query filter select the same products |

## Left out

- Rendering, animation, toasts and layout (all JSX in Index, ProductCard, FloatingBucket and InvoiceReview) carry no logic beyond what the handlers do.
- `handleDownloadPDF` (src/components/sales/InvoiceReview.tsx:102-138) builds a plain-text invoice and downloads it as `<number>.txt` through a temporary link; it changes no state the model holds.
- HTTP, CORS headers, `JSON.stringify` and `req.json()` are left out. The backend's input is a parsed `Body` or a parse failure message, and its output is a `Response` value with a status code.
- A request body whose `data` is not an object, or whose `action` is not a string, is not modelled. The action is always a string and the data always a record.
- `console.log` and `console.error` have no effect on the state.
- Floating-point rounding is left out. Prices and amounts are exact reals, so figures like 212.4 are exact here, while the code computes them in binary floating point.
- `toLowerCase` is modelled on ASCII letters only. Unicode case mapping has no counterpart here.
- `Math.random()`, `new Date()`, `crypto.randomUUID()` and `toISOString()` are parameters. The model does not produce their values.
- Checkout.InvoiceNumberLayout: holds only for years 1000 to 9999, because the code does not pad the year; every other year is covered only by the contract of Checkout.InvoiceNumber.
- Checkout.GenerateInvoice: a thrown exception during a stock request is not modelled. The stock replies are inputs whose errors the code never inspects, and the contract says nothing that depends on them.
- The React Query cache, its 30-second `staleTime` and the `queryKey` are left out. A cached answer equals a fresh one, because the catalog is fixed.
- `isLoading` and `error` only choose what the catalog view shows. The model keeps the product list as an `Option` and the fetch as a `Result`.
- Only the handler wiring of SearchBar, ProductCard, FloatingBucket and the review's buttons is modelled, through the events `Storefront.Offered` allows: a product card offers only its own variants with non-zero stock, the floating cart is hidden while the cart is empty and offers only a line's own key, with that line's quantity one lower or one higher or its removal, "Back" is shown only before an invoice is generated and "New Order" only after. Their markup is not modelled.
- Storefront.Step: a successful generation is the single event `InvoiceGenerated`; the requests it sends are modelled by Checkout.GenerateInvoice, which the page model does not call, and a failed generation is an action that leaves the page as it was.
- Storefront.Offered: an `AddProduct` event is not tied to the products on display; the catalog renders cards only for `filteredProducts` once they have loaded without error, but the page model holds no product list, so it allows adding any product's in-stock variant and thus more actions than the page renders.
- Storefront.Offered: buttons disabled while `isProcessing` are not modelled, because a run of Checkout.GenerateInvoice is one step here. This hides one interleaving: "Back" is never disabled, so a user can leave the review while a generation runs; its requests still go out and the invoice is stored, but the page, now back in the catalog, never records it as generated.
- The customer-info form state of src/types/sales.ts `OrderState` is not used by the core, beyond the name and phone the checkout holds.
