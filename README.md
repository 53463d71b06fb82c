# Fusion-Store cart and product core, modelled in Dafny

This project models the logic at the centre of two small e-commerce services.

**The cart service.** The cart is one in-memory, ordered list of `{productId, quantity}` entries that the service changes in place:

- `CartStore.Store` is a class with a `seq` field. Its methods find, upsert, remove and clear entries, as `cartStore.js` does.
- `CartService` wraps each mutation in the service's checks:
  - the product id must be a non-empty string;
  - the quantity must be an integer, positive for `addItem` and non-negative for `updateItemQuantity`;
  - the stock check uses the cumulative target quantity;
  - only the delta is reserved.
- Every read re-prices the whole cart from the product directory and drops entries whose product has disappeared.

**The product directory.** `ProductDirectory.Directory` is an oracle. It holds a fixed `lookup: id -> Option<Product>` and an optional `reserve`, and it records every call made to it. The cart's outcomes are therefore determined by those two functions.

**Specification functions and methods.** Each cart operation has a specification function (`AddItemEffect`, `GetCartEffect`, …). It gives the result or error, the cart afterwards, and the directory calls made. The imperative methods are proved to have exactly that effect. `CartProperties` proves what the service promises about those functions.

**The product service.** These parts are modelled as pure functions:

- the price parser and the upload-result mapping of the controller;
- the `createProduct` guard;
- the express-validator rule chains, as a list of failed rules;
- the HTTP-status classification of the cart's product client;
- the ImageKit environment normalisation and configuration check.

`fetch`, `JSON.parse`, `Number(...)` and the image upload are oracles passed in as functions.

Two behaviours of the code worth knowing:

- `createProduct` (product/src/controllers/product.controller.js:59-63) never calls `parsePrice`. It answers 400 when `title` or `priceAmount` is falsy. So a malformed JSON `price` is rejected only by `parsePrice` itself (`ProductController.ParsePrice`).
- `addItem` and `updateItemQuantity` store the new quantity, and make the reservation, before they re-read the cart. A read that then fails on a non-finite price reports an error although the mutation already happened (`CartProperties.AddItemCommitsBeforeRepricing`).

## Model

| member | source | states |
|---|---|---|
| `ApiErrors.NewApiError` | cart/src/errors/ApiError.js:1-9 | status, message and details are stored unchanged; `name` is "ApiError"; it is an ApiError and neither subclass |
| `ApiErrors.ValidationError` | cart/src/errors/ApiError.js:11-15 | status 400, message and details unchanged, `name` "ValidationError", an instance of ApiError and of ValidationError only |
| `ApiErrors.NotFoundError` | cart/src/errors/ApiError.js:17-21 | status 404, message and details unchanged, `name` "NotFoundError", an instance of ApiError and of NotFoundError only |
| `CartStore.IndexOf` | cart/src/store/cartStore.js:26 | the position of the first entry with the id, every earlier entry has another id, and -1 exactly when no entry has it |
| `CartStore.Find` | cart/src/store/cartStore.js:9-11 | nothing exactly when no entry has the id; otherwise an entry with that id that no earlier entry shares |
| `CartStore.Upserted` | cart/src/store/cartStore.js:13-23 | present id: same length, that entry's quantity replaced in place, every other position unchanged; absent id: the old list followed by the new entry; afterwards the id finds the new quantity |
| `CartStore.Removed` | cart/src/store/cartStore.js:25-33 | present id: one entry shorter, the first entry for the id gone and the others in their order; absent id: unchanged |
| `CartStore.UpsertPreservesUniqueIds` | cart/src/store/cartStore.js:13-23 | unique product ids stay unique after an upsert |
| `CartStore.RemovePreservesUniqueIds` | cart/src/store/cartStore.js:25-33 | unique ids stay unique after a removal, and the removed id is then absent |
| `CartStore.Store.constructor` | cart/src/store/cartStore.js:1-3 | the cart starts empty |
| `CartStore.Store.GetItems` | cart/src/store/cartStore.js:5-7 | returns the stored list |
| `CartStore.Store.FindIndex` | cart/src/store/cartStore.js:26 | the linear scan returns the first index with the id, or -1 when no entry has it |
| `CartStore.Store.FindItem` | cart/src/store/cartStore.js:9-11 | returns the first entry with the id, as `Find` specifies |
| `CartStore.Store.UpsertItem` | cart/src/store/cartStore.js:13-23 | returns `{productId, quantity}` and leaves the list as `Upserted` of the old one |
| `CartStore.Store.RemoveItem` | cart/src/store/cartStore.js:25-33 | returns true exactly when the id was present and leaves the list as `Removed` of the old one |
| `CartStore.Store.ClearCart` | cart/src/store/cartStore.js:35-37 | the list is empty afterwards |
| `ProductDirectory.Directory.GetProduct` | cart/src/services/cartService.js:54 | answers with the lookup oracle and logs one fetch of that id |
| `ProductDirectory.Directory.ReserveProduct` | cart/src/services/cartService.js:42 | answers with the reserve oracle and logs one reservation of exactly that quantity |
| `CartService.AssertProductId` | cart/src/services/cartService.js:5-9 | accepts exactly the non-empty strings and returns them; anything else is ValidationError "productId is required" |
| `CartService.ParseQuantity` | cart/src/services/cartService.js:11-23 | accepts exactly the integers that are positive, or non-negative with `allowZero`, and returns them unchanged; a non-integer, infinity or NaN fails "quantity must be an integer"; each sign failure has its own message |
| `CartService.EnsureAvailability` | cart/src/services/cartService.js:25-32 | passes exactly when no stock is declared or the requested quantity is at most the stock; otherwise ValidationError "Requested quantity exceeds available stock" |
| `CartService.ReserveRejected` | cart/src/services/cartService.js:43 | a reservation answer is a refusal exactly when it is an object whose `success` is the boolean false |
| `CartService.ReserveDeltaEffect` | cart/src/services/cartService.js:34-46 | no call for a non-positive delta or a missing reserve operation; otherwise one reservation of exactly the delta, failing "Unable to reserve stock for product" exactly when it was refused |
| `CartService.ReserveDelta` | cart/src/services/cartService.js:34-46 | the method returns the outcome and makes the calls of `ReserveDeltaEffect` |
| `CartService.GetCart` | cart/src/services/cartService.js:48-84 | the loop over a snapshot, with removals from the live store, returns the result, leaves the cart and makes the calls that `GetCartEffect` gives |
| `CartService.CheckReserveStore` | cart/src/services/cartService.js:97-103 | stock check, reservation, upsert and re-read, with the effect of `CheckReserveStoreEffect` |
| `CartService.AddItem` | cart/src/services/cartService.js:86-104 | result, new cart and directory calls are those of `AddItemEffect` |
| `CartService.AddValidItem` | cart/src/services/cartService.js:90-104 | `addItem` past the input checks, with the effect of `AddValidItemEffect` |
| `CartService.AddFoundItem` | cart/src/services/cartService.js:95-104 | the target quantity is the stored one plus the request, and it goes through `CheckReserveStore` |
| `CartService.UpdateItemQuantity` | cart/src/services/cartService.js:106-134 | result, new cart and directory calls are those of `UpdateItemQuantityEffect` |
| `CartService.UpdateValidItem` | cart/src/services/cartService.js:116-134 | `updateItemQuantity` past its checks, with the effect of `UpdateValidItemEffect` |
| `CartService.RemoveItem` | cart/src/services/cartService.js:136-143 | result, new cart and directory calls are those of `RemoveItemEffect` |
| `CartService.ClearCart` | cart/src/services/cartService.js:145-148 | empties the store, then re-reads, as `ClearCartEffect` gives |
| `CartService.AddItemValidInput` | cart/src/services/cartService.js:86-90 | with a valid id and quantity, `addItem` goes on to the product lookup |
| `CartService.AddValidItemFound` | cart/src/services/cartService.js:90-99 | once the product is found, `addItem` checks the cumulative quantity and reserves the requested one |
| `CartService.CheckReserveStoreCommits` | cart/src/services/cartService.js:98-103 | past both checks the target quantity is upserted, the cart re-read, and the reservation calls precede the read's fetches |
| `CartService.CheckReserveStoreRejects` | cart/src/services/cartService.js:98-99 | a failed stock check or reservation is an error with the cart unchanged, and a failed stock check makes no call |
| `CartService.AddItemCommitThenRead` | cart/src/services/cartService.js:86-104 | a call that passes every check stores the cumulative quantity and returns the re-read cart; calls are fetch, reservation, then the read's fetches |
| `CartService.UpdateItemValidInput` | cart/src/services/cartService.js:106-116 | with a valid id that has an entry and a parsed quantity, `updateItemQuantity` goes on to removal or lookup |
| `CartService.UpdateValidItemFound` | cart/src/services/cartService.js:121-129 | for a positive quantity, the absolute quantity is checked and the difference from the stored one is reserved |
| `CartService.UpdateItemCommitThenRead` | cart/src/services/cartService.js:106-134 | a positive quantity that passes both checks is stored and the cart re-read |
| `CartService.RepriceStepMissing` | cart/src/services/cartService.js:54-59 | an entry whose product is gone is fetched and removed from the store, and the rest of the loop runs on the shorter store |
| `CartService.RepriceStepUnpriced` | cart/src/services/cartService.js:61-64 | an entry whose product has no finite price stops the loop with "Product price is unavailable", the store as it is |
| `CartService.RepriceStepPriced` | cart/src/services/cartService.js:61-75 | an entry with a finite price is fetched and emits its line, and the loop goes on |
| `CartProperties.RepriceMeaning` | cart/src/services/cartService.js:53-76 | the loop succeeds exactly when every existing product has a finite price; it then yields the expected lines in order, keeps exactly the entries whose product exists, and fetches each entry once in order |
| `CartProperties.SubtotalIsSumOfLines` | cart/src/services/cartService.js:78 | the left `reduce` equals the sum of the line totals |
| `CartProperties.GetCartMeaning` | cart/src/services/cartService.js:48-84 | a read fails ("Product price is unavailable") exactly when an existing product has no finite price; otherwise it returns, in stored order, one line per existing product at the current price with `lineTotal = unitPrice × quantity`, subtotal the sum of the lines, the entries of missing products gone from the store, one fetch per entry |
| `CartProperties.GetCartSettles` | cart/src/services/cartService.js:48-84 | a second read right after a successful one returns the same view and changes nothing |
| `CartProperties.GetCartKeepsExisting` | cart/src/services/cartService.js:53-58 | a read keeps the entry of every product that exists, never adds an entry, keeps the cart invariant, and only fetches products that have entries |
| `CartProperties.RepriceKeepsExisting` | cart/src/services/cartService.js:56-58 | removal of a vanished product never touches the entry of a product that exists |
| `CartProperties.RepriceShrinks` | cart/src/services/cartService.js:56-58 | the loop never brings an id in and keeps ids unique and quantities positive |
| `CartProperties.RepriceOnlyFetches` | cart/src/services/cartService.js:53-54 | the loop's calls are fetches of ids present in the snapshot |
| `CartProperties.KeptTwice` | cart/src/services/cartService.js:56-58 | dropping vanished products is idempotent, and it does not change the expected lines |
| `CartProperties.FindAfterRemovingOther` | cart/src/store/cartStore.js:25-33 | removing one id does not change what another id finds |
| `CartProperties.FindAfterUpsertingOther` | cart/src/store/cartStore.js:13-23 | upserting one id does not change what another id finds |
| `CartProperties.RemovedAfterKept` | cart/src/services/cartService.js:56-58 | with every earlier entry kept, the entry removed is the one the loop is looking at |
| `CartProperties.AddItemRejectsMalformedInput` | cart/src/services/cartService.js:86-88 | a bad id or quantity fails with status 400, the cart unchanged and no directory call |
| `CartProperties.AddItemUnknownProduct` | cart/src/services/cartService.js:90-93 | an unknown product fails NotFoundError "Product not found", cart unchanged, only the fetch made, no reservation |
| `CartProperties.AddItemExceedsStock` | cart/src/services/cartService.js:95-98 | a cumulative quantity above the declared stock fails "Requested quantity exceeds available stock" before any reservation, cart unchanged |
| `CartProperties.AddItemCommitShape` | cart/src/services/cartService.js:95-103 | past the stock check, a successful reservation leads to storing the cumulative quantity and re-reading the cart, with the fetch, the reservation calls and the re-read logged in that order; a refused one fails "Unable to reserve stock for product" with the cart unchanged |
| `CartProperties.AddItemReservesRequested` | cart/src/services/cartService.js:97-99 | past the stock check, the calls begin with the product fetch and then a reservation of the requested quantity, not the cumulative one |
| `CartProperties.AddItemReserveRefused` | cart/src/services/cartService.js:97-99 | when the inventory refuses that reservation the call fails "Unable to reserve stock for product" with the cart unchanged, after exactly the fetch and the reservation |
| `CartProperties.AddItemCommitted` | cart/src/services/cartService.js:95-103 | on commit the stored quantity becomes the old one plus the request, and every other product that still exists keeps the entry it had |
| `CartProperties.AddItemCommitOrUnchanged` | cart/src/services/cartService.js:86-104 | unless every check passes and the item is committed, the call fails with the cart unchanged; every success is a commit |
| `CartProperties.AddRepeatedlyAccumulates` | cart/src/services/cartService.js:86-104 | after any sequence of `addItem` calls on one product, its quantity is the old one plus the quantities of the committed calls |
| `CartProperties.AddItemCommitsBeforeRepricing` | cart/src/services/cartService.js:99-103 | when the product's own price is unusable the call fails "Product price is unavailable" after the quantity was already stored |
| `CartProperties.UpdateItemNotInCart` | cart/src/services/cartService.js:108-112 | an id without an entry fails NotFoundError "Product not found in cart" whatever the quantity, with no call |
| `CartProperties.UpdateItemZeroIsRemove` | cart/src/services/cartService.js:116-119 | quantity 0 is the same as `removeItem`: no fetch before the read, no reservation, and with unique ids the product is never fetched and its entry is gone |
| `CartProperties.UpdateItemUnknownProduct` | cart/src/services/cartService.js:121-124 | a product in the cart that has vanished from the catalogue fails NotFoundError "Product not found" after only the fetch, with the cart unchanged |
| `CartProperties.UpdateItemExceedsStock` | cart/src/services/cartService.js:121-126 | a new absolute quantity above the stock fails before any reservation, cart unchanged |
| `CartProperties.UpdateItemCommitShape` | cart/src/services/cartService.js:121-133 | past the stock check, a successful reservation of the change leads to storing the new quantity and re-reading the cart, with the calls logged in that order; a refused one fails "Unable to reserve stock for product" with the cart unchanged, after the fetch and the reservation |
| `CartProperties.UpdateItemReservesIncrease` | cart/src/services/cartService.js:126-131 | a reservation is made exactly when the new quantity is above the stored one, for the difference; on success the new quantity is stored |
| `CartProperties.RemoveItemAbsent` | cart/src/services/cartService.js:136-141 | removing an absent id fails NotFoundError "Product not found in cart" with nothing changed |
| `CartProperties.RemoveItemPresent` | cart/src/services/cartService.js:136-142 | removing a present id leaves no entry for it |
| `CartProperties.ClearCartEmpties` | cart/src/services/cartService.js:145-148 | clearing always succeeds with no lines, subtotal 0 and no fetch |
| `CartProperties.RemovedKeepsInvariant` | cart/src/store/cartStore.js:25-33 | removal keeps ids unique and quantities positive |
| `CartProperties.RemovedAddsNothing` | cart/src/store/cartStore.js:25-33 | removal never brings an id in |
| `CartProperties.PricesUsableCons` | cart/src/services/cartService.js:61-64 | the price condition on a list splits into its first entry and the rest |
| `CartProperties.UpsertKeepsInvariant` | cart/src/store/cartStore.js:13-23 | an upsert with a positive quantity keeps the cart invariant |
| `CartProperties.GetCartKeepsInvariant` | cart/src/services/cartService.js:48-84 | a read keeps unique ids and positive quantities |
| `CartProperties.AddItemKeepsInvariant` | cart/src/services/cartService.js:86-104 | `addItem` keeps unique ids and positive quantities, whether it succeeds or fails |
| `CartProperties.UpdateItemKeepsInvariant` | cart/src/services/cartService.js:106-134 | `updateItemQuantity` keeps the invariant, zero being represented by absence |
| `CartProperties.RemoveItemKeepsInvariant` | cart/src/services/cartService.js:136-143 | `removeItem` keeps the invariant |
| `CartProperties.ClearCartKeepsInvariant` | cart/src/services/cartService.js:145-148 | `clearCart` leaves a cart that satisfies the invariant |
| `ProductService.ServiceBaseUrl` | cart/src/services/productService.js:1 | the configured URL when it is non-empty, otherwise `http://localhost:3001` |
| `ProductService.BuildUrl` | cart/src/services/productService.js:9-14 | the result ends with the path exactly, and what precedes it is the base with at most one trailing `/` removed |
| `ProductService.GetProductRequest` | cart/src/services/productService.js:26 | `getProduct` sends a GET with no headers and no body to the base (less one trailing slash) followed by `/products/<id>` |
| `ProductService.ReserveProductRequest` | cart/src/services/productService.js:42-48 | `reserveProduct` sends a POST with a JSON content type and the body `{quantity}` alone to the base followed by `/products/<id>/reserve` |
| `ProductService.BuildUrlSlashInsensitive` | cart/src/services/productService.js:10-12 | a base with one trailing slash builds the same URL as the base without it |
| `ProductService.ParseJsonSafely` | cart/src/services/productService.js:16-22 | status 204 or an empty body gives `{}`; any other body is parsed, and a parse failure is an error |
| `ProductService.NoContentIgnoresBody` | cart/src/services/productService.js:17-19 | for a 204 response neither the body nor the parser matters |
| `ProductService.GetProduct` | cart/src/services/productService.js:24-37 | without `fetch` it throws; 404 is null; any other status that is not ok throws "Failed to fetch product: <status>"; an ok response yields its parsed body |
| `ProductService.WithDefaultSuccess` | cart/src/services/productService.js:58-62 | an object payload without `success` gets `success: true` and keeps its other fields; an existing `success` is kept unchanged; a null payload throws |
| `ProductService.ReserveProduct` | cart/src/services/productService.js:39-63 | 409 gives `{success: false}`; any other status that is not ok throws "Failed to reserve product: <status>"; an ok payload is returned with `success` defaulted |
| `ProductService.ReserveRejectedExactly` | cart/src/services/productService.js:50-62 | the cart sees a refusal exactly for a 409, or for an ok body that parses to an object whose `success` is false; an empty ok body counts as success |
| `ProductController.PriceOf` | product/src/controllers/product.controller.js:28-31 | the amount is the coerced amount; the currency is the given one when truthy, otherwise 'INR' |
| `ProductController.ParseJsonPrice` | product/src/controllers/product.controller.js:8-16 | fails "Invalid price format. Expected JSON string." exactly when the text does not parse or parses to null; otherwise it takes `amount` and `currency` from the parsed value |
| `ProductController.ParsePrice` | product/src/controllers/product.controller.js:5-35 | the only errors are the two messages; "Price information is required." exactly when no usable `price` and no `priceAmount`; the invalid-format error exactly for a non-empty string price that fails to parse; the currency is never falsy |
| `ProductController.StringPriceParsed` | product/src/controllers/product.controller.js:7-13 | a JSON string that decodes to an object gives `Number(amount)` and its currency, or 'INR' |
| `ProductController.ObjectPriceRead` | product/src/controllers/product.controller.js:19-24 | an object price gives `Number(amount)` and its currency, or 'INR' |
| `ProductController.FlatPriceRead` | product/src/controllers/product.controller.js:27-32 | without a usable `price`, a present `priceAmount` gives `Number(priceAmount)` and `priceCurrency`, defaulting to 'INR' |
| `ProductController.PricePrecedence` | product/src/controllers/product.controller.js:6-32 | a truthy string or object `price` decides the result whatever the flat fields say; any other `price` is treated as absent |
| `ProductController.ImageFrom` | product/src/controllers/product.controller.js:52-56 | `url` is copied, `thumbnail` is `thumbnailUrl` when truthy or else `thumbnail`, `id` is `fileId` when truthy or else `id` |
| `ProductController.UploadEach` | product/src/controllers/product.controller.js:42-56 | one upload request and one image record per file, in file order, each record built from its own upload's result |
| `ProductController.UploadImages` | product/src/controllers/product.controller.js:37-57 | no files means no upload and no records; otherwise one request and one record per file, in order |
| `ProductController.CreateProductGuard` | product/src/controllers/product.controller.js:60-63 | answers 400 "Title and priceAmount are required fields." exactly when `title` or `priceAmount` is falsy |
| `ProductController.GuardPassedHasPrice` | product/src/controllers/product.controller.js:27-34 | a body that passes the guard never fails `parsePrice` for want of a price |
| `ProductValidator.FailedRules` | product/src/validators/product.validator.js:6-40 | a rule is reported exactly when it is in the chain and fails |
| `ProductValidator.FailedRulesInOrder` | product/src/validators/product.validator.js:6-40 | the reported rules keep the chain's order, each at most once |
| `ProductValidator.CreateFailures` | product/src/validators/product.validator.js:6-40 | "Title is required" exactly when the trimmed title is empty; a length error exactly when it is outside 3..200; a description error exactly when a present description trims to over 2000 characters; "Price is required" exactly for an empty price; a seller error exactly for a present non-string; "Maximum 5 images allowed" exactly when `images` is present and more than 5 files came |
| `ProductValidator.UpdateFailures` | product/src/validators/product.validator.js:45-57 | only an optional title outside 3..200 and an optional description over 2000 characters, both after trimming, are reported |
| `ProductValidator.CreateFailuresInChainOrder` | product/src/validators/product.validator.js:6-40 | create failures are listed in chain order |
| `ProductValidator.UpdateFailuresInChainOrder` | product/src/validators/product.validator.js:45-57 | update failures are listed in chain order |
| `ProductValidator.CreatePassesExactly` | product/src/validators/product.validator.js:6-40 | a create request passes exactly when every rule holds |
| `ProductValidator.UpdateReadsTitleAndDescription` | product/src/validators/product.validator.js:45-57 | update validation depends on nothing but the title and the description |
| `ProductValidator.CreatePassImpliesUpdatePass` | product/src/validators/product.validator.js:6-57 | a request that passes the create rules passes the update rules |
| `Js.LeadingWhitespaceMeaning` | product/src/validators/product.validator.js:8 | the leading run counted is all whitespace and stops at the first other character |
| `Js.TrailingWhitespaceMeaning` | product/src/validators/product.validator.js:8 | the trailing run counted is all whitespace and stops at the last other character |
| `Js.TrimMeaning` | product/src/config/imagekit.js:4 | `trim` returns a slice without outer whitespace, and everything cut off is whitespace; the result is empty exactly for all-whitespace input; a string without outer whitespace is unchanged |
| `Js.TrimIdempotent` | product/src/validators/product.validator.js:8 | trimming twice is trimming once |
| `ImageKitConfig.StripOuterQuotes` | product/src/config/imagekit.js:4 | at most two characters go, and only a first or last quote; a string without outer quotes is unchanged |
| `ImageKitConfig.StripOuterQuotesIsReplace` | product/src/config/imagekit.js:4 | the two-step reading equals the character-by-character meaning of the global replace |
| `ImageKitConfig.Normalize` | product/src/config/imagekit.js:4 | non-strings are returned unchanged; a string is trimmed and then loses its outer quotes |
| `ImageKitConfig.NormalizeKeepsPlainText` | product/src/config/imagekit.js:4 | a string with no outer whitespace and no outer quotes is returned unchanged |
| `ImageKitConfig.UrlEndpoint` | product/src/config/imagekit.js:12 | `IMAGEKIT_URL` when truthy, otherwise `IMAGEKIT_URL_ENDPOINT`; truthy exactly when either is |
| `ImageKitConfig.MissingNames` | product/src/config/imagekit.js:15-19 | each name is listed exactly when its setting is falsy, in the order public key, private key, URL |
| `ImageKitConfig.LoadConfig` | product/src/config/imagekit.js:15-33 | loading fails exactly when the public key, the private key or the endpoint is missing, with a message that names the missing ones; otherwise it yields the three settings |
| `ImageKitConfig.BlankVariableIsMissing` | product/src/config/imagekit.js:4-19 | a variable set to whitespace only counts as missing |
| `ImageKitConfig.PlainVariablesLoad` | product/src/config/imagekit.js:4-33 | with three plain values set, loading yields exactly those values |

## Left out

- Network I/O is not modelled: `fetch`, `response.text()`, `JSON.parse` and the ImageKit upload are oracles passed in as functions. `async`/`await` and `Promise.all` become sequential evaluation.
- The product directory as the cart service sees it is a total `lookup` and an optional `reserve`. The errors that `productService.js` throws are modelled in `ProductService` but not carried into `CartService`: a failed fetch, an HTTP failure or invalid JSON would abort a cart operation part-way, and the model does not follow that.
- JavaScript number coercion and IEEE doubles are not modelled:
  - `Number(quantity)` and `Number(product.price)` reach the model already coerced, as `Js.Number` (finite real, NaN or an infinity);
  - prices and line totals are exact reals, with no rounding;
  - quantities are unbounded integers, with no safe-integer limit;
  - `availableStock` is an optional integer. A non-numeric stock value is not modelled.
- `ProductValidator.LengthWithin` counts every character; validator.js's `isLength` also leaves the presentation selectors U+FE0E and U+FE0F out of the count, which is library behaviour not modelled here.
- express-validator's string conversion of non-string values is not modelled: the caller supplies that text (`NonText`). Array-valued fields, which the library validates element by element, are not modelled either.
- `ProductService.WithDefaultSuccess` returns an array payload unchanged, while JavaScript would set `success = true` on it (`typeof []` is "object"). The model's arrays carry no named properties. The cart's refusal test sees no `success === false` either way, so its outcome does not change.
- Races on the shared module-level cart are not modelled, because each operation is sequential here.
- `createProduct` after line 63 is not modelled. The seller lookup, price object and uploads there are unfinished and return no response.
- The Mongoose model and the listing, lookup-by-id, update, delete and by-seller behaviour are not part of this model. Their code is not among the product service's modelled files.
- Express routing, the controllers that only choose a status code, and the error-handling and validation middleware are not modelled. They are glue.
- The ImageKit SDK client, the `console.error` diagnostics printed before the configuration error, and the unexported `uploadImages` helper in `product/src/config/imagekit.js` are not modelled.
