# Store manager: product and sale services in Dafny

This project models the service layer of a small store-management API. The API
keeps two collections in a document store:

- products, each `{ _id, name, quantity }`;
- sales, each `{ _id, itensSold: [{ productId, quantity }, ...] }`.

The product service validates payloads and keeps product names unique.
The sale service is an orchestrator. It validates a sale's items, checks that
every referenced product exists and has enough stock, stores the sale, and
decrements stock. Deleting a sale re-credits the stock.

The model has six modules:

| file | module | contents |
|---|---|---|
| `values.dfy` | `Values` | Request values (`Field`: absent, null, string, number, other), sale items, service results. |
| `object_ids.dfy` | `ObjectIds` | The 24-hex-digit identifier and how `ObjectId(x)` reads a request value. |
| `validation.dfy` | `Validation` | The Joi schemas: the product payload and the sale item array. |
| `repository.dfy` | `Repository` | The store as a class `Store` holding the two maps and their insertion order. |
| `products_service.dfy` | `ProductsService` | `create`, `getAll`, `getById`, `updateById`, `deleteById`, `findOneByName`. |
| `sales_service.dfy` | `SalesService` | The three checks, `updateQuantityProducts`, `create`, `getAll`, `getById`, `updateById`, `deleteById`. |

The code runs in imperative steps in three places, and the model keeps those steps:

- The two fan-out checks push one lookup per item and then count failures in a
  `forEach`. They are methods with loops (`FetchProducts`,
  `AvailableProductsValidation`, `AvailableInStockValidation`). Each is proved
  equal to a specification function (`ReferentialCheck`, `StockCheck`).
- The stock updates are a loop of relative increments on the store
  (`UpdateQuantityProducts`). It is proved to yield `ApplyDeltas`.
- The service operations that insert, replace or remove documents are methods
  that modify the `Store` object. Their `ensures` clauses give the whole new
  state.

Each `Promise.all` fan-out becomes a sequential loop. Only the aggregate error
count reaches the caller, and increments commute, so the order does not matter.

Lookups and answers that only read are functions over the store's maps. Those
are `GetById`, `GetAll`, `FindOneByName` and the validators.

Request values are typed loosely, as in JavaScript:

- A `Field` is `undefined`, `null`, a string, a number, or "other" (boolean, object, array).
- Numbers are reals.
- A sale item records any keys besides `productId` and `quantity`, because Joi refuses unknown keys.

Each identifier the store generates on insert is a parameter. Its precondition
says it is a fresh, lower-case, 24-hex-digit id.

## Behaviour of the code worth knowing

- `productsService.updateById` with an id the driver cannot parse does not answer
  `invalid_data`. The preceding `getById` returns an error object, and an error
  object is truthy, so the update goes ahead. The driver's error object is then
  returned as the result (`services/productsService.js:64-71`), not inside `err`.
  `ProductsService.UpdateById` returns `DriverError(...)` in this case.
- A missing sale body (`undefined`) passes the item schema, because the array
  schema is not `required()`. Both fan-out checks then throw on `forEach` and
  count one problem, so `create` and `updateById` still answer `invalid_data`
  (`SalesService.MissingBodyIsOneProblem`).
- Name length is JavaScript's `length`, in UTF-16 code units: a character outside
  the Basic Multilingual Plane counts twice toward the minimum of 5.
- A sale item may omit `productId`, because the schema uses `allow()`. Then
  `ObjectId(undefined)` makes a fresh id, and the lookup comes back `null`.
- An item object with a key other than `productId` and `quantity` fails the schema.
- The stock check also counts a missing product. Reading `null.quantity` throws
  a TypeError, the catch adds one, and counting stops at that item
  (`services/salesService.js:42-48`).
- With the same product named twice in one sale, each item is checked against
  the stock as it was before the sale. The sale can then drive the stock below
  zero (`SalesService.RepeatedProductOversells`). When every product is named
  at most once, stock stays non-negative
  (`SalesService.AcceptedSaleKeepsStockNonNegative`).

## Model

| member | source | states |
|---|---|---|
| `ObjectIds.Parse` | services/salesService.js:20 | `ObjectId(productId)` yields a lower-case 24-hex-digit identifier whenever it parses. |
| `ObjectIds.ParseAccepts` | test/unit/models.js:95-101 | A value parses exactly when it is a string of 24 hex digits. It is refused as malformed exactly when it is a non-hex or wrong-length string, or a value that is neither a string nor undefined/null/a number. |
| `ObjectIds.ParseRoundTrip` | test/unit/models.js:76-93 | A stored id, printed and parsed back, names the same document. |
| `ObjectIds.ParseIgnoresCase` | test/unit/models.js:95-101 | Two spellings of an id that differ only in the case of hex digits parse to the same identifier. |
| `Validation.NameError` | services/productsService.js:8-9 | The name rule accepts exactly a string of at least 5 UTF-16 code units. Every refusal is a message labelled `"name"`. |
| `Validation.Utf16Length` | services/productsService.js:8 | The length `min(5)` measures: at least one and at most two code units per character, and zero exactly for the empty string. |
| `Validation.QuantityError` | services/productsService.js:10-12 | The quantity rule accepts exactly an integer number of at least 1. Every refusal is a message labelled `"quantity"`. |
| `Validation.ProductPayloadError` | services/productsService.js:7-17 | The payload passes exactly when name and quantity are both valid. An invalid name is reported first; the quantity is reported only when the name is valid. |
| `Validation.ItemError` | services/salesService.js:6-10 | One sale item passes exactly when its quantity is valid and it has no unknown key. |
| `Validation.FirstItemError` | services/salesService.js:6-11 | An item list passes exactly when every item passes. Otherwise the answer is the error of the first item that fails, because Joi stops at the first violation. |
| `Validation.InputProductsQuantityValidation` | services/salesService.js:6-11 | The sale body passes exactly when it is missing, or is an array whose items all pass; the empty array passes. A present non-array gets `"value" must be an array`. |
| `Validation.ProductSchemaMessages` | test/unit/services.js:22-56 | Gives the messages the unit tests expect for a missing name, a non-string name, a missing quantity, and quantity -12. |
| `Validation.SaleSchemaMessages` | test/unit/services.js:349-367 | A non-array body gets `"value" must be an array`. An item without quantity gets `"quantity" is required`, also when it carries the unknown key `_id` (quantity is reported before the unknown key). An item with quantity 200 passes. |
| `Validation.NameLengthInUtf16Units` | services/productsService.js:8 | Three characters outside the Basic Multilingual Plane have length 6 and make a valid name; `"abcd"` is refused as too short. |
| `Repository.Find` | test/unit/models.js:76-103 | A repository lookup gives the error object exactly for a malformed id, and the document exactly when a stored id matches. Otherwise it gives `null`. |
| `Repository.Increment` | test/unit/models.js:128-146 | `updateProductQuantityById` adds the delta to the quantity of the product with that id only. It keeps every id and name, and a missing id changes nothing. |
| `Repository.Store.constructor` | test/unit/models.js:13-26 | The fresh database the tests start from: empty, consistent product and sale collections. |
| `Repository.Store.InsertProduct` | models/productsModel.js:3-16 | Adds exactly one product under the fresh id at the end of the natural order. Returns `{ _id, name, quantity }` and leaves the sales alone. |
| `Repository.Store.ReplaceProduct` | test/unit/models.js:105-116 | Replaces the name and quantity of a stored product under the same id. |
| `Repository.Store.IncrementQuantity` | test/unit/models.js:128-136 | Applies `Increment` to the products and changes nothing else. |
| `Repository.Store.RemoveProduct` | test/unit/models.js:168-176 | Removes exactly that product from the map and the natural order. |
| `Repository.Store.InsertSale` | models/salesModel.js:3-15 | Adds exactly one sale, whose items are the given list, under the fresh id. Returns `{ _id, itensSold }`. |
| `Repository.Store.ReplaceSale` | test/unit/models.js:259-274 | Replaces the item list of a stored sale under the same id. |
| `Repository.Store.RemoveSale` | test/unit/models.js:286-294 | Removes exactly that sale. |
| `ProductsService.FindOneByName` | services/productsService.js:89-93 | Gives `null` exactly when no stored product has that exact name. Otherwise it gives the first such product in natural order, unchanged. |
| `ProductsService.GetAll` | services/productsService.js:29-33 | Lists every stored product exactly once, in natural order, with its stored name and quantity. |
| `ProductsService.GetById` | services/productsService.js:35-47 | A malformed id gives `invalid_data` "Wrong id format", and an absent id gives `not_found` "Product not found". Otherwise the answer is the stored product. |
| `ProductsService.Create` | services/productsService.js:4-27 | An invalid payload gives `invalid_data` with the first Joi message. A taken name gives "Product already exists". Both leave the store unchanged. Otherwise exactly one product with the given name and quantity is added and returned. |
| `ProductsService.UpdateById` | services/productsService.js:49-72 | The payload is validated before any lookup. A malformed id passes the driver's error through, and an absent product gives `not_found`; both leave the store unchanged. Otherwise the product gets the new name and quantity under the same id. |
| `ProductsService.DeleteById` | services/productsService.js:74-87 | An absent product gives `not_found`, and a malformed id gives `invalid_data`. Otherwise the product is removed and its pre-deletion record returned. |
| `ProductsService.CreateThenGetById` | services/productsService.js:24-47 | A product created under an id reads back by that id as exactly the created record. |
| `ProductsService.CreateKeepsNamesUnique` | services/productsService.js:19-26 | Because a taken name is refused, `create` keeps product names unique. |
| `ProductsService.UpdateCanDuplicateNames` | services/productsService.js:64-71 | `updateById` checks no names: for any two distinct stored products, giving one the other's name (the state its success case produces) breaks name uniqueness. |
| `SalesService.ReferentialCheckMeaning` | services/salesService.js:13-33 | The referential check returns `true` exactly when the body is an array and every item's `productId` names a stored product. |
| `SalesService.FetchProducts` | services/salesService.js:17-21 | The lookup loop throws exactly when some `productId` is malformed. Otherwise it yields, for each item, that item's lookup. |
| `SalesService.AvailableProductsValidation` | services/salesService.js:13-33 | Its answer is `ReferentialCheck`. The count is one for a thrown error (malformed id or non-array); otherwise it is the number of `null` lookups. |
| `SalesService.StockCheckMeaning` | services/salesService.js:35-53 | The stock check returns `true` exactly when every item names a stored product whose stock is at least the request; asking for exactly the stock passes. |
| `SalesService.AvailableInStockValidation` | services/salesService.js:35-53 | Its answer is `StockCheck`. Items over stock are counted up to the first missing product, which adds one; a malformed id or non-array counts one. |
| `SalesService.ApplyDeltas` | services/salesService.js:55-67 | After the per-item increments, every product keeps its id and name. Its quantity changes by the signed quantities of the non-rejected items that name it: `+` for `'increase'`, `-` otherwise. |
| `SalesService.UpdateQuantityProducts` | services/salesService.js:55-67 | The loop leaves the products equal to `ApplyDeltas` and touches nothing else. It returns `true` unless some update was rejected, in which case it returns `{ error: message }`. |
| `SalesService.SaleStockRoundTrip` | services/salesService.js:84-86 | Decrementing a sale's items and then re-crediting them restores every product exactly, so `create` followed by `deleteById` leaves the stock as it was. |
| `SalesService.ShapeAndReferenceMeaning` | services/salesService.js:110-114 | The schema and the referential check both pass exactly when the body is an array of valid items that all name stored products. |
| `SalesService.CreateVerdictMeaning` | services/salesService.js:69-82 | `create` gives `invalid_data` exactly when the schema or the referential check fails, whatever the stock. It gives `stock_problem` exactly when both pass but some item exceeds its stock, and it accepts exactly when all three pass. |
| `SalesService.AcceptedSaleKeepsStockNonNegative` | services/salesService.js:40-44 | If a sale is accepted, names each product at most once, and all stock starts non-negative, then no stock is negative after the decrement. |
| `SalesService.RepeatedProductOversells` | services/salesService.js:40-44 | Two items of 100 on one product with stock 150 pass every check and leave the stock at -50. |
| `SalesService.StockExamples` | test/unit/services.js:424-454 | With stock 150, a request of 200 is one problem and is refused with `stock_problem`; a request of 100 passes. |
| `SalesService.SaleOfTenExample` | services/salesService.js:55-67 | Selling 10 of a stock of 150 leaves 140, and re-crediting the sale restores 150. |
| `SalesService.MalformedIdIsOneProblem` | test/unit/services.js:373-379 | One malformed id makes both checks report exactly one problem and `create` answer `invalid_data`. |
| `SalesService.MissingBodyIsOneProblem` | services/salesService.js:6-33 | A missing body passes the schema, but both fan-out checks report one problem, so `create` answers `invalid_data`. |
| `SalesService.Create` | services/salesService.js:69-89 | On a refusal it returns the verdict's error, and neither sales nor stock change. On success it inserts one sale whose items are the input, returns it, and lowers each referenced stock by that item's quantity. |
| `SalesService.GetAll` | services/salesService.js:91-95 | Lists every stored sale exactly once, in natural order. |
| `SalesService.GetById` | services/salesService.js:97-105 | Gives the stored sale exactly for a well-formed stored id. Otherwise it gives `not_found` "Sale not found". |
| `SalesService.CreateThenGetById` | services/salesService.js:84-105 | A sale stored under an id reads back by that id with exactly its items. |
| `SalesService.UpdateById` | services/salesService.js:109-123 | Runs only the schema and referential checks; failure gives `invalid_data` and an absent sale gives `not_found`. On success the item list is replaced. Product stock never changes. |
| `SalesService.DeleteById` | services/salesService.js:125-142 | A malformed or absent sale id gives `invalid_data` "Wrong sale ID format" and changes nothing. Otherwise the sale is removed and returned as it was, and each item's quantity is credited back to its product. |

## Left out

- HTTP controllers, routers and process start-up: these only map results to status codes.
- The MongoDB driver and connection: the collections are the in-memory `Store`. An insert that fails on the connection, which the repository returns as an error value, is not modelled.
- Concurrency: `Promise.all` interleavings and the oversell race between two concurrent sales. The atomicity of `$inc` is taken as given, and one request runs at a time.
- Strings are sequences of Unicode scalar values, so a JavaScript string holding an unpaired surrogate cannot be written.
- Floating point: numbers are reals, so NaN, Infinity, rounding and Joi's "safe number" rule are not modelled.
- A sale item's list of further keys is not constrained to distinct names other than `productId` and `quantity`, as a JavaScript object's keys are; such lists do not arise from a request body.
- Joi type conversion, for example numeric strings accepted as numbers. Array elements that are not objects are also not modelled: every element is an object with `productId`, `quantity` and other keys.
- ObjectIds: the driver also accepts a 12-character string as a 12-byte id, but the model treats it as malformed. An id that `ObjectId` generates for `undefined`, `null` or a number is assumed to name no document.
- SalesService.Exceeds: JavaScript's `<` between a stock number and a string, boolean, object or array is taken as false. The stock check's answer is ignored whenever the schema fails, and only such inputs fail the schema.
- SalesService.Delta: `-quantity` on a non-number is taken as an update that fails and changes nothing, because only validated items reach it.
- SalesService.Create: the stock decrement after insertion is assumed to succeed. Its swallowed failures are modelled only in `UpdateQuantityProducts`, through the rejected-index set.
- SalesService.DeleteById: the stock re-credit is likewise assumed to succeed.
- SalesService.AvailableProductsValidation: the `"<count> problems"` message is represented by the count alone.
- SalesService.UpdateById: the repository code for `salesModel.updateById` is not part of this model. For a well-formed id with no sale, it is assumed to answer as not found.
- The `{ products: [...] }` and `{ sales: [...] }` wrappers of the two `getAll` answers are represented by the sequence they wrap.
