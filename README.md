# orders-ms: the order lifecycle and the RPC error filter, in Dafny

This project models the core of the orders microservice. That core is two pieces:

- `OrdersService` (`src/orders/orders.service.ts`) creates orders, lists them a page at a time with an optional status filter, fetches one order, and changes an order's status. Line items get their price and product name from the products service's `validateProducts` answer.
- `RpcCustomExceptionFilter.catch` (`src/common/exceptions/rpc-custom-exception.filter.ts`) turns the payload of an RPC error into a single HTTP response (status, body).

Files:

- `sequences.dfy` (module `Sequences`): the first-match search that `Array.prototype.find`, `findUnique` by id and the string grammar all use.
- `js_values.dfy` (module `JsValues`): the JavaScript values an error payload can be. It models `typeof v === 'object'`, the `in` operator, and `isNaN(+v)`. Unary plus follows ToNumber (ECMAScript section 7.1.4), and strings follow the StringToNumber grammar (ECMAScript section 7.1.4.1.1).
- `rpc_exception_filter.dfy` (module `RpcExceptionFilter`): the filter. `CatchAsWritten` follows the code, including the two places where it throws instead of responding. `Catch` is the corrected version (see "## Findings").
- `order_model.dfy` (module `OrderModel`): the records, plus the pure parts of the service. These are the first-match `products.find`, the two `reduce` folds, the item mapping and name enrichment, the status filter, the `skip`/`take` window, the `Math.ceil` last page, and the status overwrite.
- `orders_service.dfy` (module `Orders`): class `OrdersService`. Its field `orders: seq<Order>` is the order store.
  - `Create` and `ChangeOrderStatus` are methods that change the store.
  - `FindAll` and `FindOne` are functions that read it.
  - `CreateThenFindOne` works through the create-then-fetch example: two products at 10 and 5, ordered ×2 and ×1, give totals 25 and 3, and the fetched items are named "A" and "B".

Three things the code depends on are passed in as parameters:

- The products service's answer for a call is `lookup: Result<seq<Product>>`. It holds either the product list or the error payload the remote call rejected with.
- The id the database would generate is `freshId`. It is required to be absent from the store.
- The pagination rules of the request DTOs become the precondition `page >= 1 && limit >= 1`. An absent status is `None`.

Money is an integer throughout (cents, say), and `Math.ceil(total / limit)` is integer ceiling division.

What the code does, as opposed to what one might expect:

- On an unknown product id, `create` fails with the JavaScript TypeError from reading `.price` of `undefined`. It is caught and rethrown as an RpcException, and it happens before the database write. There is no dedicated "product not found" error.
- Reading `.name` in `findOne` fails the same way, but that error is not caught there.
- `changeOrderStatus` first runs `findOne`, so it needs a lookup answer too. It returns the enriched order when the status is unchanged. Otherwise it returns the updated row without items, because the update has no `include`.
- `findAll` returns the scalar columns of each order, also without items.
- The ids sent to `validateProducts` are every item's id, duplicates included. Nothing here depends on that argument.

## Model

| member | source | states |
|---|---|---|
| `Sequences.FirstIndex` | src/orders/orders.service.ts:36 | the index found is that of the first element satisfying the test, every element before it fails the test, and the length is returned when none passes; `find` and `findUnique` by id both use it |
| `OrderModel.FindProduct` | src/orders/orders.service.ts:36 | `find` gives undefined (None) exactly when no product has the id; otherwise the first product with that id, and no product before it has the id |
| `OrderModel.ReadOfUndefined` | src/orders/orders.service.ts:36 | the TypeError thrown by reading `.price` or `.name` of the undefined `find` result: it has a `name` and a `message` but no `statusCode` |
| `OrderModel.AmountFold` | src/orders/orders.service.ts:35-39 | the `totalAmount` reduce, starting from `acc`, adds price × quantity item by item and gives a total exactly when every item's product resolves |
| `OrderModel.QuantityFold` | src/orders/orders.service.ts:41 | the `totalItems` reduce adds each item's quantity; with no negative quantity the total is at least the starting value |
| `OrderModel.AmountFoldMatchesItems` | src/orders/orders.service.ts:35-39 | the `totalAmount` reduce succeeds exactly when every item's product resolves, and then equals the sum of price × quantity over the persisted items |
| `OrderModel.QuantityFoldMatchesItems` | src/orders/orders.service.ts:41 | the `totalItems` reduce equals the sum of the persisted items' quantities |
| `OrderModel.PriceItems` | src/orders/orders.service.ts:49-53 | the persisted items keep count and order; each has its input productId and quantity and the first matching product's price; they exist exactly when all ids resolve |
| `OrderModel.NameItems` | src/orders/orders.service.ts:70-73 | each item, in order, gains the first matching product's name with its other fields unchanged; fails exactly when an id has no match |
| `OrderModel.NameItemsKeepsItems` | src/orders/orders.service.ts:129-132 | stripping the added names gives back exactly the stored items |
| `OrderModel.PricedItemsResolve` | src/orders/orders.service.ts:68-73 | the items `create` persists all resolve against the same answer, so the enrichment after the write cannot fail |
| `OrderModel.Enrich` | src/orders/orders.service.ts:127-133 | the result is the order with each item extended by its product's name (`IsEnrichmentOf`); reading `.name` of undefined fails with the TypeError payload |
| `OrderModel.Matches` | src/orders/orders.service.ts:92 | the condition `where: { status }`: an order's status equals the requested one, and an absent status matches every order |
| `OrderModel.Filtered` | src/orders/orders.service.ts:89-93 | `where: { status }` keeps exactly the stored orders with that status, each as many times as it is stored (as multisets), and all of them in store order when the status is absent |
| `OrderModel.CountMatching` | src/orders/orders.service.ts:86 | `order.count({ where: { status } })`: at most the number of stored orders, and all of them when the status is absent |
| `OrderModel.CountIsFilteredLength` | src/orders/orders.service.ts:86 | the `count` query agrees with the number of orders in the filtered list |
| `OrderModel.CeilDiv` | src/orders/orders.service.ts:97 | `lastPage` pages of `limit` hold all `total` orders with less than one page to spare, which makes it the ceiling of total / limit |
| `OrderModel.Window` | src/orders/orders.service.ts:90-91 | `skip`/`take` returns at most `take` elements, those at positions `skip`, `skip + 1`, …; empty past the end |
| `OrderModel.Offset` | src/orders/orders.service.ts:90 | the `skip` of a page, `(page - 1) * limit` |
| `OrderModel.PageOf` | src/orders/orders.service.ts:89-93 | the rows `findMany` returns: at most `limit` filtered orders, the ones at positions `Offset(page, limit)`, `Offset(page, limit) + 1`, … |
| `OrderModel.Summary` | src/orders/orders.service.ts:144-147 | the row an `update` without `include` returns: the order's id, status and totals, without its items |
| `OrderModel.Summaries` | src/orders/orders.service.ts:89-93 | the rows `findMany` without `include` returns: one scalar row per order, in the same order |
| `OrderModel.PagesCoverAll` | src/orders/orders.service.ts:89-93 | the order at filtered position i is on page i / limit + 1, at slot i % limit |
| `OrderModel.PagesEndAtLastPage` | src/orders/orders.service.ts:90-97 | a page is empty exactly when its number exceeds `lastPage` |
| `OrderModel.IndexOfOrder` | src/orders/orders.service.ts:103-104 | `findUnique({ where: { id } })`: the position of the first order with that id, or the store's length when none has it |
| `OrderModel.IndexOfAppended` | src/orders/orders.service.ts:43-66 | an order written under a new id is found at the end of the store |
| `OrderModel.SetStatus` | src/orders/orders.service.ts:144-147 | `order.update({ where: { id }, data: { status } })`: same length; the order with that id has the new status and its other fields; every other order is unchanged |
| `OrderModel.SetStatusPreservesStore` | src/orders/orders.service.ts:144-147 | the status update keeps ids unique and every order's totals consistent with its items |
| `OrderModel.SetSameStatusIsIdentity` | src/orders/orders.service.ts:142 | writing the status an order already has would leave the store unchanged, so the early return loses nothing |
| `OrderModel.SetStatusLandsAndIsIdempotent` | src/orders/orders.service.ts:144-147 | any status may replace any other, and repeating the same update changes nothing |
| `Orders.OrdersService.Create` | src/orders/orders.service.ts:25-80 | a remote error or an unknown product fails without writing; otherwise exactly one order is appended, Pending (the schema default is taken to be Pending), with the priced items and totals equal to their sums, and the enriched result equals what `findOne` then returns |
| `Orders.OrdersService.FindAll` | src/orders/orders.service.ts:82-100 | at most `limit` rows, the window at `(page-1)*limit` of the filtered orders; `meta.page == page`; `meta.total` counts all filtered orders; `lastPage` is ceil(total / limit); every row has the filtered status |
| `Orders.OrdersService.FindOne` | src/orders/orders.service.ts:102-134 | an unknown id fails with the 404 not-found payload; a known id gives the remote error or the enriched order, or the `.name` TypeError when a product is missing |
| `Orders.OrdersService.ChangeOrderStatus` | src/orders/orders.service.ts:136-148 | `findOne` failures pass through unchanged; the same status returns the order with the store untouched; otherwise only that order's status is overwritten, with no restriction on transitions, and the updated row is returned |
| `Orders.NotFoundError` | src/orders/orders.service.ts:116-119 | the payload for an unknown id is shaped like an error, with the message "Order with id … not found" and code 404 |
| `Orders.NotFoundIsSentAs404` | src/orders/orders.service.ts:116-119 | the not-found payload goes through the filter unchanged, with status 404 |
| `Orders.UnknownProductIsSentAs400` | src/orders/orders.service.ts:76-77 | the TypeError that `create` rethrows for an unknown product (reading `.price`) has no `statusCode`, so the filter wraps it and sends 400 |
| `JsValues.IsTypeofObject` | src/common/exceptions/rpc-custom-exception.filter.ts:14 | `typeof v === 'object'`: true of null, arrays and objects |
| `JsValues.HasProperty` | src/common/exceptions/rpc-custom-exception.filter.ts:14 | the `in` operator on a non-null object or array: the name is one of the object's own keys |
| `JsValues.ToPrimitiveThrows` | src/common/exceptions/rpc-custom-exception.filter.ts:15 | `+v` throws a TypeError: `v` is an object with its own `toString` key, or an array holding such a value at some depth |
| `JsValues.ThrowingCoercionIsNaN` | src/common/exceptions/rpc-custom-exception.filter.ts:15 | every value whose conversion throws is counted as NaN, so the corrected filter sends 400 for it |
| `JsValues.TrimStart` | src/common/exceptions/rpc-custom-exception.filter.ts:15 | the leading white space that StringToNumber ignores: the result is a suffix of the input, everything removed is white space, and the result does not start with white space |
| `JsValues.TrimEnd` | src/common/exceptions/rpc-custom-exception.filter.ts:15 | the trailing white space StringToNumber ignores: the result is a prefix of the input, everything removed is white space, and the result does not end with white space |
| `JsValues.IsStringNumericLiteral` | src/common/exceptions/rpc-custom-exception.filter.ts:15 | the StringNumericLiteral grammar: only white space, or a decimal literal (with sign, point, exponent or `Infinity`) or a `0x`/`0o`/`0b` literal between optional white space |
| `JsValues.CoercesToNaN` | src/common/exceptions/rpc-custom-exception.filter.ts:15 | `isNaN(+v)` where the conversion does not throw: undefined and objects are NaN; null, booleans and numbers are not; a string is NaN exactly when it is not a StringNumericLiteral; an array goes through its joined string form |
| `JsValues.DecimalDigitsAreNumeric` | src/common/exceptions/rpc-custom-exception.filter.ts:15 | a status code written as a decimal string such as "404" is a number under `+` |
| `JsValues.NonNumericStartIsNaN` | src/common/exceptions/rpc-custom-exception.filter.ts:15 | every string whose first character can start no numeric literal (not white space, a digit, a sign, a point or the `I` of Infinity) is NaN under `+`, whatever follows |
| `JsValues.LetterStringIsNaN` | src/common/exceptions/rpc-custom-exception.filter.ts:15 | `+"abc"` is NaN |
| `JsValues.InnerSpaceIsNaN` | src/common/exceptions/rpc-custom-exception.filter.ts:15 | `+"4 04"` is NaN: only leading and trailing white space is ignored |
| `RpcExceptionFilter.IsErrorShaped` | src/common/exceptions/rpc-custom-exception.filter.ts:14 | the pass-through test: an object with both a `statusCode` and a `message` property |
| `RpcExceptionFilter.Wrapped` | src/common/exceptions/rpc-custom-exception.filter.ts:19-22 | the body `{statusCode: 400, error: payload}`: exactly those two keys, the payload kept under `error`, and not itself shaped like an error |
| `RpcExceptionFilter.PassThroughStatus` | src/common/exceptions/rpc-custom-exception.filter.ts:15 | for a code whose conversion does not throw, the status is the payload's own code exactly when that code is not NaN under `+`, and 400 otherwise; it is never NaN |
| `RpcExceptionFilter.CatchAsWritten` | src/common/exceptions/rpc-custom-exception.filter.ts:7-23 | the filter as written throws instead of responding exactly when the payload is null, or is shaped like an error with a status code whose conversion by `+` throws |
| `RpcExceptionFilter.Catch` | src/common/exceptions/rpc-custom-exception.filter.ts:14-22 | a payload with `statusCode` and `message` is sent back unchanged as the body, with its code or 400; any other payload gets 400 and the body `{statusCode: 400, error: payload}` |
| `RpcExceptionFilter.NullPayloadThrows` | src/common/exceptions/rpc-custom-exception.filter.ts:14 | a null payload makes the written filter throw, where the corrected one wraps it with 400 |
| `RpcExceptionFilter.CatchAgreesWhereWrittenResponds` | src/common/exceptions/rpc-custom-exception.filter.ts:14-22 | on every payload where the written filter does not throw, it produces exactly the corrected filter's single response |
| `RpcExceptionFilter.UncoercibleStatusThrows` | src/common/exceptions/rpc-custom-exception.filter.ts:15 | for `{statusCode: {toString: 1}, message: "m"}` the written filter throws at `+`, where the corrected one sends 400 with the payload as the body |
| `RpcExceptionFilter.CatchStatusOrigin` | src/common/exceptions/rpc-custom-exception.filter.ts:15-19 | the status sent is 400 or the payload's own `statusCode`, is never NaN, and the body always has a `statusCode` |
| `RpcExceptionFilter.NumericStatusPassesThrough` | src/common/exceptions/rpc-custom-exception.filter.ts:15-16 | a number status code, or one written in decimal digits, is used as the response status as it is |
| `RpcExceptionFilter.NonNumericStatusBecomes400` | src/common/exceptions/rpc-custom-exception.filter.ts:15 | a status code "abc" is replaced by 400, and the body is still passed through |
| `RpcExceptionFilter.WrappedBodyIsWrappedAgain` | src/common/exceptions/rpc-custom-exception.filter.ts:19-22 | the wrapper body lacks `message`, so filtering it again wraps it once more |
| `RpcExceptionFilter.PassThroughIsStable` | src/common/exceptions/rpc-custom-exception.filter.ts:14-16 | filtering a passed-through body again gives the same response |

## Left out

- Prisma persistence is not modelled: the connection (`$connect`, `onModuleInit`), the logger, and the query engine. The store is an in-memory sequence that never fails. Timestamps are not modelled at all, and generated ids arrive through `freshId`.
- `findMany` has no `orderBy`, so the database may return rows in any order. The model uses insertion order.
- The `OrderItem` relation that `create` and `findOne` load through `include` has no `orderBy` either, so the database may return the line items in any order. The model returns them in request order. `Create`'s guarantee that its result equals what `findOne` then returns relies on that fixed order.
- The RPC transport (`productsClient.send`, `firstValueFrom`, rxjs) is not modelled. The answer is a parameter, and it is assumed to be a list of `{id, name, price}` records whenever the call succeeds.
- async/await and concurrency are not modelled: each operation is one atomic step on the store.
- The RpcException class is not modelled; errors are their payload values. The NestJS routing that sends only RpcException instances to the filter is not modelled either. That routing decides, for example, that the uncaught remote error of `findOne` is not a thrown RpcException.
- Floating-point money is not modelled: prices and totals are integers.
- JavaScript numbers inside payloads are integers only, so NaN, the infinities and fractions cannot be held as numbers. Strings, however, are coerced by the full numeric grammar.
- The `in` operator looks only at an object's own keys. The prototype chain is not modelled.
- Error objects carry only `name` and `message`. Their `stack` is not modelled.
- DTO validation (`IsUUID`, `IsEnum`, `IsOptional`, and the `PaginationDto` bounds and defaults) is not modelled as logic. It appears as the `page >= 1 && limit >= 1` precondition and as the `OrderStatus` datatype.
- The status enumeration comes from the database schema, which is not part of this model. `Pending`, `Delivered` and `Cancelled` stand in for it, and the schema's default for a new order is taken to be `Pending`. No proof depends on which values exist.
- Payload values are JSON data: functions, getters and symbols are not modelled. So an own `toString` or `valueOf` key is never callable, and `Symbol.toPrimitive` never applies.
- The HTTP plumbing (`host.switchToHttp()`, `res.status().json()`) is not modelled. The response is a returned `(status, body)` value.
- The products-service calls of `findOne` and of every `changeOrderStatus` each take the `lookup` answer as given. The model does not relate it to the answer an earlier `create` saw, except in `Create`'s own round-trip guarantee.

## Findings

| source | as written | input that shows it | evidently intended | confidence | as-written member | corrected member |
|---|---|---|---|---|---|---|
| src/common/exceptions/rpc-custom-exception.filter.ts:14 | `typeof(rpcError) === 'object'` holds for null, so `'statusCode' in rpcError` runs on null and throws a TypeError; no response is sent | an RpcException whose error payload is `null` | null is not shaped like an error, so it is answered with 400 and `{statusCode: 400, error: null}` | not executed; follows from JavaScript's `typeof null` and the `in` operator | `RpcExceptionFilter.CatchAsWritten`, `RpcExceptionFilter.NullPayloadThrows` | `RpcExceptionFilter.Catch`, `RpcExceptionFilter.CatchAgreesWhereWrittenResponds` |
| src/common/exceptions/rpc-custom-exception.filter.ts:15 | `+rpcError.statusCode` converts the code to a primitive; an object with its own non-callable `toString` key cannot be converted, so `+` throws a TypeError and no response is sent | an RpcException whose payload is `{"statusCode": {"toString": 1}, "message": "m"}` | a status code that is not a number is replaced by 400, so the payload is sent back with 400 | not executed; follows from ToPrimitive in ECMAScript section 7.1.1 | `RpcExceptionFilter.CatchAsWritten`, `RpcExceptionFilter.UncoercibleStatusThrows` | `RpcExceptionFilter.Catch`, `RpcExceptionFilter.CatchAgreesWhereWrittenResponds` |
