# Order composition and costing (`/pedidos`)

This project models the order handlers of a logistics back end written in
TypeScript (Express + Prisma, `server.ts`). An order (`pedido`) names a
client, an insurance, a carrier and a tax rate. It carries line items
(`productosPedido`), each a product and a quantity. It can opt in to border
costs (`aplicarCostosFronterizos`). The handlers:

- validate the request body (truthy ids, a non-empty array of items with
  numeric `productoId` and `cantidad`);
- resolve every product and accumulate `costoTotal` (Σ price × quantity) and
  `pesoTotal` (Σ weight × quantity);
- add the sum of *all* border costs and link the first border-cost record
  when the flag is truthy;
- derive the truck count `⌈pesoTotal / 18000⌉`;
- on update, delete the order's line items and then rewrite the order with
  the new ones; on delete, remove the line items and then the order;
- on listing, recompute weight and truck count from the weight snapshot
  stored in each line item.

The model has two layers.

- `Pedidos` holds the pure layer. The store is a value (`Db`). Each handler is
  a transition function that returns the new store and the answer (`Step`):
  `CreatePedido`, `UpdatePedido`, `DeletePedido` and `ListPedidos`. The
  costing (`Costing`) is a set of pure functions over resolved
  (price, weight, quantity) triples.
- `Store.OrderStore` holds the imperative layer. It is a class whose fields are
  the tables. Its methods perform the handlers' steps in the handlers' order
  (the resolution loop, `deleteMany`, then `update`). Each method is proved to
  end in exactly the state and answer of the matching transition function,
  and to keep the store invariant `DbValid`.

`PedidosProperties` states what the handlers promise about those transitions.
`PedidosExamples` works out a two-product order and three edge cases on a small store.

Request bodies are JavaScript values (`JsValue.Value`), so that the guards'
truthiness tests are modelled exactly: `0` and `""` are falsy, and reading a
property of `null` throws.

Some of the code's behaviour is worth stating outright, because the model follows it:

- **The update is not atomic.** `deleteMany` (server.ts:419) and `update`
  (server.ts:421) are two separate calls with no transaction around them. So an
  update whose write is refused still leaves the order without line items
  (`PedidosProperties.UpdateRefusedKeepsDeletion`).
- **Missing orders answer 500.** Updating or deleting an order that does not
  exist makes Prisma throw inside the `try`, so the answer is 500
  (server.ts:447-449, 462-464). The model answers `ServerError` and leaves the
  store unchanged (`UpdateMissingOrder`, `DeleteOrder`).
- **Quantities are not sign-checked.** The guards check only that quantities are
  numbers (server.ts:300), so zero and negative quantities are accepted and lower
  the totals (`PedidosExamples.NegativeQuantityAccepted`).
- **Quantities must fit the line items' `Int` column.** The guards also let a
  fractional quantity through, or one beyond 32 bits. The line-item write then
  refuses it, inside the `try`, so the answer is 500. On create nothing is
  written (`PedidosExamples.FractionalQuantityRefusedOnCreate`). On update the
  refusal comes after `deleteMany`, so the order loses its line items
  (`PedidosExamples.FractionalQuantityUpdateLosesItems`).
- **An update can keep the old border-cost link.** When the flag is truthy and
  there is no border-cost record, the update spreads a falsy value
  (server.ts:430-432), so the order keeps any link it had. It is not cleared
  (`UpdatedOrderLink`).

## Model

| member | source | states |
|---|---|---|
| Costing.LinesTotalsAppend | server.ts:317-318 | The two accumulators are additive over concatenated item lists: cost and weight of `a + b` are the sums of those of `a` and `b`. |
| Costing.LinesTotalsPositive | server.ts:307-324 | A non-empty list of lines with positive price, weight and quantity has positive total cost and weight. |
| Costing.BorderSumPositive | server.ts:330 | The `reduce` over a non-empty table of positive border costs is positive. |
| Costing.CreateLink | server.ts:343-345 | On create, the order is linked to a border-cost record iff the flag is truthy, a record exists and its id is truthy; the link is then the first record's id. |
| Costing.TruckCount | server.ts:358 | The truck count is the least integer `n` with `(n-1)·18000 < pesoTotal ≤ n·18000`, i.e. `Math.ceil(pesoTotal / 18000)`. |
| Costing.TruckCountBoundaries | server.ts:267 | Weight 0 needs 0 trucks, exactly 18000 needs 1, and just over 18000 needs 2. |
| Costing.TruckCountMonotone | server.ts:445 | A heavier order never needs fewer trucks. |
| Pedidos.FindProduct | server.ts:312 | `findUnique` by id: the result is a catalog key equal to the requested number, and when there is none, no key equals it (a non-integral id finds nothing). |
| PedidosProperties.CheckItemsMeaning | server.ts:300 | `every` accepts iff every element is an object with numeric `productoId` and `cantidad`; the accepted items are those fields, elementwise and in order; it throws iff some element is null or undefined and every element before it is accepted. |
| PedidosProperties.CheckItemsAccepts | server.ts:300 | `every` accepts exactly when each element is an object with numeric `productoId` and `cantidad`, and the accepted items are those fields, elementwise and in order. |
| PedidosProperties.CheckItemsThrows | server.ts:300 | `every` throws exactly when it reaches a null or undefined element after elements that all pass. |
| PedidosProperties.ThrowingElement | server.ts:300 | When `every` throws, the element it stopped at is null or undefined and all elements before it pass. |
| PedidosProperties.ThrowsAt | server.ts:300 | A null or undefined element preceded only by passing elements makes `every` throw. |
| PedidosProperties.ValidateBodyMeaning | server.ts:295-304 | The first 400 is answered iff a required field is falsy (0 and "" included) or `productos` is not a non-empty array; a body is accepted iff, in addition, every item has numeric fields, whatever their sign; an accepted body passes its fields through unchanged. |
| PedidosProperties.ResolveMissingStays | server.ts:313-316 | Once the loop has returned 404 on some item, the later items do not change the answer. |
| PedidosProperties.ResolveMeaning | server.ts:311-324 | Resolution succeeds iff every product id resolves; a failure names the first id that does not; a success gives one draft per item, in input order, with the item's quantity and the product's current weight, and totals equal to Σ price × quantity and Σ weight × quantity over the resolved lines. |
| PedidosProperties.ResolveOutcome | server.ts:311-316 | Resolution succeeds iff every product id resolves, and a failure names the first id that does not. |
| PedidosProperties.ResolvedContents | server.ts:311-324 | A successful resolution has one draft per item with its quantity and weight snapshot, and totals Σ price × quantity and Σ weight × quantity. |
| PedidosProperties.ResolvedDrafts | server.ts:319-323 | A successful resolution pushes, per item and in order, the found product's id, the item's quantity and the product's current weight. |
| PedidosProperties.ResolvedSums | server.ts:317-318 | A successful resolution's accumulators equal the cost and weight sums over the resolved lines. |
| PedidosProperties.ItemsOfAppend | server.ts:346 | The line items of one order in a table that grew by appending are its old items followed by its new ones, and deleting one order's items distributes over the append. |
| PedidosProperties.ItemsOfForeign | server.ts:419 | A table with no rows of order `id` has none of its line items, and `deleteMany` on it removes nothing. |
| PedidosProperties.ItemsOfOwn | server.ts:433 | A table made only of rows of order `id` is all its line items, and `deleteMany` on it leaves nothing. |
| PedidosProperties.WithoutItemsOfMeaning | server.ts:419 | `deleteMany({pedidoId: id})` keeps only rows of other orders, and every other order keeps exactly its line items. |
| PedidosProperties.DraftedItemsTotals | server.ts:319-323 | The line items written from the drafts refer to existing products and carry exactly the resolved lines' cost and weight. |
| PedidosProperties.NoWriteBeforeResolution | server.ts:295-316 | On create and on update, a falsy field answers 400, any failed guard leaves the store unchanged, and an unknown product answers 404 with the first unknown id and no write, so no line item is deleted before resolution. |
| PedidosProperties.CreatedOrderContents | server.ts:335-346 | A created order gets a fresh id; exactly its row and its line items are added and the order counter moves on, nothing else changes; there is one line item per requested item, in order, with the found product, the requested quantity (an `Int` column value) and the product's weight snapshot; the code and the four references are the body's values and name existing records. |
| PedidosProperties.CreatedOrderTotals | server.ts:307-332 | A created order's total is Σ price × quantity over its line items plus, when the flag is truthy, the sum of all border costs; its weight is Σ weight × quantity and its truck count the ceiling of weight / 18000. |
| PedidosProperties.CreatedOrderLink | server.ts:327-345 | A created order is linked iff the flag is truthy and a border-cost record exists, and then to the first record. |
| PedidosProperties.CreatedOrderListed | server.ts:262-274 | GET /pedidos, right after a create, shows exactly the order, line items, weight and truck count that POST answered with. |
| PedidosProperties.InsertedOrderListed | server.ts:262-274 | Once the order write has added an order under a fresh id, GET /pedidos lists it with exactly the line items, weight and truck count of the answer. |
| PedidosProperties.UpdatedOrderContents | server.ts:403-433 | A successful update targets an existing order; the new store is the old one with that order's row rewritten and its line items replaced by the new ones, nothing else changed; there is one new line item per requested item, in order, with the found product, the requested quantity (an `Int` column value) and the product's weight snapshot; the code and the four references are the body's values and name existing records. |
| PedidosProperties.UpdatedOrderItems | server.ts:419-445 | After a successful update the order's line items are exactly those in the answer, every other order's items are unchanged, the new total and weight are the sums over the new items (plus border costs when opted in), and the truck count is the ceiling of the new weight / 18000. |
| PedidosProperties.UpdatedOrderLink | server.ts:430-432 | After an update, a falsy flag disconnects the link; a truthy flag links the first border-cost record when one exists and otherwise keeps the existing link. |
| PedidosProperties.UpdateIdempotent | server.ts:367-450 | Repeating a successful update with the same body leaves the store as it is and gives the same answer. |
| PedidosProperties.ReplaceIdempotent | server.ts:419-442 | Rewriting an order with the same request twice after its line items are gone gives the same store and answer. |
| PedidosProperties.UpdateRefusedKeepsDeletion | server.ts:419-449 | When the update itself is refused (a code that is not a string, a client, insurance, carrier or tax-rate id that is not a record, or a quantity the `Int` column refuses), the answer is 500 and the new store is the old one with the order's line items deleted and nothing else changed. |
| PedidosProperties.UpdateMissingOrder | server.ts:419-448 | Updating an order that does not exist never succeeds and leaves the store unchanged. |
| PedidosProperties.DeleteOrder | server.ts:458-464 | Delete answers success and the new store is the old one without the order and without its line items: every other order, line item, table and counter is unchanged; an unknown id answers 500 and changes nothing. |
| PedidosProperties.ListIgnoresCurrentProducts | server.ts:263-267 | `pesoTotal` and `camionesNecesarios` in the listing are computed only from the weight snapshots stored in the line items, so changing the products' current data does not change them. |
| PedidosProperties.CreatePreservesValid | server.ts:335-346 | Create keeps the store invariant: fresh ids below the counters, unique product codes and client CIs, positive prices, weights and costs, and every line item belonging to an existing order. |
| PedidosProperties.InsertPreservesValid | server.ts:335-346 | The order write keeps the store invariant when each draft carries its item's quantity; quantities the `Int` column refuses are never stored. |
| PedidosProperties.UpdatePreservesValid | server.ts:419-433 | Update keeps the store invariant. |
| PedidosProperties.ReplacePreservesValid | server.ts:421-433 | The order update after `deleteMany` keeps the store invariant when each draft carries its item's quantity. |
| PedidosProperties.DeletePreservesValid | server.ts:458-459 | Delete keeps the store invariant, so it leaves no line item without its order. |
| PedidosExamples.TwoProductOrder | server.ts:307-359 | Two units of a product priced 10 weighing 5 kg plus one unit priced 20 weighing 3 kg create order 1 with total 40, weight 13, one truck and no border-cost link; the resulting store is exactly the old one plus that order and its two line items in input order. |
| PedidosExamples.TwoProductRequest | server.ts:286-304 | The guards accept the two-product body and pass its fields through as they are, with the flag falsy. |
| PedidosExamples.TwoProductItems | server.ts:300 | Both items of that body carry numeric `productoId` and `cantidad`, so `every` accepts them. |
| PedidosExamples.TwoProductResolution | server.ts:311-324 | Those two items resolve with total 2 × 10 + 1 × 20 = 40 and weight 2 × 5 + 1 × 3 = 13, and one draft each. |
| PedidosExamples.NegativeQuantityAccepted | server.ts:300-318 | A quantity of −1 passes the guards and creates an order with total −20, weight −3 and 0 trucks. |
| PedidosExamples.FractionalQuantityRefusedOnCreate | server.ts:335-362 | A quantity of 0.5 passes the guards and resolves, but the order write refuses it: 500, and the store is unchanged. |
| PedidosExamples.FractionalQuantityUpdateLosesItems | server.ts:419-449 | Updating a stored order with a quantity of 0.5 answers 500 after `deleteMany`, so the order is left with no line items and nothing else changes. |
| Store.ResolveItems | server.ts:311-324 | The imperative loop computes exactly the resolution: the first unknown product, or the totals and the drafts. |
| Store.SumWeights | server.ts:263-266 | The listing loop computes Σ weight × quantity over an order's line items. |
| Store.OrderStore.constructor | server.ts:245-466 | An empty store with counters at 1 satisfies the invariant. |
| Store.OrderStore.PostPedido | server.ts:284-364 | POST /pedidos keeps the invariant and ends in exactly the store and answer of `CreatePedido`. |
| Store.OrderStore.InsertOrder | server.ts:326-362 | The border-cost step plus `pedido.create` ends in exactly the store and answer of `InsertPedido`, including the 500 for a reference that names no record or a quantity the `Int` column refuses. |
| Store.OrderStore.PutPedido | server.ts:367-450 | PUT /pedidos/:id keeps the invariant and ends in exactly the store and answer of `UpdatePedido`, `deleteMany` first. |
| Store.OrderStore.UpdateOrder | server.ts:421-449 | `pedido.update` after the deletion ends in exactly the store and answer of `ReplacePedido`, including the 500, with the line items left deleted, for a missing order, a reference that names no record or a quantity the `Int` column refuses. |
| Store.OrderStore.BorderCharge | server.ts:326-331 | The loop folds the border costs left to right from 0, as `reduce` does, and yields their sum `BorderExtra` and the first record's id when the flag is truthy, and 0 and no id otherwise. |
| Store.OrderStore.DeletePedidoById | server.ts:454-466 | DELETE /pedidos/:id keeps the invariant and ends in exactly the store and answer of `DeletePedido`. |
| Store.OrderStore.GetPedidos | server.ts:245-281 | GET /pedidos returns exactly `ListPedidos` of the current store and changes nothing. |
| Store.OrderStore.Summarize | server.ts:262-274 | The per-order summary is the order, its line items, their weight and the truck count. |
| Store.OrderStore.PostProducto | server.ts:83-112 | A body failing the guard answers 400; a taken code answers 409; otherwise the product is inserted under a fresh id. The store changes only on insert, and product codes stay unique. |
| Store.OrderStore.PostCliente | server.ts:173-198 | A body with a falsy field answers 400; a taken CI answers 409; otherwise the client is inserted under a fresh id. The store changes only on insert, and CIs stay unique. |
| Store.OrderStore.PostCostoFronterizo | server.ts:686-703 | A falsy type or a cost that is not a positive number answers 400; otherwise the record is appended under a fresh id. |

## Left out

- HTTP plumbing (Express routing, CORS, JSON parsing, `app.listen`). Answers are the `Response` and `CatalogResponse` datatypes, with HTTP statuses noted beside them.
- Prisma internals and the `include` joins. The store is an in-memory value, and the joined relations are projections of it.
- JavaScript floating point. Numbers are exact `real`s, and `Math.ceil` is exact ceiling division. NaN and Infinity are not modelled.
- Non-integral ids. A non-integral numeric product id finds no product here (404). A non-integral client, insurance, carrier or tax-rate id makes the write fail (500). Prisma's own rejection of such a query is not modelled.
- `parseInt(req.params.id)` is not modelled. The path id is an `int` parameter, so a path that parses to NaN is not modelled.
- Uniqueness of the order code. No schema for `pedido.codigo` is part of this model, so order codes are not checked for duplicates.
- Async interleaving and concurrent requests. Each handler runs to completion alone.
- The order of the listing. GET returns a map from order id to summary, not an array in store order.
- Line-item ids, and the `producto` objects the joins attach to line items (server.ts:254-257). GET's view of each line item's current product is not modelled; only the snapshot fields are.
- The insurance, carrier and tax-rate tables. They are sets of existing ids given to the constructor. Their validators (server.ts:553, 621, 757) and their CRUD endpoints are not part of this model.
- The other CRUD endpoints (products, clients, suppliers, border costs: list, update, delete) and register/login. Each is one store call or a plaintext comparison.
- A body with a null element in `productos` makes `every` throw outside the `try`. The model answers `NoResponse` and does not model what Express then does.
- Store.OrderStore.PostProducto: a non-string `codigo` or `nombre` that passes the truthiness guard is modelled as a store error (500). Prisma's type validation is not modelled.
- Store.OrderStore.PostCliente: likewise, a non-string `ci`, `nombre` or `tipo` answers 500.
- Store.OrderStore.PostCostoFronterizo: likewise, a non-string `tipoCosto` answers 500.
- The Prisma schema is not part of this model. `cantidad` is taken to be a Prisma `Int` column (32-bit signed), so a quantity that is fractional or outside [-2^31, 2^31 - 1] makes the line-item write fail (500).
- Pedidos.FindProduct: a product id that is integral but outside the 32-bit range finds no product here (404), where Prisma rejects the query itself (500). The same holds for client, insurance, carrier and tax-rate ids beyond 32 bits: the model answers 500 only because no such record exists.
