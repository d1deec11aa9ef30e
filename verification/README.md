# Order store of the store-pickup app, modelled in Dafny

This project models the order module's action tree
(`src/store/modules/order/actions.ts`) of a store-pickup fulfilment app.
The module keeps two paginated lists of orders and one "current" order:

- the **open** list holds order records normalised from a grouped search response;
- the **packed** list holds the packed-order documents as they arrive;
- **current** holds the order under detail view, with its items filtered to one shipment method.

The actions fetch pages and merge them into these lists. They resolve one order
from the cache or from a fetch. They reject order items one call per item and
reduce the answers to one verdict. They quick-ship a ship group and then, where
needed, pack it.

A backend call is never executed. Its answer is an input value: `Reply.Answered(response)`,
or `Reply.Threw` when the promise rejects and the action's `catch` runs. The
helper `hasError` is not part of this model; its verdict is the `errorMarked`
field of each response. The user flag `shippingOrders` is an explicit
parameter. Toasts are recorded as `Toast` tags. A Vuex commit is a direct
update of a field of the `OrderStore` class.

Files:

- `order_types.dfy`: documents, groups, order records, responses, replies and messages.
- `normalizer.dfy`: one record per group, and the de-duplicated product identifiers. `CollectProductIds` keeps the source's nested loops.
- `queries.dfy`: stage-1 shaping and the stage-2 query. The filter is the source's `reduce`, proved equal to an independent " OR " join.
- `order_store.dfy`: the `OrderStore` class and its actions, with the page-merge, item-filter and lookup functions that specify them.
- `batch.dfy`: batch reject with its any-success verdict, digit-run extraction, and quick-ship.

Conventions:

- An empty string stands for a field that JavaScript would see as `undefined` or falsy: a `productId`, an `_EVENT_MESSAGE_` or an `_ERROR_MESSAGE_`.
- `_ERROR_MESSAGE_LIST_` is an `Option`, because any array is truthy, even an empty one.
- Reading `docs[0]` of an empty document list throws a `TypeError` in the source. The action's `catch` then reports "Something went wrong" and commits nothing. The model follows this through `Option` results.
- `updateCurrent` filters the items of the very object it is given. When that object is an open-list entry, the entry is filtered too. The model uses values, so `GetOrderDetail` writes the filtered record back into `open` at the index `find` returned. That entry is the only object the store shares, so this reproduces the effect exactly.

Behaviour of the code that a reader might not expect, kept in the model:

- Any page index that is not positive (0, negative, or absent) replaces the list, not only 0.
- A status-200 answer without `grouped.orderId` (an error body, say) is not "not found". The acceptance test reads that field before `hasError`, so the read throws: the open list is left alone and "Something went wrong" is shown.
- A group whose document list is empty is not "not found". Normalising it throws, and nothing is committed.
- Quick-ship does not fail cleanly when no item matches the ship group, or when the event message has no digits. Both end in the `catch` with "Something went wrong", after the first call has already taken effect.
- A cache hit on the current order returns it whatever shipment method is asked for, so a request for another method gets the items filtered to the earlier one.
- An error-marked answer to the pack call raises no complaint. Only an answer with neither an error mark nor an event message does. See `ErrorMarkedPackStillReportsPacked`.
- The reject verdict scans the slots in order. A rejected call whose value has no `data` makes that scan throw, unless a success came earlier. The `.catch` then swallows the throw and shows no message.

## Model

| member | source | states |
|---|---|---|
| `Queries.ShapeOpenQuery` | src/store/modules/order/actions.ts:18-21 | when the user does not ship orders, the stage-1 `shipmentMethodTypeId` input is STOREPICKUP; every other input field and the page index are sent unchanged; otherwise the request is untouched |
| `Queries.OrFilterIsJoin` | src/store/modules/order/actions.ts:25-31 | the `reduce` over stage-1 docs equals the independent join of the `orderId: *<id>*` clauses with " OR " (no separator before the first or after the last; empty for no docs) |
| `Queries.OrFilterEnds` | src/store/modules/order/actions.ts:25-31 | a non-empty filter starts with the first document's clause and ends with the last one's |
| `Queries.StageTwoQuery` | src/store/modules/order/actions.ts:33-45 | `rows` is the number of stage-1 docs; grouped by `orderId` with `ngroups` and limit 1000, query `*:*`; the filter is exactly [the joined id clauses, `docType: ORDER`] |
| `Queries.RestrictToPickup` | src/store/modules/order/actions.ts:61-64 | only the filter changes; it keeps its clauses in place and gains exactly `shipmentMethodTypeId: STOREPICKUP` at the end iff the user does not ship orders |
| `Normalizer.NormaliseGroup` | src/store/modules/order/actions.ts:85-94 | a group yields a record iff it has a document; the record carries the first document's order fields and the whole document list as items |
| `Normalizer.NormaliseGroupUnique` | src/store/modules/order/actions.ts:141-150 | the record built from a group is the only one with those items that describes the first document |
| `Normalizer.ConsistentGroupDescribesEveryDoc` | src/store/modules/order/actions.ts:85-94 | when a group's documents agree on order-level fields, the record describes every document of the group |
| `Normalizer.NormaliseAll` | src/store/modules/order/actions.ts:85-94 | normalisation succeeds iff no group is empty, and then yields exactly one record per group, in group order |
| `Normalizer.CollectProductIds` | src/store/modules/order/actions.ts:73-79 | the nested loops return every non-empty `productId` of every document of every group, each exactly once, and nothing else |
| `Normalizer.NormaliseKeepsEveryDoc` | src/store/modules/order/actions.ts:73-94 | the items of the normalised records, in order, are exactly the response's documents, so their product ids are the collected ones |
| `Store.FilterItems` | src/store/modules/order/actions.ts:165-167 | an item is kept iff it is an input item with the requested shipment method; never longer than the input |
| `Store.FilterItemsAppend` | src/store/modules/order/actions.ts:165-167 | filtering distributes over concatenation, so kept items stay in their original order |
| `Store.FilterItemsIdempotent` | src/store/modules/order/actions.ts:165-167 | filtering an already filtered list by the same method changes nothing |
| `Store.WithMethod` | src/store/modules/order/actions.ts:163-168 | only `items` of the order changes; the items are `FilterItems` of the order's items, so an item is kept iff it has the requested method, in its original order, and the items share one method |
| `Store.WithMethodIdempotent` | src/store/modules/order/actions.ts:111 | returning the cached current order unfiltered gives what re-filtering it by the same method would |
| `OrderTypes.FirstWhere` | src/store/modules/order/actions.ts:114-116 | the `find` used by the store: the first index whose element satisfies the predicate, with none before it satisfying it; none when no element does |
| `Store.FindOrder` | src/store/modules/order/actions.ts:113-116 | returns the first index whose order has the identifier, or none when no order has it |
| `Store.MergePage` | src/store/modules/order/actions.ts:96 | the new page is the tail of the result; with a positive page index the old list is kept as its prefix, otherwise the result is the page alone |
| `Store.OpenPage` | src/store/modules/order/actions.ts:69-99 | a status-200 answer without `grouped.orderId`, a rejected call or an empty group fails without commit; any other non-200, error-marked or group-less answer is "not found"; otherwise a page of one record per group whose total is the number of groups |
| `Store.PackedPage` | src/store/modules/order/actions.ts:180-190 | an accepted answer is a page of its documents as they are, with the backend count as total; a non-accepted answer is "not found"; only a rejected call fails |
| `Store.ApplyPage` | src/store/modules/order/actions.ts:96-99 | a failure leaves list and total, "not found" sets the empty list with total 0, a page merges by the page rule and takes the page's total |
| `Store.PagingSessions` | src/store/modules/order/actions.ts:96-97 | page 0 then page 1 gives A ++ B; page 0 then page 0 gives B; the total is the latest one |
| `Store.LookupFetched` | src/store/modules/order/actions.ts:126-155 | a single-order fetch finds the first group's record iff the answer is accepted and that group has a document; a rejected call, a status-200 answer without `grouped.orderId` or an empty first group is a failure; any other non-accepted answer is "not found" |
| `Store.OrderStore.ClearOrders` | src/store/modules/order/actions.ts:318-321 | both lists become empty with total 0; the current order is kept |
| `Store.OrderStore.UpdateCurrent` | src/store/modules/order/actions.ts:163-171 | current becomes the order with items filtered to the method, and that filtered order is returned; the lists are untouched |
| `Store.OrderStore.GetOpenOrderDetails` | src/store/modules/order/actions.ts:60-106 | the query gains the pickup clause when required; open list and total follow `ApplyPage(OpenPage(reply))`; hydration is requested with exactly the distinct product ids of an accepted reply, and only if there are any; packed list and current order unchanged |
| `Store.OrderStore.GetOpenOrders` | src/store/modules/order/actions.ts:12-58 | the stage-1 request is shaped; a rejected stage 1 changes nothing; a non-accepted stage 1 empties the open list with total 0 and makes no stage-2 call; an accepted one issues the stage-2 query for its docs and merges its reply |
| `Store.OrderStore.GetPackedOrders` | src/store/modules/order/actions.ts:173-200 | packed list and total follow `ApplyPage(PackedPage(reply))`; product information is requested for exactly the new page's documents; the open list and current order are unchanged |
| `Store.OrderStore.GetOrderDetail` | src/store/modules/order/actions.ts:108-161 | a current order with the identifier is returned as is, with no fetch and no state change, and its items share one method (the store invariant); else the first open entry with it is filtered to the requested method, written back and becomes current, without a fetch; only then is one fetch used, and only a found record becomes current |
| `BatchUpdates.RejectOrderItems` | src/store/modules/order/actions.ts:297-315 | exactly one result per item, in item order; slot i is the answer to a call carrying the order id and item i's reason, facility, item sequence id, shipment method and quantity |
| `BatchUpdates.FirstUnmarked` | src/store/modules/order/actions.ts:286 | the scan reports the first slot with neither `_ERROR_MESSAGE_` nor `_ERROR_MESSAGE_LIST_`, or none, or a throw at a slot without a body before any success |
| `BatchUpdates.AnySuccessVerdict` | src/store/modules/order/actions.ts:286 | when every slot has a body, the batch counts as a success iff at least one slot is free of error markers |
| `BatchUpdates.SetUnfillable` | src/store/modules/order/actions.ts:283-295 | slot `i` is the answer to the call for item `i`; the verdict is the in-order scan of those answers; "all items canceled" iff the scan found a clean slot, "something went wrong" iff it found none, no message iff it threw; with every slot readable, the success message iff some slot succeeded |
| `BatchUpdates.OneFailureOneSuccess` | src/store/modules/order/actions.ts:283-315 | two items, one error-marked answer and one clean answer: two results and a success message |
| `BatchUpdates.FirstDigitRun` | src/store/modules/order/actions.ts:263 | there is no result iff the event message has no digit |
| `BatchUpdates.FirstDigitRunFound` | src/store/modules/order/actions.ts:263 | a returned shipment id is a non-empty, maximal run of digits with no digit before it in the message |
| `BatchUpdates.RunAtIsFirstDigitRun` | src/store/modules/order/actions.ts:263 | conversely, the first maximal digit run of the message is the returned shipment id |
| `BatchUpdates.FindShipGroupItem` | src/store/modules/order/actions.ts:260 | returns the first item of the ship group, or none when no item has that ship group |
| `BatchUpdates.QuickShip` | src/store/modules/order/actions.ts:237-280 | the request carries the order, facility and ship group with the fixed packing placeholders; a pack call (status SHIPMENT_PACKED, shipment id = the first digit run) happens iff the quick-ship answer is accepted, the ship group's item is not STOREPICKUP and the message has a digit; without a pack call the message is "packed" exactly for an accepted quick-ship whose ship-group item is STOREPICKUP, and "something went wrong" otherwise; with one, a rejected pack call gives "something went wrong" and an answered one its complaint, if any, followed by "packed" |
| `BatchUpdates.ErrorMarkedPackStillReportsPacked` | src/store/modules/order/actions.ts:264-268 | an error-marked answer to the pack call still yields only the "packed and ready for delivery" message |

## Left out

- Loader events, toast display, translation and `console.error`: these are user-interface side effects. Toasts are kept only as `Toast` tags in each outcome.
- The search and shipment services, and the product and stock caches: their answers are inputs. A hydration request is recorded as the list of product ids it would carry.
- `deliverShipment`: it only builds a two-field update and shows a message.
- `packDeliveryItems`: it appears only as the `packRequest` of `QuickShip`.
- `src/store/modules/product/index.ts`: it is Vuex module registration and a static initial state, with no logic.
- The initial order state (`OrderState`) and the mutations file are not part of this model. The constructor starts with empty lists, totals 0 and no current order. Committing the object literal `{}` is taken to be committing the empty list. If the mutation stored `{}` as it is, a later page with a positive index would call `{}.concat(...)`, which throws and ends in "Something went wrong" with no commit; the model appends to the empty list instead.
- Every group is assumed to carry `doclist.docs`, and every document the fields the actions read. A missing `doclist` would throw in the product-id loop. A missing `orderId` would be spliced into the stage-2 filter as the text `undefined`.
- The values the actions return (the raw response, the current order or the order found) are reduced to the outcome datatypes.
- Concurrency: `Promise.all` is modelled as a positional map. Interleaving of concurrent page merges is not modelled. Each action runs to completion.
- `parseInt` of the quantity: quantities are already integers. The regular-expression engine is reduced to "first maximal run of ASCII digits".
- The in-place field assignment onto response group objects (`orders.map`) is modelled as building new records. Only the aliasing that the store itself can observe (`updateCurrent` on an open-list entry) is reproduced.
