# GrubDash request pipelines in Dafny

GrubDash is a small REST API with two resources, dishes and orders. Each
route is an Express middleware chain: a fixed sequence of validation stages
and then one handler that answers, usually after changing the shared
in-memory `dishes` or `orders` array. This project models those chains and
handlers from `src/dishes/dishes.controller.js` and
`src/orders/orders.controller.js` and proves what they guarantee.

The model has these parts:

- `JsonValues` (json.dfy). This holds the request values: `undefined`,
  `null`, booleans, integer numbers, strings, arrays and objects. A JavaScript
  object is a `Record`, a map from property names to values. The module also
  gives the JavaScript semantics the stages use: truthiness (`!x`), property
  access, `.length`, `String(x)` inside a template literal, and the
  `const { data = {} } = req.body` extraction (`RequestData`).
- `Text` (text.dfy). This holds decimal rendering and `Array.prototype.join`,
  used in the error messages. It also holds the functions that read them
  back, so the index list in the quantity message can be shown to name
  exactly the offending lines.
- `Pipeline` (pipeline.dfy). A stage either passes or fails with
  `{ status, message }` (`Check`, `Result`). A route ends in a response
  (`Reply`): a status code with the entity, or the first error. `Step`
  pairs a response with the collection after the route ran.
- `Records` (records.dfy). This holds the collection operations both
  controllers share. `find`/`findIndex` by `id` is `FirstIndexOf`,
  `splice(i, 1)` is `RemoveAt`, and the update handlers' property-by-property
  merge is the function `Merge`. The merge loop itself is the method
  `MergeProperties`.
- `Orders` (orders.dfy) and `Dishes` (dishes.dfy). Each stage is a function.
  Each route (`module.exports` ordering plus handler) is a function from the
  collection before the request to a `Step`. The `OrderStore` and
  `DishStore` classes hold the collection in a `seq` field. Their methods
  change that field in place and are proved equal to the route functions.

A failing stage stops its route: no later stage runs and nothing changes.
The controllers call `next(err)` without `return` in most stages, which lets
execution fall through to a second `next()`. That is a defect; the model
implements the intended strict short-circuit.

The stage functions (`BodyHasDeliverToProperty`, `BodyHasPriceProperty`, …)
are written as the controllers write their tests, with one exception.
`Orders.BodyHasDishQuantityProperty` uses the corrected quantity test
`QuantityPasses` (a number greater than 0). The test as written is
`Orders.QuantityPassesAsWritten`; see "## Findings". The lemmas and route
functions in the table state what these tests accept.

Where the documented design and the code differ, the model follows the code:

- The status stage rejects only a falsy status, `"invalid"` and
  `"delivered"`. It accepts any other truthy value, not just the four
  documented statuses.
- The status is checked against the incoming value only. An update can still
  change an order whose stored status is `"delivered"`.
- A body `id` that is falsy (`""`, `0`, `null`) is treated like an absent
  one by both id-consistency stages.

## Model

| member | source | states |
|---|---|---|
| `JsonValues.RequestData` | src/orders/orders.controller.js:11 | the payload every body stage reads; the contracts of `Orders.CreateOrder`, `Orders.UpdateChecks`, `Dishes.CreateDish` and `Dishes.UpdateChecks` state the route outcomes in terms of it |
| `Records.FirstIndexOf` | src/orders/orders.controller.js:96 | the lookup by `id` finds the first record carrying the route id; it finds nothing exactly when no record carries it |
| `Records.FirstIndexOfIsFirst` | src/orders/orders.controller.js:168 | any position holding the id with no earlier one is the position `findIndex` returns, so `find` and `findIndex` agree |
| `Records.FirstIndexOfAppended` | src/orders/orders.controller.js:195-203 | a record appended with an id no other record carries is the one found under that id |
| `Records.RemoveAt` | src/orders/orders.controller.js:169 | `splice(i, 1)` shortens the collection by one, keeps the records before and after `i` in order, and removes exactly the record at `i` (as multisets) |
| `Records.RemovedIdIsGone` | src/orders/orders.controller.js:166-171 | with unique ids, the removed id is no longer carried by any record |
| `Records.RemovePreservesUniqueIds` | src/orders/orders.controller.js:166-171 | removing a record keeps ids unique |
| `Records.AppendPreservesUniqueIds` | src/orders/orders.controller.js:195-203 | appending a record with a fresh id keeps ids unique |
| `Records.ReplacePreservesUniqueIds` | src/orders/orders.controller.js:173-189 | replacing a record by one with the same id keeps ids unique |
| `Records.Merge` | src/orders/orders.controller.js:178-187 | the merge the update handlers perform; the loop `MergeProperties` is proved to compute it, and `MergeIdempotent` states that it is idempotent |
| `Records.MergeShape` | src/orders/orders.controller.js:178-187 | a convenience unfolding of `Merge`, used by the route proofs: the existing property names are kept, protected properties keep their value, every other property takes the payload's value (`undefined` when absent) |
| `Records.MergeIdempotent` | src/orders/orders.controller.js:178-187 | merging the same payload twice gives what merging it once gives |
| `Records.MergeProperties` | src/orders/orders.controller.js:178-187 | the loop over the own property names that assigns differing values computes the merge |
| `Text.NatToString` | src/orders/orders.controller.js:79-89 | an index is written as a non-empty string of decimal digits with no leading zero |
| `Text.ParseNatToString` | src/orders/orders.controller.js:79-89 | reading a written index back gives the index |
| `Text.ParseJoinedNats` | src/orders/orders.controller.js:79 | the `join(", ")` of the offending indices reads back, separator by separator, as the same list of indices in the same order |
| `Orders.BodyHasDeliverToProperty` | src/orders/orders.controller.js:10-22 | the deliverTo stage; `Orders.OrderBodyChecksFirstFailure` states that a falsy `deliverTo` fails first with 400 "Order must include a deliverTo property." |
| `Orders.BodyHasMobileNumProperty` | src/orders/orders.controller.js:24-35 | the mobileNumber stage; `Orders.OrderBodyChecksFirstFailure` states its error and its place in the order |
| `Orders.BodyHasDishesProperty` | src/orders/orders.controller.js:37-52 | the dishes stage; `Orders.DishesStageSpec` states what it accepts and rejects |
| `Orders.QuantityPassesAsWritten` | src/orders/orders.controller.js:59-63 | the quantity test as written; `Orders.QuantityAsWrittenCharacterised` and `Orders.QuantityAsWrittenAcceptsNegative` state what it accepts |
| `Orders.QuantityPasses` | src/orders/orders.controller.js:59-63 | the corrected quantity test, a number greater than 0; `Orders.QuantityAsWrittenCharacterised` relates it to the written one |
| `Orders.BodyHasDishQuantityProperty` | src/orders/orders.controller.js:54-91 | the quantity stage; `Orders.QuantityStageSpec` and `Orders.QuantityStageSeveralOffenders` state when it passes and its messages |
| `Orders.BodyIdMatchesRouteId` | src/orders/orders.controller.js:112-128 | the id-consistency stage; `Orders.IdAndStatusStagesSpec` states what it accepts and its error |
| `Orders.BodyHasStatusProperty` | src/orders/orders.controller.js:130-149 | the status stage; `Orders.IdAndStatusStagesSpec` states what it accepts and its two errors |
| `Orders.OrderStatusIsPending` | src/orders/orders.controller.js:152-163 | the pending guard of delete; `Orders.DeleteOrder` states that delete succeeds only for a stored `"pending"` order and otherwise answers 400 with no change |
| `Orders.OffendingIndices` | src/orders/orders.controller.js:57-70 | the `reduce` collects exactly the indices of the lines whose quantity fails, each within bounds, strictly ascending |
| `Orders.NoOffendersIffAllLinesPass` | src/orders/orders.controller.js:72-75 | the index list is empty exactly when every line has a valid quantity |
| `Orders.DishesStageSpec` | src/orders/orders.controller.js:40-49 | the dishes stage rejects a missing, empty or non-array `dishes` with 400 "Order must include at least one dish." and passes every non-empty array |
| `Orders.QuantityStageSpec` | src/orders/orders.controller.js:54-91 | the quantity stage passes exactly when every line has a valid quantity; one offender gives "Dish i must have…"; several give "Dishes " followed by the decimal indices joined with ", ", a list that reads back as exactly the offending indices |
| `Orders.QuantityStageSeveralOffenders` | src/orders/orders.controller.js:78-85 | with several offenders the message is "Dishes " followed by `join(", ")` of the decimal indices and the rule, and that list reads back, with its comma-space separators, as the offending indices |
| `Orders.QuantityAsWrittenAcceptsNegative` | src/orders/orders.controller.js:59-63 | the quantity test as written lets a line with quantity -1 through, which the intended test rejects |
| `Orders.QuantityAsWrittenCharacterised` | src/orders/orders.controller.js:59-63 | the written test accepts exactly the non-zero numbers, so it differs from the intended one exactly on the negative numbers |
| `Orders.OrderExists` | src/orders/orders.controller.js:94-109 | it succeeds exactly when some order carries the route id, binding the first such order and its position; otherwise 404 "No matching order is found for orderId <id>." |
| `Orders.OrderBodyChecks` | src/orders/orders.controller.js:10-91 | the body stages pass exactly on a payload with truthy `deliverTo` and `mobileNumber`, a non-empty `dishes` array and a positive quantity on every line; every failure is a 400 |
| `Orders.OrderBodyChecksFirstFailure` | src/orders/orders.controller.js:210-216 | the stages run in the order deliverTo, mobileNumber, dishes, quantity, and the first failing one gives the error |
| `Orders.IdAndStatusStagesSpec` | src/orders/orders.controller.js:112-149 | an absent or falsy body id passes, an id equal to the route id passes, a differing one fails with 400 naming both; a missing or `"invalid"` status fails, `"delivered"` fails with "A delivered order cannot be changed.", anything else passes |
| `Orders.CreateOrder` | src/orders/orders.controller.js:195-216 | create succeeds exactly on a valid payload; on failure the error is the first stage's and the collection is unchanged; on success it answers 201 and appends one order that has the payload's properties and the fresh id in place of any payload id |
| `Orders.CreatedOrderIsFound` | src/orders/orders.controller.js:195-203 | a created order satisfies the create rules, is found under its fresh id, and keeps ids unique |
| `Orders.ReadOrder` | src/orders/orders.controller.js:191-193 | read answers 200 with the first order carrying the id, or 404 when none does |
| `Orders.UpdateChecks` | src/orders/orders.controller.js:218-227 | the update stages pass exactly when the order exists, the payload is valid, the body id agrees and the status is accepted; an unknown id is a 404 whatever the body |
| `Orders.UpdateChecksFirstFailure` | src/orders/orders.controller.js:218-227 | after the lookup, the body stages fail first, then the id check, then the status check |
| `Orders.UpdateOrder` | src/orders/orders.controller.js:173-189 | on failure nothing changes and the answer is the error of the first failing update stage (so a 404 for an unknown id); on success only the found order changes, its id and property names stay, every other existing property takes the payload's value, and the answer is 200 with that order |
| `Orders.UpdateOrderIdempotent` | src/orders/orders.controller.js:173-189 | sending the same update a second time answers the same and leaves the same collection |
| `Orders.UpdateOrderPreservesInvariants` | src/orders/orders.controller.js:173-189 | an update keeps every order valid if all were, and keeps ids unique |
| `Orders.DeleteOrder` | src/orders/orders.controller.js:152-171 | delete succeeds exactly when the order exists and its stored status is `"pending"`; otherwise 404 or 400 with no change; on success 204, one order fewer, exactly the found order removed, the others in their order |
| `Orders.DeletedOrderIsGone` | src/orders/orders.controller.js:166-171 | with unique ids, reading a deleted order answers 404, and ids stay unique |
| `Orders.OrderStore.constructor` | src/orders/orders.controller.js:4 | the store starts from the seeded collection |
| `Orders.OrderStore.List` | src/orders/orders.controller.js:205-207 | list answers 200 with the whole collection in stored order |
| `Orders.OrderStore.Read` | src/orders/orders.controller.js:191-193 | the read route as the read function states it |
| `Orders.OrderStore.Create` | src/orders/orders.controller.js:195-203 | the push leaves the collection and answer of the create function, and the new order is found under its id |
| `Orders.OrderStore.Update` | src/orders/orders.controller.js:173-189 | the in-place merge leaves the collection and answer of the update function |
| `Orders.OrderStore.Delete` | src/orders/orders.controller.js:166-171 | the splice leaves the collection and answer of the delete function |
| `Dishes.BodyHasNameProperty` | src/dishes/dishes.controller.js:10-22 | the name stage; `Dishes.DishBodyChecksFirstFailure` states that a falsy `name` fails first with 400 "Dish must include a name." |
| `Dishes.BodyHasDescriptionProperty` | src/dishes/dishes.controller.js:24-35 | the description stage; `Dishes.DishBodyChecksFirstFailure` states its error and its place in the order |
| `Dishes.BodyHasPriceProperty` | src/dishes/dishes.controller.js:37-53 | the price stage; `Dishes.PriceStageSpec` states that it passes exactly a number greater than 0 |
| `Dishes.BodyHasImageUrlProperty` | src/dishes/dishes.controller.js:55-66 | the image_url stage; `Dishes.DishBodyChecksFirstFailure` states its error and its place in the order |
| `Dishes.BodyIdMatchesRouteId` | src/dishes/dishes.controller.js:86-102 | the id-consistency stage; `Dishes.IdStageSpec` states what it accepts and its error |
| `Dishes.MergeAsWritten` | src/dishes/dishes.controller.js:110-119 | the update merge as written, with no name excluded; `Dishes.MergeAsWrittenTakesBodyId`, `Dishes.MergeAsWrittenKeepsPresentId` and `Dishes.MergeAsWrittenLosesAbsentId` state what it does to the id |
| `Dishes.DishExists` | src/dishes/dishes.controller.js:69-83 | it succeeds exactly when some dish carries the route id, binding the first such dish and its position; otherwise 404 "Dish does not exist: <id>." |
| `Dishes.PriceStageSpec` | src/dishes/dishes.controller.js:40-50 | the price stage passes exactly a number greater than 0 and rejects a missing, zero, negative or non-numeric price |
| `Dishes.DishBodyChecks` | src/dishes/dishes.controller.js:10-66 | the body stages pass exactly on a payload with truthy name, description and image_url and a positive price; every failure is a 400 |
| `Dishes.DishBodyChecksFirstFailure` | src/dishes/dishes.controller.js:142-148 | the stages run in the order name, description, price, image_url, and the first failing one gives the error |
| `Dishes.IdStageSpec` | src/dishes/dishes.controller.js:86-102 | an absent or falsy body id passes, an id equal to the route id passes, a differing one fails with 400 naming both |
| `Dishes.CreateDish` | src/dishes/dishes.controller.js:123-131 | create succeeds exactly on a valid payload; on failure the error is the first stage's and the collection is unchanged; on success it answers 201 and appends one dish that has the payload's properties and the fresh id in place of any payload id |
| `Dishes.ReadDish` | src/dishes/dishes.controller.js:133-135 | read answers 200 with the first dish carrying the id, or 404 when none does |
| `Dishes.UpdateChecks` | src/dishes/dishes.controller.js:150-158 | the lookup runs first, so an unknown id is a 404 whatever the body; then the first failing body stage, then the id check; it passes exactly when all pass |
| `Dishes.MergeAsWrittenTakesBodyId` | src/dishes/dishes.controller.js:110-119 | the handler as written copies the body's `id`, whatever it is, over the dish's |
| `Dishes.MergeAsWrittenKeepsPresentId` | src/dishes/dishes.controller.js:110-119 | as written, a body id that is present and passed the id stage leaves the dish id unchanged |
| `Dishes.MergeAsWrittenLosesAbsentId` | src/dishes/dishes.controller.js:105-121 | as written, a valid update without a body id leaves the dish with `id` undefined, so it is not found under its id any more |
| `Dishes.UpdateDish` | src/dishes/dishes.controller.js:105-121 | on failure nothing changes and the answer is the error of the first failing update stage (so a 404 for an unknown id); on success only the found dish changes, its id and property names stay, every other existing property takes the payload's value, and the answer is 200 with that dish |
| `Dishes.UpdateAgreesWithWrittenWhenIdPresent` | src/dishes/dishes.controller.js:105-121 | when the body carries an id, the corrected update leaves the same dish as the handler as written |
| `Dishes.UpdateDishIdempotent` | src/dishes/dishes.controller.js:105-121 | sending the same update a second time answers the same and leaves the same collection |
| `Dishes.UpdateDishPreservesInvariants` | src/dishes/dishes.controller.js:105-121 | an update keeps every dish valid (so its price positive) if all were, and keeps ids unique |
| `Dishes.CreatedDishIsFound` | src/dishes/dishes.controller.js:123-131 | a create keeps every dish valid and ids unique, and the created dish is found under its fresh id |
| `Dishes.DishStore.constructor` | src/dishes/dishes.controller.js:4 | the store starts from the seeded collection |
| `Dishes.DishStore.List` | src/dishes/dishes.controller.js:137-139 | list answers 200 with the whole collection in stored order |
| `Dishes.DishStore.Read` | src/dishes/dishes.controller.js:133-135 | the read route as the read function states it |
| `Dishes.DishStore.Create` | src/dishes/dishes.controller.js:123-131 | the push leaves the collection and answer of the create function, and the new dish is found under its id |
| `Dishes.DishStore.Update` | src/dishes/dishes.controller.js:105-121 | the in-place merge leaves the collection and answer of the update function |

## Findings

| source | as written | input that shows it | evidently intended | confidence | as-written member | corrected member |
|---|---|---|---|---|---|---|
| src/dishes/dishes.controller.js:116 | the merge copies every own property of the dish, `id` included, from the body | `PUT /dishes/d1` with `data` `{name, description, price, image_url}` and no `id`; the dish's `id` becomes `undefined` and `GET /dishes/d1` then answers 404 | keep the stored id, as the order handler does by skipping `id` (src/orders/orders.controller.js:184) | high; not executed | `Dishes.MergeAsWrittenLosesAbsentId` | `Dishes.UpdateDish` |
| src/orders/orders.controller.js:61 | `!dish.quantity > 0` means `(!dish.quantity) > 0`, so a negative quantity passes | `dishes: [{dishId: "d1", quantity: -1}]` passes the quantity stage | reject every quantity that is not greater than 0, as the error message says | high; not executed | `Orders.QuantityAsWrittenAcceptsNegative` | `Orders.OffendingIndices` |

In both cases the rest of the model uses the corrected definition: the
stores' updates keep the dish id, and the quantity stage flags a line whose
quantity is zero or negative.

## Left out

- HTTP plumbing (`req`, `res`, `next`, `res.json`, `res.status`, `res.sendStatus`) is left out. A route yields a status code with its entity, or the error's status and message.
- The error-formatting middleware, the router wiring and the server are left out. They do not appear in the two controllers.
- `res.locals` is not modelled as shared mutable storage. Each stage's result is passed on explicitly (`Located`, `UpdateContext`).
- The fall-through after `next(err)` is not modelled. It is a defect, and the model stops at the first failure.
- `nextId()` is left out. The fresh id is the parameter `newId`, and the store's `Create` requires that no stored entity carries it.
- The seed data modules are left out. Each store's constructor takes the seeded collection.
- Object identity and aliasing are left out, because entities are values. In the source, the found entity, the array element and the response body are one object, and an updated order shares the request's `dishes` array. The model computes the same property values.
- `!==` compares arrays and objects by reference in the source. The merge loop compares by value here. The values the merge leaves are the same either way.
- The iteration order of `Object.getOwnPropertyNames` is not modelled. The loop takes the names in any order, and the merged result does not depend on it.
- Numbers are integers. Floating-point prices and quantities, `NaN` and `Infinity` are left out. The messages say "integer" while `typeof` also admits fractions; the model cannot show that gap.
- A `null` payload `data` or a `null` dish line makes the source throw a `TypeError`, which Express answers with 500. The model treats the first as an empty payload (a 400 from the first stage) and the second as a line without a quantity.
- Concurrency is left out. Requests run one after another.
