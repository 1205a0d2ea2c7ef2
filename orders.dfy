/** The Orders controller: its validation stages, the four routes that run
    them (create, read, update, delete) and the list route, first as functions
    from the collection before a request to the response and the collection
    after it, then as the `OrderStore` class whose methods change the
    collection in place. Every route stops at its first failing stage. */
module Orders {
  import opened Text
  import opened JsonValues
  import opened Records
  import opened Pipeline

  // The errors the stages report, with the controller's codes and wording.

  const DeliverToMissing := Error(400, "Order must include a deliverTo property.")
  const MobileNumberMissing := Error(400, "Order must include a mobileNumber property.")
  const DishesMissing := Error(400, "Order must include at least one dish.")
  const StatusInvalid := Error(400, "Order must have a status of pending, preparing, out-for-delivery, or delivered.")
  const StatusDelivered := Error(400, "A delivered order cannot be changed.")
  const NotPending := Error(400, "An order cannot be deleted unless it is pending.")
  const QuantityRule := " must have a quantity that is an integer greater than 0."

  function OrderNotFound(orderId: string): Error
  {
    Error(404, "No matching order is found for orderId " + orderId + ".")
  }

  function IdMismatch(bodyId: Json, orderId: string): Error
  {
    Error(400, "Order id does not match route id. Order: " + Display(bodyId) + ", Route: " + orderId)
  }

  /** The quantity error names the offending indices: "Dishes 1, 3 ..." for
      several, "Dish 1 ..." for one (the one-element array interpolated). */
  function QuantityError(bad: seq<nat>): Error
    requires |bad| > 0
  {
    Error(400, QuantityMessage(bad))
  }

  function QuantityMessage(bad: seq<nat>): string
    requires |bad| > 0
  {
    if |bad| > 1 then "Dishes " + Join(NatStrings(bad), ", ") + QuantityRule
    else "Dish " + NatToString(bad[0]) + QuantityRule
  }

  // ---------------------------------------------------------------------
  // The stages. The body stages read the payload `data` of the request,
  // which the first of them extracts (`RequestData`).

  function BodyHasDeliverToProperty(reqBody: Record): Check
  {
    Need(Truthy(Get(reqBody, "deliverTo")), DeliverToMissing)
  }

  function BodyHasMobileNumProperty(reqBody: Record): Check
  {
    Need(Truthy(Get(reqBody, "mobileNumber")), MobileNumberMissing)
  }

  /** `!dishes || !dishes.length || !Array.isArray(dishes)` fails. */
  function BodyHasDishesProperty(reqBody: Record): Check
  {
    var dishes := Get(reqBody, "dishes");
    Need(!(!Truthy(dishes) || !Truthy(Length(dishes)) || !dishes.Arr?), DishesMissing)
  }

  /** The quantity test exactly as the controller writes it:
      `!q || !q > 0 || typeof q !== "number"` fails; `!q > 0` compares the
      boolean `!q` with 0. */
  predicate QuantityPassesAsWritten(quantity: Json)
  {
    !(!Truthy(quantity) || BoolToNumber(!Truthy(quantity)) > 0 || !quantity.Num?)
  }

  /** The quantity test as intended: a number strictly greater than 0. */
  predicate QuantityPasses(quantity: Json)
  {
    quantity.Num? && quantity.n > 0
  }

  predicate LineHasQuantity(line: Json)
  {
    QuantityPasses(Prop(line, "quantity"))
  }

  /** The `reduce` over the dish lines: the indices of the lines whose
      quantity fails, collected left to right. */
  function OffendingIndices(lines: seq<Json>): (bad: seq<nat>)
    ensures forall k :: 0 <= k < |bad| ==> bad[k] < |lines| && !LineHasQuantity(lines[bad[k]])
    ensures forall i :: 0 <= i < |lines| && !LineHasQuantity(lines[i]) ==> i in bad
    ensures forall k, l :: 0 <= k < l < |bad| ==> bad[k] < bad[l]
  {
    if |lines| == 0 then []
    else
      var last := |lines| - 1;
      var init := OffendingIndices(lines[..last]);
      assert forall i :: 0 <= i < last ==> lines[..last][i] == lines[i];
      init + if LineHasQuantity(lines[last]) then [] else [last]
  }

  lemma NoOffendersIffAllLinesPass(lines: seq<Json>)
    ensures OffendingIndices(lines) == [] <==> forall i :: 0 <= i < |lines| ==> LineHasQuantity(lines[i])
  {
    var bad := OffendingIndices(lines);
    if |bad| > 0 {
      assert !LineHasQuantity(lines[bad[0]]);
    }
  }

  function BodyHasDishQuantityProperty(reqBody: Record): Check
    requires Get(reqBody, "dishes").Arr?
  {
    var bad := OffendingIndices(Get(reqBody, "dishes").items);
    if |bad| == 0 then Pass else Reject(QuantityError(bad))
  }

  /** A truthy body `id` must equal the route's `orderId`; a falsy one is not
      checked. */
  function BodyIdMatchesRouteId(reqBody: Record, orderId: string): Check
  {
    var id := Get(reqBody, "id");
    if Truthy(id) then Need(id == Str(orderId), IdMismatch(id, orderId)) else Pass
  }

  function BodyHasStatusProperty(reqBody: Record): Check
  {
    var status := Get(reqBody, "status");
    if !Truthy(status) || status == Str("invalid") then Reject(StatusInvalid)
    else if status == Str("delivered") then Reject(StatusDelivered)
    else Pass
  }

  /** Checks the stored order, not the request. */
  function OrderStatusIsPending(order: Record): Check
  {
    Need(Get(order, "status") == Str("pending"), NotPending)
  }

  /** What `orderExists` leaves in `res.locals`: the order found and, here,
      its position (the route's `orderId` is passed along explicitly). */
  datatype Located = Located(index: nat, order: Record)

  function OrderExists(orders: seq<Record>, orderId: string): (r: Result<Located>)
    ensures r.Ok? <==> IdInUse(orders, orderId)
    ensures r.Ok? ==> r.value.index < |orders| && r.value.order == orders[r.value.index]
    ensures r.Ok? ==> HasId(r.value.order, orderId)
    ensures r.Ok? ==> forall j :: 0 <= j < r.value.index ==> !HasId(orders[j], orderId)
    ensures r.Err? ==> r.error == OrderNotFound(orderId)
  {
    match FirstIndexOf(orders, orderId)
    case Some(i) => Ok(Located(i, orders[i]))
    case None => Err(OrderNotFound(orderId))
  }

  // ---------------------------------------------------------------------
  // What the stages accept, stated independently of their order.

  predicate HasDishList(reqBody: Record)
  {
    var dishes := Get(reqBody, "dishes");
    dishes.Arr? && |dishes.items| > 0
  }

  /** A payload the create route accepts: the invariant every order written
      through the routes satisfies. */
  predicate ValidOrderBody(reqBody: Record)
  {
    && Truthy(Get(reqBody, "deliverTo"))
    && Truthy(Get(reqBody, "mobileNumber"))
    && HasDishList(reqBody)
    && forall i :: 0 <= i < |Get(reqBody, "dishes").items| ==> LineHasQuantity(Get(reqBody, "dishes").items[i])
  }

  predicate BodyIdAgrees(reqBody: Record, orderId: string)
  {
    !Truthy(Get(reqBody, "id")) || Get(reqBody, "id") == Str(orderId)
  }

  predicate StatusAccepted(reqBody: Record)
  {
    var status := Get(reqBody, "status");
    Truthy(status) && status != Str("invalid") && status != Str("delivered")
  }

  /** The body stages of the create and update routes, in route order:
      deliverTo, mobileNumber, dishes, dish quantities. */
  function OrderBodyChecks(reqBody: Record): (c: Check)
    ensures c.Pass? <==> ValidOrderBody(reqBody)
    ensures c.Reject? ==> c.error.status == 400
  {
    var deliverTo := BodyHasDeliverToProperty(reqBody);
    if deliverTo.Reject? then deliverTo
    else
      var mobileNumber := BodyHasMobileNumProperty(reqBody);
      if mobileNumber.Reject? then mobileNumber
      else
        var dishes := BodyHasDishesProperty(reqBody);
        if dishes.Reject? then dishes
        else
          NoOffendersIffAllLinesPass(Get(reqBody, "dishes").items);
          BodyHasDishQuantityProperty(reqBody)
  }

  /** The first failing body stage decides the error. */
  lemma OrderBodyChecksFirstFailure(reqBody: Record)
    ensures !Truthy(Get(reqBody, "deliverTo")) ==> OrderBodyChecks(reqBody) == Reject(DeliverToMissing)
    ensures Truthy(Get(reqBody, "deliverTo")) && !Truthy(Get(reqBody, "mobileNumber")) ==>
              OrderBodyChecks(reqBody) == Reject(MobileNumberMissing)
    ensures Truthy(Get(reqBody, "deliverTo")) && Truthy(Get(reqBody, "mobileNumber")) && !HasDishList(reqBody) ==>
              OrderBodyChecks(reqBody) == Reject(DishesMissing)
    ensures Truthy(Get(reqBody, "deliverTo")) && Truthy(Get(reqBody, "mobileNumber")) && HasDishList(reqBody) ==>
              var bad := OffendingIndices(Get(reqBody, "dishes").items);
              OrderBodyChecks(reqBody) == if |bad| == 0 then Pass else Reject(QuantityError(bad))
  {
  }

  /** A missing, empty or non-array `dishes` is rejected, and only those. */
  lemma DishesStageSpec(reqBody: Record)
    ensures BodyHasDishesProperty(reqBody) == if HasDishList(reqBody) then Pass else Reject(DishesMissing)
  {
  }

  /** With several offending lines, the message joins their indices with a
      comma and a space, and that list reads back as the same indices. */
  lemma QuantityStageSeveralOffenders(reqBody: Record)
    requires Get(reqBody, "dishes").Arr?
    requires |OffendingIndices(Get(reqBody, "dishes").items)| > 1
    ensures var bad := OffendingIndices(Get(reqBody, "dishes").items);
            var list := Join(NatStrings(bad), ", ");
            && BodyHasDishQuantityProperty(reqBody) == Reject(Error(400, "Dishes " + list + QuantityRule))
            && ParseNatList(list) == bad
  {
    ParseJoinedNats(OffendingIndices(Get(reqBody, "dishes").items));
  }

  /** The quantity stage passes exactly when no line offends; otherwise its
      message names the offending indices, singular for one and a
      comma-space joined list, which reads back as the same list, for
      several. */
  lemma QuantityStageSpec(reqBody: Record)
    requires Get(reqBody, "dishes").Arr?
    ensures var lines := Get(reqBody, "dishes").items;
            BodyHasDishQuantityProperty(reqBody).Pass? <==> forall i :: 0 <= i < |lines| ==> LineHasQuantity(lines[i])
    ensures var bad := OffendingIndices(Get(reqBody, "dishes").items);
            |bad| == 1 ==> BodyHasDishQuantityProperty(reqBody) == Reject(Error(400, "Dish " + NatToString(bad[0]) + QuantityRule))
    ensures var bad := OffendingIndices(Get(reqBody, "dishes").items);
            |bad| > 1 ==> var list := Join(NatStrings(bad), ", ");
                          && BodyHasDishQuantityProperty(reqBody) == Reject(Error(400, "Dishes " + list + QuantityRule))
                          && ParseNatList(list) == bad
  {
    var lines := Get(reqBody, "dishes").items;
    NoOffendersIffAllLinesPass(lines);
    if |OffendingIndices(lines)| > 1 {
      QuantityStageSeveralOffenders(reqBody);
    }
  }

  /** The controller's quantity test lets a negative quantity through, which
      the intended test rejects. */
  lemma QuantityAsWrittenAcceptsNegative()
    ensures QuantityPassesAsWritten(Num(-1)) && !QuantityPasses(Num(-1))
    ensures var line := Obj(map["dishId" := Str("d1"), "quantity" := Num(-1)]);
            QuantityPassesAsWritten(Prop(line, "quantity")) && !LineHasQuantity(line)
  {
    var line := Obj(map["dishId" := Str("d1"), "quantity" := Num(-1)]);
    assert Prop(line, "quantity") == Num(-1);
  }

  /** The written test is "a non-zero number"; it differs from the intended
      one exactly on the negative numbers. */
  lemma QuantityAsWrittenCharacterised(quantity: Json)
    ensures QuantityPassesAsWritten(quantity) <==> quantity.Num? && quantity.n != 0
    ensures QuantityPassesAsWritten(quantity) <==> QuantityPasses(quantity) || (quantity.Num? && quantity.n < 0)
  {
  }

  /** The id and status stages of the update route. */
  lemma IdAndStatusStagesSpec(reqBody: Record, orderId: string)
    ensures !Truthy(Get(reqBody, "id")) ==> BodyIdMatchesRouteId(reqBody, orderId) == Pass
    ensures Get(reqBody, "id") == Str(orderId) ==> BodyIdMatchesRouteId(reqBody, orderId) == Pass
    ensures Truthy(Get(reqBody, "id")) && Get(reqBody, "id") != Str(orderId) ==>
              BodyIdMatchesRouteId(reqBody, orderId) == Reject(IdMismatch(Get(reqBody, "id"), orderId))
    ensures !Truthy(Get(reqBody, "status")) || Get(reqBody, "status") == Str("invalid") ==>
              BodyHasStatusProperty(reqBody) == Reject(StatusInvalid)
    ensures Get(reqBody, "status") == Str("delivered") ==> BodyHasStatusProperty(reqBody) == Reject(StatusDelivered)
    ensures BodyHasStatusProperty(reqBody).Pass? <==> StatusAccepted(reqBody)
  {
  }

  // ---------------------------------------------------------------------
  // The routes, as functions of the collection before the request.

  /** `create: [bodyHasDeliverToProperty, bodyHasMobileNumProperty,
      bodyHasDishesProperty, bodyHasDishQuantityProperty, create]`; `newId`
      is the value `nextId()` returns. */
  function CreateOrder(orders: seq<Record>, body: Json, newId: string): (s: Step<Record>)
    ensures s.reply.Success? <==> ValidOrderBody(RequestData(body))
    ensures s.reply.Failure? ==> s.after == orders && Reject(s.reply.error) == OrderBodyChecks(RequestData(body))
    ensures s.reply.Success? ==> s.reply.status == 201 && s.after == orders + [s.reply.data]
    ensures s.reply.Success? ==> HasId(s.reply.data, newId) && s.reply.data.Keys == RequestData(body).Keys + {"id"}
    ensures s.reply.Success? ==> forall k :: k in RequestData(body) && k != "id" ==> s.reply.data[k] == RequestData(body)[k]
  {
    var reqBody := RequestData(body);
    match OrderBodyChecks(reqBody)
    case Reject(e) => Step(Failure(e), orders)
    case Pass =>
      var newOrder := reqBody["id" := Str(newId)];
      Step(Success(201, newOrder), orders + [newOrder])
  }

  /** `read: [orderExists, read]`. */
  function ReadOrder(orders: seq<Record>, orderId: string): (r: Reply<Record>)
    ensures r.Success? <==> IdInUse(orders, orderId)
    ensures r.Success? ==> r.status == 200 && HasId(r.data, orderId)
                           && FirstIndexOf(orders, orderId).Some? && r.data == orders[FirstIndexOf(orders, orderId).value]
    ensures r.Failure? ==> r.error == OrderNotFound(orderId)
  {
    match OrderExists(orders, orderId)
    case Ok(found) => Success(200, found.order)
    case Err(e) => Failure(e)
  }

  /** The state the update stages have built when they all pass. */
  datatype UpdateContext = UpdateContext(found: Located, reqBody: Record)

  /** `update: [orderExists, bodyHasDeliverToProperty,
      bodyHasMobileNumProperty, bodyHasDishesProperty,
      bodyHasDishQuantityProperty, bodyIdMatchesRouteId,
      bodyHasStatusProperty, update]` up to the handler. */
  function UpdateChecks(orders: seq<Record>, orderId: string, body: Json): (r: Result<UpdateContext>)
    ensures !IdInUse(orders, orderId) ==> r == Err(OrderNotFound(orderId))
    ensures r.Ok? <==> (IdInUse(orders, orderId) && ValidOrderBody(RequestData(body)) &&
                        BodyIdAgrees(RequestData(body), orderId) && StatusAccepted(RequestData(body)))
    ensures r.Ok? ==> && r.value.reqBody == RequestData(body)
                      && FirstIndexOf(orders, orderId) == Some(r.value.found.index)
                      && r.value.found.index < |orders| && r.value.found.order == orders[r.value.found.index]
  {
    match OrderExists(orders, orderId)
    case Err(e) => Err(e)
    case Ok(found) =>
      var reqBody := RequestData(body);
      var bodyChecks := OrderBodyChecks(reqBody);
      if bodyChecks.Reject? then Err(bodyChecks.error)
      else
        var idCheck := BodyIdMatchesRouteId(reqBody, orderId);
        if idCheck.Reject? then Err(idCheck.error)
        else
          var statusCheck := BodyHasStatusProperty(reqBody);
          if statusCheck.Reject? then Err(statusCheck.error)
          else
            FirstIndexOfIsFirst(orders, orderId, found.index);
            Ok(UpdateContext(found, reqBody))
  }

  /** The update route's stages in order: the lookup, the body stages, the id
      check, the status check. */
  lemma UpdateChecksFirstFailure(orders: seq<Record>, orderId: string, body: Json)
    requires IdInUse(orders, orderId)
    ensures var reqBody := RequestData(body);
            OrderBodyChecks(reqBody).Reject? ==> UpdateChecks(orders, orderId, body) == Err(OrderBodyChecks(reqBody).error)
    ensures var reqBody := RequestData(body);
            ValidOrderBody(reqBody) && !BodyIdAgrees(reqBody, orderId) ==>
              UpdateChecks(orders, orderId, body) == Err(IdMismatch(Get(reqBody, "id"), orderId))
    ensures var reqBody := RequestData(body);
            ValidOrderBody(reqBody) && BodyIdAgrees(reqBody, orderId) && !StatusAccepted(reqBody) ==>
              UpdateChecks(orders, orderId, body) == Err(BodyHasStatusProperty(reqBody).error)
  {
  }

  /** The `update` handler after its stages: the stored order merged with the
      payload, `id` excluded. */
  function UpdateOrder(orders: seq<Record>, orderId: string, body: Json): (s: Step<Record>)
    ensures !IdInUse(orders, orderId) ==> s.reply == Failure(OrderNotFound(orderId))
    ensures s.reply.Success? <==> UpdateChecks(orders, orderId, body).Ok?
    ensures s.reply.Failure? ==> s.after == orders
    ensures s.reply.Failure? ==> s.reply.error == UpdateChecks(orders, orderId, body).error
    ensures |s.after| == |orders|
    ensures s.reply.Success? ==>
              var i := FirstIndexOf(orders, orderId).value;
              var payload := RequestData(body);
              && s.reply.status == 200
              && s.after == orders[i := s.reply.data]
              && s.reply.data.Keys == orders[i].Keys
              && Get(s.reply.data, "id") == Get(orders[i], "id")
              && (forall k :: k in orders[i] && k != "id" ==> s.reply.data[k] == Get(payload, k))
  {
    match UpdateChecks(orders, orderId, body)
    case Err(e) => Step(Failure(e), orders)
    case Ok(ctx) =>
      var merged := Merge(ctx.found.order, ctx.reqBody, {"id"});
      MergeShape(ctx.found.order, ctx.reqBody, {"id"});
      Step(Success(200, merged), orders[ctx.found.index := merged])
  }

  /** Sending the same update twice leaves the state the first one left. */
  lemma UpdateOrderIdempotent(orders: seq<Record>, orderId: string, body: Json)
    ensures var first := UpdateOrder(orders, orderId, body);
            first.reply.Success? ==> UpdateOrder(first.after, orderId, body) == first
  {
    var first := UpdateOrder(orders, orderId, body);
    if first.reply.Success? {
      var ctx := UpdateChecks(orders, orderId, body).value;
      var i := ctx.found.index;
      var merged := first.reply.data;
      assert merged == Merge(orders[i], ctx.reqBody, {"id"});
      forall j | 0 <= j < i ensures !HasId(first.after[j], orderId) {
        assert first.after[j] == orders[j];
      }
      FirstIndexOfIsFirst(first.after, orderId, i);
      MergeIdempotent(orders[i], ctx.reqBody, {"id"});
      assert first.after[i := merged] == first.after;
    }
  }

  /** Orders written through the routes satisfy the create route's rules, and
      an update keeps them so; ids stay unique. */
  lemma UpdateOrderPreservesInvariants(orders: seq<Record>, orderId: string, body: Json)
    ensures var s := UpdateOrder(orders, orderId, body);
            (forall i :: 0 <= i < |orders| ==> ValidOrderBody(orders[i])) ==>
              forall i :: 0 <= i < |s.after| ==> ValidOrderBody(s.after[i])
    ensures UniqueIds(orders) ==> UniqueIds(UpdateOrder(orders, orderId, body).after)
  {
    var s := UpdateOrder(orders, orderId, body);
    if s.reply.Success? {
      var ctx := UpdateChecks(orders, orderId, body).value;
      var i := ctx.found.index;
      var merged := s.reply.data;
      MergeShape(orders[i], ctx.reqBody, {"id"});
      if ValidOrderBody(orders[i]) {
        assert Get(merged, "deliverTo") == Get(ctx.reqBody, "deliverTo");
        assert Get(merged, "mobileNumber") == Get(ctx.reqBody, "mobileNumber");
        assert Get(merged, "dishes") == Get(ctx.reqBody, "dishes");
      }
      if UniqueIds(orders) {
        ReplacePreservesUniqueIds(orders, i, merged);
      }
    }
  }

  /** `delete: [orderExists, orderStatusIsPending, destroy]`; `destroy` finds
      the position again with `findIndex` and splices it out. */
  function DeleteOrder(orders: seq<Record>, orderId: string): (s: Step<()>)
    ensures !IdInUse(orders, orderId) ==> s.reply == Failure(OrderNotFound(orderId))
    ensures s.reply.Success? <==> (IdInUse(orders, orderId) &&
                                   Get(orders[FirstIndexOf(orders, orderId).value], "status") == Str("pending"))
    ensures IdInUse(orders, orderId) && s.reply.Failure? ==> s.reply.error == NotPending
    ensures s.reply.Failure? ==> s.after == orders
    ensures s.reply.Success? ==>
              var i := FirstIndexOf(orders, orderId).value;
              && s.reply.status == 204
              && |s.after| == |orders| - 1
              && (forall j :: 0 <= j < i ==> s.after[j] == orders[j])
              && (forall j :: i <= j < |s.after| ==> s.after[j] == orders[j + 1])
              && multiset(s.after) + multiset{orders[i]} == multiset(orders)
  {
    match OrderExists(orders, orderId)
    case Err(e) => Step(Failure(e), orders)
    case Ok(found) =>
      match OrderStatusIsPending(found.order)
      case Reject(e) => Step(Failure(e), orders)
      case Pass =>
        var orderIndex := FirstIndexOf(orders, orderId).value;
        Step(Success(204, ()), RemoveAt(orders, orderIndex))
  }

  /** Once deleted, an order is not found again, provided ids were unique; the
      ids stay unique. */
  lemma DeletedOrderIsGone(orders: seq<Record>, orderId: string)
    requires UniqueIds(orders)
    ensures var s := DeleteOrder(orders, orderId);
            s.reply.Success? ==> ReadOrder(s.after, orderId) == Failure(OrderNotFound(orderId)) && UniqueIds(s.after)
  {
    var s := DeleteOrder(orders, orderId);
    if s.reply.Success? {
      var i := FirstIndexOf(orders, orderId).value;
      RemovedIdIsGone(orders, i, orderId);
      RemovePreservesUniqueIds(orders, i);
    }
  }

  /** A created order is found under its fresh id, keeps the create rules,
      and keeps ids unique. */
  lemma CreatedOrderIsFound(orders: seq<Record>, body: Json, newId: string)
    requires !IdInUse(orders, newId)
    ensures var s := CreateOrder(orders, body, newId);
            s.reply.Success? ==> ValidOrderBody(s.reply.data) && ReadOrder(s.after, newId) == Success(200, s.reply.data)
    ensures var s := CreateOrder(orders, body, newId);
            UniqueIds(orders) ==> UniqueIds(s.after)
  {
    var s := CreateOrder(orders, body, newId);
    if s.reply.Success? {
      var reqBody := RequestData(body);
      assert Get(s.reply.data, "deliverTo") == Get(reqBody, "deliverTo");
      assert Get(s.reply.data, "mobileNumber") == Get(reqBody, "mobileNumber");
      assert Get(s.reply.data, "dishes") == Get(reqBody, "dishes");
      FirstIndexOfAppended(orders, s.reply.data, newId);
      if UniqueIds(orders) {
        AppendPreservesUniqueIds(orders, s.reply.data, newId);
      }
    }
  }

  // ---------------------------------------------------------------------
  // The controller's shared `orders` array and its route handlers.

  class OrderStore {
    var orders: seq<Record>

    /** The collection the data module seeds. */
    constructor (seed: seq<Record>)
      ensures orders == seed
    {
      orders := seed;
    }

    /** `list`: the whole collection, in stored order. */
    method List() returns (r: Reply<seq<Record>>)
      ensures r == Success(200, orders)
    {
      r := Success(200, orders);
    }

    method Read(orderId: string) returns (r: Reply<Record>)
      ensures r == ReadOrder(orders, orderId)
    {
      var found := OrderExists(orders, orderId);
      if found.Err? {
        r := Failure(found.error);
      } else {
        r := Success(200, found.value.order);
      }
    }

    /** `newId` is what `nextId()` returned, which no stored order carries. */
    method Create(body: Json, newId: string) returns (r: Reply<Record>)
      requires !IdInUse(orders, newId)
      modifies this
      ensures Step(r, orders) == CreateOrder(old(orders), body, newId)
      ensures r.Success? ==> ReadOrder(orders, newId) == Success(200, r.data)
    {
      var reqBody := RequestData(body);
      var checks := OrderBodyChecks(reqBody);
      if checks.Reject? {
        r := Failure(checks.error);
        return;
      }
      var newOrder := reqBody["id" := Str(newId)];
      orders := orders + [newOrder];
      r := Success(201, newOrder);
      CreatedOrderIsFound(old(orders), body, newId);
    }

    method Update(orderId: string, body: Json) returns (r: Reply<Record>)
      modifies this
      ensures Step(r, orders) == UpdateOrder(old(orders), orderId, body)
    {
      var checks := UpdateChecks(orders, orderId, body);
      if checks.Err? {
        r := Failure(checks.error);
        return;
      }
      var ctx := checks.value;
      var order := MergeProperties(ctx.found.order, ctx.reqBody, {"id"});
      orders := orders[ctx.found.index := order];
      r := Success(200, order);
    }

    method Delete(orderId: string) returns (r: Reply<()>)
      modifies this
      ensures Step(r, orders) == DeleteOrder(old(orders), orderId)
    {
      var found := OrderExists(orders, orderId);
      if found.Err? {
        r := Failure(found.error);
        return;
      }
      var pending := OrderStatusIsPending(found.value.order);
      if pending.Reject? {
        r := Failure(pending.error);
        return;
      }
      var orderIndex := FirstIndexOf(orders, orderId).value;
      orders := orders[..orderIndex] + orders[orderIndex + 1..];
      r := Success(204, ());
    }
  }
}
