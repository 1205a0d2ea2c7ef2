/** The Dishes controller: its validation stages, the create, read and update
    routes that run them and the list route, first as functions from the
    collection before a request to the response and the collection after
    it, then as the `DishStore` class whose methods change the collection in
    place. Every route stops at its first failing stage. Dishes are never
    deleted. */
module Dishes {
  import opened JsonValues
  import opened Records
  import opened Pipeline

  // The errors the stages report, with the controller's codes and wording.

  const NameMissing := Error(400, "Dish must include a name.")
  const DescriptionMissing := Error(400, "Dish must include a description.")
  const PriceInvalid := Error(400, "Dish must include a price and it must be an integer greater than 0.")
  const ImageUrlMissing := Error(400, "Dish must include a image_url")

  function DishNotFound(dishId: string): Error
  {
    Error(404, "Dish does not exist: " + dishId + ".")
  }

  function IdMismatch(bodyId: Json, dishId: string): Error
  {
    Error(400, "Dish id does not match route id. Dish: " + Display(bodyId) + ", Route: " + dishId)
  }

  // ---------------------------------------------------------------------
  // The stages. The body stages read the payload `data` of the request,
  // which the first of them extracts (`RequestData`).

  function BodyHasNameProperty(reqBody: Record): Check
  {
    Need(Truthy(Get(reqBody, "name")), NameMissing)
  }

  function BodyHasDescriptionProperty(reqBody: Record): Check
  {
    Need(Truthy(Get(reqBody, "description")), DescriptionMissing)
  }

  /** `!price || price < 0 || typeof price !== "number"` fails. How `< 0`
      coerces a non-number does not matter: the `typeof` test fails it
      anyway. */
  function BodyHasPriceProperty(reqBody: Record): Check
  {
    var price := Get(reqBody, "price");
    Need(!(!Truthy(price) || (price.Num? && price.n < 0) || !price.Num?), PriceInvalid)
  }

  function BodyHasImageUrlProperty(reqBody: Record): Check
  {
    Need(Truthy(Get(reqBody, "image_url")), ImageUrlMissing)
  }

  /** A truthy body `id` must equal the route's `dishId`; a falsy one is not
      checked. */
  function BodyIdMatchesRouteId(reqBody: Record, dishId: string): Check
  {
    var id := Get(reqBody, "id");
    if Truthy(id) then Need(id == Str(dishId), IdMismatch(id, dishId)) else Pass
  }

  /** What `dishExists` leaves in `res.locals`: the dish found and, here, its
      position (the route's `dishId` is passed along explicitly). */
  datatype Located = Located(index: nat, dish: Record)

  function DishExists(dishes: seq<Record>, dishId: string): (r: Result<Located>)
    ensures r.Ok? <==> IdInUse(dishes, dishId)
    ensures r.Ok? ==> r.value.index < |dishes| && r.value.dish == dishes[r.value.index]
    ensures r.Ok? ==> HasId(r.value.dish, dishId)
    ensures r.Ok? ==> forall j :: 0 <= j < r.value.index ==> !HasId(dishes[j], dishId)
    ensures r.Err? ==> r.error == DishNotFound(dishId)
  {
    match FirstIndexOf(dishes, dishId)
    case Some(i) => Ok(Located(i, dishes[i]))
    case None => Err(DishNotFound(dishId))
  }

  // ---------------------------------------------------------------------
  // What the stages accept, stated independently of their order.

  predicate PricePositive(price: Json)
  {
    price.Num? && price.n > 0
  }

  /** A payload the create route accepts: the invariant every dish written
      through the routes satisfies, its price a positive number among it. */
  predicate ValidDishBody(reqBody: Record)
  {
    && Truthy(Get(reqBody, "name"))
    && Truthy(Get(reqBody, "description"))
    && PricePositive(Get(reqBody, "price"))
    && Truthy(Get(reqBody, "image_url"))
  }

  predicate BodyIdAgrees(reqBody: Record, dishId: string)
  {
    !Truthy(Get(reqBody, "id")) || Get(reqBody, "id") == Str(dishId)
  }

  /** The price stage rejects a missing, zero, negative or non-numeric price;
      whatever it lets through is a number greater than 0. */
  lemma PriceStageSpec(reqBody: Record)
    ensures BodyHasPriceProperty(reqBody) == if PricePositive(Get(reqBody, "price")) then Pass else Reject(PriceInvalid)
  {
  }

  /** The body stages of the create and update routes, in route order: name,
      description, price, image_url. */
  function DishBodyChecks(reqBody: Record): (c: Check)
    ensures c.Pass? <==> ValidDishBody(reqBody)
    ensures c.Reject? ==> c.error.status == 400
  {
    var name := BodyHasNameProperty(reqBody);
    if name.Reject? then name
    else
      var description := BodyHasDescriptionProperty(reqBody);
      if description.Reject? then description
      else
        var price := BodyHasPriceProperty(reqBody);
        if price.Reject? then price
        else BodyHasImageUrlProperty(reqBody)
  }

  /** The first failing body stage decides the error. */
  lemma DishBodyChecksFirstFailure(reqBody: Record)
    ensures !Truthy(Get(reqBody, "name")) ==> DishBodyChecks(reqBody) == Reject(NameMissing)
    ensures Truthy(Get(reqBody, "name")) && !Truthy(Get(reqBody, "description")) ==>
              DishBodyChecks(reqBody) == Reject(DescriptionMissing)
    ensures Truthy(Get(reqBody, "name")) && Truthy(Get(reqBody, "description")) && !PricePositive(Get(reqBody, "price")) ==>
              DishBodyChecks(reqBody) == Reject(PriceInvalid)
    ensures Truthy(Get(reqBody, "name")) && Truthy(Get(reqBody, "description")) && PricePositive(Get(reqBody, "price"))
              && !Truthy(Get(reqBody, "image_url")) ==>
              DishBodyChecks(reqBody) == Reject(ImageUrlMissing)
  {
  }

  /** The id stage of the update route. */
  lemma IdStageSpec(reqBody: Record, dishId: string)
    ensures !Truthy(Get(reqBody, "id")) ==> BodyIdMatchesRouteId(reqBody, dishId) == Pass
    ensures Get(reqBody, "id") == Str(dishId) ==> BodyIdMatchesRouteId(reqBody, dishId) == Pass
    ensures Truthy(Get(reqBody, "id")) && Get(reqBody, "id") != Str(dishId) ==>
              BodyIdMatchesRouteId(reqBody, dishId) == Reject(IdMismatch(Get(reqBody, "id"), dishId))
  {
  }

  // ---------------------------------------------------------------------
  // The routes, as functions of the collection before the request.

  /** `create: [bodyHasNameProperty, bodyHasDescriptionProperty,
      bodyHasPriceProperty, bodyHasImageUrlProperty, create]`; `newId` is the
      value `nextId()` returns. */
  function CreateDish(dishes: seq<Record>, body: Json, newId: string): (s: Step<Record>)
    ensures s.reply.Success? <==> ValidDishBody(RequestData(body))
    ensures s.reply.Failure? ==> s.after == dishes && Reject(s.reply.error) == DishBodyChecks(RequestData(body))
    ensures s.reply.Success? ==> s.reply.status == 201 && s.after == dishes + [s.reply.data]
    ensures s.reply.Success? ==> HasId(s.reply.data, newId) && s.reply.data.Keys == RequestData(body).Keys + {"id"}
    ensures s.reply.Success? ==> forall k :: k in RequestData(body) && k != "id" ==> s.reply.data[k] == RequestData(body)[k]
  {
    var reqBody := RequestData(body);
    match DishBodyChecks(reqBody)
    case Reject(e) => Step(Failure(e), dishes)
    case Pass =>
      var newDish := reqBody["id" := Str(newId)];
      Step(Success(201, newDish), dishes + [newDish])
  }

  /** `read: [dishExists, read]`. */
  function ReadDish(dishes: seq<Record>, dishId: string): (r: Reply<Record>)
    ensures r.Success? <==> IdInUse(dishes, dishId)
    ensures r.Success? ==> r.status == 200 && HasId(r.data, dishId)
                           && FirstIndexOf(dishes, dishId).Some? && r.data == dishes[FirstIndexOf(dishes, dishId).value]
    ensures r.Failure? ==> r.error == DishNotFound(dishId)
  {
    match DishExists(dishes, dishId)
    case Ok(found) => Success(200, found.dish)
    case Err(e) => Failure(e)
  }

  /** The state the update stages have built when they all pass. */
  datatype UpdateContext = UpdateContext(found: Located, reqBody: Record)

  /** `update: [dishExists, bodyHasNameProperty, bodyHasDescriptionProperty,
      bodyHasPriceProperty, bodyHasImageUrlProperty, bodyIdMatchesRouteId,
      update]` up to the handler. The lookup comes first, so an unknown
      `dishId` is a 404 whatever the body holds. */
  function UpdateChecks(dishes: seq<Record>, dishId: string, body: Json): (r: Result<UpdateContext>)
    ensures !IdInUse(dishes, dishId) ==> r == Err(DishNotFound(dishId))
    ensures IdInUse(dishes, dishId) && DishBodyChecks(RequestData(body)).Reject? ==>
              r == Err(DishBodyChecks(RequestData(body)).error)
    ensures IdInUse(dishes, dishId) && ValidDishBody(RequestData(body)) && !BodyIdAgrees(RequestData(body), dishId) ==>
              r == Err(IdMismatch(Get(RequestData(body), "id"), dishId))
    ensures r.Ok? <==> (IdInUse(dishes, dishId) && ValidDishBody(RequestData(body)) && BodyIdAgrees(RequestData(body), dishId))
    ensures r.Ok? ==> && r.value.reqBody == RequestData(body)
                      && FirstIndexOf(dishes, dishId) == Some(r.value.found.index)
                      && r.value.found.index < |dishes| && r.value.found.dish == dishes[r.value.found.index]
  {
    match DishExists(dishes, dishId)
    case Err(e) => Err(e)
    case Ok(found) =>
      var reqBody := RequestData(body);
      var bodyChecks := DishBodyChecks(reqBody);
      if bodyChecks.Reject? then Err(bodyChecks.error)
      else
        var idCheck := BodyIdMatchesRouteId(reqBody, dishId);
        if idCheck.Reject? then Err(idCheck.error)
        else
          FirstIndexOfIsFirst(dishes, dishId, found.index);
          Ok(UpdateContext(found, reqBody))
  }

  /** The merge of the `update` handler exactly as written: no property name
      is excluded, `id` included. */
  function MergeAsWritten(dish: Record, reqBody: Record): Record
  {
    Merge(dish, reqBody, {})
  }

  /** As written, the dish's `id` becomes the body's `id`, whatever it is. */
  lemma MergeAsWrittenTakesBodyId(dish: Record, reqBody: Record)
    requires "id" in dish
    ensures MergeAsWritten(dish, reqBody)["id"] == Get(reqBody, "id")
  {
  }

  /** As written, the id survives when the body carries one that passed the
      id stage. */
  lemma MergeAsWrittenKeepsPresentId(dish: Record, reqBody: Record, dishId: string)
    requires HasId(dish, dishId)
    requires Truthy(Get(reqBody, "id")) && BodyIdAgrees(reqBody, dishId)
    ensures HasId(MergeAsWritten(dish, reqBody), dishId)
  {
  }

  /** As written, a valid update whose body has no `id` leaves the dish with
      `id` undefined, so it is no longer found under its own id. */
  lemma MergeAsWrittenLosesAbsentId()
    ensures var dishId := "d1";
            var dish := map["id" := Str(dishId), "name" := Str("Taco"), "description" := Str("d"),
                            "price" := Num(5), "image_url" := Str("u")];
            var reqBody := map["name" := Str("Taco"), "description" := Str("d"), "price" := Num(6), "image_url" := Str("u")];
            var merged := MergeAsWritten(dish, reqBody);
            && UpdateChecks([dish], dishId, Obj(map["data" := Obj(reqBody)])).Ok?
            && merged["id"] == Undefined
            && ReadDish([merged], dishId) == Failure(DishNotFound(dishId))
  {
    var dishId := "d1";
    var dish := map["id" := Str(dishId), "name" := Str("Taco"), "description" := Str("d"),
                    "price" := Num(5), "image_url" := Str("u")];
    var reqBody := map["name" := Str("Taco"), "description" := Str("d"), "price" := Num(6), "image_url" := Str("u")];
    assert RequestData(Obj(map["data" := Obj(reqBody)])) == reqBody;
    assert ValidDishBody(reqBody);
    assert "id" !in reqBody;
    assert BodyIdAgrees(reqBody, dishId);
    assert IdInUse([dish], dishId) by {
      assert HasId([dish][0], dishId);
    }
    var merged := MergeAsWritten(dish, reqBody);
    assert merged["id"] == Undefined;
    assert !IdInUse([merged], dishId) by {
      assert !HasId([merged][0], dishId);
    }
  }

  /** The `update` handler after its stages, with the stored dish merged with
      the payload and `id` excluded, as the order handler does. */
  function UpdateDish(dishes: seq<Record>, dishId: string, body: Json): (s: Step<Record>)
    ensures !IdInUse(dishes, dishId) ==> s.reply == Failure(DishNotFound(dishId))
    ensures s.reply.Success? <==> UpdateChecks(dishes, dishId, body).Ok?
    ensures s.reply.Failure? ==> s.after == dishes
    ensures s.reply.Failure? ==> s.reply.error == UpdateChecks(dishes, dishId, body).error
    ensures |s.after| == |dishes|
    ensures s.reply.Success? ==>
              var i := FirstIndexOf(dishes, dishId).value;
              var payload := RequestData(body);
              && s.reply.status == 200
              && s.after == dishes[i := s.reply.data]
              && s.reply.data.Keys == dishes[i].Keys
              && HasId(s.reply.data, dishId)
              && (forall k :: k in dishes[i] && k != "id" ==> s.reply.data[k] == Get(payload, k))
  {
    match UpdateChecks(dishes, dishId, body)
    case Err(e) => Step(Failure(e), dishes)
    case Ok(ctx) =>
      var merged := Merge(ctx.found.dish, ctx.reqBody, {"id"});
      MergeShape(ctx.found.dish, ctx.reqBody, {"id"});
      Step(Success(200, merged), dishes[ctx.found.index := merged])
  }

  /** Whenever the body carries an `id`, the corrected merge and the merge as
      written leave the same dish. */
  lemma UpdateAgreesWithWrittenWhenIdPresent(dishes: seq<Record>, dishId: string, body: Json)
    requires Truthy(Get(RequestData(body), "id"))
    ensures var s := UpdateDish(dishes, dishId, body);
            s.reply.Success? ==>
              s.reply.data == MergeAsWritten(dishes[FirstIndexOf(dishes, dishId).value], RequestData(body))
  {
    var s := UpdateDish(dishes, dishId, body);
    if s.reply.Success? {
      var i := FirstIndexOf(dishes, dishId).value;
      var reqBody := RequestData(body);
      MergeShape(dishes[i], reqBody, {"id"});
      MergeShape(dishes[i], reqBody, {});
      var written := MergeAsWritten(dishes[i], reqBody);
      assert written.Keys == s.reply.data.Keys;
      forall k | k in written ensures written[k] == s.reply.data[k] {
        if k == "id" {
          assert Get(reqBody, "id") == Str(dishId);
        }
      }
    }
  }

  /** Sending the same update twice leaves the state the first one left. */
  lemma UpdateDishIdempotent(dishes: seq<Record>, dishId: string, body: Json)
    ensures var first := UpdateDish(dishes, dishId, body);
            first.reply.Success? ==> UpdateDish(first.after, dishId, body) == first
  {
    var first := UpdateDish(dishes, dishId, body);
    if first.reply.Success? {
      var ctx := UpdateChecks(dishes, dishId, body).value;
      var i := ctx.found.index;
      var merged := first.reply.data;
      assert merged == Merge(dishes[i], ctx.reqBody, {"id"});
      forall j | 0 <= j < i ensures !HasId(first.after[j], dishId) {
        assert first.after[j] == dishes[j];
      }
      FirstIndexOfIsFirst(first.after, dishId, i);
      MergeIdempotent(dishes[i], ctx.reqBody, {"id"});
      assert first.after[i := merged] == first.after;
    }
  }

  /** An update keeps every dish valid, so its price positive, and keeps ids
      unique. */
  lemma UpdateDishPreservesInvariants(dishes: seq<Record>, dishId: string, body: Json)
    ensures (forall i :: 0 <= i < |dishes| ==> ValidDishBody(dishes[i])) ==>
              var s := UpdateDish(dishes, dishId, body);
              forall i :: 0 <= i < |s.after| ==> ValidDishBody(s.after[i])
    ensures UniqueIds(dishes) ==> UniqueIds(UpdateDish(dishes, dishId, body).after)
  {
    var reqBody := RequestData(body);
    var u := UpdateDish(dishes, dishId, body);
    if u.reply.Success? {
      var i := UpdateChecks(dishes, dishId, body).value.found.index;
      var merged := u.reply.data;
      MergeShape(dishes[i], reqBody, {"id"});
      if ValidDishBody(dishes[i]) {
        assert Get(merged, "name") == Get(reqBody, "name");
        assert Get(merged, "description") == Get(reqBody, "description");
        assert Get(merged, "price") == Get(reqBody, "price");
        assert Get(merged, "image_url") == Get(reqBody, "image_url");
      }
      if UniqueIds(dishes) {
        ReplacePreservesUniqueIds(dishes, i, merged);
      }
    }
  }

  /** A create keeps every dish valid and ids unique, and the created dish is
      found under its fresh id. */
  lemma CreatedDishIsFound(dishes: seq<Record>, body: Json, newId: string)
    ensures (forall i :: 0 <= i < |dishes| ==> ValidDishBody(dishes[i])) ==>
              var s := CreateDish(dishes, body, newId);
              forall i :: 0 <= i < |s.after| ==> ValidDishBody(s.after[i])
    ensures UniqueIds(dishes) && !IdInUse(dishes, newId) ==> UniqueIds(CreateDish(dishes, body, newId).after)
    ensures !IdInUse(dishes, newId) ==>
              var s := CreateDish(dishes, body, newId);
              s.reply.Success? ==> ReadDish(s.after, newId) == Success(200, s.reply.data)
  {
    var reqBody := RequestData(body);
    var c := CreateDish(dishes, body, newId);
    if c.reply.Success? {
      var created := c.reply.data;
      assert Get(created, "name") == Get(reqBody, "name");
      assert Get(created, "description") == Get(reqBody, "description");
      assert Get(created, "price") == Get(reqBody, "price");
      assert Get(created, "image_url") == Get(reqBody, "image_url");
      assert forall i :: 0 <= i < |dishes| ==> c.after[i] == dishes[i];
      if !IdInUse(dishes, newId) {
        FirstIndexOfAppended(dishes, created, newId);
        if UniqueIds(dishes) {
          AppendPreservesUniqueIds(dishes, created, newId);
        }
      }
    }
  }

  // ---------------------------------------------------------------------
  // The controller's shared `dishes` array and its route handlers.

  class DishStore {
    var dishes: seq<Record>

    /** The collection the data module seeds. */
    constructor (seed: seq<Record>)
      ensures dishes == seed
    {
      dishes := seed;
    }

    /** `list`: the whole collection, in stored order. */
    method List() returns (r: Reply<seq<Record>>)
      ensures r == Success(200, dishes)
    {
      r := Success(200, dishes);
    }

    method Read(dishId: string) returns (r: Reply<Record>)
      ensures r == ReadDish(dishes, dishId)
    {
      var found := DishExists(dishes, dishId);
      if found.Err? {
        r := Failure(found.error);
      } else {
        r := Success(200, found.value.dish);
      }
    }

    /** `newId` is what `nextId()` returned, which no stored dish carries. */
    method Create(body: Json, newId: string) returns (r: Reply<Record>)
      requires !IdInUse(dishes, newId)
      modifies this
      ensures Step(r, dishes) == CreateDish(old(dishes), body, newId)
      ensures r.Success? ==> ReadDish(dishes, newId) == Success(200, r.data)
    {
      var reqBody := RequestData(body);
      var checks := DishBodyChecks(reqBody);
      if checks.Reject? {
        r := Failure(checks.error);
        return;
      }
      var newDish := reqBody["id" := Str(newId)];
      dishes := dishes + [newDish];
      r := Success(201, newDish);
      CreatedDishIsFound(old(dishes), body, newId);
    }

    method Update(dishId: string, body: Json) returns (r: Reply<Record>)
      modifies this
      ensures Step(r, dishes) == UpdateDish(old(dishes), dishId, body)
    {
      var checks := UpdateChecks(dishes, dishId, body);
      if checks.Err? {
        r := Failure(checks.error);
        return;
      }
      var ctx := checks.value;
      var dish := MergeProperties(ctx.found.dish, ctx.reqBody, {"id"});
      dishes := dishes[ctx.found.index := dish];
      r := Success(200, dish);
    }
  }
}
