/**
 * The route handlers of the drinks API as a state machine over the drinks
 * table. Each protected route is wrapped in a permission gate whose scope is
 * fixed per route; the gate runs before the handler body. Every handler
 * answers with a JSON envelope: `success: true` with a payload, or one of the
 * fixed error envelopes.
 */
module Api {
  import opened JsonValue
  import opened DrinkStore

  /** A permission scope string, as named in a route's decorator. */
  type Scope = string

  const DetailScope: Scope := "get:drinks-detail"
  const PostScope: Scope := "post:drinks"
  const PatchScope: Scope := "patch:drinks"
  const DeleteScope: Scope := "delete:drinks"

  /** The failure the gate raises: an error payload and a status code. */
  datatype AuthError = AuthError(error: Json, statusCode: int)

  datatype GateResult = Granted | Denied(failure: AuthError)

  /**
   * What the permission gate decides for the current request when asked for
   * a scope. How it decides (token decoding, signature and claim checks) is
   * not part of this model.
   */
  type Gate = Scope -> GateResult

  /** An HTTP response: the JSON body and its status code. */
  datatype Response = Response(body: Json, status: int)

  /** The status Flask gives a response for which the handler names none. */
  const DefaultStatus := 200

  /** `success: true` in the envelope. */
  predicate Succeeded(r: Response)
  {
    Member(r.body, "success") == Some(JBool(true))
  }

  /** `success: false` in the envelope. */
  predicate Failed(r: Response)
  {
    Member(r.body, "success") == Some(JBool(false))
  }

  /** The `drinks` list of an envelope, or the empty list when it has none. */
  function DrinksOf(r: Response): seq<Json>
  {
    match Member(r.body, "drinks")
    case Some(JArr(items)) => items
    case _ => []
  }

  /** The success envelope carrying a list of drink views. */
  function OkDrinks(items: seq<Json>): Response
  {
    Response(JObj(map["success" := JBool(true), "drinks" := JArr(items)]), DefaultStatus)
  }

  /** The success envelope confirming a deletion. */
  function OkDeleted(id: int): Response
  {
    Response(JObj(map["success" := JBool(true), "delete" := JNum(id)]), DefaultStatus)
  }

  function ErrorEnvelope(error: Json, message: Json, status: int): Response
  {
    Response(JObj(map["success" := JBool(false), "error" := error, "message" := message]), status)
  }

  /** The handler for `abort(422)`. */
  function Unprocessable(): (r: Response)
    ensures Failed(r) && Keys(r.body) == {"success", "error", "message"}
    ensures Member(r.body, "error") == Some(JNum(422))
    ensures Member(r.body, "message") == Some(JStr("unprocessable"))
    ensures r.status == 422
  {
    ErrorEnvelope(JNum(422), JStr("unprocessable"), 422)
  }

  /** The handler for `abort(404)`. */
  function NotFoundHandler(): (r: Response)
    ensures Failed(r) && Keys(r.body) == {"success", "error", "message"}
    ensures Member(r.body, "error") == Some(JNum(404))
    ensures Member(r.body, "message") == Some(JStr("resource not found"))
    ensures r.status == 404
    ensures r != Unprocessable()
  {
    ErrorEnvelope(JNum(404), JStr("resource not found"), 404)
  }

  /**
   * The handler for a gate failure. It names no status, so the response
   * goes out with the default one whatever `statusCode` the failure had.
   */
  function AuthErrorHandler(e: AuthError): (r: Response)
    ensures Failed(r) && Keys(r.body) == {"success", "error", "message"}
    ensures Member(r.body, "error") == Some(JNum(e.statusCode))
    ensures Member(r.body, "message") == Some(e.error)
    ensures r.status == DefaultStatus
    ensures r != Unprocessable() && r != NotFoundHandler()
  {
    ErrorEnvelope(JNum(e.statusCode), e.error, DefaultStatus)
  }

  /**
   * `body.get(key, None)` compared with `None`: a field counts as given
   * when the key is there and its value is not JSON null.
   */
  function Provided(body: map<string, Json>, key: string): Option<Json>
  {
    if key in body && body[key] != JNull then Some(body[key]) else None
  }

  /** The value a PATCH leaves in a field: the given one, or the stored one. */
  function Patched(stored: Json, given: Option<Json>): Json
  {
    if given.Some? then given.value else stored
  }

  /**
   * A PATCH field that is missing from the body, or given as null, keeps the
   * stored value; one given with any other value replaces it.
   */
  lemma PatchedField(stored: Json, body: map<string, Json>, key: string)
    ensures key !in body || body[key] == JNull ==> Patched(stored, Provided(body, key)) == stored
    ensures key in body && body[key] != JNull ==> Patched(stored, Provided(body, key)) == body[key]
  {
  }

  class DrinkApi {
    /** `Drink.short()`: the public view, recipe without quantities. */
    const short: View
    /** `Drink.long()`: the full view. */
    const long: View
    /** `json.dumps`, the text encoding a created drink's recipe is stored in. */
    const encode: Json -> string

    /** The drinks table, keyed by id. */
    var drinks: map<int, Drink>

    /** The application starts on an empty table (it drops and recreates it). */
    constructor (short: View, long: View, encode: Json -> string)
      ensures this.short == short && this.long == long && this.encode == encode
      ensures drinks == map[]
    {
      this.short := short;
      this.long := long;
      this.encode := encode;
      drinks := map[];
    }

    /** GET /drinks: public, one short view per stored drink in listing order. */
    function GetDrinks(listing: seq<int>): (r: Response)
      reads this
      requires Lists(listing, drinks)
      ensures Succeeded(r) && Keys(r.body) == {"success", "drinks"} && r.status == DefaultStatus
      ensures Member(r.body, "drinks") == Some(JArr(DrinksOf(r)))
      ensures |DrinksOf(r)| == |listing| == |drinks|
      ensures forall k :: 0 <= k < |listing| ==> DrinksOf(r)[k] == short(listing[k], drinks[listing[k]])
    {
      ListingCount(listing, drinks);
      OkDrinks(Views(short, listing, drinks))
    }

    /** GET /drinks-detail: behind `get:drinks-detail`, one long view per stored drink. */
    function GetDrinksDetail(gate: Gate, listing: seq<int>): (r: Response)
      reads this
      requires Lists(listing, drinks)
      ensures gate(DetailScope).Denied? ==> r == AuthErrorHandler(gate(DetailScope).failure)
      ensures gate(DetailScope).Granted? ==>
        && Succeeded(r) && Keys(r.body) == {"success", "drinks"} && r.status == DefaultStatus
        && Member(r.body, "drinks") == Some(JArr(DrinksOf(r)))
        && |DrinksOf(r)| == |listing| == |drinks|
        && forall k :: 0 <= k < |listing| ==> DrinksOf(r)[k] == long(listing[k], drinks[listing[k]])
    {
      match gate(DetailScope)
      case Denied(e) => AuthErrorHandler(e)
      case Granted =>
        ListingCount(listing, drinks);
        OkDrinks(Views(long, listing, drinks))
    }

    /**
     * POST /drinks behind `post:drinks`. The database picks `newId`, an id not
     * in use, and reports in `inserted` whether the insert went through.
     */
    method PostDrinks(gate: Gate, body: map<string, Json>, newId: int, inserted: bool) returns (r: Response)
      requires gate(PostScope).Granted? ==> "title" in body && "recipe" in body
      requires newId !in drinks
      modifies this
      ensures gate(PostScope).Denied? ==>
        r == AuthErrorHandler(gate(PostScope).failure) && drinks == old(drinks)
      ensures gate(PostScope).Granted? && !inserted ==>
        r == Unprocessable() && drinks == old(drinks)
      ensures gate(PostScope).Granted? && inserted ==>
        && drinks == old(drinks)[newId := Drink(body["title"], JStr(encode(body["recipe"])))]
        && newId !in old(drinks)
        && drinks.Keys == old(drinks).Keys + {newId}
        && drinks[newId] == Drink(body["title"], JStr(encode(body["recipe"])))
        && (forall id :: id in old(drinks) ==> drinks[id] == old(drinks)[id])
        && Succeeded(r) && Keys(r.body) == {"success", "drinks"} && r.status == DefaultStatus
        && DrinksOf(r) == [long(newId, drinks[newId])]
    {
      var granted := gate(PostScope);
      if granted.Denied? {
        return AuthErrorHandler(granted.failure);
      }
      var title := body["title"];
      var recipe := JStr(encode(body["recipe"]));
      if !inserted {
        return Unprocessable();
      }
      var drink := Drink(title, recipe);
      drinks := drinks[newId := drink];
      r := OkDrinks([long(newId, drink)]);
    }

    /**
     * PATCH /drinks/<id> behind `patch:drinks`. `updated` says whether the
     * database committed the change. A missing id, a body that is not a JSON
     * object and a failed commit all end in 422: the handler's catch-all turns
     * its own `abort(404)` into `abort(422)`. The route only matches an
     * unsigned decimal id, so `id` is a natural number; any other path never
     * reaches the gate and is answered by routing with the 404 envelope.
     */
    method PatchDrink(gate: Gate, id: nat, body: Json, updated: bool) returns (r: Response)
      modifies this
      ensures gate(PatchScope).Denied? ==>
        r == AuthErrorHandler(gate(PatchScope).failure) && drinks == old(drinks)
      ensures gate(PatchScope).Granted? && (!body.JObj? || id !in old(drinks) || !updated) ==>
        r == Unprocessable() && drinks == old(drinks)
      ensures gate(PatchScope).Granted? && body.JObj? && id in old(drinks) && updated ==>
        && drinks == old(drinks)[id := Drink(
             Patched(old(drinks)[id].title, Provided(body.fields, "title")),
             Patched(old(drinks)[id].recipe, Provided(body.fields, "recipe")))]
        && drinks.Keys == old(drinks).Keys
        && drinks[id].title == Patched(old(drinks)[id].title, Provided(body.fields, "title"))
        && drinks[id].recipe == Patched(old(drinks)[id].recipe, Provided(body.fields, "recipe"))
        && (forall other :: other in old(drinks) && other != id ==> drinks[other] == old(drinks)[other])
        && Succeeded(r) && Keys(r.body) == {"success", "drinks"} && r.status == DefaultStatus
        && DrinksOf(r) == [long(id, drinks[id])]
      ensures r != NotFoundHandler()
    {
      var granted := gate(PatchScope);
      if granted.Denied? {
        return AuthErrorHandler(granted.failure);
      }
      if !body.JObj? || id !in drinks {
        return Unprocessable();
      }
      var drink := drinks[id];
      var newTitle := Provided(body.fields, "title");
      var newRecipe := Provided(body.fields, "recipe");
      if newTitle.Some? {
        drink := drink.(title := newTitle.value);
      }
      if newRecipe.Some? {
        drink := drink.(recipe := newRecipe.value);
      }
      if !updated {
        return Unprocessable();
      }
      drinks := drinks[id := drink];
      r := OkDrinks([long(id, drink)]);
    }

    /**
     * DELETE /drinks/<id> behind `delete:drinks`. `deleted` says whether the
     * database committed the removal; a missing id ends in 422, as in PATCH.
     * As there, only an unsigned decimal id reaches the handler.
     */
    method DeleteDrink(gate: Gate, id: nat, deleted: bool) returns (r: Response)
      modifies this
      ensures gate(DeleteScope).Denied? ==>
        r == AuthErrorHandler(gate(DeleteScope).failure) && drinks == old(drinks)
      ensures gate(DeleteScope).Granted? && (id !in old(drinks) || !deleted) ==>
        r == Unprocessable() && drinks == old(drinks)
      ensures gate(DeleteScope).Granted? && id in old(drinks) && deleted ==>
        && drinks == old(drinks) - {id}
        && drinks.Keys == old(drinks).Keys - {id}
        && (forall other :: other in drinks ==> drinks[other] == old(drinks)[other])
        && Succeeded(r) && Keys(r.body) == {"success", "delete"} && r.status == DefaultStatus
        && Member(r.body, "delete") == Some(JNum(id))
      ensures r != NotFoundHandler()
    {
      var granted := gate(DeleteScope);
      if granted.Denied? {
        return AuthErrorHandler(granted.failure);
      }
      if id !in drinks {
        return Unprocessable();
      }
      if !deleted {
        return Unprocessable();
      }
      drinks := drinks - {id};
      r := OkDeleted(id);
    }
  }

  /**
   * Deleting the same drink twice: the first call removes it and confirms the
   * id, the second finds nothing and ends in 422.
   */
  method DeleteTwice(api: DrinkApi, gate: Gate, id: nat) returns (first: Response, second: Response)
    requires gate(DeleteScope).Granted? && id in api.drinks
    modifies api
    ensures Succeeded(first) && Member(first.body, "delete") == Some(JNum(id))
    ensures second == Unprocessable()
    ensures api.drinks == old(api.drinks) - {id}
  {
    first := api.DeleteDrink(gate, id, true);
    second := api.DeleteDrink(gate, id, true);
  }

  /**
   * A created drink is listed by a later GET /drinks-detail, with the title
   * it was given and its recipe in its stored encoding.
   */
  method PostThenDetail(api: DrinkApi, gate: Gate, body: map<string, Json>, newId: int)
    returns (created: Response, detail: Response)
    requires gate(PostScope).Granted? && gate(DetailScope).Granted?
    requires "title" in body && "recipe" in body && newId !in api.drinks
    modifies api
    ensures Succeeded(created) && Succeeded(detail)
    ensures api.long(newId, Drink(body["title"], JStr(api.encode(body["recipe"])))) in DrinksOf(detail)
  {
    created := api.PostDrinks(gate, body, newId, true);
    ListingExists(api.drinks);
    var listing :| Lists(listing, api.drinks);
    detail := api.GetDrinksDetail(gate, listing);
    ViewOfListed(api.long, listing, api.drinks, newId);
  }

  /** A PATCH that gives only a title keeps the drink's id and recipe. */
  method PatchTitleOnly(api: DrinkApi, gate: Gate, id: nat, title: Json) returns (r: Response)
    requires gate(PatchScope).Granted? && id in api.drinks && title != JNull
    modifies api
    ensures Succeeded(r)
    ensures id in api.drinks && api.drinks.Keys == old(api.drinks).Keys
    ensures api.drinks[id] == old(api.drinks[id]).(title := title)
    ensures forall other :: other in old(api.drinks) && other != id ==> api.drinks[other] == old(api.drinks[other])
  {
    r := api.PatchDrink(gate, id, JObj(map["title" := title]), true);
  }
}
