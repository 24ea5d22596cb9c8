# Drinks API: request handlers as a state machine

This project models the route handlers of a small coffee-shop HTTP API in
Dafny. The API keeps a table of drinks, each with a title and a recipe.
`GET /drinks` is public. `GET /drinks-detail`, `POST /drinks`,
`PATCH /drinks/<id>` and `DELETE /drinks/<id>` each sit behind a permission
gate, and each route's decorator fixes the scope that gate checks. Every
handler answers with a JSON envelope. On success that is `success: true`
with a payload. On failure it is one of three fixed error envelopes.

Layout:

- `json.dfy`, module `JsonValue`: JSON values and the readers `Member` and
  `Keys`, which the contracts use to say what a client finds in an envelope.
- `store.dfy`, module `DrinkStore`: the drink record and the table as the
  handlers see it.
  - `Lists` says what a valid answer to `Drink.query.all()` is: every id
    exactly once, in the database's order.
  - `Views` is the list comprehension that projects each listed row.
  - `ListingExists` and `FreshIdExists` show that the database can always list
    the table and always has an unused id for an insert.
- `api.dfy`, module `Api`:
  - the route scopes and the gate (`Gate = Scope -> GateResult`);
  - the three error handlers;
  - class `DrinkApi`, whose state is the table `drinks: map<int, Drink>`. The
    two GET routes are functions that read it. POST, PATCH and DELETE are
    methods that modify it;
  - three client methods. They chain handler calls into the properties that
    span several requests: deleting twice, creating then listing, and
    patching only the title.

What the environment decides is passed in as parameters:

- the gate's verdict on each scope;
- the order of `query.all()`, as a `listing` that must satisfy `Lists`;
- the id the database gives a new row, any id not in use;
- whether the database committed an insert, update or delete (`inserted`,
  `updated`, `deleted`).

The projections `short()` and `long()` and the recipe encoding `json.dumps`
are defined in files outside this model. They are constant function fields of
`DrinkApi`, given at construction.

Some of the code's behaviour differs from what a reader of the routes might
expect. The model keeps the code's behaviour:

- A PATCH or DELETE on an id that is not in the table answers 422
  "unprocessable", not 404. The handler's own `abort(404)` runs inside a `try`
  whose bare `except:` turns it into `abort(422)`. The 404 envelope is never
  produced by these handlers (`r != NotFoundHandler()` in their contracts).
  The routes match only an unsigned decimal id (`<int:id>`), so the model's
  handlers take a natural-number id. A negative or non-numeric id never
  reaches the handler or its gate; routing answers it with the 404 envelope,
  which is the only way that envelope appears.
- The gate-failure handler returns its envelope without a status. Flask then
  sends the default status 200, not 401. The envelope's `error` field still
  holds the failure's status code.
- POST stores the recipe as its JSON text encoding. PATCH stores a given
  recipe as it is, without encoding it again.
- The listing order is whatever the database returns. No order is imposed
  beyond listing every row once.

## Model

| member | source | states |
|---|---|---|
| `Api.DrinkApi.constructor` | backend/src/api.py:18 | the application starts on an empty drinks table |
| `Api.DrinkApi.GetDrinks` | backend/src/api.py:24-32 | no gate; status 200, `success: true`, and `drinks` holds exactly one short view per stored drink, in listing order (as many views as drinks); the table cannot change, since this is a function |
| `Api.DrinkApi.GetDrinksDetail` | backend/src/api.py:38-47 | asks the gate for `get:drinks-detail` only; if denied, the auth-error envelope for that failure; if granted, one long view per stored drink in listing order; the table is unchanged |
| `Api.DrinkApi.PostDrinks` | backend/src/api.py:53-71 | asks the gate for `post:drinks`, and the body is read only if granted; a denial or a failed insert (422) leaves the table unchanged; a successful insert adds exactly one drink under an id not in the table, with the body's title and the encoding of the body's recipe, leaves every existing drink as it was, and answers `drinks: [long view of the new drink]` |
| `Api.DrinkApi.PatchDrink` | backend/src/api.py:77-102 | asks the gate for `patch:drinks`; a body that is not an object, an id not in the table, or a failed commit all give the 422 envelope and leave the table unchanged, and the answer is never the 404 envelope; on success the title and the recipe are each replaced only when given and not null, a given recipe is stored as is, the ids and every other drink are unchanged, and the answer holds the updated long view |
| `Api.DrinkApi.DeleteDrink` | backend/src/api.py:109-126 | asks the gate for `delete:drinks`; an id not in the table or a failed commit gives the 422 envelope and leaves the table unchanged, never the 404 envelope; on success exactly that key is removed and the answer is `{success: true, delete: id}` |
| `Api.Unprocessable` | backend/src/api.py:132-138 | the 422 envelope: exactly the keys success, error and message, with `success: false`, `error: 422`, `message: "unprocessable"`, status 422 |
| `Api.NotFoundHandler` | backend/src/api.py:141-147 | the 404 envelope: `success: false`, `error: 404`, `message: "resource not found"`, status 404, distinct from the 422 envelope |
| `Api.AuthErrorHandler` | backend/src/api.py:150-156 | `success: false`, `error` is the failure's status code, `message` is the failure's error payload; no status is named, so the default 200 applies; distinct from both other envelopes |
| `Api.PatchedField` | backend/src/api.py:83-91 | a PATCH field missing from the body or given as null keeps the stored value; a field given with any other value replaces it |
| `Api.DeleteTwice` | backend/src/api.py:113-126 | a first DELETE of a stored id succeeds and confirms that id; a second DELETE of the same id gives the 422 envelope; the table loses exactly that id |
| `Api.PostThenDetail` | backend/src/api.py:55-68 | after a successful POST, a GET /drinks-detail in any database order contains the long view of the created drink, with the given title and the encoded recipe |
| `Api.PatchTitleOnly` | backend/src/api.py:83-93 | a PATCH whose body gives only a title changes only that drink's title; its id and recipe and the set of ids stay the same |
| `DrinkStore.Views` | backend/src/api.py:27 | the comprehension yields one projection per listed id, in listing order, each the projection of that id's row |
| `DrinkStore.ListingCount` | backend/src/api.py:26 | any listing of the table has exactly as many entries as the table has rows |
| `DrinkStore.ListingExists` | backend/src/api.py:41 | every table has a listing, so the GET routes can be answered in every state |
| `DrinkStore.ViewOfListed` | backend/src/api.py:42 | every stored row shows up, projected, among a listing's views |
| `DrinkStore.FreshIdExists` | backend/src/api.py:61-62 | every table leaves some id unused, so the precondition on the new id can always be met |

## Left out

- Flask application setup, `setup_db`, CORS and the drop-and-recreate of the database at startup. These are framework and database bootstrapping. The constructor only starts from the empty table that bootstrapping leaves.
- How the gate decides. Bearer-token parsing, JWKS key lookup, signature and claim checks and the permission check live in an authentication module that is not part of this model. The gate is a parameter that maps each scope to granted or denied with an `AuthError`.
- `short()`, `long()`, the `Drink` model and the database session. They are defined in a models module that is not part of this model. The projections and the encoding are opaque function fields, and the database's choices (order, fresh id, commit outcome) are parameters.
- JSON request parsing. A request body that is not valid JSON at all is not modelled. In PATCH it would also end in 422, because the whole handler sits in the `try`.
- `Api.DrinkApi.PostDrinks`: a body without `title` or `recipe` makes the source raise outside its `try`, which the framework turns into a 500. The model states this as a precondition instead, and only for requests the gate grants, since the gate runs first.
- A projection or encoding that raises. `long()` is called inside the `try` after the write, so a failure there would answer 422 with the write already done. The model treats the projections as total.
- Session state after a failed commit. The source assigns the fields of the session object before `update()`, and nothing is rolled back. The model takes a failed commit to leave the table as it was.
- That the short view hides ingredient quantities. This belongs to `short()`, which is opaque here.
- Fractional JSON numbers. Request bodies may carry them (an ingredient quantity, say), and the handlers pass them through unread; the model's JSON numbers are integers only.
- The routing that answers a path with a negative or non-numeric id by the 404 envelope. The model covers that envelope (`Api.NotFoundHandler`) but not the URL matching.
- HTTP transport, the JSON text of responses, and concurrency between requests.
