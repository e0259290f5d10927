# Canary router and item store: a verified model

This project models the two pieces of sequential logic in a blue/green
canary deployment setup:

- **The item store** behind the application's CRUD endpoints. It is a
  module-level list of `{id, name}` records. POST /items appends a record,
  GET /items returns the list, PUT /items/:id renames the first record with
  that id (or answers 404), and DELETE /items/:id removes every record with
  that id and always answers "Deleted". The model is the class
  `ItemStore.Store`, with a mutable `items: seq<Item>` field and one method
  per handler. Each method returns the status and payload it sends. The
  library calls `find` and `filter` are specified by the recursive functions
  `FindFirst` and `Remove`, and the lemmas about the store are stated
  against those functions.
- **The canary router's per-request decision** (module `CanaryRouter`). The
  two backend targets come from the environment with defaults
  (app-blue:3001, app-green:3002, listen port 3000, canary percent 10). A
  request whose url is exactly `/router-health` is answered locally with
  `{router: 'ok', canaryPercent}`. Any other request is forwarded, with its
  method, url and headers unchanged, to the green (canary) target when the
  draw `r` in [0, 100) is below the percentage, and to the blue (stable)
  target otherwise. The backend's status, headers and body are relayed
  back. The random draw is a parameter (`Draw`), and the backend is a
  function parameter of `Handle`.

Inputs that the source gets from the outside world are parameters:

- `Date.now()` is the `now` argument of `Create`.
- `Number(req.params.id)` is an `Option<int>`. `None` stands for NaN, and
  also for a non-integer number, since no creation timestamp equals one.
- `req.body.name` is an already-extracted string.
- `Math.random() * 100` is a `Draw`.
- The environment is an `Environment` value.

## Notes on the code

- The router answers `/router-health` for any HTTP method.
- It installs no error handler on the outbound request.
- It validates neither the canary percentage nor the ports. Ports taken
  from the environment are passed on as the raw string (`Port.EnvPort`).
- "Headers unchanged" refers to Node's parsed header objects
  (`req.headers`, `proxyRes.headers`): names are lower-cased, and repeated
  lines are merged or dropped by Node's rules. It does not mean the raw
  header lines are forwarded byte for byte.

## Model

| member | source | states |
|---|---|---|
| `ItemStore.Matches` | src/app/routes.js:24-35 | the strict `===` / `!==` id test: a NaN parameter (`None`) matches no record; otherwise a record matches exactly when its id equals the parsed number |
| `ItemStore.FindFirst` | src/app/routes.js:23-24 | the index `find` stops at: `None` exactly when no record's id equals the parsed id; otherwise a matching index with no match before it |
| `ItemStore.Remove` | src/app/routes.js:34-35 | the `filter` result is never longer than the input and holds exactly the stored records whose id differs from the parsed id |
| `ItemStore.Store.constructor` | src/app/routes.js:4 | the store starts empty |
| `ItemStore.Store.Create` | src/app/routes.js:7-13 | appends exactly one record `{id: now, name}` at the end, leaves every earlier record as it was, and answers 201 with that record |
| `ItemStore.Store.Read` | src/app/routes.js:17-19 | answers 200 with a list equal to the store, element by element in order, and changes nothing |
| `ItemStore.Store.Update` | src/app/routes.js:22-29 | with no matching id: answers 404 "Not found" and the store is unchanged; otherwise only the name of the first matching record changes (same length, all ids kept, every other record and every later duplicate untouched) and the answer is the updated record |
| `ItemStore.Store.Delete` | src/app/routes.js:33-37 | the new store is the filtered old one: no record has the id, and the length never grows; with nothing matching the store is unchanged; the answer is always 200 "Deleted" |
| `ItemStore.RemoveConcat` | src/app/routes.js:35 | filtering distributes over concatenation, so the surviving records keep their original relative order |
| `ItemStore.RemoveKeepsOthers` | src/app/routes.js:35 | every record whose id differs survives a delete with the same multiplicity |
| `ItemStore.RemoveUnmatched` | src/app/routes.js:34-35 | when no record matches, delete leaves the store exactly as it was |
| `ItemStore.RemoveIdempotent` | src/app/routes.js:33-36 | deleting the same id twice gives the same store as deleting it once |
| `ItemStore.NotANumberMatchesNothing` | src/app/routes.js:23-35 | a NaN id matches no record, so update answers 404 and delete is a no-op |
| `ItemStore.RemoveShrinksIffFound` | src/app/routes.js:24-35 | a delete shrinks the store exactly when an update with the same id would find a record |
| `ItemStore.RenameKeepsLookup` | src/app/routes.js:24-28 | renaming a record keeps every id in place, so every later lookup finds the same index as before |
| `ItemStore.FindAfterAppend` | src/app/routes.js:8-24 | after a create, a lookup by the new id finds the new record at the end unless an earlier record already has the same timestamp; lookups by other ids are unaffected |
| `CanaryRouter.PortOr` | docker/router/router.js:4-6 | the JavaScript `or` fallback: the default when the variable is unset or empty, otherwise the variable's string unchanged |
| `CanaryRouter.LoadConfig` | docker/router/router.js:4-7 | the blue target is on host app-blue and the green target on host app-green, each port is the variable or its default, and the percentage is the variable's value or 10 |
| `CanaryRouter.DefaultsWhenUnset` | docker/router/router.js:4-7 | with nothing set: app-blue:3001, app-green:3002, listen port 3000, canary percent 10 |
| `CanaryRouter.TargetOf` | docker/router/router.js:4-11 | the object `chooseTarget` returns: BLUE for the blue pool and GREEN for the green pool; when the two hosts differ, the host is the green one exactly for the green pool |
| `CanaryRouter.ChoosePool` | docker/router/router.js:9-12 | green (canary) exactly when r < percent, blue (stable) exactly when percent <= r |
| `CanaryRouter.NonPositivePercentAlwaysBlue` | docker/router/router.js:10-11 | a percentage of 0 or less never selects the canary |
| `CanaryRouter.FullPercentAlwaysGreen` | docker/router/router.js:10-11 | a percentage of 100 or more always selects the canary, since the draw is below 100 |
| `CanaryRouter.ChoiceMonotone` | docker/router/router.js:11 | for a fixed draw, if green is chosen at p then it is chosen at every p' >= p |
| `CanaryRouter.ForwardedToCanaryIff` | docker/router/router.js:4-23 | with a configuration loaded from the environment, a forwarded request goes to the canary host exactly when r < percent |
| `CanaryRouter.Dispatch` | docker/router/router.js:15-23 | answered locally exactly when the url is `/router-health`, with 200, a JSON content type and `{router: 'ok', canaryPercent}`; otherwise forwarded to the chosen pool's target with the inbound method, url (as the path, query included) and headers unchanged |
| `CanaryRouter.Handle` | docker/router/router.js:15-25 | the introspection request gets the local answer; every other request gets the backend's status, headers and body relayed unchanged |
| `CanaryRouter.HealthNeverForwarded` | docker/router/router.js:15-19 | the introspection answer is local and depends on neither the draw nor any backend |
| `CanaryRouter.HealthPathWithQueryForwarded` | docker/router/router.js:15 | the match is exact: `/router-health?x` is forwarded |

## Left out

- The HTTP server, request and response streaming, and the listener (`http.createServer`, `request`, `req.pipe`, `proxyRes.pipe`, `server.listen`). These are network I/O. Forwarding appears only as the `Outbound` value, and the backend as a function from it to a complete response.
- `Handle` relays the backend body as a whole byte sequence. Incremental streaming, back-pressure, and the request body that `req.pipe` sends to the backend are not modelled.
- Backend connection failures are not modelled: the model's backend always answers. The outbound request has no `'error'` listener, so a refused or reset backend connection makes Node throw on the unhandled `'error'` event. The router process then exits, and `/router-health` goes down with it.
- `Math.random()` is replaced by the `Draw` parameter. Its distribution and the empirical canary rate are not modelled.
- Parsing of `CANARY_PERCENT` with `Number(...)` and its NaN case are not modelled. The environment supplies the percentage as an already-numeric `Option<real>`.
- Floating-point arithmetic is not modelled. The draw and the percentage are exact reals.
- Parsing of the `:id` path parameter is not modelled. The model receives its result as an `Option<int>`.
- Object identity of a stored record is not modelled: update replaces the record value instead of assigning `item.name` in place. The only other reference to the record is the response object, which is serialised at once, so no difference is observable.
- A missing `name` in the request body (`undefined`) is not modelled. The name is always a string.
- JSON serialisation, Express routing, body parsing and the morgan request log are not modelled. Each response is a (status, payload) value.
- The metrics middleware and `/metrics` endpoint (a prom-client counter) are not part of this model. The same holds for the `/health` endpoint (package version and wall clock) and the application's start-up wiring.
