# User directory: store, gates and routes, in Dafny

This project models the core of a small Express user-directory service. The
core is an in-memory store of user records (`UsersDao`) and the middleware
gates in front of it. The gates are a bearer-token caller check
(`AuthMiddleware`), body and existence validators (`UsersMiddleware`), the
service layer that reshapes full updates (`UsersService`), and the
record converters (`UserConverter`). The model also covers the order in which
the routes run those gates (`UsersRoutes`).

Layout, one module per source file:

| file | module | source |
|---|---|---|
| `users.dfy` | `Users` | records, roles, partial bodies, gate outcomes |
| `strings.dfy` | `Strings` | `startsWith`, `includes`, `split` |
| `dao.dfy` | `Dao` | `users/daos/users.dao.ts` |
| `auth_middleware.dfy` | `AuthMiddleware` | `users/middleware/auth.middleware.ts` |
| `users_middleware.dfy` | `UsersMiddleware` | `users/middleware/users.middleware.ts` |
| `users_service.dfy` | `UsersService` | `users/services/users.service.ts` |
| `user_converter.dfy` | `UserConverter` | `users/converters/user.converter.ts` |
| `users_routes.dfy` | `UsersRoutes` | `users/users.routes.config.ts`, with the header check of `app.ts` |

How the code is modelled:

- **Store.** `Dao.UsersDao` is a class whose `users: seq<UserDto>` field is
  the array the source mutates. Its invariant `Valid()` says that no two
  records share an id, and every mutating method keeps it. Each method's
  `ensures` gives the new array as a function of the old one (`PutUser`,
  `RemoveUser`, `PatchUsers`, `old(users) + [user]`). The lemmas about
  those functions state what the source promises.
- **The `splice(-1, …)` quirk is modelled as written.** `findIndex` gives -1
  for an absent id. `SpliceStart` applies JavaScript's negative-start rule,
  so on an absent id `PutUser` overwrites the last record and `RemoveUser`
  drops it. On an empty store, put inserts and remove does nothing. The
  `UsersDao` class keeps this behaviour.
- **The quirk is reachable when requests interleave.** A request run alone
  always meets the existence check first (`AbsentIdIsNotFound`). But a PUT
  awaits the password hash after that check and before the store edit, so a
  DELETE of the same id can complete in the gap. The late put then
  overwrites the last record (`PutAfterRemoveLosesLastRecord`, listed under
  Findings). The request pipeline keeps the source's splices, so its
  handlers edit the last record on an absent id too. The intended edits
  `PutExisting` and `RemoveExisting` leave the store alone for an absent id
  and equal the splices whenever the id exists. They are the corrected half
  of that finding.
- **Gates** are total functions from the Authorization header, the body and
  a snapshot of the records to an `Outcome`: `Allow`, `Unauthenticated`
  (401), `Forbidden` (403), `NotFound` (404) or `BadRequest` (400). Being
  functions, they cannot change the store.
- **Routes** are ordered step lists (`Steps`): the header check, then the
  steps of `/users` or of `/users/:userId`. `Run` is Express's middleware
  chain: a denial or a handler ends the request, and running out of steps
  leaves the 404. `Perform` is the controller action that ends a request.
  `Dispatch` runs a request's steps against a store snapshot and returns
  the response and the new store. `DispatchIsDecisionTable` proves that
  running the steps gives exactly a decision table with one table per path.
  Each route lemma is proved from its path's table alone.
- **Roles** are `GUEST | USER | ADMIN`. A stored record's `permissionLevel`
  is optional, because creation copies whatever the body carries and the code
  sets no default. A record without a role passes `validateUserPermissions`
  and fails `validateAdminRole`.
- **Truthiness.** A string field is truthy when present and non-empty. The
  file defining the role enumeration is not part of this model. The roles are
  taken to be the strings the integration tests send ('GUEST', 'USER',
  'ADMIN'), so a present role is truthy; see the `UserConverter.ToPatchModel`
  line under "Left out".

Where the code and its intended policy part ways, the model follows the
code. The integration tests (`users/tests/users.integration.test.ts`) expect
rules that the code never wires up, and lemmas here state what the code does
instead:
- The tests expect reads and patches to be allowed only on the caller's own
  record. No route checks the caller on GET or PATCH of `/users/:userId`
  (`ReadIgnoresCaller`, `PatchHasNoRoleCheck`, `SeedScenarios`).
- The tests expect a PUT with role GUEST to get 403. Instead `updateById`
  throws, and the store is untouched (`PutChecks`).
- The tests expect a GUEST listing both to fail and to return the caller's
  own record. The code answers 403 (`GuestListingIsForbidden`).
- The tests expect `firstName` to survive a PUT. The stored `firstName` is the
  payload's `lastName` (`UpdateDiscardsFirstName`).
- Nothing stops a caller from setting `permissionLevel` through PATCH, or
  from creating an ADMIN record through POST (`PatchHasNoRoleCheck`,
  `CreateIgnoresCaller`). Email uniqueness is checked only on creation.

## Model

| member | source | states |
|---|---|---|
| `Strings.Split` | users/middleware/auth.middleware.ts:11 | `split(' ')` gives at least one piece, no piece contains the separator, and there are two or more pieces exactly when the separator occurs |
| `Strings.JoinSplit` | users/middleware/auth.middleware.ts:11 | joining the pieces of a split with the separator gives back the original string |
| `Strings.IncludesAt` | users/daos/users.dao.ts:113-115 | `includes(t)` holds exactly when `t` occurs at some offset |
| `Dao.FindIndex` | users/daos/users.dao.ts:58 | `findIndex` returns the first index whose key matches, or -1 exactly when no record matches |
| `Dao.FindById` | users/daos/users.dao.ts:53-55 | `getUserById` finds a record exactly when some record has the id, and returns the first such record |
| `Dao.FindByEmail` | users/daos/users.dao.ts:101-109 | `getUserByEmail` finds a record exactly when some record has that exact email, and returns the first, else null |
| `Dao.FindByIdIsMembership` | users/daos/users.dao.ts:53-55 | with distinct ids, the lookup returns `u` exactly when `u` is stored with that id |
| `Dao.SpliceOne` | users/daos/users.dao.ts:59 | `splice(start, 1, ...items)` keeps the prefix before the start position, puts the items there, and keeps the suffix after the one removed slot |
| `Dao.SpliceStart` | users/daos/users.dao.ts:59 | splice's start position: a start within the array is kept, and -1 on a non-empty array is the last element |
| `Dao.PutUser` | users/daos/users.dao.ts:57-61 | an existing id has exactly its slot replaced, with length and every other slot kept; an absent id replaces the last record; an empty store gets the record |
| `Dao.RemoveUser` | users/daos/users.dao.ts:95-99 | an existing id has exactly its first record removed, the rest in order; an absent id removes the last record; an empty store stays empty |
| `Dao.Merge` | users/daos/users.dao.ts:71-78 | the merged record keeps the stored id |
| `Dao.MergeFields` | users/daos/users.dao.ts:73-77 | each of email, password, firstName, lastName and permissionLevel takes the patch value when present, else keeps the old value |
| `Dao.PatchUsers` | users/daos/users.dao.ts:68-83 | the patch keeps length, order, every id, and every record with another id |
| `Dao.EmptyPatchIsIdentity` | users/daos/users.dao.ts:71-78 | a patch with none of the five fields changes nothing |
| `Dao.PatchIdempotent` | users/daos/users.dao.ts:68-83 | applying the same patch twice equals applying it once |
| `Dao.PatchedLookup` | users/daos/users.dao.ts:85-91 | the patch returns the merged first record with the id, or nothing when the id is absent |
| `Dao.Search` | users/daos/users.dao.ts:111-117 | the search result holds exactly the stored records whose email, firstName or lastName contains the term, and is no longer than the store |
| `Dao.SearchAppend` | users/daos/users.dao.ts:112-116 | the search keeps order: searching a concatenation concatenates the searches |
| `Dao.AddKeepsDistinctIds` | users/daos/users.dao.ts:40-47 | appending a record with a fresh id keeps the ids distinct |
| `Dao.PutKeepsDistinctIds` | users/daos/users.dao.ts:57-61 | put keeps the ids distinct, on an absent id too |
| `Dao.RemoveKeepsDistinctIds` | users/daos/users.dao.ts:95-99 | remove keeps the ids distinct |
| `Dao.PatchKeepsDistinctIds` | users/daos/users.dao.ts:68-83 | patch keeps the ids distinct |
| `Dao.AddThenRead` | users/daos/users.dao.ts:40-55 | reading back the fresh id after an add returns the added record |
| `Dao.RemoveThenAbsent` | users/daos/users.dao.ts:95-99 | removing an existing id shortens the store by one and leaves no record with that id |
| `Dao.PutAfterRemoveLosesLastRecord` | users/daos/users.dao.ts:57-61 | on the seed, a put of id "2" arriving after a remove of "2" leaves the first record and the payload, and no record "3" |
| `Dao.PutExisting` | users/daos/users.dao.ts:57-61 | the intended put: same length, records with other ids kept, an absent id leaves the store alone, and an existing id gives the source's splice, after which the id reads back as the new record |
| `Dao.RemoveExisting` | users/daos/users.dao.ts:95-99 | the intended remove: one record fewer exactly when the id exists, every record with another id kept, an absent id leaves the store alone, and an existing id gives the source's splice |
| `Dao.GuardedPutAfterRemoveKeepsOthers` | users/daos/users.dao.ts:57-61 | with the intended edits, the same interleaving leaves records "1" and "3" in place |
| `Dao.Seed` | users/daos/users.dao.ts:12-37 | the seed holds three records with distinct ids "1", "2", "3" and roles GUEST, USER, ADMIN |
| `Dao.UsersDao.constructor` | users/daos/users.dao.ts:10-38 | a new store holds the seed and satisfies the invariant |
| `Dao.UsersDao.AddUser` | users/daos/users.dao.ts:40-47 | appends the input under the fresh id at the end, keeping earlier entries, and returns that record |
| `Dao.UsersDao.GetUsers` | users/daos/users.dao.ts:49-51 | returns the whole array |
| `Dao.UsersDao.GetUserById` | users/daos/users.dao.ts:53-55 | returns the first record with the id, or nothing |
| `Dao.UsersDao.PutUserById` | users/daos/users.dao.ts:57-61 | the array becomes `PutUser` of the old one, the invariant holds, and the message names the id |
| `Dao.UsersDao.PatchUserById` | users/daos/users.dao.ts:63-92 | the array becomes `PatchUsers` of the old one, and the result is the merged first record with the id, or nothing |
| `Dao.UsersDao.RemoveUserById` | users/daos/users.dao.ts:95-99 | the array becomes `RemoveUser` of the old one, and the message names the id |
| `Dao.UsersDao.GetUserByEmail` | users/daos/users.dao.ts:101-109 | returns the first record with exactly that email, or nothing |
| `Dao.UsersDao.SearchUsers` | users/daos/users.dao.ts:111-117 | returns the order-preserving sublist of matching records |
| `AuthMiddleware.BearerToken` | users/middleware/auth.middleware.ts:6-12 | no token unless the header starts with "Bearer "; otherwise the token is the first space-free piece after the prefix |
| `AuthMiddleware.BearerTokenOfSpaceFree` | users/middleware/auth.middleware.ts:6-12 | "Bearer t" with a space-free `t` yields `t` |
| `AuthMiddleware.ValidateAdminRole` | users/middleware/auth.middleware.ts:14-25 | 401 exactly when the token is missing or empty; allows exactly a token resolving to an ADMIN record; 403 otherwise |
| `AuthMiddleware.ValidateUserPermissions` | users/middleware/auth.middleware.ts:27-38 | 401 exactly when the token is missing or empty; 403 for an unknown or GUEST caller; allows every other resolved caller |
| `AuthMiddleware.AdminPassesUserPermissions` | users/middleware/auth.middleware.ts:20-37 | every caller the admin gate allows is allowed by the user gate |
| `AuthMiddleware.UnauthenticatedDependsOnHeaderOnly` | users/middleware/auth.middleware.ts:14-38 | whether either gate answers 401 depends on the header alone, not on the store |
| `AuthMiddleware.UnknownCallerIsForbidden` | users/middleware/auth.middleware.ts:20-35 | a well-formed token that resolves to no record gets 403 from both gates, never 401 |
| `AuthMiddleware.AdminRoleIsMembership` | users/middleware/auth.middleware.ts:14-25 | with distinct ids, the admin gate allows exactly the ids of stored ADMIN records |
| `AuthMiddleware.SeedCallers` | users/middleware/auth.middleware.ts:14-38 | on the seed, caller "1" is refused by both gates, "2" passes only the user gate, "3" passes both |
| `UsersMiddleware.ValidateRequiredUserBodyFields` | users/middleware/users.middleware.ts:8-17 | passes exactly when a body exists with non-empty email and password, else 400 |
| `UsersMiddleware.ValidateSameEmailDoesntExist` | users/middleware/users.middleware.ts:19-29 | 400 exactly when some stored record has exactly the body's email, else passes |
| `UsersMiddleware.ValidatePatchEmail` | users/middleware/users.middleware.ts:31-39 | always passes, with or without an email |
| `UsersMiddleware.ValidateUserExists` | users/middleware/users.middleware.ts:41-51 | 404 exactly when no record has the path id, else passes |
| `UsersMiddleware.WithUserId` | users/middleware/users.middleware.ts:53-58 | the body's id becomes the path id and every other field is unchanged |
| `UsersMiddleware.ExtractUserId` | users/middleware/users.middleware.ts:53-58 | writes the path id into the request body in place and changes nothing else |
| `UsersService.UpdateRecord` | users/services/users.service.ts:38-49 | refuses exactly a GUEST payload; otherwise stores the path id, passes email, password and permissionLevel through, sets firstName to the payload's lastName and drops lastName |
| `UsersService.UpdateDiscardsFirstName` | users/services/users.service.ts:43-48 | when firstName and lastName differ, the stored firstName is not the payload's firstName |
| `UsersService.UpdateIgnoresPayloadId` | users/services/users.service.ts:44-48 | the id carried by the payload has no effect |
| `UsersService.UpdateThenRead` | users/services/users.service.ts:38-49 | after updating an existing id, the store keeps its size and reading the id gives the reshaped record |
| `UsersService.Create` | users/services/users.service.ts:8-10 | same result and store effect as `addUser` |
| `UsersService.DeleteById` | users/services/users.service.ts:12-14 | same store effect and message as `removeUserById` |
| `UsersService.List` | users/services/users.service.ts:16-18 | ignores limit and page and returns every stored record |
| `UsersService.PatchById` | users/services/users.service.ts:19-32 | same result and store effect as `patchUserById`; there is a result exactly when the id existed |
| `UsersService.ReadById` | users/services/users.service.ts:34-36 | same result as `getUserById` |
| `UsersService.UpdateById` | users/services/users.service.ts:38-49 | fails exactly on a GUEST payload, leaving the store untouched; otherwise puts the reshaped record |
| `UsersService.GetUserByEmail` | users/services/users.service.ts:51-53 | same result as the store's `getUserByEmail` |
| `UserConverter.ToDto` | users/converters/user.converter.ts:5-14 | copies the six fields unchanged |
| `UserConverter.ToModel` | users/converters/user.converter.ts:16-24 | copies the six fields unchanged |
| `UserConverter.ModelDtoRoundTrip` | users/converters/user.converter.ts:5-24 | `toDto(toModel(d)) == d` and `toModel(toDto(u)) == u` |
| `UserConverter.KeepTruthy` | users/converters/user.converter.ts:28-31 | a conditional spread keeps a string field exactly when it is truthy, unchanged |
| `UserConverter.ToPatchModel` | users/converters/user.converter.ts:26-34 | includes a field exactly when it is truthy, with the input's value, and never includes the id |
| `UserConverter.ToPatchModelIdempotent` | users/converters/user.converter.ts:26-34 | building a patch from a patch changes nothing |
| `UserConverter.ToDtoArray` | users/converters/user.converter.ts:37-39 | keeps length and order and converts element by element |
| `UserConverter.ToModelArray` | users/converters/user.converter.ts:41-43 | keeps length and order and converts element by element |
| `UserConverter.ArrayRoundTrip` | users/converters/user.converter.ts:37-43 | the array conversions are inverse to each other |
| `UsersRoutes.Steps` | users/users.routes.config.ts:12-44 | every route starts with the header check; every `/users/:userId` route next sets body.id, then checks existence |
| `UsersRoutes.HashedRecord` | users/controllers/users.controller.ts:39-43 | the create and put record: absent exactly when the body lacks an email or a password; otherwise the given id, the body's email, the hash of its password, and the names and role as sent |
| `UsersRoutes.HashedPatch` | users/controllers/users.controller.ts:56-60 | a truthy password is replaced by its hash; every other field is as sent |
| `UsersRoutes.Perform` | users/controllers/users.controller.ts:11-102 | listing returns every record; a read finds exactly an existing id; create appends one record under the fresh id; remove answers 204 and drops one record from a non-empty store, the last one when the id is absent; put throws exactly without an email or password or on a GUEST role, else keeps the size of a non-empty store and, on an absent id, every record but the last; patch keeps the size and answers the patched lookup; a throw or a denial changes nothing |
| `UsersRoutes.Run` | users/users.routes.config.ts:12-44 | a denial never changes the store and is never Allow; steps without a handler can only deny or end unrouted, with the store unchanged |
| `UsersRoutes.Dispatch` | app.ts:40-49 | without a non-empty Authorization header every request gets 401 and changes nothing; a denial never changes the store |
| `UsersRoutes.DispatchIsDecisionTable` | users/users.routes.config.ts:12-44 | running a request's ordered steps gives exactly the per-route decision table |
| `UsersRoutes.ListingRequiresUserPermissions` | users/users.routes.config.ts:13-17 | GET /users lists every record exactly when `validateUserPermissions` allows, else answers with its denial |
| `UsersRoutes.GuestListingIsForbidden` | users/users.routes.config.ts:13-17 | a GUEST caller's listing gets 403 |
| `UsersRoutes.CreateChecksFieldsThenEmail` | users/users.routes.config.ts:18-22 | POST /users checks the required fields, then email uniqueness, then appends the record with the fresh id and hashed password |
| `UsersRoutes.CreateIgnoresCaller` | users/users.routes.config.ts:18-22 | creation has no caller check: any non-empty header gives the same answer |
| `UsersRoutes.AbsentIdIsNotFound` | users/users.routes.config.ts:24-26 | any method on an absent `:userId` gets 404 before any other gate, and nothing changes |
| `UsersRoutes.ReadIgnoresCaller` | users/users.routes.config.ts:25-27 | GET of an existing id returns the stored record with that id to any caller |
| `UsersRoutes.DeleteRequiresAdmin` | users/users.routes.config.ts:25-31 | DELETE of an existing id removes exactly that record exactly when `validateAdminRole` allows, else answers with its denial |
| `UsersRoutes.PutChecks` | users/users.routes.config.ts:33-36 | PUT of an existing id: 400 without email and password, a throw with the store untouched on a GUEST role, else the reshaped record is stored |
| `UsersRoutes.PatchHasNoRoleCheck` | users/users.routes.config.ts:38-41 | PATCH of an existing id from any caller makes that record its merge with the body (password hashed when truthy, permissionLevel included), keeps every other record, and returns the patched record |
| `UsersRoutes.OnlyHandlersChangeStore` | users/users.routes.config.ts:12-44 | only a created, updated, patched or removed answer changes the store |
| `UsersRoutes.PerformKeepsDistinctIds` | users/controllers/users.controller.ts:11-102 | every handler keeps the store's ids distinct, given a fresh id for creation, on an absent id too |
| `UsersRoutes.RunKeepsDistinctIds` | users/users.routes.config.ts:12-44 | running any step list keeps the store's ids distinct, given a fresh id for creation |
| `UsersRoutes.DispatchKeepsDistinctIds` | users/users.routes.config.ts:12-44 | every request keeps the store's ids distinct, given a fresh id for creation |
| `UsersRoutes.SeedScenarios` | users/users.routes.config.ts:25-31 | on the seed, the ADMIN deleting id "999" gets 404, and caller "1" (GUEST) reads record "2" |

## Left out

- Express plumbing: body parsing, CORS, logging, the root endpoint and
  server start (`app.ts`). Of `app.ts`, only the header check is modelled,
  as the first step of every route. Other methods (OPTIONS, HEAD) and other
  paths are not modelled.
- Controllers (`users/controllers/users.controller.ts`): the handlers are
  modelled only as the last step of a route (`Perform`), with one `Response`
  variant per status the handler sends. Sending a stored record through
  `toDto`/`toDtoArray` is a field copy (`ModelDtoRoundTrip`), so responses
  carry the records themselves.
- argon2 hashing is a foreign call. It is the parameter `hash` of `Dispatch`.
  Passwords are opaque strings. `common/utils/password.ts` is not part of
  this model.
- The shortid generator is the parameter `freshId`, taken to be absent
  from the store (`UsersDao.AddUser` requires it).
- A create or put handler whose body lacks an email or password answers
  `Threw`. The required-fields gate always runs before those handlers, so
  this cannot happen through the routes. Without a password the source's
  hashing would throw; without an email it would store a record lacking one.
- `Threw` carries no status. A rejection inside an async Express 4 handler
  is not caught by Express, so no response is sent. app.ts registers no
  handler for unhandled rejections, so on Node 15 or later the process also
  ends. This is what a PUT with a GUEST role does; the model records only
  the unchanged store.
- Async/await, the debug and console logging, and concurrency. Each request
  runs to completion against one snapshot of the store.
- UserConverter.ToPatchModel: copies a present role unchanged. This assumes
  the roles are the non-empty strings the integration tests send
  (users/tests/users.integration.test.ts:20, :260, :275).
  users/models/users.model.ts:7 and :15 type `permissionLevel` as a number,
  and the enumeration's own file is not part of this model. If the roles were
  numbers with GUEST = 0, the source would drop a GUEST role here.
- JSON values other than strings and the three roles are not modelled:
  non-string fields, unknown role strings and extra keys.
- `UsersRoutes.Dispatch` computes the new store with functions: the
  append, `PutUser`, `RemoveUser` and `PatchUsers` that the `UsersDao`
  methods are proved to produce. It does not call the class methods, so
  aliasing of the store object across requests is not modelled.
  Interleaved requests are modelled only by the two Findings lemmas.
- UsersRoutes.Perform: runs the source's splices, not the corrected
  `PutExisting` and `RemoveExisting`, so a put or remove handler reached
  with an absent id edits the last record, as the source does. A request
  run alone never gets there (`AbsentIdIsNotFound`).

## Findings

| source | as written | input that shows it | evidently intended | confidence | as-written member | corrected member |
|---|---|---|---|---|---|---|
| users/daos/users.dao.ts:57-61, 95-99 | `splice(findIndex(...), 1, ...)` with index -1 for an absent id edits the last record | on the seed, a DELETE of "2" completes while a PUT of "2" awaits its hash (users/controllers/users.controller.ts:83); the put then replaces record "3" | a put or remove of an absent id leaves the store unchanged | high, not executed | `Dao.PutAfterRemoveLosesLastRecord` | `Dao.PutExisting`, `Dao.RemoveExisting`, `Dao.GuardedPutAfterRemoveKeepsOthers` |
