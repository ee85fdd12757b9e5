# MTA plugins for the developer portal: session, storage and entity sync

This project models, in Dafny, the three stateful pieces of the plugins that
connect a developer-portal catalog to an application-migration hub:

- **The backend router's session middleware and OAuth callback**
  (`router.dfy`, module `Router`). Each request is checked against two
  per-user stores: the plugin cache, mapping a user id to an access token
  with a ttl, and the refresh-token table of the storage object. The
  middleware lets callback and health paths through untouched. Otherwise it
  answers `401 {loginURL}` or attaches an access token and calls `next()`.
  The token comes from the cache, or from one refresh-grant. The callback
  exchanges the authorization code, rejects a token set that lacks either
  token, stores both tokens and redirects. The OIDC client is an oracle: an
  `OidcClient` value of three functions (authorization URL, refresh-grant,
  code exchange) is passed with each request. `MtaRouter` holds the cache as
  a map and a reference to the storage object. Each middleware call also returns
  the sequence of external reads and OIDC calls it made (`calls`). This
  trace is what lets the model state "no identity lookup", "no refresh" and
  "exactly one refresh".
- **The database storage** (`storage.dfy`, module `Storage`). Class
  `EntityApplicationStorage` holds the two tables as sequences of rows in
  insertion order. `.where(...).first()` is the first matching row
  (`FirstWhere`). The refresh-token upsert either rewrites every row of the
  user or appends a row. The class keeps the invariant `TokensConsistent`:
  no empty ids or tokens, and all rows of one user carry the same token.
  Lemmas prove save-then-get, that other users are unaffected, and that
  saving the same token twice leaves one stored value.
- **The catalog entity provider** (`provider.dfy`, module `Provider`). The
  per-application mapping is a set of functions: the space-to-hyphen name,
  the key, the fixed annotations and spec, and the refresh keys. Lemmas give
  one entity per application in input order, the fixed fields of each
  entity, and refresh keys that match the entity keys. `MTAProvider.Run`
  models the guarded early returns, the full mutation and the refresh that
  follows only an accepted mutation. The hub's answer and the catalog's
  acceptance are parameters.

`wrappers.dfy` holds `Option` for JavaScript's `undefined`, `Truthy` for
`!!x` on an optional string, and `OrElse` for `??`. The source's
truthiness tests are modelled literally: an empty string counts as missing
wherever the code writes `!x`, and counts as present wherever it writes
`??`.

Some behaviour of the code that a reader might not expect is modelled as
written:

- The code does no local expiry check of the stored refresh token before
  the refresh-grant (lines 141-142 of `router.ts`), and neither does the
  model.
- Saving a mapping always appends a row, and the lookup reads the first
  matching row. So saving a mapping and then reading it returns the saved
  application only when the entity had no mapping yet
  (`SaveThenGetApplication`). In the model, which reads the earliest
  inserted row, an earlier mapping keeps winning
  (`SaveKeepsEarlierApplication`).
- A repeated `saveRefreshTokenForUser(u, t)` appends another `(u, t)` row,
  because the update branch is taken only for a different stored token
  (lines 101 and 115-124 of `storage.ts`). `u` still has exactly one stored
  value, `t` (`SaveTwiceSameToken`).
- The ttl fallback is kept literally as `60 * 1000`, whatever its unit.

Two smaller points of the code are modelled as written. First, the two
callback routes have the same body apart from how `user` is read
(`request.params[0]` on the wildcard route, `request.params.username` on
the named one). The wildcard route, registered first at lines 51-78 of
`router.ts`, is the one that runs; one method, `Callback`, models it. Second, a `continueTo` equal to
the empty string is not added to the rebuilt redirect URI, because it is
falsy. The final redirect still goes to that empty string, because `??`
keeps it.

## Model

| member | source | states |
|---|---|---|
| `Router.MtaRouter.HandleRequest` | plugins/mta-backend/src/service/router.ts:86-167 | A path containing `/cb` or `/health` proceeds with no token attached, no lookups and no writes. Otherwise the caller id is `userEntityRef` or `"undefined"`, and the login redirect is `{backend}/api/mta/cb/{id}` with `continueTo` set to the referer or else the front-end URL. The identity, the cache and the store are read, in that order. With neither token truthy: `401 {loginURL}` and nothing written. With a cached token: `next` with that token, no refresh and nothing written. With only a stored refresh token: exactly one refresh-grant. If it yields no access token: `401 {loginURL}` and nothing written. Otherwise the cache holds the new token for the id with ttl `expires_in` or `60*1000`, and that token is attached. The store is written only when a truthy, different refresh token came back, and it then returns that token. `next` never runs without a truthy token, and the storage invariant is kept. |
| `Router.MtaRouter.Callback` | plugins/mta-backend/src/service/router.ts:51-78 | The live wildcard route; the route at lines 169-196 has the same body apart from how `user` is read. The code is exchanged against `{backend}/api/mta/cb/{user}`, with `continueTo` appended only when truthy. A token set missing either token gives `401 {}` and no writes. Otherwise the access token is cached under the user with ttl `expires_in` or `60*1000`, the refresh token is saved through the storage upsert (so the store then returns it for a non-empty user), and the answer redirects to `continueTo`, else the front-end URL. |
| `Router.MtaRouter.constructor` | plugins/mta-backend/src/service/router.ts:24-32 | The router starts over a valid storage object and the configured URLs, with whatever the plugin cache already holds. |
| `Router.Ttl` | plugins/mta-backend/src/service/router.ts:155-157 | No contract: the ttl `expires_in ?? 60 * 1000` (with `DefaultTtl`), written the same way at lines 70-72 and 188-190; the cache writes in the contracts of `HandleRequest` and `Callback` use it. |
| `Router.Lookup` | plugins/mta-backend/src/service/router.ts:112 | No contract: `cacheClient.get(id)`, the cached token for an id if any; `HandleRequest`'s and `RepeatRequestUsesCache`'s contracts use it. |
| `Router.Bypassed` | plugins/mta-backend/src/service/router.ts:88 | No contract: the bypass test, the path including `/cb` or `/health`, that `HandleRequest`'s contract branches on, built on `Includes`. |
| `Router.RepeatRequestUsesCache` | plugins/mta-backend/src/service/router.ts:112-166 | After a non-bypassed request proceeds, the same caller's next request proceeds with the same token, before the cached entry's ttl runs out (the model has no clock), making only the three lookups (no refresh, no authorization URL). |
| `Router.LoginThenRequest` | plugins/mta-backend/src/service/router.ts:70-77 | After a successful callback for a user, that user's next non-bypassed request proceeds with the access token from the code exchange, before the cached entry's ttl runs out (the model has no clock), making only the three lookups. |
| `Router.CallerId` | plugins/mta-backend/src/service/router.ts:103 | No contract: the definition `HandleRequest`'s contract uses for the caller id, `userEntityRef ?? 'undefined'`. |
| `Router.CallbackPath` | plugins/mta-backend/src/service/router.ts:104 | No contract: the callback URL `{backend}/api/mta/cb/{id}`, built the same way at line 56; `LoginRedirect` and `CallbackRedirect` use it. |
| `Router.LoginRedirect` | plugins/mta-backend/src/service/router.ts:104-110 | No contract: the definition `HandleRequest`'s contract uses for the login redirect URI, with `continueTo` set to the referer or else the front-end URL. |
| `Router.CallbackRedirect` | plugins/mta-backend/src/service/router.ts:56-59 | No contract: the definition `Callback`'s contract uses for the rebuilt redirect URI, with `continueTo` only when truthy. |
| `Router.Includes` | plugins/mta-backend/src/service/router.ts:88 | No contract: the definition of `String.prototype.includes` that `IncludesIffOccurs` is about. |
| `Router.IncludesIffOccurs` | plugins/mta-backend/src/service/router.ts:88 | The model of `String.prototype.includes` used by the bypass test holds exactly when the substring occurs at some position. |
| `Storage.FirstWhere` | plugins/mta-backend/src/database/storage.ts:56-59 | The `.where(...).first()` index: every earlier row differs in the key column, and the row at the index, if any, matches. |
| `Storage.EntityApplicationStorage.GetAllEntities` | plugins/mta-backend/src/database/storage.ts:46-48 | Returns every row of the mapping table. |
| `Storage.EntityApplicationStorage.GetApplicationIDForEntity` | plugins/mta-backend/src/database/storage.ts:50-68 | The empty id gives undefined. Otherwise the result is the `mtaApplication` of the first row whose `entityUID` matches (`FirstApplication`, which `SaveThenGetApplication` and `SaveKeepsEarlierApplication` are about), and undefined exactly when no row matches. |
| `Storage.EntityApplicationStorage.SaveApplicationIDForEntity` | plugins/mta-backend/src/database/storage.ts:70-90 | An empty entity or application id gives undefined and leaves both tables unchanged. Otherwise exactly one row is appended, with no uniqueness check, and the result is true. |
| `Storage.SaveThenGetApplication` | plugins/mta-backend/src/database/storage.ts:56-89 | Saving a mapping for an entity with none makes the lookup return the new application. |
| `Storage.SaveKeepsEarlierApplication` | plugins/mta-backend/src/database/storage.ts:56-89 | Saving a second mapping for an entity leaves the lookup on the earlier one. |
| `Storage.EntityApplicationStorage.SaveRefreshTokenForUser` | plugins/mta-backend/src/database/storage.ts:92-125 | An empty id or token gives undefined and changes nothing. A truthy stored token different from the new one rewrites every row of the user, with result "exactly one row changed". Otherwise one row is appended, with result true. The token invariant is kept, the mapping table is untouched, and the user's lookup afterwards returns the new token. |
| `Storage.EntityApplicationStorage.GetRefreshTokenForUser` | plugins/mta-backend/src/database/storage.ts:127-145 | The empty id gives undefined. Otherwise the result is the token of the first row for the user, and undefined exactly when the user has no row. |
| `Storage.FirstApplication` | plugins/mta-backend/src/database/storage.ts:56-66 | No contract: the application of the first mapping row for an entity, if any; `GetApplicationIDForEntity` is specified by it, and `SaveThenGetApplication` and `SaveKeepsEarlierApplication` are about it. |
| `Storage.EntityApplicationStorage.constructor` | plugins/mta-backend/src/database/storage.ts:34-44 | `create`: the object starts over the rows the tables already hold, which earlier runs wrote and which keep the token invariant. |
| `Storage.StoredToken` | plugins/mta-backend/src/database/storage.ts:127-145 | No contract: the definition `GetRefreshTokenForUser`, `SaveRefreshTokenForUser` and `HandleRequest` are specified by, and that `StoredTokenIsEveryRowsToken`, `SaveThenGetToken` and `SaveLeavesOtherUsers` are about. |
| `Storage.SavedTokenRows` | plugins/mta-backend/src/database/storage.ts:96-124 | No contract: the upsert's effect on the table, as `SaveRefreshTokenForUser` is specified; `SaveKeepsTokensConsistent`, `SaveThenGetToken`, `SaveLeavesOtherUsers` and `SaveTwiceSameToken` are about it. |
| `Storage.ReplaceTokens` | plugins/mta-backend/src/database/storage.ts:102-105 | The update keeps the table's length and order, gives every row of the user the new token, and leaves every other row as it was. |
| `Storage.RowsFor` | plugins/mta-backend/src/database/storage.ts:106-110 | The number of rows the update changes is zero exactly when the user has no row. |
| `Storage.RowsForCountsRows` | plugins/mta-backend/src/database/storage.ts:102-110 | The changed-row count is the number of occurrences of the user in the `backstageID` column, so the update's `data === 1` is true exactly when the user has one row. |
| `Storage.FirstWhereAppend` | plugins/mta-backend/src/database/storage.ts:80-124 | Appending a row moves the first match only when there was none before: then it is the new row if it matches. |
| `Storage.StoredTokenIsEveryRowsToken` | plugins/mta-backend/src/database/storage.ts:134-143 | In a consistent table, every row of a user carries the token the lookup returns. |
| `Storage.SaveKeepsTokensConsistent` | plugins/mta-backend/src/database/storage.ts:96-124 | Every save, on either branch, preserves "no empty id or token, one token per user". |
| `Storage.SaveThenGetToken` | plugins/mta-backend/src/database/storage.ts:96-144 | After a save with a non-empty id and token, the user's lookup returns that token. |
| `Storage.SaveLeavesOtherUsers` | plugins/mta-backend/src/database/storage.ts:99-124 | A save for one user does not change what any other user's lookup returns. |
| `Storage.SameKeysSameFirst` | plugins/mta-backend/src/database/storage.ts:102-105 | Rewriting one user's tokens leaves the first row of any other user at the same index and with the same content. |
| `Storage.SaveTwiceSameToken` | plugins/mta-backend/src/database/storage.ts:99-124 | Saving the same token twice leaves the user with at least one row, and every row of the user carries that token. |
| `Provider.EntityName` | plugins/catalog-backend-module-mta/src/provider/MTAEntityProvider.ts:138 | The entity name has the application name's length, with every space replaced by `-` and every other character kept, so it contains no space. |
| `Provider.DigitChar` | plugins/catalog-backend-module-mta/src/provider/MTAEntityProvider.ts:152-153 | No contract: one decimal digit, as the template strings render `application.id`; `Decimal` uses it. |
| `Provider.Decimal` | plugins/catalog-backend-module-mta/src/provider/MTAEntityProvider.ts:152-153 | No contract: the decimal text of `application.id` as a template string renders it; `ApplicationLocation` uses it. |
| `Provider.ApplicationLocation` | plugins/catalog-backend-module-mta/src/provider/MTAEntityProvider.ts:152-153 | No contract: the annotation value `url:{baseUrl}/application/{id}`; `EntityFields` states both managed-by annotations with it. |
| `Provider.MTAProvider.constructor` | plugins/catalog-backend-module-mta/src/provider/MTAEntityProvider.ts:39-44 | The provider keeps the configured hub URL and has no connection yet, so a `run` before `connect` throws. |
| `Provider.ToEntity` | plugins/catalog-backend-module-mta/src/provider/MTAEntityProvider.ts:144-167 | No contract: the entity one application becomes; `EntitiesInOrder` and `EntityFields` are about it. |
| `Provider.Entities` | plugins/catalog-backend-module-mta/src/provider/MTAEntityProvider.ts:137-168 | No contract: the `j.map` that builds the mutation's entities; `EntitiesInOrder`, `EntityFields` and `RefreshKeysMatchEntities` are about it. |
| `Provider.RefreshKeys` | plugins/catalog-backend-module-mta/src/provider/MTAEntityProvider.ts:174 | No contract: the keys passed to `refresh`; `RefreshKeysMatchEntities` is about it. |
| `Provider.EntitiesInOrder` | plugins/catalog-backend-module-mta/src/provider/MTAEntityProvider.ts:137-168 | The mutation holds exactly one entity per application, each built from the application at the same position. |
| `Provider.EntityFields` | plugins/catalog-backend-module-mta/src/provider/MTAEntityProvider.ts:144-167 | Each entity has key `application.id`, location key `MTAProvider`, kind Component, metadata id `application.id`, namespace `default`, the application embedded, and the space-free name. Both managed-by annotations are `url:{baseUrl}/application/{id}`, and the spec is `{service, experimental, unknown}`. |
| `Provider.RefreshKeysMatchEntities` | plugins/catalog-backend-module-mta/src/provider/MTAEntityProvider.ts:145-174 | The refresh keys are the application ids in input order, and each equals the key of the mutation's entity at the same position. |
| `Provider.MTAProvider.Run` | plugins/catalog-backend-module-mta/src/provider/MTAEntityProvider.ts:65-180 | Without a connection, `run` throws `Not initialized` and changes nothing. A hub status other than 200, or a body that is not an array, returns with no mutation and no refresh. Otherwise one `full` mutation of the mapped entities is applied. Only if it is accepted is one refresh of the application ids requested; a rejected mutation is caught. |
| `Provider.MTAProvider.Connect` | plugins/catalog-backend-module-mta/src/provider/MTAEntityProvider.ts:52-62 | The connection is stored, then one run is made, which cannot throw `Not initialized`. |
| `Provider.Connection.ApplyMutation` | plugins/catalog-backend-module-mta/src/provider/MTAEntityProvider.ts:134-179 | The catalog records the mutation exactly when it accepts it, and reports whether it did. |
| `Provider.Connection.Refresh` | plugins/catalog-backend-module-mta/src/provider/MTAEntityProvider.ts:173-175 | The catalog records the requested refresh keys. |

## Left out

- The OIDC library (issuer discovery, client construction, `callbackParams`, and the real authorization URL, code exchange and refresh-grant) is not modelled. It is foreign code doing network calls. Its answers are the oracle functions of `OidcClient`. A thrown code exchange or refresh-grant is not modelled. openid-client's `refresh` rejects on an error answer (for a revoked or expired refresh token) instead of resolving to nothing, so in the program such a grant never reaches the `401 {loginURL}` branch at lines 143-151 of `router.ts`; the middleware's promise rejects instead. The model's `None` from `refresh` stands only for the `!tokenSet` case.
- PKCE verifier and challenge generation at router start is not modelled: it is cryptography. The challenge is not part of `RedirectUri`.
- Router.RepeatRequestUsesCache: holds in the program only until the cached entry's ttl runs out; the model's cache never drops an entry.
- Router.LoginThenRequest: holds in the program only until the cached entry's ttl runs out; the model's cache never drops an entry.
- The plugin cache's store can outlive the router, so the router starts over any cache. The model does not rely on cached tokens being truthy: a cached empty token takes the refresh branch, as `!accessToken` does.
- Real TTL expiry is not modelled, because it is time. A cache entry's presence in the map means "not yet expired"; only the ttl number is recorded, with the `60 * 1000` fallback kept literally.
- URL serialisation (`new URL`, `searchParams.set`, percent-encoding) is left to the library. A redirect URI is kept as its path and its `continueTo` value.
- The awaited calls `identity.getIdentity`, `cacheClient.get` and `getRefreshTokenForUser` (lines 93, 112 and 113 of `router.ts`) are modelled as never failing. In the program a rejection of any of them makes the middleware's promise reject; the model has no such outcome.
- The identity service, request headers and query values are inputs. A `continueTo` query value that is an array is not modelled.
- The calls the router does not await (the `saveRefreshTokenForUser` saves and the `cacheClient.set` writes at lines 70, 155 and 188 of `router.ts`) are modelled as completing, successfully, before the handler returns. A rejection of one of them is unhandled in the program and is not modelled. The same holds in `run` for `this.connection?.refresh(...)` (line 173 of `MTAEntityProvider.ts`), which is neither awaited nor returned: `Connection.Refresh` always succeeds. Concurrency between requests is not modelled, including duplicate refreshes from parallel requests.
- The logging middleware, the `/health` and `/testing` bodies, `errorHandler` and all logging are left out: they carry no state.
- Database migrations are not modelled: this is SQL and library work. The tables keep their rows across restarts, so the storage object starts over any tables whose refresh-token rows keep the token invariant, as every run of this code leaves them. Rows written by other code that break it (an empty id or token, two tokens for one user) are not modelled. Without a sort order, SQL does not say which row `first()` returns; the model takes the earliest inserted row.
- Storage.EntityApplicationStorage.SaveApplicationIDForEntity: the insert result `data.length === 1` is modelled as true, since exactly one row is inserted; driver-specific insert results are not modelled.
- Storage.EntityApplicationStorage.SaveRefreshTokenForUser: the append branch's result is modelled as true for the same reason.
- In `run`, the client-credentials grant, the `fetch` of the hub, the parsing of the JSON body and the scheduler in `connect` are left out: they are I/O. The hub's status and parsed body are inputs. Applications whose `name` is missing (where `replace` would throw) are not modelled.
- The `issues-url` annotation is not modelled, because it is built with `encodeURIComponent(JSON.stringify(...))`, which is library encoding. The modelled annotations hold only the two managed-by entries.
- The hub's application record is reduced to its `id` (a non-negative integer, rendered in decimal in the annotations) and its `name`.
