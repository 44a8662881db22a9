# Token API server decision layer

This project models the bearer-token layer of Rancher's token API server,
`tokenAPIServer` in `pkg/auth/tokens/server.go`. A caller presents a bearer
value `name:key`. The server resolves it to a Token custom resource in two
tiers:

1. It first looks in the informer cache, which is indexed by secret key.
2. It falls back to the Kubernetes API server when the cache misses.

It trusts the record only when the record's name and key both match the
bearer value. It reports expiry as status 410 but still hands back the
record. On top of resolution sit five operations: minting a derived token,
listing the caller's tokens, deleting by bearer value, deleting by name, and
reading one token by id.

Modules:

- `Tokens` (`tokens.dfy`) holds:
  - the Token record and its metadata;
  - the user-id label and the `token-` name prefix;
  - the two helpers this file only calls, `SplitTokenParts` and `IsExpired`. They are fields of `Hooks`, and `IsExpired` takes the token and `now`;
  - `Flag` and `FlagAll`, which raise `Expired` on the copies returned to callers.
- `TokenStore` (`store.dfy`) is the authoritative store.
  - `StoreState` is a snapshot: records by name, plus the set of calls that currently fail.
  - `Get`, `AfterCreate` and `AfterDelete` are its transitions.
  - The class `TokenStore` holds the live map. The server writes it through `Create` and `Delete` and reads it through `List`.
  - `List` returns the user's records in an order the store chooses.
- `TokenIndex` (`index.dfy`) covers the cache.
  - `TokenKeyIndexer` is the index function.
  - `Index` is a snapshot that may be arbitrarily stale.
  - `ByIndex` is the lookup.
  - `Reflects` says that a snapshot is up to date with the store.
- `TokenServer` (`server.dfy`) holds the decisions.
  - `Resolve` is `getK8sTokenCR`.
  - The pure operations are functions of a store snapshot and an index snapshot.
  - The class `TokenAPIServer` has the operations that write to the store. Each is proved equal to the function that specifies it: `DerivationOf`, `CreationOf`, `BearerDeletion` or `NameDeletion`.
  - `GetTokens` is proved directly against the store's listing.
- `TokenServerProperties` (`properties.dfy`) has lemmas about both tiers, about staleness and about repeated deletion.

Inputs that come from outside are parameters:

- the current time `now`;
- the outcome of `randomtoken.Generate`: `key: Option<string>`, where `None` means generation failed;
- the random name suffix the API server appends to `token-`;
- store failures: a `Verb` in `StoreState.failing` makes that call fail;
- index failures: `Index.failure`.

Status codes are plain integers: 0 means no status, and 401, 404, 410 and 500
keep their usual meanings. Errors are tags of `Failure`, one per kind of failure.
No message text is modelled.

Behaviour of the code worth noting:

- A cache error other than NotFound fails resolution with status 0, and there is no fallback to the store for it (pkg/auth/tokens/server.go:142).
- A failed store Get during resolution gives status 404 (pkg/auth/tokens/server.go:152).
- Resolution does not itself reject malformed bearer values. It takes whatever `SplitTokenParts` returns (pkg/auth/tokens/server.go:133), and the body of `SplitTokenParts` is not part of this model.
- `createDerivedToken` returns status 0 together with the error when creating the record fails (pkg/auth/tokens/server.go:98).
- `getTokens` returns status 0 together with the error when listing fails (pkg/auth/tokens/server.go:183).

## Model

| member | source | states |
|---|---|---|
| `Tokens.Flag` | pkg/auth/tokens/server.go:187-189 | the returned copy has `Expired` raised exactly when the record was already flagged or `IsExpired` holds; no other field changes |
| `Tokens.FlagAll` | pkg/auth/tokens/server.go:186-191 | same length and order as the input; each item is flagged as by `Flag`; nothing dropped |
| `TokenIndex.TokenKeyIndexer` | pkg/auth/tokens/server.go:44-51 | a token is indexed under exactly its secret key; any other object is indexed under no key |
| `TokenIndex.ByIndex` | pkg/auth/tokens/server.go:137 | the lookup fails exactly when the snapshot reports an error; otherwise it yields the tokens filed under the key, or the empty list |
| `TokenIndex.ReflectedLookup` | pkg/auth/tokens/server.go:44-51 | in an up-to-date index, every token found under a key is a stored record with that key, and every stored record with that key is found |
| `TokenStore.Get` | pkg/auth/tokens/server.go:150-153 | Get succeeds exactly when the call is not failing and the name is stored, and then yields that record; otherwise it yields NotFound or the failure |
| `TokenStore.AfterCreate` | pkg/auth/tokens/server.go:115-125 | a created record is named by the draft's name, or by `generateName` plus the suffix when that name is empty; it is stamped with the time, never overwrites an existing name and is the only change; a failed create changes nothing |
| `TokenStore.AfterDelete` | pkg/auth/tokens/server.go:211 | a delete removes exactly the named record, reports NotFound for an absent name, and changes nothing when it fails |
| `TokenStore.TokenStore.Create` | pkg/auth/tokens/server.go:119 | the live store moves as `AfterCreate` says and keeps every record filed under its own name |
| `TokenStore.TokenStore.List` | pkg/auth/tokens/server.go:180-184 | fails exactly when List is failing; otherwise returns every record labelled with the user id, once each, and no other |
| `TokenStore.TokenStore.Delete` | pkg/auth/tokens/server.go:211 | the live store moves as `AfterDelete` says |
| `TokenServer.Checked` | pkg/auth/tokens/server.go:158-166 | a record is returned only when both its key and its name match; a mismatch is status 0 with an invalid-token error; an expired match is 410 with the record |
| `TokenServer.Resolve` | pkg/auth/tokens/server.go:132-167 | whatever the index holds, a returned record has the bearer's key and name; the status is 0, 404 or 410; 410 means a record was returned and it is expired; no error means a record that is not expired; 404 means a failed store fetch and no record |
| `TokenServer.Prepared` | pkg/auth/tokens/server.go:109-118 | the draft gets the generated key, the label `UserIDLabel` set to its `UserID`, `GenerateName` "token-", an empty name, and the API version and kind; its other fields are unchanged |
| `TokenServer.CreationOf` | pkg/auth/tokens/server.go:102-126 | creation succeeds exactly when a key was generated, Create is not failing and "token-" plus the suffix is a free name; if key generation fails, nothing is created and the error is returned; on success exactly one new record is stored, named "token-" plus the suffix, with the generated key and the user-id label; on any failure the store is unchanged and the token empty |
| `TokenServer.Derived` | pkg/auth/tokens/server.go:86-95 | the draft is derived and copies the principals, user id, auth provider and provider info of the parent; TTL and description come from the request |
| `TokenServer.DerivationOf` | pkg/auth/tokens/server.go:77-100 | any resolution failure, expiry included, gives 401 and creates nothing; otherwise status 0, success exactly when a key was generated and the store accepts the new name, and a success stores one new derived record carrying the parent's identity and the request's TTL and description |
| `TokenServer.NameDeletion` | pkg/auth/tokens/server.go:210-220 | when deletes are accepted, the result is 0, no error, and the name is gone, whether or not it existed; otherwise 500 and the store is unchanged |
| `TokenServer.BearerDeletion` | pkg/auth/tokens/server.go:195-208 | resolution status 404 gives (0, no error) and no change; an error without a status of 404 or 410 gives 401 and no change; a resolved record, expired or not, is deleted by name; no record other than the one named in the bearer value can go |
| `TokenServer.GetTokenByID` | pkg/auth/tokens/server.go:223-246 | the status is 0, 401 or 404; 401 exactly when the caller does not resolve; a failed fetch or a token of another user gives 404 and the empty token; a fetched token of the caller's own user is returned with status 0, flagged as expired when `IsExpired` holds |
| `TokenServer.TokenAPIServer.constructor` | pkg/auth/tokens/server.go:26-31 | the server holds the given store client, index snapshot and helpers |
| `TokenServer.TokenAPIServer.CreateDerivedToken` | pkg/auth/tokens/server.go:77-100 | result and new store are those of `DerivationOf` |
| `TokenServer.TokenAPIServer.CreateK8sTokenCR` | pkg/auth/tokens/server.go:102-126 | result and new store are those of `CreationOf` |
| `TokenServer.TokenAPIServer.GetTokens` | pkg/auth/tokens/server.go:170-193 | a caller who does not resolve gets 401 and an empty list; a failed list gives an empty list and an error; otherwise the output has the store listing's length and order, with `Expired` raised exactly where the item was already flagged or `IsExpired` holds, other fields untouched and nothing dropped |
| `TokenServer.TokenAPIServer.DeleteToken` | pkg/auth/tokens/server.go:195-208 | status, error and new store are those of `BearerDeletion` |
| `TokenServer.TokenAPIServer.DeleteTokenByName` | pkg/auth/tokens/server.go:210-220 | status, error and new store are those of `NameDeletion` |
| `TokenServerProperties.IndexHitDecidesAlone` | pkg/auth/tokens/server.go:144-160 | on an index hit the store is never consulted, so any two stores resolve alike, and only `objs[0]` can be returned, and only if it matches |
| `TokenServerProperties.StaleHitRejected` | pkg/auth/tokens/server.go:154-160 | a mismatching index entry gives status 0 and an invalid-token error, even when the store holds the matching record |
| `TokenServerProperties.IndexErrorHasNoFallback` | pkg/auth/tokens/server.go:137-143 | an index error other than NotFound fails with status 0 and never reaches the store |
| `TokenServerProperties.IndexMissFallsBack` | pkg/auth/tokens/server.go:139-153 | an empty result or NotFound from the index falls back to store Get; a failed Get gives 404; a fetched record is cross-checked |
| `TokenServerProperties.FreshIndexIsAuthoritative` | pkg/auth/tokens/server.go:137-160 | with an up-to-date index, a resolved record is the store's current record under the bearer's name |
| `TokenServerProperties.FreshIndexAcceptsStoredToken` | pkg/auth/tokens/server.go:137-166 | with an up-to-date index and unique keys, a bearer value matching a stored record resolves to it, even while store Get is failing |
| `TokenServerProperties.SharedKeyRejectsStoredToken` | pkg/auth/tokens/server.go:154-160 | when two records share a key, an up-to-date index can make a valid bearer value fail the cross-check |
| `TokenServerProperties.NameDeletionIdempotent` | pkg/auth/tokens/server.go:210-220 | deleting by name twice gives the same status and store as deleting once |
| `TokenServerProperties.DeletingAgainIsNoOp` | pkg/auth/tokens/server.go:198-219 | when the record is already gone, deleting by bearer value gives (0, no error) and no change, whether the index forgot the record or still holds a copy |
| `TokenServerProperties.ExpiredBearerIsDeleted` | pkg/auth/tokens/server.go:198-207 | a bearer value that resolves with 410 still deletes its record |
| `TokenServerProperties.ExpiredParentDerivesNothing` | pkg/auth/tokens/server.go:81-84 | an expired parent gives 401 with the expiry error and no new record |

## Left out

- `NewTokenAPIServer` and the `tokenServer` singleton (pkg/auth/tokens/server.go:33, 53-74) are process wiring and informer registration. The server is built by its constructor instead.
- `userPrincipalIndexer` (pkg/auth/tokens/server.go:35-42) and the struct field `userIndexer` (pkg/auth/tokens/server.go:29) index users, and no modelled operation uses them.
- `updateK8sTokenCR` (pkg/auth/tokens/server.go:128-130) is a one-line pass-through that no operation in this file calls.
- The bodies of `SplitTokenParts`, `IsExpired` and `randomtoken.Generate` are not part of this model. The first two are the fields of `Hooks`, and generation is the `key` parameter. Malformed bearer values and the TTL rule are therefore not modelled.
- Logging and the text of error messages are not modelled. Errors are `Failure` tags.
- The Kubernetes client internals are not modelled: the label selector string, the option structs, and `StatusError` inspection. A 404 `StatusError` and `IsNotFound` are both the `NotFound` tag. Server-assigned fields other than the name and creation time (UID, resource version) are not modelled.
- The `ctx` field, cancellation and concurrent requests are left out. Each request runs against one store snapshot and one index snapshot, and the store does not change between resolving and listing.
- In-place update of the draft in `createK8sTokenCR` is modelled as updates of a record value. The draft's pointer is never read again by its caller.
- Aliasing of the cached object that the index returns is not modelled, and the server never writes to it.
- `TokenStore.TokenStore.List`: the store's listing order is unspecified. The model proves length, order, membership and the absence of duplicates against whatever order the store returns, not against a particular order.
