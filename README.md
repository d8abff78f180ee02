# LocalGhost authorization core in Dafny

LocalGhost is a local HTTP service that lets desktop programs call plugin
endpoints only once the user has consented. This project models its
authorization core:

- **Permission store** (`permissions.dfy`, class `Permissions.PermissionStore`).
  The SQLite `permissions` table is a map from (client id, endpoint) to a row.
  `INSERT OR REPLACE` is a map update. The `audit_log` table is a sequence that
  is only appended to. Whether `initialize` has run is a boolean. Operations on
  an unopened store return the `RuntimeError` as an error value.
- **Tokens** (`tokens.dfy`). Payload encoding and decoding, generation,
  validation with expiry, and client ids. Fernet is an abstract cipher with the
  round-trip and wrong-key laws (`crypto.dfy`). SHA-256 is an abstract function
  whose output is 64 hex characters.
- **Middleware** (`middleware.dfy`). The `dispatch` decision is the function
  `Authorize`: public path, then bearer token, then stored grant, then consent,
  then 401. `AuthMiddleware.Dispatch` walks through the stateful store and
  consent handler step by step and is proved to reach the same decision.
  Client identification is `IdentifyClient`.
- **Consent handler** (`consent.dfy`, class `Consent.ConsentHandler`).
  It maps the dialog's answer to a grant type and a token lifetime, persists
  the grant with the token it returns, and keeps the pending-request queue.
- **Plugins** (`plugins.dfy`, `registry.dfy`, `demo.dfy`). Endpoint and plugin
  defaults, the registry's plugin and route maps with register, unregister,
  lookup, public classification and the capability listing, and the demo
  plugin's endpoint table, command allow-list and `echo`.
- **Scenarios** (`store_scenarios.dfy`, `registry_scenarios.dfy`,
  `middleware_scenarios.dfy`). Fresh stores, registries and middleware driven
  through the sequences that `tests/test_permissions.py` exercises, and through
  a consent approval followed by a second request.

The middleware is modelled as `auth/middleware.py` defines it. The shipped
`server.py` imports `AuthMiddleware` but installs only the CORS middleware, so
in the shipped server no request passes through `dispatch`. The middleware
scenario builds one store shared with the consent handler, as `server.py`
shares its store between them.

Helper modules cover the following:

- `Wrappers`: Option and Result.
- `Json`: JSON values.
- `Text`: Python's `str.split`, `str.strip`, `int()` and `str(int)` on the inputs
  the core uses.
- `Requests`: the headers that are read.

The environment enters as parameters:

- Time is integer seconds, passed as `now`.
- Fernet's randomness is a `nonce`.
- The consent dialog is an oracle: its `answer` is a parameter.

Calls run sequentially, as every `await` in the source does.

A SESSION grant has no expiry. An ALLOW_ONCE grant is stored for five
minutes and is not consumed on use; its token lasts `token_expiry_hours`.
Concurrent prompts are not deduplicated. A valid token is not re-checked
against the store.

## Model

| member | source | states |
|---|---|---|
| Permissions.GrantTypeValueInjective | src/localghost/auth/permissions.py:14-20 | the four grant types are stored as four distinct texts |
| Permissions.NewRow | src/localghost/auth/permissions.py:85-108 | the written row is keyed by its (client_id, endpoint) and carries the given token and grant type |
| Permissions.GrantLifetime | src/localghost/auth/permissions.py:85-90 | a fresh TEMPORARY grant is live exactly until granted_at + 300 s; a TIMED grant with a non-zero duration until granted_at + hours·3600; SESSION, PERMANENT and TIMED without a duration forever |
| Permissions.LiveRow | src/localghost/auth/permissions.py:127-137 | a stored row is returned iff the pair is present and now is not strictly after its expiry |
| Permissions.AfterLookup | src/localghost/auth/permissions.py:130-135 | a lookup leaves the table as it was when it finds a live row, and without the pair otherwise |
| Permissions.LookupAudit | src/localghost/auth/permissions.py:130-135 | a lookup logs one "revoke" entry exactly when it finds an expired row, and nothing otherwise |
| Permissions.WithoutClient | src/localghost/auth/permissions.py:161 | exactly the rows of other clients remain, unchanged |
| Permissions.InsertByGrantedAt | src/localghost/auth/permissions.py:170 | the listing grows by the inserted row and loses nothing (multiset) |
| Permissions.InsertKeepsOrder | src/localghost/auth/permissions.py:170 | insertion keeps a listing ordered by granted_at, newest first |
| Permissions.PermissionStore.constructor | src/localghost/auth/permissions.py:26-29 | a new store is unopened and holds whatever rows and audit entries the database file already has from earlier runs |
| Permissions.PermissionStore.Initialize | src/localghost/auth/permissions.py:31-63 | opens the store and keeps existing rows and audit entries |
| Permissions.PermissionStore.Close | src/localghost/auth/permissions.py:65-69 | closes the store; the data stays |
| Permissions.PermissionStore.LogAction | src/localghost/auth/permissions.py:175-195 | appends one entry when open and does nothing when not |
| Permissions.PermissionStore.GrantPermission | src/localghost/auth/permissions.py:71-111 | when open, the pair's row is replaced by the new row (upsert) and one "grant" entry with the grant type's value is appended; when not open, RuntimeError; when the expiry (now + 5 min, or now + duration hours) falls outside datetime's range (years 1 to 9999), OverflowError; on either error nothing changes |
| Permissions.PermissionStore.RevokePermission | src/localghost/auth/permissions.py:144-154 | when open, exactly that pair is removed and a "revoke" entry is appended even if no row existed; when not open, RuntimeError |
| Permissions.PermissionStore.CheckPermission | src/localghost/auth/permissions.py:113-137 | the result is the live row (or None); an expired row is deleted and a "revoke" entry appended; otherwise nothing changes; RuntimeError when not open |
| Permissions.PermissionStore.GetToken | src/localghost/auth/permissions.py:139-142 | the live row's token, or None, with the same side effects as check_permission |
| Permissions.PermissionStore.RevokeAllForClient | src/localghost/auth/permissions.py:156-163 | every row of the client goes, no other row changes, and one entry with endpoint "*" and action "revoke_all" is appended |
| Permissions.PermissionStore.ListAllGrants | src/localghost/auth/permissions.py:165-173 | every stored row exactly once, ordered by granted_at descending; RuntimeError when not open |
| StoreScenarios.UpsertReplacesRow | tests/test_permissions.py:114-135 | granting twice for one pair leaves one row with the later token, grant type and permissions |
| StoreScenarios.GrantCheckRevoke | tests/test_permissions.py:25-65 | a grant's token is returned; after revoking it the pair is not found; an unknown pair is not found |
| StoreScenarios.RevokeAllKeepsOthers | tests/test_permissions.py:68-82 | after revoke_all the client's three grants are gone, another client's grant stays, and the last audit entry is the "*" revoke_all |
| StoreScenarios.ListNewestFirst | tests/test_permissions.py:85-97 | three grants are all listed, newest first |
| StoreScenarios.ListOfThree | src/localghost/auth/permissions.py:170 | a newest-first listing holding three rows with distinct times once each is determined by them |
| StoreScenarios.TemporaryExpires | src/localghost/auth/permissions.py:130-135 | a TEMPORARY grant is found at +300 s; at +301 s it is deleted and a "revoke" entry is logged |
| StoreScenarios.OverlongTimedGrantRaises | src/localghost/auth/permissions.py:86-87 | a TIMED grant of 100000000 hours, made at any time after 1970, raises OverflowError and writes no row |
| Tokens.ToDict | src/localghost/auth/tokens.py:26-34 | the dictionary has exactly the five payload keys |
| Tokens.FromDict | src/localghost/auth/tokens.py:37-45 | decoding succeeds only with all required keys present; the id fields are read back; a missing or null expires_at reads as None |
| Tokens.DictRoundTrip | src/localghost/auth/tokens.py:26-45 | from_dict(to_dict(p)) == p |
| Tokens.MissingExpiryReadsAsNone | src/localghost/auth/tokens.py:44 | a payload without the expires_at key decodes with expires_at None |
| Tokens.MissingFieldRejected | src/localghost/auth/tokens.py:39-43 | a payload missing any required key is rejected (the KeyError path gives None) |
| Tokens.NewTokenManager | src/localghost/auth/tokens.py:51-61 | the given secret is kept; without one a generated key is used |
| Tokens.ValidateToken | src/localghost/auth/tokens.py:86-98 | a returned payload is unexpired and is the decoding of the token's decryption under the manager's key; everything else is None |
| Tokens.GenerateValidateRoundTrip | src/localghost/auth/tokens.py:63-98 | a generated token validates before its expiry to the same client, endpoint and permissions, with issued_at = generation time and expires_at = issued_at + hours·3600 or None |
| Tokens.NoExpiryNeverRejected | src/localghost/auth/tokens.py:93 | a token without expiry validates at any later time |
| Tokens.ExpiredTokenRejected | src/localghost/auth/tokens.py:93-94 | a token is rejected when now is strictly after its expiry |
| Tokens.WrongKeyRejected | src/localghost/auth/tokens.py:88-98 | a token from a manager with another key is rejected |
| Tokens.SharedSecretInterop | src/localghost/auth/tokens.py:51-61 | a token from one of two managers built from one secret validates under the other, until its expiry, to the payload it was issued with |
| Tokens.GenerateClientId | src/localghost/auth/tokens.py:100-105 | the id is the first 16 characters of the digest of "name" or "name:pid", hence 16 hex characters |
| Tokens.ClientIdAmbiguity | src/localghost/auth/tokens.py:102-105 | a program named "n:p" without pid gets the same id as program "n" with pid p |
| Json.StrListRoundTrip | src/localghost/auth/tokens.py:31 | a permission list survives encoding to a JSON array and back |
| Text.ParseIntRoundTrip | src/localghost/auth/middleware.py:93 | int() reads back the decimal text of every integer of at most 4300 digits, the most str() writes |
| Text.OverlongRejected | src/localghost/auth/middleware.py:93 | int() raises ValueError on a run of more than 4300 digits |
| Text.SeparatorNotSkipped | src/localghost/auth/middleware.py:93 | int() raises on "\x1c7": the separators \x1c..\x1f are whitespace to str.isspace() but are not skipped by int() |
| Text.FirstWord | src/localghost/plugins/demo.py:105 | split()[0]: None iff the text is all whitespace, otherwise the first maximal run of non-space characters |
| Text.BeforeFirst | src/localghost/consent/handler.py:134 | split("-")[0]: the longest prefix without the separator, shorter than the text iff the separator occurs |
| Middleware.PublicPathsOf | src/localghost/auth/middleware.py:31 | a non-empty configured set is used; none or an empty set gives the four defaults |
| Middleware.IdentifyClient | src/localghost/auth/middleware.py:82-94 | a non-empty X-Client-ID wins; otherwise, with no or an empty PID the id is generate_client_id(X-Process-Name or "unknown", None); with a PID it raises ValueError iff int() rejects the PID (no digits, other characters, ASCII separators \x1c..\x1f around it, or more than 4300 digits), and else the id is generate_client_id(name, int(PID)); such an id is 16 hex characters |
| Middleware.IdentifyByProcess | src/localghost/auth/middleware.py:89-94 | without X-Client-ID, a decimal PID of at most 4300 digits identifies the client as generate_client_id(X-Process-Name or "unknown", pid) |
| Middleware.OverlongPidRaises | src/localghost/auth/middleware.py:89-94 | without X-Client-ID, a PID of more than 4300 digits raises ValueError, and dispatch fails on any non-public path before the token, store or consent steps |
| Middleware.BearerToken | src/localghost/auth/middleware.py:46-48 | a token is taken iff the header starts with "Bearer ", and it is the rest of the header |
| Middleware.TokenPermissions | src/localghost/auth/middleware.py:46-50 | the token admits iff it validates to a payload whose client id is the identified client; its permissions are passed on |
| Middleware.PublicPathPasses | src/localghost/auth/middleware.py:39-40 | a public path passes with no token, store or consent step |
| Middleware.TokenAdmitsAnyEndpoint | src/localghost/auth/middleware.py:46-54 | an unexpired token of the identified client admits it to any protected path, whatever endpoint it was issued for, without consulting the store |
| Middleware.OtherClientsTokenIgnored | src/localghost/auth/middleware.py:50 | a token issued to another client id does not admit and the store is consulted |
| Middleware.VerdictCases | src/localghost/auth/middleware.py:34-80 | for every input: public iff a public path; token admission iff the token check passes; stored admission iff the token fails and a live row exists; consent admission iff the prompt is reached, the answer is not DENIED and the grant's expiry stays within datetime's range; 401 iff everything fails, naming the client and path |
| Middleware.LastingGrantNotPromptedAgain | src/localghost/auth/middleware.py:57-61 | after a SESSION or PERMANENT consent the client is admitted from the store without a token and not prompted again |
| Middleware.AllowOnceLapses | src/localghost/auth/middleware.py:57-64 | after ALLOW_ONCE the client is not prompted again iff no more than five minutes have passed |
| Middleware.UnauthorizedResponse | src/localghost/auth/middleware.py:72-80 | status 401 with error "unauthorized", a message, the client id and the endpoint |
| Middleware.AuthMiddleware.constructor | src/localghost/auth/middleware.py:19-32 | keeps its collaborators; public paths are the configured ones or the defaults |
| Middleware.AuthMiddleware.Dispatch | src/localghost/auth/middleware.py:34-80 | the verdict is Authorize's on the state before the call; neither store's connection state changes; the dialog is shown exactly when the token and store checks both failed for an identified client; a public path or a token admission leaves the store alone; a consulted store loses only the pair's expired row and gains its revoke entry; a stored-grant admission changes nothing; after a 401 the pair has no row; a consent admission stores the full grant row with the returned token and logs it; the pending queue never changes |
| MiddlewareScenarios.SessionConsentThenStoredGrant | src/localghost/auth/middleware.py:57-69 | with one shared store, a request admitted by session consent is admitted from the store next time, under a grant without expiry |
| Consent.ClientNameOf | src/localghost/consent/handler.py:134 | the text before the first "-", or the whole id when it has none |
| Consent.PendingKeyInjective | src/localghost/consent/handler.py:112 | for client ids without ":" the key determines the pair |
| Consent.PendingKeyCollision | src/localghost/consent/handler.py:112 | a client id containing ":" can share its key with another pair |
| Consent.Without | src/localghost/consent/handler.py:124-127 | removing a key from the key order keeps every other key and keeps them distinct |
| Consent.ValuesInOrder | src/localghost/consent/handler.py:120-122 | the listing holds each key's entry in key order |
| Consent.ApprovalExpiries | src/localghost/consent/handler.py:162-168 | per answer: the store row's expiry (5 min, none, duration, none) against the token's (token_expiry_hours, token_expiry_hours, duration, none) |
| Consent.ApprovalOverflowCases | src/localghost/consent/handler.py:66-99 | SESSION and PERMANENT approvals never overflow; ALLOW_ONCE overflows iff now + 300 s leaves datetime's range; ALLOW_TIMED with a non-zero duration iff now + duration hours leaves it |
| Consent.ApprovedTokenValidates | src/localghost/consent/handler.py:170-175 | the token handed out on approval validates to the client, endpoint and ["access"] until its expiry |
| Consent.ConsentHandler.constructor | src/localghost/consent/handler.py:25-35 | keeps settings, token manager and store; no pending requests |
| Consent.ConsentHandler.Settle | src/localghost/consent/handler.py:37-102 | one prompt is shown; DENIED stores nothing; an unopened store raises RuntimeError and an expiry outside datetime's range raises OverflowError, both storing nothing; otherwise the mapped grant type and lifetime are used and the row stored carries the very token returned |
| Consent.ConsentHandler.Call | src/localghost/consent/handler.py:37-102 | as Settle, naming the client by X-Process-Name or "Unknown Application"; declined iff DENIED; fails iff not DENIED and the store is unopened (RuntimeError) or the grant overflows (OverflowError) |
| Consent.ConsentHandler.RequestConsent | src/localghost/consent/handler.py:129-188 | as Settle, naming the client after its id; fails iff not DENIED and the store is unopened (RuntimeError) or the grant overflows (OverflowError) |
| Consent.ConsentHandler.RequestConsentViaTray | src/localghost/consent/handler.py:104-118 | the entry under "client_id:endpoint" is set, overwriting an existing one in place |
| Consent.ConsentHandler.GetPendingRequests | src/localghost/consent/handler.py:120-122 | the current entries, each once |
| Consent.ConsentHandler.ClearPending | src/localghost/consent/handler.py:124-127 | removes that key, and nothing if it is absent |
| Plugins.EndpointTypeValues | src/localghost/plugins/base.py:11-15 | the two types' values are "public" and "protected" |
| Plugins.DefaultEndpoint | src/localghost/plugins/base.py:18-27 | defaults: PROTECTED, "GET", "" and no permissions |
| Plugins.DefaultPlugin | src/localghost/plugins/base.py:45-48 | the default description is "" |
| Registry.FullPathInjective | src/localghost/plugins/registry.py:35 | within one plugin distinct paths give distinct full paths |
| Registry.RouteTable | src/localghost/plugins/registry.py:34-36 | the routes a plugin adds are exactly its full paths |
| Registry.RouteTableLookup | src/localghost/plugins/registry.py:34-36 | each endpoint is found under its full path unless a later endpoint has the same path |
| Registry.RegisterUnregisterRestores | src/localghost/plugins/registry.py:56-70 | registering a plugin with new paths and unregistering it restores the route map |
| Registry.PluginRegistry.constructor | src/localghost/plugins/registry.py:18-21 | no plugins and no routes |
| Registry.PluginRegistry.Register | src/localghost/plugins/registry.py:25-54 | a taken name changes nothing; otherwise the plugin is recorded and its routes added in list order |
| Registry.PluginRegistry.Unregister | src/localghost/plugins/registry.py:56-70 | an unknown name changes nothing; otherwise the plugin and all its full paths are removed |
| Registry.PluginRegistry.GetEndpoint | src/localghost/plugins/registry.py:91-93 | the endpoint under the path, None iff there is none |
| Registry.PluginRegistry.IsPublic | src/localghost/plugins/registry.py:95-100 | a registered path is public iff its endpoint is PUBLIC; an unregistered one iff it starts with "/public/" |
| Registry.PluginRegistry.Plugins | src/localghost/plugins/registry.py:112-115 | the same names mapped to the same plugins |
| Registry.PluginRegistry.GetCapabilities | src/localghost/plugins/registry.py:72-89 | one entry per plugin with its version, description and endpoints in order under their full paths and type values |
| RegistryScenarios.RegisterLookupUnregister | src/localghost/plugins/registry.py:25-100 | after registering (twice under one name) an endpoint is found under its full path and classified by its type; after unregistering it is gone |
| Demo.EndpointTable | src/localghost/plugins/demo.py:28-69 | five endpoints with distinct paths; the first three are PUBLIC; /system-info needs ["read:system"] and /execute ["execute"] |
| Demo.CheckCommand | src/localghost/plugins/demo.py:104-111 | runs iff the first word is allowed; an empty command is denied as ""; an all-whitespace one raises IndexError |
| Demo.DeniedResponse | src/localghost/plugins/demo.py:108-111 | a refusal holds exactly the error text naming the command and the allowed list, and status "denied" |
| Demo.DefaultCommandRuns | src/localghost/plugins/demo.py:99-105 | execute without a command runs the default "echo hello", which passes the check |
| Demo.OnlyFirstWordChecked | src/localghost/plugins/demo.py:104-117 | "echo ;" followed by anything passes the check and is handed whole to the shell |
| Demo.Echo | src/localghost/plugins/demo.py:75-77 | the body comes back unchanged under "echoed"; without a body, the default empty object |

## Left out

- Persistence: SQLite, aiosqlite, SQL text, commits and the autoincrement ids are replaced by a map and a sequence. Timestamps are integer seconds, not ISO text.
- Async execution, logging, FastAPI's `request.state`, `call_next`, and the APIRouter objects with `add_api_route` calls are out. Registration keeps only the route map.
- `Plugin.on_load` and `Plugin.on_unload` are left out because they do nothing by default.
- The consent dialogs in src/localghost/consent/prompt.py (osascript, PowerShell, zenity, tkinter) are not part of this model. Their result is the `answer` parameter.
- server.py, config.py, the OS service installers and the tray are not part of this model. Only the configuration defaults (24 h, 60 s, 8 h) are kept, as `Consent.DefaultSettings`.
- Fernet and SHA-256 are abstract. Only their laws are assumed: decryption inverts encryption, a different key fails, and the digest is 64 hex characters.
- A malformed secret key makes `Fernet()` raise. This is not modelled.
- Tokens.GenerateClientId: distinct programs are not proved to get distinct ids. Collision resistance is not assumed of the abstract hash.
- Floats: `time.time()`, `hours * 3600` and `duration_hours` are integers here.
- Tokens.FromDict: a payload with a required key of the wrong JSON type is rejected. The source returns such a payload unchanged when `client_id`, `endpoint`, `permissions` or `issued_at` has the wrong type, and the middleware would then admit with whatever `permissions` holds. Only a non-numeric `expires_at` fails later, with a TypeError at the expiry test.
- Tokens.ValidateToken: returns None for every plaintext that is not a payload object. In the source, decrypted JSON that is not an object makes `from_dict` raise an uncaught TypeError, and a plaintext that is not UTF-8 raises an uncaught UnicodeDecodeError. The plaintext here is a JSON object by type, so neither exception is modelled.
- Registry.RegisterUnregisterRestores: assumes a plugin's `get_endpoints()` returns the same list on every call; `register`, `unregister` and `get_capabilities` each call it again, while the model reads the plugin's endpoint list as one fixed value.
- Registry.PluginRegistry.GetCapabilities: returns a map, so it does not keep the registration order of the plugins that the source's dict follows. Within each plugin the endpoint order is kept.
- Text.ParseInt: accepts ASCII digits only. Python's `int()` also accepts other Unicode decimal digits. The 4300-digit limit is Python's default; a different limit set when the interpreter starts is not modelled.
- Requests: headers are single named fields. HTTP's case-insensitive and repeated header names are not modelled.
- Middleware.AuthMiddleware.Dispatch: a stored grant passes on the row's permission list. The source passes on the row's `permissions` column, which holds that list as JSON text.
- Consent.ConsentHandler.RequestConsent: its replies are `Declined` and `Approved`. The source's dictionaries `{"approved": False}` and `{"approved": True, ...}` are not modelled.
- `execute`'s subprocess and the `ping`, `get_time` and `system_info` handlers read the clock, the platform or a shell. They are modelled only as entries of the endpoint table.
