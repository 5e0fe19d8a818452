# A2A multi-agent demo: authorization server, token validator and router

This project models the three parts of the A2A multi-agent demonstration that
hold its decision logic. It proves properties about each of them.

- **The identity provider** (`idp/app.py`) is an OAuth 2.0 / OpenID Connect
  authorization server. It has these endpoints:
  - `GET /authorize` checks the client and its exact redirect URI.
  - `POST /authorize` logs the user in.
  - `POST /consent` issues a code into the query string, issues tokens into
    the fragment, or denies access.
  - `POST /generate-token` authenticates the client, with HTTP Basic first and
    the form fields as fallback. It then runs the `client_credentials` grant or
    the single-use `authorization_code` grant with PKCE S256.

  Around the endpoints sit the client and user registries, the
  authorization-code map, and the claim sets of the access and ID tokens. The
  server is modelled on sections 4.1, 4.2, 4.4 and 5.2 of RFC 6749, sections
  4.2 and 4.6 of RFC 7636, and section 2 of RFC 7617, and departs from them in
  two places the model keeps. An implicit request with the bare
  `response_type=token` of section 4.2 of RFC 6749 is answered with
  `access_denied`; only `token id_token` and `id_token token` issue tokens
  (idp/app.py:242, 301-318; `AuthorizeEndpoint.ConsentDenied`). The
  `code_challenge_method` of section 4.6 of RFC 7636 is ignored and S256 is
  always applied, so a client that registered a `plain` challenge is
  rejected (idp/app.py:427-447; `TokenEndpoint.PkceMethodIgnored`). The
  base64url encoding is the one in section 5 of RFC 4648.
- **The bearer-token validator** (`auth_lib/validator.py`) has a two-level
  lazy cache (the discovery document, then the JSON Web Key Set). In front of
  the cache sits `is_token_valid`, a linear chain of checks. Each check ends
  in a fixed reason string.
- **The host agent's router** (`host_agent/routing_agent.py`) has these parts:
  - the card registry, keyed by name;
  - `"key:value"` skill-tag parsing;
  - the first-match card scan, with tenant-scoped agent types;
  - `send_message`, which answers with no agent, an OAuth redirect, or a
    dispatch with a bearer header;
  - the response processing that turns the remote answer into one task-store
    update;
  - `get_task_status`, `initiate_oauth_flow` and `list_available_agents`.

Every operation is a pure function over explicit state:
- the code map, the validator cache, the task store and the session dictionary
  go in and come out as values;
- the clock is an integer `now`;
- random values (codes, UUIDs, opaque tokens) are parameters;
- cryptography, base64 decoding, URL parsing and network answers are
  function-typed parameters, or outcome datatypes the caller chooses.

Files (one module each):
- `wrappers.dfy`: `Option` and `Result`.
- `text.dfy`: Python's `str.split(" ")`, `" ".join`, `split(":", 1)` and truthiness.
- `base64url.dfy`: `urlsafe_b64encode`, the `=` strip, and a decoder that shows both lose no information.
- `idp_model.dfy`: registries, constants, the JWT header choice and token claims.
- `code_store.dfy`: `AUTHORIZATION_CODES`.
- `idp_authorize.dfy`: `/authorize` and `/consent`.
- `idp_token.dfy`: `/generate-token`.
- `validator.dfy`: the validator.
- `router_cards.dfy`: the registry, tag parsing and card lookup.
- `task_store.dfy`: the task store the router uses.
- `router.dfy`: the router's tools.
- `flows.dfy`: whole flows across the components, on the demonstration data.

## Model

| member | source | states |
|---|---|---|
| Wrappers.Lookup | idp/app.py:199 | `dict.get(key)`: a value exactly when the key is given and present, and then the stored value |
| Text.Split | idp/app.py:237 | `str.split(" ")`: at least one piece, no piece contains the separator, and there are two or more pieces exactly when the separator occurs |
| Text.JoinSplit | idp/app.py:364-377 | joining the pieces of a split gives back the original string, so a `scope` that is split and re-joined is echoed unchanged |
| Text.SplitJoin | idp/app.py:156 | splitting a join of separator-free pieces gives back the pieces, so the `scope` claim splits back into the granted scope list |
| Text.SplitFirst | idp/app.py:330 | `split(":", 1)` unpacked into two names: defined exactly when there is a colon; the left part has no colon; the parts rejoin to the input |
| Text.SplitFirstUnique | host_agent/routing_agent.py:347-348 | a split at the first colon is determined: any colon-free left part, the colon and a right part are what the split returns |
| Base64Url.Encode | idp/app.py:441-444 | `urlsafe_b64encode` gives four alphabet-or-pad characters per started three-byte group |
| Base64Url.Remove | idp/app.py:445 | `.replace("=", "")` leaves no `=` and no new characters |
| Base64Url.EncodeNoPadLength | idp/app.py:440-446 | the unpadded base64url text of n bytes has ceil(4n/3) characters, all from the URL-safe alphabet |
| Base64Url.DigestChallengeLength | idp/app.py:440-446 | an S256 challenge computed from a 32-byte digest is 43 characters long |
| Base64Url.Digit | idp/app.py:441-444 | each 6-bit value has its own alphabet character, never `=`, and reading that character back gives the value |
| Base64Url.DecodeEncode | idp/app.py:441-444 | `urlsafe_b64encode` loses nothing: reading the text back four characters at a time gives the original bytes |
| Base64Url.EncodeInjective | idp/app.py:441-444 | distinct byte strings have distinct padded encodings |
| Base64Url.EncodeIsNoPadPlusPadding | idp/app.py:441-445 | the padded text is the unpadded text followed by `==`, `=` or nothing as the byte count is 1, 2 or 0 modulo 3, so `.replace("=", "")` removes only the trailing pad |
| Base64Url.EncodeNoPadInjective | idp/app.py:440-446 | distinct byte strings have distinct unpadded encodings |
| TokenEndpoint.S256ComparesDigests | idp/app.py:440-447 | two code verifiers yield the same computed challenge exactly when their SHA-256 digests are equal |
| IdpModel.HeaderFor | idp/app.py:136-143 | the JOSE header exists exactly when a JWKS is loaded whose first key has a `kid`; it then carries that `kid` and RS256 |
| IdpModel.AccessTokenClaims | idp/app.py:145-162 | access-token claims: fixed issuer and audience; `sub` is the user's if given, else the client's; `tenant_id` only when non-empty; `exp - iat` is 3600; the `scope` claim splits back into the scopes |
| IdpModel.OpaqueWhenJwtOff | idp/app.py:161-166 | with JWT generation off, the access token is the fresh hex string and there is no ID token, whatever the user and the nonce |
| CodeStore.Insert | idp/app.py:274-282 | storing a code binds it to its grant and leaves every other code as it was |
| CodeStore.Pop | idp/app.py:386 | `pop(code, None)`: a grant exactly when the code is present; the code is removed; nothing else changes |
| CodeStore.PopAtMostOnce | idp/app.py:386-398 | a code can be popped at most once |
| CodeStore.PopInsert | idp/app.py:274-282 | popping a freshly stored code returns its grant and restores the map |
| CodeStore.PopIndependent | idp/app.py:386 | pops of distinct codes commute and do not affect each other's grant |
| AuthorizeEndpoint.AuthorizeGet | idp/app.py:196-207 | the login page exactly when the client is registered and the redirect URI is exactly one of its URIs; a missing client id fails; the accepted request is stored in the session unchanged |
| AuthorizeEndpoint.AuthorizePost | idp/app.py:209-224 | the user is remembered exactly when the name is registered and the password matches; a failed login leaves the session as it was |
| AuthorizeEndpoint.ConsentIssuesCode | idp/app.py:272-299 | an approved `code` consent stores the code for 300 seconds with the original client, user, scopes, redirect and PKCE parameters; only the redirect's query changes, to `{code, state}`; other codes are untouched |
| AuthorizeEndpoint.ConsentImplicitFragment | idp/app.py:241-270 | an approved hybrid consent leaves the code map alone and changes only the fragment, to bearer tokens for the user with the requested scope and state |
| AuthorizeEndpoint.ConsentDenied | idp/app.py:301-318 | every other consent, including an unknown response type, redirects with `access_denied` in the query and changes neither the codes nor the session |
| AuthorizeEndpoint.ConsentOnlyAddsFreshCode | idp/app.py:226-318 | consent adds at most the one fresh code and changes no other entry |
| AuthorizeEndpoint.IssuedCodeIsForRegisteredRedirect | idp/app.py:196-299 | a code issued after an accepted GET, a login and an approval belongs to a registered client and one of that client's redirect URIs |
| TokenEndpoint.BasicToken | idp/app.py:328 | `split(" ")[1]` of a Basic header is all the text after `"Basic "` up to the next space or the end |
| TokenEndpoint.BasicCredentials | idp/app.py:326-332 | Basic credentials come only from a `Basic ` header whose token decodes to `id:secret`, split at the first colon |
| TokenEndpoint.BasicPrecedence | idp/app.py:326-336 | the Basic pair is used exactly when both halves are non-empty; otherwise both form fields are used |
| TokenEndpoint.FormFallback | idp/app.py:334-336 | without a usable Basic pair the form `client_id` and `client_secret` are the credentials |
| TokenEndpoint.AllAllowed | idp/app.py:365-368 | the scope loop passes exactly when every requested scope is allowed |
| TokenEndpoint.InvalidClientFirst | idp/app.py:340-361 | `invalid_client` (401) exactly when the client is unknown or the secret is wrong, whatever the grant type, and the code map is then unchanged |
| TokenEndpoint.ClientCredentialsOutcome | idp/app.py:363-379 | `invalid_scope` exactly when some requested scope is not allowed; on success the scope string is echoed, there is no `id_token`, and the token's subject is the client; codes are untouched |
| TokenEndpoint.MissingScopeRejected | idp/app.py:364-368 | a missing scope becomes `[""]` and is rejected |
| TokenEndpoint.UnsupportedGrant | idp/app.py:475-476 | any other grant type is `unsupported_grant_type` and changes nothing |
| TokenEndpoint.CodeAlwaysConsumed | idp/app.py:381-398 | an authenticated code request removes the presented code whatever the outcome, and nothing else |
| TokenEndpoint.ReplayRejected | idp/app.py:386-398 | a second exchange of the same code fails with "Invalid or expired authorization code." |
| TokenEndpoint.CodeExchangeSucceedsIff | idp/app.py:381-474 | tokens exactly when the code is present, matches redirect and client, is not past `expires_at`, passes PKCE, and signing works; the tokens carry the stored user's subject and tenant and the stored scopes |
| TokenEndpoint.CodeExchangeErrors | idp/app.py:388-457 | the failures in the source's order, each with its own error and description; PKCE without a verifier is `invalid_request` |
| TokenEndpoint.PkceMethodIgnored | idp/app.py:427-457 | the stored `code_challenge_method` never matters, and without a stored challenge the verifier does not matter either |
| Validator.GetOidcConfig | auth_lib/validator.py:24-37 | a cached document is returned without a fetch; otherwise one fetch, cached exactly when it succeeds |
| Validator.GetJwks | auth_lib/validator.py:40-56 | a cached key set is returned without a fetch; otherwise a failed discovery, a missing `jwks_uri` ("jwks_uri not found in OIDC configuration.") and a failed key-set fetch ("Error fetching JWKS: " + error) each fail and cache no key set; with a cached document, and equally after a discovery fetched in the same call, exactly one further fetch of its `jwks_uri`, whose body is cached on success while the document stays cached either way; the cache invariant is kept |
| Validator.FindKey | auth_lib/validator.py:77-81 | the first key with the header's `kid`, and none exactly when no key has it |
| Validator.IsTokenValid | auth_lib/validator.py:59-69 | an empty token fails with "Token is empty." before any fetch; otherwise the cache and fetches are the key-set lookup's, and its failure is reported with the "Failed to get JWKS: " prefix; the cache invariant is kept |
| Validator.EmptyTokenShortCircuit | auth_lib/validator.py:64-65 | an empty token is rejected with "Token is empty." before any fetch or cache change |
| Validator.CachedKeysNoFetch | auth_lib/validator.py:40-56 | once the key set is cached, a call fetches nothing and changes nothing in the cache |
| Validator.FetchOnceThenCached | auth_lib/validator.py:24-56 | the first successful call fetches discovery, then the key set, and caches both; the next call fetches nothing |
| Validator.FailedDiscoveryNotCached | auth_lib/validator.py:35-36 | a failed discovery fetch caches nothing, and the reason is "Failed to get JWKS: " followed by the fetch error |
| Validator.MissingJwksUri | auth_lib/validator.py:47-49 | a document without a usable `jwks_uri` fails with "jwks_uri not found in OIDC configuration." and stays cached, so later calls fail without a fetch |
| Validator.RunKeepsInvariant | auth_lib/validator.py:40-56 | the cache invariant holds after any sequence of calls |
| Validator.ReachableCachesKeepInvariant | auth_lib/validator.py:88 | every cache reachable from process start satisfies the invariant, so the issuer read after a key-set lookup comes from a cached document |
| Validator.DecisionChain | auth_lib/validator.py:67-112 | every step of the decision: a failed key-set lookup, an unreadable header, a missing `kid`, an unknown `kid`, an unusable key and a header without `alg` each give a fixed reason; only then is the token decoded, with the first matching key, the cached issuer and the fixed audience |
| Validator.DecodeOutcomes | auth_lib/validator.py:94-112 | each library exception maps to its own reason, most specific first; a decoded token passes exactly when the tenant check does, returning its claims |
| Validator.MissingAlgRejected | auth_lib/validator.py:90 | a header without `alg` is never accepted: `header["alg"]` raises before decoding |
| Validator.ColdStartKeysDown | auth_lib/validator.py:40-69 | from an empty cache with the key-set endpoint down, the call fetches the discovery document and the `jwks_uri`, fails with "Error fetching JWKS: " + error, keeps only the document, and the next call fetches only the key set |
| Validator.FailedKeysNotCached | auth_lib/validator.py:50-55 | a failed key-set fetch gives the prefixed reason, leaves the cache unchanged, and the next call fetches the key set again |
| Validator.TenantOutcomes | auth_lib/validator.py:94-102 | the tenant check is skipped without a required tenant; an absent or empty claim fails; only an equal claim passes, returning the claims |
| Validator.TenantMismatchMentioned | auth_lib/validator.py:99-100 | an unequal tenant claim is rejected with a reason containing "does not match required tenant_id" |
| RouterCards.Register | host_agent/routing_agent.py:113-114 | `self.cards[name] = card`: names stay distinct; a new name is appended; a known name is replaced in its old position |
| RouterCards.RegisterAll | host_agent/routing_agent.py:106-118 | registering a list yields distinct names, exactly the names of the list |
| RouterCards.RegisterAllLastWins | host_agent/routing_agent.py:106-118 | each registered card is the last card of the list with its name |
| RouterCards.ParseTags | host_agent/routing_agent.py:345-349 | the tag dictionary's keys are exactly the keys of tags with a colon, and each value comes from the last tag defining that key |
| RouterCards.ParseTagsLastWins | host_agent/routing_agent.py:345-349 | a later `key:value` tag sets the key to the text after the first colon, overriding earlier tags |
| RouterCards.ParseTagsAppendOther | host_agent/routing_agent.py:345-349 | a tag defining another key, or no key, leaves an entry unchanged |
| RouterCards.AnySkillMatches | host_agent/routing_agent.py:340-355 | some skill has tags that cover the filter |
| RouterCards.FindCard | host_agent/routing_agent.py:337-356 | a card exactly when some card matches; the card returned is the first match in registration order |
| RouterCards.BuildFilter | host_agent/routing_agent.py:323-333 | no filter exactly when a tenant-scoped type has no tenant; otherwise `{type}`, or `{type, tenant_id}` for tenant-scoped types |
| RouterCards.FoundCardCarriesTags | host_agent/routing_agent.py:311-356 | a found card is the first registered card with a skill tagged with the type (and the tenant for a tenant-scoped type) |
| RouterCards.TenantRequired | host_agent/routing_agent.py:327-332 | a `horizon` request without a tenant finds nothing, whatever is registered |
| TaskStore.Save | host_agent/routing_agent.py:444 | saving binds the task's id and leaves other tasks unchanged |
| TaskStore.Get | host_agent/routing_agent.py:256-258 | a task exactly when the id is stored |
| TaskStore.Apply | host_agent/routing_agent.py:381-392 | `task_failed` marks the task failed with its message; `set_remote_task_id` records the remote id and marks it working; other tasks and the key set are unchanged |
| TaskStore.ApplyCommutes | host_agent/routing_agent.py:381-392 | updates to different tasks commute |
| Router.Param | host_agent/routing_agent.py:301-307 | the value of the first parameter with a given name, present exactly when such a parameter exists |
| Router.TaskIdFromState | host_agent/routing_agent.py:300-306 | reading a task id back from `state` inverts the JSON rendering |
| Router.StateRoundTrip | host_agent/routing_agent.py:300-306 | the `state` parameter returns exactly the task id put into it |
| Router.InitiateOAuthFlow | host_agent/routing_agent.py:295-309 | the error dictionary exactly when there is no non-empty `authorization_uri`; otherwise `response_type=code`, the agent as client, the configured redirect, the fixed scope, a `state` decoding to the task id, and the task id echoed |
| Router.Headers | host_agent/routing_agent.py:467-469 | an `Authorization: Bearer <token>` header exactly when there is a token, and no other header |
| Router.SendMessage | host_agent/routing_agent.py:394-479 | an apology and no change exactly when no card is found; otherwise one `submitted` task is saved and the context id written back; exactly for a secured card without a token, the `initiate_oauth_flow` answer for that card and task, with no active agent set; otherwise a dispatch to the found card with the bearer header and a confirmation |
| Router.SendMessageSavesOneTask | host_agent/routing_agent.py:430-444 | a call that finds a card grows the store by exactly one task |
| Router.ConfirmationNamesTask | host_agent/routing_agent.py:479 | the confirmation contains the task id, and the id can be read back from it |
| Router.SendMessageAsWritten | host_agent/routing_agent.py:472-476 | the code as it stands never dispatches |
| Router.AsWrittenNeverDispatches | host_agent/routing_agent.py:24-50 | where the intended code dispatches, the code as written raises after saving a `submitted` task; everywhere else the two agree |
| Router.ProcessResponse | host_agent/routing_agent.py:358-392 | without a connection nothing is sent and nothing changes; a send that raises ends processing with no update; otherwise exactly one update on the dispatched task, recording the remote id for a Task result and failing the task otherwise |
| Router.DispatchOutcome | host_agent/routing_agent.py:365-392 | after a dispatch, the task is working with the remote id, failed with "Failed to send message", or still submitted when there is no connection or the send raises; no other task changes |
| Router.GetTaskStatus | host_agent/routing_agent.py:246-275 | not found; the local state while there is no remote id; then a request without a context raises, a context without an agent gives "Could not determine the agent", an unconnected agent gives "Client not available", and a connected one is queried, reporting the remote state or "Could not retrieve status" |
| Router.StatusAfterSendMessage | host_agent/routing_agent.py:256-275 | a task from `send_message` reports `submitted`, and `failed` after a failed send; once its remote id arrives, reading its request's context raises, so no remote status is ever reported |
| Router.ListAvailableAgents | host_agent/routing_agent.py:230-244 | the fixed message exactly for an empty registry, otherwise the header line first |
| Router.AgentLinesAppend | host_agent/routing_agent.py:242-243 | the listing of concatenated registries is the concatenation of their listings |
| Router.AgentLinesAround | host_agent/routing_agent.py:241-244 | the listing is the lines of the cards before any card, that card's line, then the lines of the cards after it |
| Router.ListMentionsEveryAgent | host_agent/routing_agent.py:242-244 | every registered card has its own line in the listing |
| Flows.PkceCodeFlow | idp/app.py:272-474 | consent with an S256 challenge, then an exchange with the matching verifier: tokens with the requested scope and the user's tenant within 300 seconds, expiry after that, and replay always fails |
| Flows.WeatherClientCredentials | idp/app.py:107-114 | the demonstration `weather_agent` gets a `client_credentials` token for itself with scope `api:read` |
| Flows.WeatherLookup | host_agent/test_routing_agent.py:80-115 | a `weather` request finds the weather card |
| Flows.HorizonLookup | host_agent/test_routing_agent.py:117-136 | a `horizon` request finds the tenant card only for tenant `tenant-abc` |
| Flows.SecuredAgentNeedsLogin | host_agent/test_routing_agent.py:117-136 | a tenant session without a token gets the OAuth redirect carrying the saved task's id, with one submitted task saved |
| Flows.TokenSentToSecuredAgent | host_agent/test_routing_agent.py:139-172 | with a token, the secured agent is dispatched to with `Authorization: Bearer test-token-123` |
| Flows.GlobalAgentWithoutToken | host_agent/test_routing_agent.py:80-115 | an empty session reaches the global agent with no `Authorization` header; the store gains exactly the new task id, in state `submitted` |

## Left out

- Signing, signature checks, JWK key loading, JWT encoding and decoding, and SHA-256 are left out. They are function parameters or outcome datatypes (`Crypto`, `Jose`), because they are library code.
- Base64 decoding in the Basic header is a parameter that returns `None` where Python raises.
- HTTP fetches are caller-chosen answers: discovery, JWKS, the remote agent's `send_message` and `get_task`. The registry fetch of `get_initialized_routing_agent_async` is left out.
- `urlparse`, `urlunparse` and `urlencode` are left out. The redirect is a six-field URL record, and the parameters are kept as an ordered list before percent-encoding.
- The `state` JSON is modelled without string escaping. Task ids are UUIDs, which need none.
- The wall clock is an integer `now`. Float timestamps are not modelled, and each token reads the clock once, where the source calls `datetime.now()` separately for `exp`, `iat` and `auth_time` (idp/app.py:152, 155, 173, 176-177), so its values can differ by the time between those calls.
- `os.urandom` codes and tokens, and the UUIDs, are fresh-value parameters.
- Flask routing, templates, CORS and the cookie session are left out, except for the two session keys the dialogue uses.
- Reading the key files at start-up is left out, and so is the start-up `ValueError` when `GENERATE_JWT` is on without a private key. The signer is a parameter.
- Where `generate_jwt` raises (no JWKS, no keys, a first key without `kid`), the model returns a single "crashed" outcome. This stands for HTTP 500; the exception text is not modelled.
- `/jwks.json`, `/.well-known/openid-configuration` and `/` only return fixed documents or pages, so they are left out.
- `create_agent`, `root_instruction`, `_internal_list_remote_agents` and `agents_for_prompt` are left out. They only build LLM prompt text.
- Failures in `RemoteAgentConnections` construction are left out: registration is modelled as always succeeding. A remote connection exists for the names in the `connected` set.
- `PersistentTaskStore` is not part of this model. It is an abstract map with `save`, `get`, `task_failed` and `set_remote_task_id`. `set_remote_task_id` is assumed to also mark the task working, `task_failed` to mark it failed, and both to do nothing for an unknown id; the store's source is not modelled. Durability is not modelled.
- `task.request.context` is a field of the stored task: no context, or a mapping with an optional `active_agent`. The request `Message` that `send_message` builds (host_agent/routing_agent.py:433-437) sets no context, so `get_task_status` raises when it reads one. The `Message` class is library code; the model fixes the exception text as an `AttributeError`, whichever object lacks the attribute.
- Router.GetTaskStatus: an exception raised by the remote `get_task` is not modelled; `getTask` answers a state or nothing.
- Token refresh and retry are left out because the router defines no such operation. The router's tests patch a `_refresh_access_token` that does not exist, and they call `create` with keyword arguments its signature does not accept.
- Background scheduling is left out. The dispatch is recorded as a value, and its response processing is a separate function.
- Router.SendMessage: the Python session state is an open dictionary. The model keeps only the four keys the router reads or writes: `tenant_id`, `context_id`, `access_token` and `active_agent`.
- RouterCards.FindCard: only the skill tags are matched. The card-level `tags` field of `ExtendedAgentCard` is never read by the router, so it is not modelled.
- Validator.IsTokenValid: its own contract stops at the key-set lookup. The decision after it is stated by Validator.DecisionChain and Validator.DecodeOutcomes.
- Validator.DecisionChain: it is stated for caches that keep the cache invariant, as every reachable cache does (Validator.ReachableCachesKeepInvariant). Outside it, the issuer lookup on a missing document fails with a fixed `AttributeError` text, and no lemma states that case.

## Findings

| source | as written | input that shows it | evidently intended | confidence | as-written member | corrected member |
|---|---|---|---|---|---|---|
| host_agent/routing_agent.py:472 | `asyncio.create_task(...)` is called, but `asyncio` is not among the module's imports (lines 24-50). So `send_message` raises `NameError` after saving the task and setting `active_agent`, and the task stays `submitted` forever. | the weather card registered, an empty session, agent type `weather` | the message is dispatched in the background and the confirmation with the task id is returned | not executed | Router.SendMessageAsWritten (shown by Router.AsWrittenNeverDispatches) | Router.SendMessage |
