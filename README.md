# golang-watcherclient: the token lifecycle and request path, in Dafny

This project models the core of golang-watcherclient, a Go client for the
OpenStack Watcher (infra-optim) API, and proves properties of the model.

- **Authentication** (`auth.dfy`, `sessions.dfy`). This covers the
  `Authenticator` state machine: the cached token, its expiry and the
  Watcher endpoint, and how `Authenticate`, `GetToken` and `Reauth` change
  them. It also covers option validation and building, the fixed-value
  `TokenAuthenticator`, and the `SessionManager` registry with its sweep of
  expired sessions.
- **The client** (`client.dfy`). This covers the `Client` and its
  constructors and accessors. It covers `doRequest`: get a token, send,
  handle a 401 by re-authenticating and re-issuing, and classify the
  status. It also covers the API error predicates and message, and the base
  URL of `GetVersion`: both the URL the code computes and the corrected one
  (see Findings).
- **The builders** (`query.dfy`, `patch.dfy`, `requests.dfy`, `audits.dfy`,
  `action_plans.dfy`, `audit_templates.dfy`). These are the
  list query string, the JSON Patch "replace" builder (section 4.3 of RFC
  6902) shared by the three Update operations, and the method and path of
  each audit, action plan and audit template request.

Conventions of the model:

- **Time.** Time is an integer count of nanoseconds, the unit of Go's
  `time.Duration`. The zero `time.Time` is 0, so an expiry of 0 means
  "unknown".
- **The identity service.** The service behind gophercloud
  (`AuthenticatedClient`, `tokens.Get`, `EndpointLocator`) is an
  `IdentityOutcome`. Either the credential exchange fails, or it yields a
  token plus the outcome of the expiry introspection and of the catalogue
  lookup.
- **doRequest's inputs.** `doRequest` is driven by two finite scripts. One
  holds the server's replies; once it runs out, every request is a
  transport failure. The other holds the identity outcomes; once it runs
  out, every exchange fails. The source recursion is unbounded. In the
  model it terminates because every retry consumes a reply.
- **doRequest's specification.** `Client.DoRequest` is proved equal to the
  pure function `Exchange`. That function returns the result, the
  authenticator's new state, and a trace of what happened: refreshes inside
  `GetToken`, requests with their replies, and `Reauth` calls. The
  properties of `doRequest` are lemmas about `Exchange`.
- **Byte lengths.** A Go string is a sequence of bytes, conventionally
  UTF-8, and `len` counts its bytes. A Dafny string is a sequence of
  characters. Where the client cuts a string by `len` (`GetVersion`), the
  model cuts the UTF-8 encoding (`utf8.dfy`, section 3 of RFC 3629). The
  model therefore covers strings holding valid UTF-8 only.

Where the code and its documentation disagree, the model follows the code:

- **Retries.** `doRequest` retries after every 401 while re-authentication
  succeeds. It is not limited to one retry (`RepeatedUnauthorizedRetries`).
- **No double-check.** `GetToken` does not re-check the expiry before
  refreshing. With auto-reauth on, every call made while the token is near
  expiry authenticates; with it off, those calls fail with the
  token-expired error.
- **Partial overwrite.** `Authenticate` stores the new token before the
  endpoint lookup. A failed lookup therefore leaves a new token with the old
  endpoint.
- **Failed introspection.** A failed introspection keeps the previous
  expiry. It does not reset it to unknown.
- **NewClient's scope.** `NewClient` always builds a scope, unlike
  `BuildAuthOptions`. It therefore rejects options that name neither a
  project nor a project domain.

## Model

| member | source | states |
|---|---|---|
| Auth.ValidateAuthOptionsCorrect | watcherclient/auth.go:236-264 | validation passes iff options are present, the identity endpoint is set, one of the four method groups (user+password, token, credential id+secret, credential name+secret) is complete, and a present scope names a project or domain |
| Auth.ValidateAuthOptionsOrder | watcherclient/auth.go:237-261 | the error reported is that of the first failing check in the order nil, endpoint, method, scope |
| Auth.HasAuthMethodIff | watcherclient/auth.go:246-253 | some authentication method is fully supplied iff one of the four flags the source computes holds |
| Auth.BuildAuthOptionsShape | watcherclient/auth.go:267-285 | BuildAuthOptions always allows re-authentication and sets a scope iff a project name or project domain is given; that scope names a target |
| Auth.BuildAuthOptionsValidIff | watcherclient/auth.go:267-285 | built options pass validation iff the auth URL, user name and password are all non-empty |
| Auth.NewAuthenticator | watcherclient/auth.go:44-65 | nil options and an empty endpoint fail before any authentication; otherwise one Authenticate decides, and on success a fresh authenticator holds that session and takes auto-reauth from the options |
| Auth.Authenticator.constructor | watcherclient/auth.go:54-57 | the new authenticator keeps the options, takes autoReauth from AllowReauth and caches nothing |
| Auth.Authenticator.Authenticate | watcherclient/auth.go:68-119 | the new token, expiry, endpoint and error are exactly those of the step function Authenticated |
| Auth.Authenticator.UpdateTokenExpiry | watcherclient/auth.go:122-142 | a successful introspection stores its expiry; a failed one reports the failure and leaves the expiry alone |
| Auth.AuthenticateIdentityFailure | watcherclient/auth.go:92-95 | a failed credential exchange changes nothing and reports the failure |
| Auth.AuthenticateLookupFailure | watcherclient/auth.go:97-114 | a failed endpoint lookup still replaces the token but keeps the old endpoint |
| Auth.AuthenticateExpiry | watcherclient/auth.go:100-104 | the expiry changes only through a successful introspection, and a failed one keeps the previous value |
| Auth.AuthenticateSuccess | watcherclient/auth.go:92-118 | Authenticate succeeds iff exchange and lookup succeed, and then caches the new token and endpoint; on failure the endpoint is unchanged |
| Auth.Authenticator.GetToken | watcherclient/auth.go:145-168 | the new session, the result and whether the identity service was contacted are exactly those of TokenFetched |
| Auth.GetTokenCached | watcherclient/auth.go:151-167 | outside the five-minute window (or with unknown expiry) GetToken returns the cached token and changes nothing |
| Auth.GetTokenExpiredWithoutReauth | watcherclient/auth.go:162-164 | inside the window with auto-reauth off, GetToken fails without authenticating and without changing state |
| Auth.GetTokenRefreshes | watcherclient/auth.go:153-161 | inside the window with auto-reauth on, GetToken authenticates once and returns the newly cached token or the wrapped error |
| Auth.GetTokenReturnsCache | watcherclient/auth.go:145-168 | a returned token is the one cached afterwards; the identity service is contacted iff the token is near expiry and auto-reauth is on; otherwise the state is unchanged |
| Auth.RefreshSettles | watcherclient/auth.go:152-161 | a refresh that learns an expiry at least five minutes ahead is followed, at the same time, by a cache hit |
| Auth.TokenLifecycleExample | watcherclient/auth.go:152-161 | with ten minutes left the cached token is served; with four minutes left the new token is fetched |
| Auth.ExpiredNeedsRefresh | watcherclient/auth.go:152 | an expired token is always inside the refresh window, and an unknown expiry is neither expired nor refreshed |
| Auth.Authenticator.Reauth | watcherclient/auth.go:204-206 | Reauth is one Authenticate step, whatever the expiry |
| Auth.Authenticator.GetEndpoint | watcherclient/auth.go:171-175 | returns the endpoint of the cached session, the one the last successful catalogue lookup of Authenticate stored |
| Auth.Authenticator.GetTokenExpiry | watcherclient/auth.go:197-201 | returns the expiry of the cached session, unknown until an introspection succeeds |
| Auth.Authenticator.GetAuthInfo | watcherclient/auth.go:301-324 | IsExpired agrees with IsTokenExpired; project fields are empty without a scope; an unknown expiry gives IsExpired false and TimeUntilExpiry 0; otherwise now + TimeUntilExpiry is the expiry |
| Auth.TokenAuthenticator.GetToken | watcherclient/auth.go:223-228 | fails iff the stored token is empty, and otherwise returns exactly that token |
| Auth.TokenAuthenticatorReturnsInputs | watcherclient/auth.go:215-233 | a token authenticator hands back the endpoint it was built with, and the token unless it is empty |
| Sessions.SessionManager.constructor | watcherclient/auth.go:333-337 | a new manager holds no sessions |
| Sessions.SessionManager.AddSession | watcherclient/auth.go:340-344 | the name maps to the given authenticator, replacing any earlier entry; nothing else changes |
| Sessions.SessionManager.GetSession | watcherclient/auth.go:347-357 | returns the registered authenticator iff the name is registered, otherwise the not-found error naming it |
| Sessions.SessionManager.RemoveSession | watcherclient/auth.go:360-364 | the name is gone and nothing else changes; removing an absent name is a no-op |
| Sessions.SessionManager.ListSessions | watcherclient/auth.go:367-376 | every registered name exactly once and nothing else (so none for a new manager) |
| Sessions.SessionManager.CleanupExpiredSessions | watcherclient/auth.go:379-391 | removes exactly the sessions whose token is expired at now, keeps all others, and returns how many it removed |
| Sessions.CleanupSparesLiveSessions | watcherclient/auth.go:185-194 | a session is swept iff its expiry is known and before now; unknown or future expiries survive |
| Sessions.CleanupIdempotent | watcherclient/auth.go:379-391 | a second sweep at the same time finds nothing to remove |
| WatcherClient.Client.DoRequest | watcherclient/client.go:110-172 | result, trace and new authenticator state are exactly those of Exchange on the call's method, endpoint + path and version header |
| WatcherClient.FetchEvents | watcherclient/client.go:112-115 | getting a token causes at most one refresh and no request; a token authenticator or an authenticator without auto-reauth is left unchanged |
| WatcherClient.TokenFailureSendsNothing | watcherclient/client.go:112-115 | if getting the token fails, doRequest wraps that error and sends no request |
| WatcherClient.OutcomeMatchesLastEvent | watcherclient/client.go:140-171 | a response is the last reply and is 2xx; an APIError is the last reply, neither 2xx nor 401, carrying the call's method and URL; the 401 error, transport error, Reauth failure and token failure each come from the last event; no other error occurs |
| WatcherClient.NeverUnauthorizedAPIError | watcherclient/client.go:146-168 | doRequest never returns an APIError with status 401, so IsUnauthorized is false for all its errors |
| WatcherClient.RequestsMatchCall | watcherclient/client.go:126-138 | every request sent, first or retried, carries the call's method, URL endpoint + path and the "infra-optim" version header |
| WatcherClient.ReauthOncePer401 | watcherclient/client.go:146-155 | with an auto-reauth authenticator, the number of Reauth calls equals the number of 401 replies |
| WatcherClient.NoRetryWithoutAutoReauth | watcherclient/client.go:146-158 | with a token authenticator or auto-reauth off there is at most one request, no Reauth and no refresh, and the authenticator is unchanged |
| WatcherClient.RepeatedUnauthorizedRetries | watcherclient/client.go:146-155 | starting from an unknown expiry (so GetToken never refreshes), n 401 replies followed by a 2xx, each Reauth succeeding and leaving the expiry unknown, give the response after exactly n Reauth calls and n + 1 requests: the retry is unbounded |
| WatcherClient.RetryCarriesReauthToken | watcherclient/client.go:146-155 | for every input: after a 401 with an auto-reauth authenticator and a successful Reauth, the Reauth is the next event, more events follow, and unless the new token is already inside the refresh window the next event is the re-issued request with the call's method, URL and header, the token Reauth obtained and the next reply |
| WatcherClient.ReauthFailureEnds | watcherclient/client.go:150-152 | for every input: a failed Reauth ends the call; it is the last event of the trace and the only failed Reauth in it, and the call returns the re-authentication error, so no request follows it |
| WatcherClient.RetryUsesFreshToken | watcherclient/client.go:148-155 | an example run: tok-1 is refused with 401, Reauth obtains tok-2, and the re-issued request carries tok-2 and succeeds |
| WatcherClient.Client.Ping | watcherclient/client.go:230-237 | Ping is a GET of "/" whose error, if any, is wrapped |
| WatcherClient.StatusPredicatesExclusive | watcherclient/client.go:277-306 | the four predicates hold only of API errors, at most one at a time, and not of nil or of the plain 401 error doRequest returns |
| WatcherClient.APIErrorTextShowsStatus | watcherclient/client.go:271-274 | two API errors differing only in status have different messages |
| Utf8.EncodeAppend | watcherclient/client.go:242 | the UTF-8 bytes of a concatenation are the concatenated bytes, so len is additive |
| Utf8.AsciiLength | watcherclient/client.go:242 | a string's byte length is at least its length in characters, with equality iff it is ASCII |
| WatcherClient.SlashVersionLength | watcherclient/client.go:242 | len("/" + apiVersion) is one byte more than len(apiVersion) |
| WatcherClient.EndpointBytes | watcherclient/client.go:71-72 | the bytes of base + "/v1" are the base's followed by the three bytes of "/v1" |
| WatcherClient.VersionBaseAsWrittenIff | watcherclient/client.go:242 | cutting len("/" + apiVersion) bytes off base + "/v1" recovers the base's bytes iff the API version is two bytes long (two ASCII characters) |
| WatcherClient.VersionBaseAsWrittenCut | watcherclient/client.go:242 | the cut removes exactly a tail whose byte length is that of "/" + apiVersion |
| WatcherClient.VersionBaseAsWrittenExample | watcherclient/client.go:242 | with API version "1.4" the cut eats the last byte of the base (here the ASCII digit '2', the last digit of the port) |
| WatcherClient.VersionBaseAsWrittenTwoByteExample | watcherclient/client.go:242 | a one-character version of two UTF-8 bytes ("é", U+00E9) gives the right base, since the cut counts bytes |
| WatcherClient.Client.VersionURLAsWritten | watcherclient/client.go:240-244 | the URL GetVersion builds, as bytes: the endpoint's bytes less len("/" + apiVersion) of them, then "/"; the panic exactly when the endpoint has fewer bytes than that |
| WatcherClient.Client.VersionURL | watcherclient/client.go:240-244 | the corrected URL: on an endpoint ending in "/v1" it is that endpoint without "v1", and its bytes are the as-written URL exactly when the API version is two bytes long (two ASCII characters) |
| WatcherClient.VersionURLsAgree | watcherclient/client.go:242 | on an endpoint ending in "/v1" the corrected base plus "/v1" is the endpoint, and the as-written cut gives that base's bytes iff the version is two bytes long (two ASCII characters) |
| WatcherClient.VersionBaseRestoresBase | watcherclient/client.go:241-244 | the corrected cut removes exactly the "/v1" the constructors appended |
| WatcherClient.Client.constructor | watcherclient/client.go:70-77 | endpoint = base + "/v1", apiVersion = "v1", the given authenticator and timeout |
| WatcherClient.Client.SetTimeout | watcherclient/client.go:196-198 | GetTimeout becomes the argument; GetAPIVersion, the authenticator's state and the version URL are unchanged |
| WatcherClient.Client.GetTimeout | watcherclient/client.go:201-203 | returns the timeout field: the default 30 s or the configured one after construction, t after SetTimeout(t), and unchanged by SetAPIVersion |
| WatcherClient.Client.GetEndpoint | watcherclient/client.go:206-208 | returns the endpoint, which the constructors set to base + "/v1" and nothing changes afterwards |
| WatcherClient.Client.GetAPIVersion | watcherclient/client.go:211-213 | returns the API version: "v1" after construction, v after SetAPIVersion(v), and unchanged by SetTimeout |
| WatcherClient.Client.SetAPIVersion | watcherclient/client.go:216-218 | GetAPIVersion becomes the argument; GetTimeout, the authenticator and the corrected version URL are unchanged, the version header (client.go:138) becomes "infra-optim " + version, and the as-written version URL becomes the endpoint's bytes cut by len("/" + version) bytes, then "/", or the panic when the endpoint has fewer bytes than that |
| WatcherClient.Client.GetAuthInfo | watcherclient/client.go:221-227 | the authenticator's info for a full authenticator, and the not-available error exactly for a token authenticator |
| WatcherClient.ClientAuthOptionsValidIff | watcherclient/client.go:47-62 | NewClient's options pass validation iff URL, user name and password are set and a project name or project domain is given |
| WatcherClient.ClientScopeAlwaysChecked | watcherclient/client.go:53-62 | with neither project name nor project domain, NewClient's options fail the scope check though BuildAuthOptions' pass |
| WatcherClient.NewClient | watcherclient/client.go:41-80 | an invalid option set and a failed initial authentication give the wrapped errors; otherwise a fresh client with endpoint + "/v1", version "v1", the timeout defaulted to 30 s when zero, and the authenticated session |
| WatcherClient.NewClientWithToken | watcherclient/client.go:83-92 | endpoint + "/v1", version "v1", a token authenticator of the inputs, a 30 s timeout, and both version URLs equal to endpoint + "/" (the as-written one as its bytes) |
| WatcherClient.NewClientWithAuthenticator | watcherclient/client.go:95-107 | the authenticator's endpoint + "/v1", version "v1", that authenticator and a 30 s timeout |
| WatcherClient.NewClientWithConfig | watcherclient/client.go:320-333 | NewClient's outcome (the same errors; on success a fresh client with endpoint + "/v1", version "v1", a fresh authenticator holding the initial session with NewClient's options), with a positive configured timeout replacing the client's |
| Query.BuildQueryString | watcherclient/utils.go:9-37 | the result is QueryString: "" for nil options or no parameters, else "?" and the encoded parameters in sorted order |
| Query.Encode | watcherclient/utils.go:36 | the encoded pieces are those of every key, keys in increasing order |
| Query.SortedKeys | watcherclient/utils.go:36 | the keys of the map in strictly increasing order |
| Query.Ascending | watcherclient/utils.go:36 | the sorted enumeration of a key set is strictly increasing and has exactly those keys |
| Query.SortedUnique | watcherclient/utils.go:36 | a key set has only one strictly increasing enumeration, so Encode's output does not depend on map order |
| Query.QueryStringNil | watcherclient/utils.go:10-12 | nil options give "" |
| Query.QueryStringEmptyIff | watcherclient/utils.go:16-34 | the result is "" iff limit <= 0 and marker, sort key and sort direction are all empty |
| Query.QueryParamsShape | watcherclient/utils.go:16-30 | limit appears iff positive, rendered in decimal; marker, sort_key and sort_dir each appear iff set; no key twice, keys in sorted order |
| Query.StringPtr | watcherclient/utils.go:40-42 | a fresh cell holding the argument |
| Query.BoolPtr | watcherclient/utils.go:45-47 | a fresh cell holding the argument |
| Query.IntPtr | watcherclient/utils.go:50-52 | a fresh cell holding the argument |
| Decimal.FromIntRoundTrip | watcherclient/utils.go:17 | the decimal rendering of the limit reads back as the same integer |
| JsonPatch.ReplacePatches | watcherclient/audits.go:64-71 | one patch per update key, each a "replace" of "/" + key with that key's value, every key covered, no path twice |
| JsonPatch.ReplacesExactlyLookup | watcherclient/audits.go:66-68 | every patch is a replace whose path names a key and whose value is that key's update |
| JsonPatch.NoUpdatesNoPatches | watcherclient/audits.go:64 | an empty update map gives an empty patch list |
| JsonPatch.SingleUpdate | watcherclient/audits.go:98-102 | a one-entry update map gives exactly one replace operation |
| JsonPatch.PointerInjective | watcherclient/audits.go:68 | distinct keys give distinct patch paths |
| Audits.UpdateAudit | watcherclient/audits.go:60-73 | a PATCH of "/audits/" + uuid with a patch list that replaces exactly the updates |
| Audits.StartAudit | watcherclient/audits.go:98-102 | a PATCH of the audit's path with the single operation replace "/state" "ONGOING" |
| Audits.ListAudits | watcherclient/audits.go:40-46 | a GET of "/audits" followed by the query string, which is empty for nil options |
| Audits.AuditItemRequests | watcherclient/audits.go:9-95 | Get and Delete use "/audits/" + uuid with GET and DELETE, the uuid reads back from the path, and Create is a POST of "/audits" |
| ActionPlans.UpdateActionPlan | watcherclient/action_plans.go:45-57 | a PATCH of "/action_plans/" + uuid with a patch list that replaces exactly the updates |
| ActionPlans.StartActionPlan | watcherclient/action_plans.go:82-86 | the single operation replace "/state" "TRIGGERED" |
| ActionPlans.CancelActionPlan | watcherclient/action_plans.go:89-93 | the single operation replace "/state" "CANCELLED" |
| ActionPlans.ListActionPlans | watcherclient/action_plans.go:25-31 | a GET of "/action_plans" followed by the query string |
| ActionPlans.ActionPlanItemRequests | watcherclient/action_plans.go:9-79 | Get and Delete use "/action_plans/" + uuid with GET and DELETE, and the uuid reads back from the path |
| AuditTemplates.UpdateAuditTemplate | watcherclient/audit_templates.go:60-72 | a PATCH of "/audit_templates/" + uuid with a patch list that replaces exactly the updates |
| AuditTemplates.ListAuditTemplates | watcherclient/audit_templates.go:40-46 | a GET of "/audit_templates" followed by the query string |
| AuditTemplates.AuditTemplateItemRequests | watcherclient/audit_templates.go:9-94 | Get and Delete use "/audit_templates/" + uuid, the uuid reads back from the path, and Create is a POST of "/audit_templates" |
| Requests.ItemPathRoundTrip | watcherclient/audits.go:25 | the uuid of an item path reads back unchanged |
| Requests.ItemPathInjective | watcherclient/audits.go:25 | distinct uuids give distinct item paths |
| Requests.ListRequest | watcherclient/audits.go:41-44 | the list path is the collection plus the query string, and the query is built only for non-nil options |
| Requests.Send | watcherclient/audits.go:26 | a request is sent through doRequest with its method and path |

## Left out

- **The gophercloud calls.** `AuthenticatedClient`, `NewIdentityV3`,
  `tokens.Get` and `EndpointLocator` are foreign and networked, so the
  model replaces them with `IdentityOutcome`. The stored `provider` and
  `GetProvider` go with them. So does the internal "provider not
  initialized" branch of `updateTokenExpiry`, which cannot be reached after
  a successful exchange.
- **Locks.** The `sync.RWMutex` locking and any interleaving of concurrent
  callers are concurrency, so every operation is a single sequential step.
- **The clock.** `time.Now` and `time.Until` read the clock, so time is the
  `now` parameter instead. WatcherClient.Client.DoRequest: one call reads a
  single `now`, so time does not move between retries within it.
- **HTTP and JSON.** net/http and JSON are library code, so the following
  are left out:
  - the headers other than the token and version;
  - the request body and its marshalling. `json.Marshal` fails on a value
    JSON cannot encode (a channel, a function or a NaN inside a caller's
    `interface{}` value, such as an Update value or `Audit.Parameters`,
    types.go:15). doRequest then returns "failed to marshal request body"
    (client.go:119-122) after `GetToken`, which may already have refreshed
    the token, and before any request is sent. That error path is not
    modelled;
  - `http.NewRequest` failures on malformed URLs;
  - `parseResponse`, and the decoding of results into Audit and the other
    types;
  - the closing of bodies;
  - the normalisation `req.URL.String()` applies to the APIError URL, which
    the model leaves as endpoint + path.
- **GetVersion's I/O.** Its network call and JSON decode are left out.
  Only the base URL it queries is modelled: `VersionURLAsWritten` as the
  code computes it and `VersionURL` corrected (see the finding below).
- **Percent-encoding.** The escaping inside `url.Values.Encode` is library
  behaviour, so it is a parameter `escape`. Sorting compares code points,
  which orders strings as Go's byte-wise comparison of their UTF-8 does.
- **Custom authenticators.** `NewClientWithAuthenticator` accepts any type
  with `GetToken` and `GetEndpoint`. The model allows the two
  implementations the package defines, because others have unknown
  behaviour.
- **Nil authenticators.** Go accepts `AddSession(name, nil)` (auth.go:340-344)
  and `NewClientWithAuthenticator(nil)`. The model's maps and `Provider` hold
  only non-nil authenticators. It therefore does not capture `GetSession`
  returning `(nil, nil)` for such an entry, nor the nil dereference with
  which `CleanupExpiredSessions` (auth.go:385, 186-187) or the client would
  then panic.
- Auth.Authenticator.GetAuthInfo: `now + TimeUntilExpiry == expiry` holds
  for unbounded integers. Go's `time.Until` (auth.go:320) returns an int64
  `time.Duration` that saturates for expiries about 292 years away. The same
  saturation in the refresh test of `GetToken` (auth.go:152) is not
  modelled either, because time is an unbounded integer.
- Auth.NewAuthenticator: Go keeps the caller's `*AuthOptions` pointer
  (auth.go:34, 55) and copies only `AllowReauth` (auth.go:56). An edit the
  caller makes to the options, or to their `Scope`, after construction is
  therefore seen by later `GetAuthInfo`, `Authenticate` and `Reauth` calls.
  The model copies the options into a constant field, so it does not
  capture that aliasing. `NewClient` is unaffected, since it builds its
  options itself and keeps no reference to them.
- **Retry settings.** The `ClientConfig` fields other than `Timeout` are
  unused (RetryCount and the others are a TODO in the source).
- **Create bodies.** `CreateAudit` and `CreateAuditTemplate` are modelled
  only as their request line, since their bodies are JSON.
- **Other files.** `goals.go`, `strategies.go`, `actions.go` and
  `data_model.go` are one-line path formatting over doRequest. `types.go`
  holds only struct declarations.

## Findings

| source | as written | input that shows it | evidently intended | confidence | as-written member | corrected member |
|---|---|---|---|---|---|---|
| watcherclient/client.go:242 | `GetVersion` cuts `len("/"+c.apiVersion)` bytes off an endpoint that always ends in "/" + DefaultAPIVersion | after `SetAPIVersion("1.4")` on endpoint "http://watcher:9322/v1", the base becomes "http://watcher:932"; a version longer than the endpoint panics | cut the "/v1" the constructors appended, whatever the current API version | not executed | WatcherClient.VersionBaseAsWrittenExample | WatcherClient.VersionBaseRestoresBase |
