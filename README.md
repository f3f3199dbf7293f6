# Investec banking MCP server — a Dafny model of its core

The server exposes the Investec private-banking REST API as agent tools. This
project models the part of `server.py` that has behaviour to state:

- **the access-token cache.** Two process-wide values, `access_token` and
  `token_expiry`, hold one token. A call reuses it while it is valid. Otherwise
  the call fetches a new one through the OAuth 2.0 client-credentials grant
  (section 4.4 of RFC 6749), with the client authenticated by HTTP Basic
  (RFC 7617). The new expiry is the provider's lifetime less a 60-second margin.
- **the request helper.** It obtains a token, builds the bearer credential
  (section 2.1 of RFC 6750) and the `Accept` header, and dispatches GET or POST
  by a case-insensitive method name. POST alone adds `Content-Type`. A non-2xx
  response raises.
- **the tools.** Each tool maps its arguments to a method, a `/za/pb/v1/...`
  path, query parameters and a JSON body.

Modules: `Wrappers` (Option, Result, Python truthiness of an optional string),
`Http` (JSON values, requests, status classes, method dispatch, bearer
header), `Config` (base-URL selection), `TokenCache` (the cache, as a
specification function `Obtain` and as the class `TokenStore`), `Gateway`
(the request helper), `Paths` (the path templates) and `Tools` (the tools).

`Config.Settings` holds the values read at start-up, and its host
`Settings.Url()` is by definition the `BaseUrl` that `USE_SANDBOX` selects; the
token URL and every API URL are built on it.

Time is integer seconds. The two clock reads of a refresh are parameters:
`now` is read at server.py:47 and `now2` at server.py:80. The token endpoint
is an oracle value `TokenReply` and the API is an oracle value `ApiReply`.
`TokenStore.tokenRequests` is a ghost log of the requests sent to the token
endpoint, so "no network call" means that the log did not grow.

Points of the code's behaviour that the model keeps as written:

- **Rejected replies.** The token request is rejected for any status outside
  200–299, because `raise_for_status` (server.py:74) decides. The status test
  at server.py:71 only prints the body, so a 201 reply is accepted
  (`Non200SuccessAccepted`). The error carries the status and the body text.
- **Token and expiry are not set together.** `access_token` is assigned
  (server.py:78) before `expires_in` is read (server.py:80-82). A 2xx body
  without a usable `expires_in` therefore raises and leaves the new token
  beside the old expiry, or beside no expiry at all
  (`MissingExpiresInKeepsNewToken`, `TokenWithoutExpiry`,
  `NewTokenServedUnderOldExpiry`).
- **A `null` token.** A 2xx body with `"access_token": null` stores `None`
  beside a fresh expiry, and the getter returns `None` without raising
  (`NullTokenStored`). The request helper then sends `Bearer None`
  (`NullTokenSentAsNone`). The call after it refreshes again, since `None` is
  falsy. What does hold of the pair is that the expiry moves only on a
  successful refresh (`ExpiryMovesOnlyOnSuccess`).
- **Content-Type.** It is added on every POST (server.py:107), with or
  without a body.
- **Order of checks.** The token is obtained (server.py:98) before the method
  name is checked (server.py:104-112). A call with an unsupported method can
  therefore still refresh the cache, although it sends no API request
  (`MakeApiRequest`).
- **Refresh race.** Nothing serialises concurrent refreshes (see "Left out").

## Model

| member | source | states |
|---|---|---|
| Config.BaseUrl | server.py:20-23 | the sandbox host is chosen exactly when `USE_SANDBOX` is the text "true"; every other value, and no value, selects production |
| TokenCache.Stored | server.py:78 | a present `access_token` is stored as `None` exactly when it is JSON `null`, and as its text when it is a string |
| TokenCache.Exchange | server.py:54-88 | the refresh branch always sends a request; on success the stored token (a string, or `None` for a JSON `null`) is the one returned and an expiry is set; a failure never changes the expiry; any failure other than a missing `expires_in` leaves the whole cache as it was |
| TokenCache.Obtain | server.py:43-88 | one call of the token getter: a returned value is the one now cached; a failure always went to the endpoint and left the expiry alone; a call without a request returns the cached token and leaves the cache unchanged |
| TokenCache.TokenStore.constructor | server.py:38-40 | the process starts with no token, no expiry and no token request sent |
| TokenCache.TokenStore.GetAccessToken | server.py:43-88 | the object's fields move as `Obtain` says; a usable cached token is returned with no state change and no request logged; otherwise exactly one client-credentials request (Basic credentials, `x-api-key`, `grant_type=client_credentials`, server.py:55-58) is logged |
| TokenCache.CacheHit | server.py:47-52 | a non-empty token with an expiry later than now is returned as it is, with no request and no change |
| TokenCache.RefreshWhenUnusable | server.py:48 | a refresh happens exactly when the token is unset or empty, the expiry is unset, or now has reached the expiry (strict `>`) |
| TokenCache.NoReusePastExpiry | server.py:48 | a token is never served from the cache at or after its expiry |
| TokenCache.RefreshStoresReply | server.py:75-85 | a 2xx reply with a string `access_token` and an `expires_in` stores the token, sets the expiry to the second clock read plus `expires_in` minus 60, and returns that token |
| TokenCache.ExpiryMargin | server.py:80-82 | a lifetime of 300 seconds gives an expiry 240 seconds after the second clock read |
| TokenCache.RejectionKeepsCache | server.py:71-74 | a non-2xx reply raises with its status and body text, and the token and the expiry keep their previous values |
| TokenCache.Non200SuccessAccepted | server.py:71-74 | a 201 reply is not rejected: only `raise_for_status` decides |
| TokenCache.MissingExpiresInKeepsNewToken | server.py:78-82 | a 2xx body without a usable `expires_in` raises, but the new token is already stored beside the old expiry |
| TokenCache.TokenWithoutExpiry | server.py:78-82 | from the initial state such a body leaves a token with no expiry: the two values are not always set together |
| TokenCache.NewTokenServedUnderOldExpiry | server.py:47-82 | after that failure, a later call can serve the new token, without a request, under the expiry that came with an earlier (empty) token |
| TokenCache.NullTokenStored | server.py:75-85 | a 2xx reply with `"access_token": null` stores `None` beside a fresh expiry and returns `None`; the next call goes to the endpoint again |
| TokenCache.ExpiryMovesOnlyOnSuccess | server.py:71-85 | the expiry changes only on a call that went to the endpoint and succeeded, and then it is set |
| TokenCache.ObtainAll | server.py:43-88 | a sequence of calls yields one result per call; in total, the calls that raised are no more than the token requests, which are no more than the calls; a run without any request leaves the cache as it found it |
| TokenCache.ObtainAllCallByCall | server.py:43-88 | call by call: each result is what one getter call gives on the cache the earlier calls left, the cache after it is that call's, it adds one request exactly when that call went to the endpoint, and a call that raised always made a request |
| TokenCache.ReuseWhileValid | server.py:47-52 | every call made before the cached expiry gets the same cached token; no call makes a request and the cache does not change |
| TokenCache.OneRequestPerLifetime | server.py:47-85 | one successful refresh with a non-empty token serves every later call before the new expiry: one request in all, the same token for every call |
| Http.ParseVerbIgnoresCase | server.py:104-106 | two method names that upper-case alike are dispatched alike, and a name is dispatched like its upper-cased form |
| Http.ParseVerbGet | server.py:104-105 | a method name is dispatched as GET exactly when it is "get" in some mix of cases |
| Http.ParseVerbPost | server.py:106-110 | a method name is dispatched as POST exactly when it is "post" in some mix of cases |
| Http.BearerRoundTrip | server.py:99 | the `Authorization` value reads back as exactly the token it carries |
| Gateway.BuildRequest | server.py:99-112 | a request is built exactly when the method is GET or POST (case-insensitive); any other name gives `UnsupportedMethod`; the URL is base URL plus endpoint, the params pass through, and the bearer header carries the token |
| Gateway.Respond | server.py:114-115 | a response gives JSON exactly when its status is 2xx and its body parses; a non-2xx status gives an error with that status and body |
| Gateway.Issue | server.py:98-115 | a request is sent exactly when a token was obtained and the method is GET or POST; a token failure is passed on; only a sent request can succeed, and then the response decides; the credential carries the returned token as the f-string renders it |
| Gateway.MakeApiRequest | server.py:91-115 | the helper moves the token cache as `Obtain` says (even when the method is then refused) and returns, and sends, what `Issue` says |
| Gateway.HeadersExact | server.py:99-107 | the headers are exactly `Authorization: Bearer <token>` and `Accept: application/json`, plus `Content-Type: application/json` on POST only; a GET sends no body |
| Gateway.MethodDispatchExamples | server.py:104-112 | "get" is sent as GET and "Post" as POST; "PUT" raises and sends nothing |
| Gateway.ErrorStatusPropagates | server.py:114 | a non-2xx response fails the call with that status and body, after the request was sent |
| Gateway.NullTokenSentAsNone | server.py:98-99 | a `None` token does not stop the call: the request goes out with `Authorization: Bearer None` |
| Paths.PathInjective | server.py:124-339 | when no identifier contains '/', distinct routes have distinct path strings, so a path string gives back its route and identifiers |
| Paths.FixedPathTemplates | server.py:124-216 | the accounts, profiles, beneficiaries and beneficiary-categories paths are exactly their literal strings |
| Paths.AccountPathTemplates | server.py:135-324 | the balance, transactions, pending-transactions, transfer, payment and documents paths are their f-string templates with the account id in place |
| Paths.ProfilePathTemplates | server.py:199-244 | the profile-accounts, profile-beneficiaries and authorisation-setup paths are their f-string templates with the profile and account ids in place |
| Paths.DocumentPathTemplate | server.py:339 | the single-document path is its f-string template with account id, document type and date in place |
| Paths.PathCollision | server.py:135-339 | for every account `a` and type `t`, the balance path of account id `a/document/t` equals the path of the document of account `a`, type `t` and date "balance" |
| Tools.TransactionQuery | server.py:156-164 | the transactions query has `fromDate`, `toDate` and `transactionType` exactly when they are non-empty, with those values; it has `includePending` exactly when that flag is true, with value "true"; there are no other keys |
| Tools.TransactionParams | server.py:156-164 | filling the query key by key yields exactly that dictionary |
| Tools.TransferPayload | server.py:273-276 | the transfer body always has `transferList`, has `profileId` exactly when an id was given (an empty id too), and has no other keys |
| Tools.TransferBody | server.py:273-276 | inserting `profileId` conditionally yields exactly that body |
| Tools.CallOf | server.py:121-341 | each tool calls the helper with its own path; transfers and payments use POST and every other tool uses GET; only transfers and payments pass a body; only transactions and documents pass a query |
| Tools.PrepareCall | server.py:121-341 | the argument building of each tool yields what `CallOf` gives |
| Tools.InvokeTool | server.py:121-341 | a whole tool call moves the token cache as `Obtain` says and returns what `Issue` gives for that tool's arguments |
| Tools.ToolsAlwaysSend | server.py:124-339 | no tool can hit the unsupported-method error: with a token, every tool sends its request to base URL plus its path |
| Tools.TransferRequestShape | server.py:273-289 | a transfer is a POST to `/za/pb/v1/accounts/{id}/transfermultiple` with no query; its body holds the list and holds `profileId` exactly when one was given |
| Tools.TransactionQueryDefaults | server.py:142-164 | with default arguments the transactions query is an empty dictionary, not an absent one |
| Tools.DocumentQueryFixed | server.py:321-325 | the documents query always holds both dates, even empty ones, and nothing else |
| Tools.PaymentBodyFixed | server.py:301-305 | the payment body is exactly `{"paymentList": paymentList}` |
| Tools.EndpointDeterminesRoute | server.py:124-339 | two tools with slash-free identifiers that call the same endpoint address the same route |

## Left out

- Concurrency. Tool calls run as async tasks; two refreshes can race and
  overwrite each other. The model is sequential: each call sees the cache as
  the previous call left it.
- The network. The httpx calls (server.py:65-68, 103-110) are oracle values.
  Connection handling and timeouts are not modelled.
- `raise_for_status` internals. The model keeps only "a non-2xx status raises".
- The clock. `datetime.now()` and `timedelta` become integer seconds, passed
  in as parameters. Expiry arithmetic has no overflow, and fractional
  `expires_in` values are not modelled.
- Python's truthiness of `token_expiry`. A `datetime` is always truthy, so the
  model treats only `None` as unset. An integer expiry of 0 counts as set.
- JSON details. Numbers are integers. An `access_token` that is a number, a
  list or an object is not modelled (it would be stored and interpolated as
  its Python text); `null` and strings are. An `expires_in` that is `null` or
  a string is treated like a missing key: the same raise after the token is
  stored.
- Non-ASCII upper-casing. `str.upper` maps some non-ASCII characters to ASCII
  letters (U+017F to 'S', for one). The model upper-cases ASCII only.
- Tool registration (FastMCP), the stdio transport and the `__main__` entry
  (server.py:10, 36, 121-341 decorators, 344-346).
- Configuration loading (`load_dotenv`, and `os.getenv` with its "" default
  for the credentials, server.py:13-19) and every debug `print` to stderr.
  The settings hold the values read; `BASE_URL` selection from
  `USE_SANDBOX` is modelled.
- `json.dumps(..., indent=2)`. A tool's result here is the parsed JSON value,
  not its text.
- test_investec_mcp_server_integration.py. It exercises the live sandbox and
  checks only the shape of the remote JSON.
- URL parsing by the HTTP client. Paths are compared as strings. An identifier
  holding `#` or `?` is sent as a fragment or query, so two distinct path
  strings (`Balance("x#")` and `Transactions("x#")`) can reach the same
  request path; percent-encoding is not modelled either.
- Paths.PathInjective: it holds only for identifiers without '/'. The
  templates interpolate identifiers unescaped, and `Paths.PathCollision` shows
  what goes wrong otherwise.
