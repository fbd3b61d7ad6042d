# Request-path core of an OAuth2 / OpenID Connect provider, in Dafny

This project models three pieces of the provider's request path and proves
what they promise:

- **The guard chain** (`middleware.dfy`, module `Middleware`). `IsAuthenticated`
  wraps `IsAuthorized`, which wraps the business handler. The request context
  carries a subject, a token and a policy list, and each of them may be nil.
  A request gets 401 unless a subject and a valid token are present. It gets
  403 unless some policy with effect Allow names the subject, the resource and
  the action, and no such policy with effect Deny exists ("deny overrides").
  Otherwise the handler runs and the status is 200. The guard's
  implementation (handler/middleware) is not modelled; its behaviour is taken
  from its test, `handler/middleware/middleware_test.go:28-135`, and policy
  evaluation follows the policy library's in-order scan. Exact string membership stands in for the
  library's matcher.
- **The authorization-request orchestrator** (`oauth2.dfy`, module `Helpers`).
  `HandleOauth2Request` runs these steps in order:
  1. Consent. An abort is returned silently; any other error is logged and returned.
  2. Grant every consented scope, then every consented audience, onto the
     authorize request.
  3. Look up the ID-token key id.
  4. Look up the access-token key id, only for the `"jwt"` strategy.
  5. Set the request id to the consent challenge.
  6. Build the ID-token claims. The issuer is normalised to exactly one
     trailing `/`, and a `sid` claim is added.
  7. Ask the response engine to mint the response.

  The authorize request is a class (`Fosite.AuthorizeRequest`) that the method
  changes in place.
- **The `/tokens` handler** (`tokens.dfy`, module `Tokens`). `PostSession` is an
  early-return sequence: decode the body, build a placeholder request, parse
  the authorize request, call the orchestrator. Its effects are recorded as a
  trace of actions: log records and the responses it writes.
  `writeAuthorizeError` either forwards to the configured error page or lets
  the protocol library write the error. `forwardError` redirects with 302 to
  the error URL, carrying an RFC 6749 error query (section 4.1.2.1).
  `error_debug` is included only when debug sharing is configured.

Supporting modules:
- `Wrappers`: Option and Result.
- `Errors`: Go error values, with the root cause that `errors.Cause` returns
  and the consent abort sentinel.
- `Url`: `url.Values` with `Set` and `Add`.
- `Configuration`: the configuration values that are read.
- `Fosite`: the protocol library's RFC 6749 error, the authorize response,
  and the authorize request class.

Collaborator outcomes are inputs of the operations. These are the consent
strategy, the two key strategies, the response engine, the JSON decoder,
`url.Parse`, `http.NewRequest`, `NewAuthorizeRequest` and the orchestrator
as `PostSession` sees it. The clock (`time.Now()`) is an input too.
`fosite.ErrorToRFC6749Error` is an uninterpreted function parameter.

Two points of the error routing, as the code has them:
- An error whose redirect URI is invalid is not written directly. It is
  redirected (302) to the configured error URL, never to the request's
  redirect URI (`tokens/handler.go:104-106`, `120`). This is consistent with
  section 4.1.2.1 of RFC 6749, which only forbids redirecting to the invalid
  URI. An error whose redirect URI is valid is handed to the protocol
  library's `WriteAuthorizeError` (`tokens/handler.go:109`), which is not
  modelled.
- The orchestrator's own abort branch returns without writing or logging
  anything (`x/helpers/oauth2.go:24-26`). `PostSession` breaks that rule: it
  routes an abort to the error responder; see Findings.

## Model

| member | source | states |
|---|---|---|
| `Middleware.Status.Code` | handler/middleware/middleware_test.go:129-135 | Unauthorized, Forbidden and OK are exactly the statuses 401, 403 and 200 |
| `Middleware.ScanIsDenyOverrides` | handler/middleware/middleware_test.go:43-69 | the in-order scan grants access iff no matching policy denies and some matching policy allows; a matching Deny beats any matching Allow |
| `Middleware.PoliciesAllow` | handler/middleware/middleware_test.go:36-92 | access is allowed iff the policy list is present, has a matching Allow and has no matching Deny; a nil or empty list denies by default |
| `Middleware.OrderIndependent` | handler/middleware/middleware_test.go:28-93 | a consequence of the deny-overrides rule the fixtures instance (each fixture list holds at most one policy): two policy lists with the same elements give the same decision, whatever their order |
| `Middleware.IsAuthenticated` | handler/middleware/middleware_test.go:113-118 | the inner handler's response passes through iff a subject and a valid token are present; otherwise 401 and the handler's output is not passed through |
| `Middleware.IsAuthorized` | handler/middleware/middleware_test.go:114-117 | the inner handler's response passes through iff the policies allow the subject the action on the resource; otherwise 403 and the handler's output is not passed through |
| `Middleware.Serve` | handler/middleware/middleware_test.go:102-120 | the nested chain gives 401 iff not authenticated and 200 iff authenticated and allowed; the handler's "ok" reaches the client iff the status is 200 |
| `Middleware.Decide` | handler/middleware/middleware_test.go:28-93 | 401 iff subject or token is nil or the token is invalid; 200 iff authenticated, the list is present, a matching Allow exists and no matching Deny; otherwise 403 |
| `Middleware.NilPoliciesLikeEmpty` | handler/middleware/middleware_test.go:86-92 | a nil policy list gives the same outcome as an empty one, for every subject, token, resource and action |
| `Middleware.InvalidTokenUnauthorized` | handler/middleware/middleware_test.go:29-35 | a known subject with an invalid token gets 401 |
| `Middleware.EmptyPoliciesForbidden` | handler/middleware/middleware_test.go:36-42 | an authenticated caller with an empty policy list gets 403 |
| `Middleware.MatchingAllowPasses` | handler/middleware/middleware_test.go:43-51 | the Allow policy for peter on /articles/74251 create gives 200, and the handler's "ok" is written |
| `Middleware.MatchingDenyForbidden` | handler/middleware/middleware_test.go:52-60 | the same policy with effect Deny gives 403 |
| `Middleware.OtherSubjectForbidden` | handler/middleware/middleware_test.go:61-69 | the Allow policy for peter does not apply to max, who gets 403 |
| `Middleware.NilTokenUnauthorized` | handler/middleware/middleware_test.go:70-78 | a nil token gets 401; the fixture's Allow policy is for peter, the caller is max |
| `Middleware.NilTokenDominatesMatchingAllow` | handler/middleware/middleware_test.go:113-117 | authentication is decided first: the caller peter with a nil token gets 401 although the Allow policy matches peter's request |
| `Middleware.NilSubjectUnauthorized` | handler/middleware/middleware_test.go:79-85 | a nil subject with a valid token gets 401 |
| `Middleware.NilPoliciesForbidden` | handler/middleware/middleware_test.go:86-92 | an authenticated caller with a nil policy list gets 403 |
| `Errors.WithStack` | tokens/handler.go:62 | wrapping with a stack keeps the root cause, so an abort stays an abort |
| `Url.Set` | tokens/handler.go:68-74 | the key then holds exactly the one value that was set; every other key is unchanged |
| `Url.Add` | tokens/handler.go:117 | the value is appended to the key's values, which are created if absent; every other key is unchanged |
| `Fosite.AuthorizeRequest.GrantScope` | x/helpers/oauth2.go:33 | the scope is appended to the granted scopes; audiences and id are unchanged |
| `Fosite.AuthorizeRequest.GrantAudience` | x/helpers/oauth2.go:37 | the audience is appended to the granted audiences; scopes and id are unchanged |
| `Fosite.AuthorizeRequest.SetID` | x/helpers/oauth2.go:55 | the id becomes the given value; the granted lists are unchanged |
| `Helpers.TrimRightSlash` | x/helpers/oauth2.go:59 | the result is a prefix of the input, does not end in '/', and everything cut off is '/' |
| `Helpers.NormalizeIssuer` | x/helpers/oauth2.go:59 | the issuer ends in '/', the character before that is not '/', and the rest is the configured URL with only slashes removed from its end |
| `Helpers.TrimRightSlashKeeps` | x/helpers/oauth2.go:59 | a string that does not end in '/' is not changed by the trim |
| `Helpers.NormalizeIssuerTrailingSlashes` | x/helpers/oauth2.go:59 | a URL without a trailing '/' plus any number of slashes normalises to that URL plus one '/' |
| `Helpers.NormalizeIssuerIdempotent` | x/helpers/oauth2.go:59 | normalising an already normalised issuer leaves it unchanged |
| `Helpers.NormalizeIssuerExamples` | x/helpers/oauth2.go:59 | `https://idp.example` and `https://idp.example///` both normalise to `https://idp.example/` |
| `Helpers.AddClaim` | x/helpers/oauth2.go:72 | the added key holds the new value, every other extra claim and every other field is kept |
| `Helpers.NewSession` | x/helpers/oauth2.go:57-88 | claims: subject, auth time, requested-at and acr come from the consent session, issuer is the normalised URL, issued-at is the current time, extras are the session's ID-token extras plus `sid` = login session id. Session: `kid` header = ID-token key id, KID = access-token key id, client id = the request's client id, challenge = consent challenge, extra = the session's access-token extras |
| `Helpers.AccessTokenKeyID` | x/helpers/oauth2.go:46-53 | the access-token key lookup is used only for the `jwt` strategy; otherwise the id is empty and cannot fail |
| `Helpers.HandleOauth2Request` | x/helpers/oauth2.go:18-94 | abort: returned without logging, request untouched. Other consent error: logged, returned, request untouched. Consent success: scopes then audiences appended in order. A key lookup failure is logged and returned; no id is set and nothing is minted. Otherwise: id = challenge, the engine gets `NewSession(...)`, and the engine's outcome is returned and logged when it is an error |
| `Tokens.ErrorQuery` | tokens/handler.go:113-118 | the query always has `error`, `error_description` and `error_hint` with the error's name, description and hint; `error_debug` is present iff debug sharing is on, and then holds the debug text |
| `Tokens.ForwardError` | tokens/handler.go:112-121 | a 302 redirect to the configured error URL (not the redirect URI) carrying exactly that query for the converted error |
| `Tokens.WriteAuthorizeErrorActions` | tokens/handler.go:103-110 | exactly one response: forward to the error page iff the redirect URI is invalid, else the library's error writer with the same error; never both |
| `Tokens.PrepareRequest` | tokens/handler.go:60-86 | decode failure: only the error is written. Placeholder URL or request failure: only logged, no response. The placeholder query sets `client_id` and `scope` from the body. It goes on iff all three steps succeed |
| `Tokens.ParseFailed` | tokens/handler.go:89-92 | an authorize-request parse failure is logged and then routed through writeAuthorizeError with that error; exactly one response is written |
| `Tokens.BeginSession` | tokens/handler.go:59-93 | as written: the early returns of PrepareRequest, then the parse outcome of the inbound request (unrelated to the placeholder) is logged and routed when it is an error; it goes on iff all four steps succeed; at most one response |
| `Tokens.BeginSessionCorrected` | tokens/handler.go:67-93 | as intended: the authorize request is parsed from the placeholder query built from the body, so the parse error, and the response routed for it, is the parser's answer for that query |
| `Tokens.PlaceholderRequestUnused` | tokens/handler.go:67-88 | two bodies with different scopes give different placeholder queries but the same trace, since the inbound request is what is parsed |
| `Tokens.PlaceholderRequestParsed` | tokens/handler.go:67-88 | once the placeholder is parsed, a parser rejecting one scope answers the two bodies differently |
| `Tokens.PostSession` | tokens/handler.go:59-101 | as written: the early returns of BeginSession; any orchestrator failure, an abort too, is routed through writeAuthorizeError with no error; success writes the authorize response; at most one response is written |
| `Tokens.PostSessionCorrected` | tokens/handler.go:95-100 | as intended: an orchestrator abort writes nothing more; any other orchestrator error is routed with that error; success writes the response; at most one response |
| `Tokens.ShadowedNilDropsError` | tokens/handler.go:95-97 | with a valid redirect URI and a failing orchestrator, the code as written writes an authorize error for a nil error, where the corrected handler passes the real error |
| `Tokens.AbortAnsweredTwice` | tokens/handler.go:95-97 | after an orchestrator abort, the code as written still writes an error response, where the corrected handler writes nothing |

## Findings

| source | as written | input that shows it | evidently intended | confidence | as-written member | corrected member |
|---|---|---|---|---|---|---|
| tokens/handler.go:95-97 | `response, nil := ...` declares a new variable named `nil` holding the orchestrator's error. `err != nil` then compares the parse error (nil) with it, and the branch passes `err`, so the error routed is always nil | `NewAuthorizeRequest` succeeds, the orchestrator fails with `server_error`, the redirect URI is valid | route the orchestrator's own error | high, not executed | `Tokens.ShadowedNilDropsError` | `Tokens.PostSessionCorrected` |
| tokens/handler.go:67-88 | the placeholder request built from the body (query at lines 67-75, request `initiatizationOAuthRequest` at line 82) is never used: line 88 parses the inbound `r`. `initiatizationOAuthRequest` is declared and never used, which Go's compiler rejects, so this revision of the file does not build and both as-written readings here are of the text only | two bodies asking for the scopes `openid` and `offline`, with the same parse outcome of the inbound request | parse the authorize request from the placeholder request | medium, not executed | `Tokens.PlaceholderRequestUnused` | `Tokens.BeginSessionCorrected` |
| tokens/handler.go:95-99 | an orchestrator abort is treated like any failure and routed through writeAuthorizeError | the consent strategy aborts (it has already answered the request) | write nothing further after an abort, as the orchestrator's own abort branch does | high, not executed | `Tokens.AbortAnsweredTwice` | `Tokens.PostSessionCorrected` |

## Left out

- The guard middleware's implementation is not part of this model. `IsAuthorized` is modelled from the test table and the policy library's scan. What it does without a subject (answering 403 here) is an assumption that the nesting never exercises.
- Middleware.IsAuthenticated: says only that on 401 the handler's output is not passed through; the guard's own error body is not modelled (the test reads only the status code), and the empty body of the model's refusals is an assumption.
- Middleware.IsAuthorized: the same holds for its 403.
- Policy matching: the policy library's pattern matcher and policy conditions are not modelled. Matching is exact string membership, which is all the fixtures exercise.
- HTTP plumbing is not modelled: the test server and `http.Get` of the guard test, routing (`SetRoutes`, `NewHandler`), the response writer and `http.Redirect`. Responses are statuses and recorded actions.
- JSON decoding, `url.Parse`, `http.NewRequest`, `q.Encode` and `urlx.CopyWithQuery` are opaque outcomes. Query strings are not encoded. A redirect carries the base URL and the query map.
- The protocol library's internals are not modelled: `NewAuthorizeRequest`, `NewAuthorizeResponse`, `WriteAuthorizeResponse`, `WriteAuthorizeError`, `ErrorToRFC6749Error` and `IsRedirectURIValid`. Their results are inputs, or a cached flag on the request.
- `ErrorToRFC6749Error` is uninterpreted, so what the library does when given a nil error (the case in Findings) is not modelled.
- Fosite.AuthorizeRequest.GrantScope: modelled as a plain append. Whether the library skips a scope that is already granted is not modelled. The same holds for GrantAudience.
- The consent strategy and the JWT key strategies, with their key storage, are tagged outcomes only.
- Helpers.NewSession: extra-claim values are kept as strings. In the code, `claims.Add("sid", ...)` also writes into the consent session's ID-token map, because the claims share that map. This aliasing is not modelled.
- `time.Now()` is the parameter `now`. Logging is a flag (`HandleOauth2Request`) or a `LogError` action (`PostSession`); log content and the logger are not modelled.
- Tokens.PostSession: the orchestrator outcome is an input, not a call of `Helpers.HandleOauth2Request`. The handler calls `oauth2.HandleOauth2Request` from another package, which is not part of this model. Its effects on the authorize request are therefore not traced here.
- The literals in the placeholder query (redirect URI, state, access type, response type) are set as written but stated nothing about. Only `client_id` and `scope` are stated.
- Request-context cancellation and per-request concurrency are not modelled.
- `tokens/registry.go` holds only interface declarations and is not modelled. `tokens/types.go` appears only as the `SessionRequest` datatype.
