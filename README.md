# SharePoint ensure-user route, modelled in Dafny

This project models the server side of a Microsoft Teams tab that resolves
the signed-in user's identity on a SharePoint Online site: the
`POST /ensureuser` route of `src/app/api/spoRouter.ts`. For an authenticated
caller it

1. exchanges the caller's identity token on behalf of the user for a Graph
   token and a refresh token (the JWT bearer grant of section 2.1 of RFC 7523,
   with Microsoft's `requested_token_use=on_behalf_of` extension);
2. derives a token authority from the SharePoint domain (lower-cased, first
   `sharepoint` replaced by `onmicrosoft`) and redeems the refresh token there
   for a SharePoint token (the refresh-token grant of section 6 of RFC 6749);
3. posts the caller's UPN to the site's `/_api/web/ensureuser` endpoint and
   answers with `{login, lookupID, displayName}`;

and maps any failure to an HTTP error answer.

The HTTP library is not modelled: the token endpoint and the SharePoint site
are parameters (`Upstream`), functions from the request posted to how the
library's promise settles (a response with status, status text and data, or
an error with a message, an optional `status` and whether any response came
back). Everything else is modelled as the code does it.

Layout:

- `options.dfy` — `Option`, used for JavaScript values that may be `undefined`.
- `js_string.dfy` — `toLowerCase` (ASCII), `indexOf`, `replace` with a string
  pattern, `join`, template interpolation, and `Split` as the inverse of `Join`.
- `http.dfy` — requests, library outcomes, thrown values, promise states
  (`Fulfilled`, `Rejected`, `Pending` for a promise that never settles), and
  how `err.status` / `err.message` read on each thrown value.
- `credential_exchanger.dfy` — the authority and scope derivation, the two
  grant requests, `exchangeForToken` and `getSPOToken`.
- `user_resolver.dfy` — `ensureSPOUserByLogin`.
- `ensure_user_route.dfy` — `Handle`, the route's whole effect as a value (the
  requests posted in order and the answer, if any); the Express response
  object as a class; the handler `EnsureUser` as a method proved to post
  exactly `Handle`'s requests and leave exactly `Handle`'s answer.
- `route_properties.dfy` — what the route promises, as lemmas over `Handle`.
- `route_scenarios.dfy` — a successful Contoso request and a refused exchange.

Where the documented design and the code differ, the model follows the code:

- `getSPOToken`'s `catch` reads `err.response.data` before it rejects; an
  HTTP library error without a response (a transport failure) makes that
  read throw, so the promise never settles and the route never answers. The
  model has this as `Pending`, not as a 500 answer.
- A token response that resolves with a status other than 200 is rejected as
  the response object itself; its `status` is forwarded but it has no
  `message`, so the error answer's body is `undefined`.
- `ensureSPOUserByLogin` does not look at the status: any response the HTTP
  library resolves with becomes a user record. Nothing checks that the lookup
  id or display name are present.
- Whether a library error has a `status` property depends on the library's
  version; the model leaves it to the upstream outcome, so both "status
  forwarded" and "500" are covered.
- A missing `Authorization` header or a missing `domain` makes the code throw
  a `TypeError` (the header is read after authentication, the domain after the
  first exchange), answered with 500; a missing `siteUrl` is interpolated as
  `undefined` into the site URL.

## Model

| member | source | states |
|---|---|---|
| `CredentialExchanger.AuthorityDerivation` | src/app/api/spoRouter.ts:131 | the authority is the lower-cased domain with only its first "sharepoint" replaced by "onmicrosoft" (unchanged without one); it has no upper-case letter and does not depend on the domain's case |
| `CredentialExchanger.AuthorityOfSharePointDomain` | src/app/api/spoRouter.ts:131 | a domain `<tenant>.sharepoint.com`, in any case, whose tenant part (one label or several, such as "a.b") has no "sharepoint", gives `<tenant, lower-cased>.onmicrosoft.com` |
| `CredentialExchanger.AuthorityOfTenantNamedSharePoint` | src/app/api/spoRouter.ts:131 | when the tenant label itself contains "sharepoint", that occurrence is replaced instead, the authority still ends in ".sharepoint.com" and is not the tenant's ".onmicrosoft.com" name |
| `CredentialExchanger.AuthorityOfContoso` | src/app/api/spoRouter.ts:131 | "Contoso.SharePoint.com" gives "contoso.onmicrosoft.com" |
| `JsString.ReplaceSpec` | src/app/api/spoRouter.ts:131 | `replace` with a string pattern replaces exactly the first occurrence and leaves a string without one unchanged, in both directions |
| `JsString.ToLowerCaseIdempotent` | src/app/api/spoRouter.ts:131 | lower-casing twice is lower-casing once |
| `JsString.SplitJoin` | src/app/api/spoRouter.ts:77 | joining parts with a separator none of them contains is undone by splitting on it: same parts, same order |
| `CredentialExchanger.OboRequestIsJwtBearerGrant` | src/app/api/spoRouter.ts:70-78 | the exchange posts to `https://login.microsoftonline.com/<tid>/oauth2/v2.0/token` a form with each parameter once: the jwt-bearer grant type, `assertion` = the caller's token, `requested_token_use` = `on_behalf_of` |
| `CredentialExchanger.OboScopeReadsBack` | src/app/api/spoRouter.ts:77 | the `scope` parameter, split at spaces, is the scope list in order, for space-free scopes |
| `CredentialExchanger.GraphScopeParameter` | src/app/api/spoRouter.ts:127 | the route's scope parameter is "https://graph.microsoft.com/sites.readwrite.all offline_access" |
| `CredentialExchanger.GraphScopesHaveNoSpace` | src/app/api/spoRouter.ts:127 | neither route scope contains a space |
| `CredentialExchanger.RouteScopeReadsBack` | src/app/api/spoRouter.ts:127 | the route's scope parameter, split at spaces, is exactly its two scopes in order |
| `CredentialExchanger.RefreshScopeKeepsDomain` | src/app/api/spoRouter.ts:131-133 | the SharePoint token request goes to the authority derived from the domain, and its `scope` is "https://" + the domain as given (not lower-cased) + "/Sites.ReadWrite.All" |
| `CredentialExchanger.ContosoScopeAndAuthority` | src/app/api/spoRouter.ts:131-132 | for "Contoso.SharePoint.com" the request goes to the "contoso.onmicrosoft.com" token endpoint while the scope keeps "Contoso.SharePoint.com" |
| `CredentialExchanger.RefreshRequestIsRefreshGrant` | src/app/api/spoRouter.ts:39-46 | the SharePoint token request posts to the given tenant's token endpoint a form with each parameter once: grant type `refresh_token`, the given refresh token and scope, no assertion |
| `CredentialExchanger.TokenRequestsCarryClientCredentials` | src/app/api/spoRouter.ts:40-78 | both grants carry the application's client id and secret |
| `CredentialExchanger.ExchangeForToken` | src/app/api/spoRouter.ts:68-97 | fulfils exactly on status 200, with the answer's access and refresh tokens; another status rejects with the response object; a library error rejects as is; it always settles |
| `CredentialExchanger.GetSPOToken` | src/app/api/spoRouter.ts:37-66 | fulfils exactly on status 200, with the access token; another status rejects with the response object; a library error with a response rejects as is; one without a response leaves the promise pending forever |
| `UserResolver.EnsureSPOUserByLogin` | src/app/api/spoRouter.ts:99-116 | fulfils exactly when the site's call resolves, with `login` = the given login (never from the answer) and `lookupID`/`displayName` = the answer's `Id`/`Title`; a library error is passed on as is |
| `UserResolver.EnsureUserRequestShape` | src/app/api/spoRouter.ts:100-109 | the call posts `{logonName: <login>}` to `<siteUrl>/_api/web/ensureuser` with header `Authorization: Bearer <SharePoint token>` |
| `EnsureUserRoute.ErrorReply` | src/app/api/spoRouter.ts:137-142 | a truthy `err.status` is answered with that status and `err.message`, anything else with 500 and the error; never a user record |
| `EnsureUserRoute.SendError` | src/app/api/spoRouter.ts:137-142 | the `catch` block writes exactly `ErrorReply(err)` into the response |
| `EnsureUserRoute.EnsureUser` | src/app/api/spoRouter.ts:121-144 | the handler posts exactly the requests `Handle` lists, in order, and leaves in the response exactly `Handle`'s answer (nothing, and the status untouched, when a step never settles) |
| `RouteProperties.StripBearerOfBearerHeader` | src/app/api/spoRouter.ts:126 | the header "Bearer <token>" gives the token as the assertion |
| `RouteProperties.StripBearerRemovesFirstOnly` | src/app/api/spoRouter.ts:126 | any header loses only its first "Bearer ", wherever it stands; one without it is forwarded unchanged |
| `RouteProperties.CallsFormAChain` | src/app/api/spoRouter.ts:125-135 | at most three calls; the exchange is posted iff a header is present, the refresh grant iff the exchange answered 200 and the body has a domain (with the exchange's refresh token and the derived authority and scope), the `ensureuser` call iff the refresh grant also answered 200 (with its access token and the caller's UPN) |
| `RouteProperties.AnswersUserExactlyOnSuccess` | src/app/api/spoRouter.ts:125-136 | the route answers with a user record iff all three calls succeed, and then with status 200 and `{login: upn, lookupID: Id, displayName: Title}` |
| `RouteProperties.LoginIsTheCallersUpn` | src/app/api/spoRouter.ts:113 | whatever the upstream services answer, a returned user's login is the caller's UPN claim |
| `RouteProperties.FailuresAreAnsweredByTheCatchBlock` | src/app/api/spoRouter.ts:124-143 | each failing step (missing header, refused or failed exchange, missing domain, refused refresh grant, refresh grant that fails in the library with a response, failed site call) is answered with `ErrorReply` of the value it threw, and no call after the failing one is posted; a refresh grant that fails in the library without a response is not answered |
| `RouteProperties.NoAnswerOnlyWhenRefreshGrantGetsNoResponse` | src/app/api/spoRouter.ts:61-64 | the route never answers iff the refresh grant fails in the HTTP library without a response |
| `RouteProperties.ErrorStatusForwarding` | src/app/api/spoRouter.ts:137-142 | a non-200 token response forwards its status with an empty body; a library error forwards a truthy status with its message, otherwise 500; a `TypeError` gives 500 |
| `RouteScenarios.ContosoSucceeds` | src/app/api/spoRouter.ts:121-136 | for alice@contoso.com on contoso.sharepoint.com: exchange at her tenant, refresh grant at contoso.onmicrosoft.com with the exchange's refresh token, `ensureuser` posted to the team site with her login and the SharePoint token (distinct from the Graph token), answer 200 with her record |
| `RouteScenarios.ConsentMissingStopsAtFirstCall` | src/app/api/spoRouter.ts:92-95 | an exchange that fails with a library error carrying status 400 is answered with 400 and the library's message, and no SharePoint call is made |

## Left out

- Bearer-token validation (signature, audience, metadata) happens in the
  authentication library before the handler runs; the model starts from its
  output, the claims `{tid, name, upn}`, all assumed present as strings.
- The HTTP library's transport, its status validation, `qs.stringify` form
  encoding (including its dropping of `undefined` values) and JSON encoding:
  requests are kept as field lists and the services as parameters.
- The application id and secret are a `Config` value; reading them from the
  environment, and their absence, are not modelled.
- `JsString.ToLowerCase` lower-cases ASCII letters only; JavaScript's
  `toLowerCase` also maps other Unicode letters.
- A token answer without `access_token` or `refresh_token`, a site answer
  without `Id` or `Title`, a non-string `domain` or `siteUrl`, and a missing
  request body: the data fields are always present values of their types.
- `JsString.Replace` models `replace` with a replacement that holds no `$`
  patterns, which is all the route uses.
- Express's default status 200 and single `send` per response are modelled;
  its validation of status codes and serialisation of error objects are not.
- Debug logging; the unused `accessToken` local of the handler; the route
  registration and the authentication middleware wiring.
- The process-level effect of the no-response case: the `catch` callback of
  `getSPOToken` throws, which leaves a rejection nobody handles; depending on
  the Node.js version and on whether an `unhandledRejection` handler is
  installed, that may end the whole server process. The model records only
  that this request is never answered.
- Concurrency between requests and timeouts: each request is handled on its
  own and no timeout is configured.
- The Teams tab UI (`SpoRestApiTab.tsx`, `SpoRestApiTabConfig.tsx`) and the
  iframe-prevention decorators (`SpoRestApiTab.ts`) are not part of this model.
