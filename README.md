# Celestial's IndieAuth login and session bookkeeping, in Dafny

Celestial is an IndieAuth and Micropub client written for Express. This project models its core:

- **Login.** The login routes find a person's identity URL. They discover the authorization, token and Micropub endpoints, first from the HTTP `Link` header and then from the page's `<link>` elements. They redirect to the authorization endpoint, verify the authorization code, and exchange it for an access token. The token exchange is the only place where `isLoggedIn` becomes true.
- **Session helpers.**
  - clearing one-shot session keys;
  - storing and trimming the token data;
  - fetching the Micropub server's configuration and syndication targets;
  - assembling the parameters of a new post.
- **Publish and logout.** The publish and success routes, and logout with token revocation.
- **Small pure helpers.** The page-data defaults and the microformats lookups.

Each route handler is modelled twice:

- as a function from the session's contents, the request, and the replies of the remote servers to a `Transition`: the new session contents, the first answer sent (a redirect, an error handed to `next`, or a rendered view), and the requests sent;
- as a method on the `Session` object that performs the same steps in place. Its postcondition ties the new session to the function.

The library code that changes the session follows the same pattern. Properties are proved about the functions and carried over to the methods by those postconditions.

Modules:

- `Strs` (strings.dfy): the string operations the client relies on.
- `Js` (js.dfy): JavaScript values with their truthiness, optional chaining and string conversion.
- `Web` (web.dfy): URLs, HTTP messages, outcomes, and the third-party parsers, gathered as the functions of `Env`.
- `SessionStore` (session.dfy): the session object and `resetEphemeralSessionData`.
- `User` (user.dfy): `makeUrl`, `isValidUrl`, `getProfileAndDiscoveryUrls`, `setTimezone`.
- `Endpoint` (endpoint.dfy): the wanted endpoints and the two lookups.
- `Authentication` (authentication.dfy): the login routes.
- `IndieAuth` (indieauth.dfy): `setAuthData`, `cleanupAuthData`.
- `Micropub` (micropub.dfy): the capability queries.
- `PublishLib` (publish_lib.dfy): `deriveDate`, `prepareParams`.
- `PublishRoutes` (publish_routes.dfy): `/publish/` and `/success/`.
- `Logout` (logout.dfy): `/logout/`.
- `Helpers` (helpers.dfy): `pageDataHelper`, `enumValuesAsArray`.
- `Microformats` (microformats.dfy): `parseVocabulary`, `parseProperty`.

Behaviour kept as the code has it:

- **`makeUrl` prefix.** `makeUrl` prefixes `http://` only when `"://"` is at index 0. A missing `"://"` gives index -1, which is truthy, so the input goes to the URL constructor unprefixed.
- **IP check scope.** The IP check of `isValidUrl` runs on the whole serialised URL.
- **302/307 discovery URL.** On a temporary redirect, the discovery URL is read from the *followed* response's `Location` header. A missing header reaches the URL constructor as the text `null`.
- **Page pass trigger.** The page pass runs only when the header pass found *no* role at all.
- **Page pass writes.** The page pass writes only empty roles. Its first lookup error aborts it.
- **Failed token exchange.** It leaves `code` in place.
- **Syndication reset.** `setSyndicationTargets` resets an *existing* `micropub` to `{}` before storing the targets. This discards the configuration stored just before (`Micropub.TargetsDiscardConfiguration`). When `micropub` is absent, the store throws.
- **Capability query URL.** It is the endpoint's href (which already holds its query) followed by `?`, the endpoint's parameters and `q=…`. A non-empty endpoint query therefore appears twice.
- **Publishing preference.** The `switch` on `user.preferences.publishingType` (src/routes/publish.ts:157-159) puts the URL-encoded case and `default` on one branch, so the stored preference is ignored and every post is sent URL-encoded. The model of `/publish/` therefore does not read the preference.
- **Publish answer.** `/publish/` always redirects to the success page once the server answers, even with an error status. A `MicropubServerError` reaches `next` afterwards (`late`).
- **Revoked token.** Logout revokes the session's top-level `access_token`, not `indieauth.access_token`. It keeps the session when the reply carries an `error`.

## Model

| member | source | states |
|---|---|---|
| SessionStore.ClearKeysIsSurvivors | src/lib/session.ts:11-15 | deleting listed keys one by one leaves exactly the keys that are unlisted or hold a falsy value, with their values |
| SessionStore.ClearKeysRemovesTruthy | src/lib/session.ts:12-13 | no listed key with a truthy value remains |
| SessionStore.ClearKeysKeepsUnlisted | src/lib/session.ts:12-13 | unlisted keys keep their presence and value |
| SessionStore.ClearKeysKeepsFalsy | src/lib/session.ts:13 | listed keys holding falsy values stay |
| SessionStore.ClearKeysAllEmpties | src/lib/session.test.ts:15-18 | listing every (truthy) key empties the session |
| SessionStore.ClearKeysIdempotent | src/lib/session.ts:11-15 | clearing twice equals clearing once |
| SessionStore.ResetEphemeralSessionData | src/lib/session.ts:7-16 | the loop deletes in place and leaves `ClearKeys` of the old session; without a session nothing happens |
| SessionStore.Session.Destroy | src/routes/logout.ts:45-46 | `req.session.destroy()`: the session is empty and marked destroyed |
| User.MakeUrlInput | src/lib/user.ts:10-27 | the input's ASCII letters are lower-cased, and `http://` is prepended exactly when `"://"` starts it |
| User.IsValidUrl | src/lib/user.ts:29-72 | valid iff every check passes; otherwise the message of the first failing check, in the order username, password, port, protocol, hash, IP of the whole URL |
| User.ValidUrlShape | src/lib/user.ts:31-55 | a valid URL has no credentials, port or fragment, an HTTP(S) scheme, and an href the IP test rejects |
| User.Classify | src/lib/user.ts:107-147 | 302/307 are temporary, 301/308 permanent, everything else no redirect |
| User.GetProfileAndDiscoveryUrls | src/lib/user.ts:74-182 | no request is sent iff the address does not parse or fails validation; a validation failure rejects with its message; the first request is the HEAD of the address |
| User.PermanentRedirect | src/lib/user.ts:144-166 | 301/308 with `Location`: profile and discovery URL are both the location |
| User.RedirectWithoutLocation | src/lib/user.ts:107-158 | a redirect without `Location` rejects with the message of its kind |
| User.TemporaryRedirect | src/lib/user.ts:107-141 | 302/307: the follow-up GETs the location; a non-ok follow-up rejects; the result is Ok iff the follow-up is ok and both URLs parse, and then the profile URL is the entered URL and the discovery URL the followed reply's `Location` |
| User.NoRedirectFallback | src/lib/user.ts:167-178 | any other status: both URLs are the entered URL and nothing fails |
| User.WithTimezone | src/lib/user.ts:187-189 | `user.timezone` is set (even to undefined); `user` holds exactly its old fields plus `timezone`, other fields and session keys unchanged |
| User.SetTimezone | src/lib/user.ts:187-189 | the in-place write equals `WithTimezone`; without a session nothing happens |
| Endpoint.EndpointsWantedShape | src/lib/endpoint.ts:5-18 | exactly three entries, authorization_endpoint/authorization, token_endpoint/token, micropub/micropub, with distinct names and keys |
| Endpoint.FindEndpointInHeaders | src/lib/endpoint.ts:20-27 | the target of the first `Link` entry with that relation; nothing iff no entry has it |
| Endpoint.FirstLinkWithRel | src/lib/endpoint.ts:33 | the first `<link>` whose `rel` is the name, or -1 iff there is none |
| Endpoint.SelectedHref | src/lib/endpoint.ts:33 | the `href` of that first element, nothing when there is none |
| Endpoint.FindEndpointInBody | src/lib/endpoint.ts:29-38 | Ok iff the selected href is non-empty and parses, and it is then the href of a matching element; no matching element gives the error naming the key; an unparsable href gives the URL constructor's error |
| Authentication.LoggedInGuard | src/routes/authentication.ts:32-43 | a session with truthy `isLoggedIn` is redirected to `/`, and only such a session |
| Authentication.LoginPage | src/routes/authentication.ts:45-69 | renders `login` with the pending error and sets `error` to null |
| Authentication.LoginErrorShownOnce | src/routes/authentication.ts:63-64 | a second visit shows null, and only `error` changes |
| Authentication.LoginPageHandler | src/routes/authentication.ts:45-69 | the handler's in-place steps equal `LoginPage` |
| Authentication.HeaderPassKeepsOthers | src/routes/authentication.ts:166-188 | the header pass leaves keys outside the wanted list unchanged |
| Authentication.HeaderPassRoles | src/routes/authentication.ts:166-188 | each role the `Link` header names with a non-empty target is set to that target; every other role is unchanged |
| Authentication.HeaderPassAnyRole | src/routes/authentication.ts:149-196 | starting from `{}`, some role is set iff the header names one of the three relations with a non-empty target |
| Authentication.BodyPassKeeps | src/routes/authentication.ts:231-250 | the page pass never overwrites a role already set nor touches other keys |
| Authentication.BodyPassSucceeds | src/routes/authentication.ts:231-250 | the page pass completes iff every role was already set or is found in the page |
| Authentication.BodyPassFillsAll | src/routes/authentication.ts:231-259 | a completed page pass leaves all three roles set |
| Authentication.BodyPassError | src/routes/authentication.ts:232-237 | a failed page pass reports the error of one of its lookups |
| Authentication.WithProfile | src/routes/authentication.ts:112-123 | `profileUrl` and `discoveryUrl` are stored in `user`; `user` holds exactly its old fields plus those two, other fields and session keys unchanged |
| Authentication.TryWithoutAddress | src/routes/authentication.ts:83-88 | without `me`: AppError "No web address specified.", nothing sent, session unchanged |
| Authentication.TryInvalidAddress | src/lib/user.ts:89-91 | an address failing validation fails with its message before any request |
| Authentication.TryProfileTouchesOnlyUser | src/routes/authentication.ts:92-129 | the first part of `/try/` changes only `user` |
| Authentication.TryDiscoverTouchesOnlyEndpoints | src/routes/authentication.ts:131-282 | the discovery part changes only `endpoints` |
| Authentication.TryProfileTimezone | src/routes/authentication.ts:92-100 | a submitted time zone is merged into `user` |
| Authentication.TryKeepsTimezone | src/routes/authentication.ts:92-129 | when an address is given, a submitted time zone and the other user fields survive the whole handler |
| Authentication.TryHeaderPass | src/routes/authentication.ts:143-276 | after a successful HEAD, `endpoints` is the header pass from `{}`; a found role redirects to `/login/auth/` without a page fetch; the page is fetched iff no role was found and a discovery URL is stored |
| Authentication.TryRedirectHasRoles | src/routes/authentication.ts:192-276 | every redirect to `/login/auth/` leaves a role set, and all three when the page was read |
| Authentication.TryKeepsLoginState | src/routes/authentication.ts:71-284 | `/try/` never changes `isLoggedIn` or `appState` |
| Authentication.CollectFromHeaders | src/routes/authentication.ts:149-188 | the `forEach` writing roles in place equals the header pass |
| Authentication.CollectRoleFromPage | src/routes/authentication.ts:232-247 | one iteration: an empty role is looked up and, when found, written to `session.endpoints`, as one step of the page pass |
| Authentication.CollectFromPage | src/routes/authentication.ts:231-250 | the `forEach` over the wanted roles, stopping at the first error, equals the page pass |
| Authentication.TryProfileStage | src/routes/authentication.ts:83-129 | in-place steps equal the first part of `/try/` |
| Authentication.TryPageStage | src/routes/authentication.ts:197-266 | in-place steps equal the page part of `/try/` |
| Authentication.TryDiscoverStage | src/routes/authentication.ts:131-282 | in-place steps equal the discovery part of `/try/` |
| Authentication.TryHandler | src/routes/authentication.ts:71-284 | the whole handler's in-place steps equal `Try` |
| Authentication.AuthQuery | src/routes/authentication.ts:292-298 | parameters me, client_id, redirect_uri, state (the CSRF secret), scope=create, response_type=code, in that order |
| Authentication.Auth | src/routes/authentication.ts:286-318 | redirects to the stored authorization endpoint with that query iff one is stored; otherwise the lost-endpoint AppError |
| Authentication.TryThenAuth | src/routes/authentication.ts:166-309 | after discovery found the authorization endpoint in the header, `/auth/` goes to exactly that endpoint |
| Authentication.CallbackOutcome | src/routes/authentication.ts:320-393 | the code is stored and the browser sent to `/login/token/` iff a code came in, an authorization endpoint is stored and the reply has `me` and `scope`; otherwise an AppError (no code: "No code provided by the authorization server.") with the session unchanged |
| Authentication.CallbackHandler | src/routes/authentication.ts:320-393 | in-place steps equal `Callback` |
| Authentication.CsrfErrorHandler | src/routes/authentication.ts:396-412 | `EBADCSRFTOKEN` becomes the "Form tampered with." AppError; other errors pass through |
| Authentication.CsrfErrorHandlerIdempotent | src/routes/authentication.ts:396-412 | handling twice is handling once |
| Authentication.MissingTokenField | src/routes/authentication.ts:446-460 | none missing iff `access_token`, `token_type` and `scope` are truthy; otherwise the first missing field's message |
| Authentication.TokenOutcome | src/routes/authentication.ts:414-502 | logs in iff a token endpoint is stored and the reply has all three fields; any other result is an AppError with the session (`code`, `indieauth`, `isLoggedIn`) unchanged |
| Authentication.TokenLogsIn | src/routes/authentication.ts:468-485 | a successful exchange yields `LoggedIn` and a redirect to `/` |
| Authentication.LoggedInShape | src/routes/authentication.ts:474-483 | `code` is null, `indieauth` holds exactly the three truthy token fields, `isLoggedIn` true, `appState` User, other keys kept |
| Authentication.TokenMissingField | src/routes/authentication.ts:446-493 | a missing field fails with its message and keeps the session |
| Authentication.TokenSendsCode | src/routes/authentication.ts:423-428 | the token request's `code` is the stored code |
| Authentication.CallbackThenToken | src/routes/authentication.ts:377-482 | the code the callback stored is the one exchanged; after the exchange the guard sends the browser home |
| Authentication.OnlyTokenLogsIn | src/routes/authentication.ts:481-483 | the callback and the login page never change `isLoggedIn` or `appState` |
| Authentication.TokenHandler | src/routes/authentication.ts:414-502 | in-place steps equal `Token` |
| IndieAuth.WithAuthDataSpec | src/lib/indieauth.ts:13-19 | `indieauth` is created when falsy; the three token fields come from the data; `code` and other fields are kept; only a truthy non-object `indieauth` throws |
| IndieAuth.WithAuthDataIdempotent | src/lib/indieauth.ts:13-19 | setting the same data twice equals once |
| IndieAuth.SetAuthData | src/lib/indieauth.ts:6-20 | in-place steps equal `WithAuthData`; no session: no-op |
| IndieAuth.WithoutCodeSpec | src/lib/indieauth.ts:28 | only `indieauth.code` is removed; no `indieauth` object: no change |
| IndieAuth.WithoutCodeIdempotent | src/lib/indieauth.ts:28 | cleaning up twice equals once |
| IndieAuth.SetThenCleanup | src/lib/indieauth.ts:13-28 | after set then cleanup the token fields remain and `code` is gone |
| IndieAuth.CleanupAuthData | src/lib/indieauth.ts:22-29 | in-place steps equal `WithoutCode`; no session: no-op |
| Micropub.QueryUrlShape | src/lib/micropub.ts:31-43 | the query URL is the href, `?`, the endpoint's own parameters and then `q=<q>` |
| Micropub.EnsureMicropub | src/lib/micropub.ts:59-60 | `micropub` is created as `{}` when falsy and kept when truthy; no other key changes |
| Micropub.ConfigurationMerges | src/lib/micropub.ts:59-65 | an object `micropub` becomes its old fields overlaid by the config, a falsy one becomes the config, a truthy non-object one is left as is (empty config); other session keys kept |
| Micropub.ConfigurationThrows | src/lib/micropub.ts:59-65 | a null reply, or a non-object `micropub` with keys to copy, throws after `micropub` was created |
| Micropub.ConfigurationFailsCleanly | src/lib/micropub.ts:31-72 | an unbuildable query or unreadable reply changes nothing and reports an error |
| Micropub.EmptyTargetsChangeNothing | src/lib/micropub.ts:109 | an empty `syndicate-to` list leaves the session unchanged |
| Micropub.TargetsResetMicropub | src/lib/micropub.ts:109-118 | a non-empty list replaces an existing `micropub` with `{"syndicate-to": list}` |
| Micropub.SyndicationOnlyWhenMissing | src/lib/micropub.ts:10-22 | the syndication query is sent iff the config step succeeded, left `syndicate-to` falsy and its query URL can be built |
| Micropub.CapabilityQueriesCarryToken | src/lib/micropub.ts:44-98 | every query carries `Authorization: Bearer <indieauth.access_token>`, Content-Type and Accept |
| Micropub.TargetsDiscardConfiguration | src/lib/micropub.ts:14-117 | after both steps `micropub` holds only the targets; config data such as `media-endpoint` is lost |
| Micropub.SetConfigurationData | src/lib/micropub.ts:24-74 | in-place steps equal `ConfigurationData` |
| Micropub.CopyEntries | src/lib/micropub.ts:62-65 | the key-by-key loop equals the merge |
| Micropub.SetSyndicationTargets | src/lib/micropub.ts:76-127 | in-place steps equal `SyndicationTargets` |
| Micropub.SetMicropubCapabilities | src/lib/micropub.ts:10-22 | in-place steps equal `Capabilities` |
| PublishLib.DateFieldsSplit | src/lib/publish.ts:10-11 | `Y-M-D` and `H:M` reach the time-zone library as their five fields |
| PublishLib.DateWithoutSeparators | src/lib/publish.ts:10 | a date without `-` is all year; month and day are undefined |
| PublishLib.TargetParams | src/lib/publish.ts:42-44 | one `mp-syndicate-to[]` per element, in order |
| PublishLib.PreparedParamsOrder | src/lib/publish.ts:33-49 | `h`, `content` from `note`, `published` first, then only syndication pairs |
| PublishLib.PreparedParamsPublished | src/lib/publish.ts:27-36 | `published` is the library's ISO date; a refused date throws |
| PublishLib.SyndicationShapes | src/lib/publish.ts:39-49 | array gives one `[]` pair per element, a non-empty string one pair, absent or empty none |
| PublishLib.AppendTargets | src/lib/publish.ts:42-44 | the loop appends `TargetParams` |
| PublishLib.PrepareParams | src/lib/publish.ts:25-52 | the appends equal `PreparedParams` |
| PublishRoutes.PublishRequestShape | src/routes/publish.ts:176-186 | POST to the Micropub endpoint with Accept JSON and Bearer `indieauth.access_token`, carrying the prepared parameters |
| PublishRoutes.PublishStoresLocation | src/routes/publish.ts:217-222 | any reply redirects to `/publish/success/`; only a non-empty `Location` sets `postLink` |
| PublishRoutes.PublishLateError | src/routes/publish.ts:188-200 | a non-ok reply parsing to an object hands `MicropubServerError("<error> <error_description>")` to `next` |
| PublishRoutes.PublishFailures | src/routes/publish.ts:160-229 | unprepared parameters send nothing; an unreachable server is an AppError with the session kept |
| PublishRoutes.PublishHandler | src/routes/publish.ts:148-231 | in-place steps equal `Publish` |
| PublishRoutes.SuccessShowsPostLink | src/routes/publish.ts:27-30 | the page shows the stored `postLink` |
| PublishRoutes.SuccessClearsPostLink | src/routes/publish.ts:32 | afterwards no truthy `postLink` remains, other keys kept, and a second visit shows a falsy one |
| PublishRoutes.PublishThenSuccess | src/routes/publish.ts:27-219 | a stored `Location` is shown on the next success page only |
| PublishRoutes.SuccessHandler | src/routes/publish.ts:26-35 | in-place steps equal `Success` |
| Logout.LogoutDestroysIff | src/routes/logout.ts:39-61 | destroyed iff redirected home iff a token endpoint is stored and the reply is ok, or parses to a non-null value without a truthy `error`; otherwise an AppError with the session kept |
| Logout.LogoutNeedsTokenEndpoint | src/routes/logout.ts:25-30 | no token endpoint: AppError and nothing sent |
| Logout.LogoutReportsDescription | src/routes/logout.ts:44-61 | an `error` reply reports `error_description` |
| Logout.RevokeUsesTopLevelToken | src/routes/logout.ts:20-23 | `token` is the top-level `access_token`, independent of `indieauth` |
| Logout.LogoutHandler | src/routes/logout.ts:14-63 | in-place steps equal `Logout` |
| Helpers.PageDataHelper | src/lib/helpers.ts:15-41 | keys of `data` override the defaults; all default keys present |
| Helpers.PageDataDefaults | src/lib/helpers.ts:21-38 | title, subtitle, truthy appState (Guest by default), identity = `user.profileUrl` |
| Helpers.SuppliedUserReplacesDefault | src/lib/helpers.ts:19-40 | a supplied `user` replaces the default user wholesale |
| Helpers.EnumValuesAsArray | src/lib/helpers.ts:46-48 | the values in declaration order |
| Helpers.FormEncodingValues | src/enumerator/FormEncoding.ts:1-5 | the three encodings' values in order |
| Microformats.FindVocabulary | src/lib/microformats.ts:21-23 | index of the first item of that type, -1 iff none |
| Microformats.ParseVocabulary | src/lib/microformats.ts:16-24 | the first item of that type, undefined iff none |
| Microformats.ParseProperty | src/lib/microformats.ts:26-43 | `properties[property]` of the matched item; undefined when vocabulary or property is absent |

## Left out

- **Network and promises.** All network I/O and promise chaining are left out. Each remote reply is an input (`Reply`), and each handler is one transition.
- **Execution after `next()`.** Where the code calls `next()` without returning and then continues (src/routes/authentication.ts:39-41, 83-88, 124-131), the model records the first outcome and stops. When `me` is missing, the later time-zone write and the continued discovery are not modelled.
- **Late publish failures.** On `/publish/`, the unhandled rejection of a non-ok reply that cannot be read is not modelled.
- **Third-party parsers.** The `URL` constructor, `http-link-header`, cheerio, `is-ip`, JSON parsing, form escaping and the microformats parser are functions of `Env`. Their behaviour is not modelled.
- **Dates.** luxon's zone arithmetic in `deriveDate`, and all of src/lib/date.ts, are outside the model; the zone conversion is an abstract function.
- **Status rejection.** `got`'s own rejection of error statuses is folded into `Unreachable`.
- **Error wording.** The engine's wording of a TypeError is the constant `TypeErrorMessage`.
- **Numbers.** JavaScript numbers are integers here.
- **Arrays under `micropub` or `indieauth`.** Named properties written into an array stored under `micropub` or `indieauth` are not modelled. Such an array is treated like the primitives, whose assignment throws.
- **Arrays or strings under `user`.** `WithTimezone` and `WithProfile` treat an array or a string stored under `user` as `{}`. The model does not capture that set-value keeps an array in place and adds the property, nor that `Object.assign` copies a string's index keys.
- User.MakeUrlInput: lower-cases only the ASCII letters `A`-`Z`. `String.prototype.toLowerCase` folds every Unicode letter, so for an input containing `Ü` the source stores `ü` while the model keeps `Ü`.
- **Index keys of replies.** `Object.keys` of a configuration reply that is an array or a string yields index keys; the model treats such replies as having no keys.
- **Absent sessions.** In the route handlers and the Micropub helpers, the session is present. Without a session, `pageDataHelper` reads like an empty session.
- **src/routes/user.ts** is not part of this model: it calls preference functions that src/lib/user.ts does not define.
- **Page routes.** The thirteen page routes of src/routes/publish.ts:37-145 only render a view with a title and are not modelled.
- **Session store errors.** Errors of the session store's `destroy` callback are not modelled.
- **Logging, middleware and build tooling** are not modelled.
- **src/lib/userProfile** is not part of this model. The login route imports `getProfileAndDiscoveryUrls` from it, and the model uses the function of the same name in src/lib/user.ts.
- **Missing configuration.** The client registration (`client_id`, `redirect_uri`) and the application title come from a constants file that does not export them, so they are an `AppConfig` parameter.
- **`AppUserState`.** The enumeration's file is missing. Its members are modelled as the strings `Guest` and `User`.
