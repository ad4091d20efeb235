# dashboard-frontend in Dafny

This project models the logic inside the injunweb dashboard front end, a React application. It covers:

- who counts as logged in and who as an administrator, and how the session is stored in the `authToken` cookie (`src/utils/auth.js`);
- the `useAuth` hook that derives those flags and handles login, register and logout (`src/hooks/useAuth.js`);
- the route guards: the components in `src/components/PrivateRoute.jsx` and `src/components/PublicRoute.jsx`, and the older router table in `src/routes.jsx`;
- the request interceptor that adds the bearer header (`src/services/api.js`);
- the base64url decoder of the VAPID key and the subscribe prompt (`src/components/SubscriptionPrompt.jsx`);
- the pure rules of the application list (description cut, status colours, list fallback) and of the submit form (name pattern, port parsing, navigate after submitting);
- the sidebar menu, and the countdown on the 404 page.

Pure code is modelled as functions and lemmas. Code that updates state in place is modelled as classes with `modifies` clauses. This covers the cookie store, the hook's handlers, the request config, the prompt, the submit page and the 404 page.

Libraries and the browser become inputs:

- the JWT decoder is a parameter from token to claims;
- the cookie store is a map from name to value and expiry, read at a given time in milliseconds;
- `atob` is base64 decoding as section 4 of RFC 4648 defines it;
- the network, the permission dialog, the push service and timers appear as the outcomes they deliver.

Modules:

- `JsValues`: shared `Option`, `Completion` (normal result or thrown exception) and `Settled` (promise outcome), plus JavaScript truthiness.
- `JsNumber`: `String(n)` and `parseInt(s, 10)`.
- `Cookies`: the browser cookie store.
- `Auth`, `UseAuth`, `RouteGuards`, `LegacyRouter`, `Api`: the session and its guards.
- `Base64Url`, `SubscriptionPrompt`: the key decoder and the prompt.
- `ApplicationList`, `ApplicationSubmit`, `Sidebar`, `NotFound`: the pages.

## Model

| member | source | states |
|---|---|---|
| Cookies.CookieStore.Set | src/utils/cookie.js:5-7 | writing a cookie replaces that name's value and expiry and leaves every other cookie as it was |
| Cookies.CookieStore.Remove | src/utils/cookie.js:13-15 | removing a cookie drops that name only; removing a missing cookie changes nothing |
| Auth.IsLoggedIn | src/utils/auth.js:4-7 | logged in exactly when the `authToken` cookie is present, unexpired and non-empty; no claim is inspected |
| Auth.IsAdmin | src/utils/auth.js:9-16 | without a token the answer is `false`; with one it is the decoded `is_admin` claim unchanged (possibly missing), and a token that does not decode throws |
| Auth.CookieExpiry | src/utils/auth.js:19-20 | the expiry is `exp * 1000` ms, a whole number of seconds equal to `exp`; a missing `exp` makes the write throw |
| Auth.SetAuthToken | src/utils/auth.js:18-23 | succeeds exactly when the token decodes and has `exp`; the cookie jar is then the old jar with `authToken` set to the token, otherwise unchanged |
| Auth.AdminImpliesLoggedIn | src/utils/auth.js:4-16 | `isAdmin()` can only answer `true` while `isLoggedIn()` holds |
| Auth.SetAuthTokenEstablishesSession | src/utils/auth.js:4-23 | after storing, the session holds exactly while the clock (in seconds) is before `exp`; during it, `isAdmin()` is the token's own claim; other cookies read as before |
| Auth.SessionEndsAtExp | src/utils/auth.js:18-22 | the stored session holds one millisecond before `exp * 1000` and not at it |
| Auth.TokenRoundTrip | src/utils/auth.js:4-23 | the token read back from the cookie is the token stored, so its decoded claims are the same |
| UseAuth.NoValidTokenMeansLoggedOut | src/hooks/useAuth.js:16-54 | without a valid token the user query is disabled and so never loading; the hook then reports logged out, not admin and not loading, whatever the cache or the cookie holds |
| UseAuth.View | src/hooks/useAuth.js:47-60 | `isLoggedIn` is token valid and (loading or user present); `isAdmin` is true only if logged in and the token's claim is `true`; the loading flags are the mutations' pending flags; the render throws exactly when logged in with an undecodable token |
| UseAuth.Invalidate | src/hooks/useAuth.js:26 | the intended invalidation marks the `user` entry stale, keeps its data, and leaves every other entry and the key set unchanged |
| UseAuth.InvalidateAsWritten | src/hooks/useAuth.js:26 | the call as written marks every cached entry stale |
| UseAuth.InvalidateAsWrittenHitsOtherQueries | src/hooks/useAuth.js:26 | with `user` and `applications` cached, the call as written stales `applications` while the intended one does not |
| UseAuth.WithoutToken | src/hooks/useAuth.js:41 | after removing the token no token can be read at any time; every other cookie keeps its name, value and expiry |
| UseAuth.RemoveTokenIdempotent | src/hooks/useAuth.js:41 | removing the token twice equals removing it once, and nobody is logged in afterwards |
| UseAuth.AuthHook.OnLoginSuccess | src/hooks/useAuth.js:24-28 | stores the token, then invalidates `user` by the corrected call (see Findings), then navigates to /applications, in that order; if storing throws, nothing else happens |
| UseAuth.AuthHook.OnRegisterSuccess | src/hooks/useAuth.js:33-35 | navigates to /login only; no token is stored and the cache is unchanged |
| UseAuth.AuthHook.OnLogoutSuccess | src/hooks/useAuth.js:40-44 | removes the token, clears the whole cache, navigates to /login, in that order; afterwards nobody is logged in at any time |
| RouteGuards.PrivateRoute | src/components/PrivateRoute.jsx:5-18 | renders the children unchanged exactly when logged in and (admin or admin not required); otherwise redirects to /login (with `replace` and `from`) when logged out, else to /applications |
| RouteGuards.PublicRoute | src/components/PublicRoute.jsx:5-16 | renders the outlet exactly when logged out; otherwise redirects to /applications with `replace` and `from` = the current location |
| RouteGuards.PrivateRouteMatchesTable | src/components/PrivateRoute.jsx:5-18 | the guard admits exactly the sessions the reference table admits for members-only and admins-only routes, and redirects to that table's fallback |
| RouteGuards.PublicRouteMatchesTable | src/components/PublicRoute.jsx:5-16 | the guard admits exactly the anonymous session and sends the rest to /applications, as the reference table says |
| RouteGuards.DefaultAdmitsEveryMember | src/components/PrivateRoute.jsx:5-17 | with `requireAdmin` left at its default, every logged-in user sees the children |
| RouteGuards.LoginCheckFirst | src/components/PrivateRoute.jsx:9-15 | a logged-out visitor goes to /login even on admin routes, whatever the admin flag says |
| RouteGuards.PublicRouteIgnoresAdmin | src/components/PublicRoute.jsx:6-15 | the decision does not depend on the admin flag and never leads to /login |
| RouteGuards.ExactlyOneRenders | src/components/PrivateRoute.jsx:9-17 | for one session, exactly one of a members-only route and a public route renders |
| RouteGuards.RedirectsSettle | src/components/PublicRoute.jsx:9-15 | the page any redirect leads to admits the same session, so guards never bounce |
| LegacyRouter.PrivateRoute | src/routes.jsx:13-15 | yields the element when logged in, otherwise a redirect to /login |
| LegacyRouter.AdminRoute | src/routes.jsx:17-19 | yields the element exactly when logged in with a `true` claim, otherwise a redirect to "/"; throws only when logged in with an undecodable token |
| LegacyRouter.PublicRoute | src/routes.jsx:21-23 | redirects to "/" when logged in, otherwise yields the element |
| LegacyRouter.Build | src/routes.jsx:25-62 | the table is built by calling each guard once, in order; it exists exactly when no guard throws, and line i is that line's path with its guarded element |
| LegacyRouter.FirstMatch | src/routes.jsx:25-62 | the router picks the first line whose path matches; none only if no line matches |
| LegacyRouter.ExactPatternsDisjoint | src/routes.jsx:28-57 | no URL matches two lines that have a path, so the array order cannot change which page shows |
| LegacyRouter.GuardOfEachRoute | src/routes.jsx:28-61 | every /admin line is wrapped by `AdminRoute`, /login and /register by `PublicRoute`, and only the catch-all is unguarded |
| LegacyRouter.UnmatchedGoesHome | src/routes.jsx:58-61 | a URL that matches no line with a path lands on the catch-all, a redirect to "/" |
| LegacyRouter.AdminRouteNeverToLogin | src/routes.jsx:17-19 | `AdminRoute` never sends anyone straight to /login |
| LegacyRouter.ExactlyOneRenders | src/routes.jsx:13-23 | for one session, exactly one of `PrivateRoute` and `PublicRoute` yields its page |
| LegacyRouter.LoggedOutAtLoad | src/routes.jsx:25-62 | loaded without a session, an admin URL goes to "/" and "/" goes to /login; the guards ran at load, so this stays after a later login |
| Api.WithBearer | src/services/api.js:10-14 | with a truthy token the headers gain `Authorization: Bearer <token>`; without one they are unchanged; no other header changes |
| Api.WithBearerIdempotent | src/services/api.js:11-13 | intercepting twice with the same token equals intercepting once |
| Api.HeaderFollowsSession | src/services/api.js:10-13 | the header is present exactly when the session is logged in at request time and carries that cookie's value |
| Api.InterceptRequest | src/services/api.js:9-16 | the token is read at request time; the same config object is returned, and only its headers change |
| Api.Intercept | src/services/api.js:8-20 | the outcome leaves the interceptor pair as it came in: a rejection passes through unchanged and touches nothing; a fulfilled config is the same object, its headers now `WithBearer` of the old ones and the token read at that moment |
| Base64Url.Padding | src/components/SubscriptionPrompt.jsx:92 | fewer than four `=` signs that bring the length to a multiple of four; none when the length already is one |
| Base64Url.ToStandard | src/components/SubscriptionPrompt.jsx:93-95 | same length; every `-` becomes `+`, every `_` becomes `/`, every other character stays in place |
| Base64Url.UrlBase64ToUint8Array | src/components/SubscriptionPrompt.jsx:91-103 | throws exactly when `atob` refuses the prepared string; otherwise returns a new array whose bytes are the decoded bytes, one per character of the binary string |
| Base64Url.KeyRoundTrip | src/components/SubscriptionPrompt.jsx:91-102 | decoding the URL-safe encoding of any byte sequence, with or without padding, gives back exactly those bytes |
| Base64Url.DecodeStdOfEncode | src/components/SubscriptionPrompt.jsx:96 | `atob` inverts the padded standard base64 encoding of any byte sequence |
| Base64Url.PaddingCompletesEncoding | src/components/SubscriptionPrompt.jsx:92-93 | padding an unpadded encoding yields the padded encoding |
| Base64Url.ToStandardOfUrlSafe | src/components/SubscriptionPrompt.jsx:93-95 | the two replacements turn the URL-safe encoding into the standard one |
| Base64Url.PaddedLength | src/components/SubscriptionPrompt.jsx:92-93 | a padded encoding has a length that is a multiple of four |
| Base64Url.OneOverGroupRefused | src/components/SubscriptionPrompt.jsx:92-96 | a key whose length leaves remainder 1 modulo 4 gets three `=` and is always refused |
| SubscriptionPrompt.SubscribeAttempt | src/components/SubscriptionPrompt.jsx:61-88 | the prompt hides exactly on a non-granted answer or a successful post; the subscription is posted only after a decoded key and a successful push subscribe; the key is fetched exactly on "granted" |
| SubscriptionPrompt.AttemptKeepsOrder | src/components/SubscriptionPrompt.jsx:62-81 | each key fetch directly follows a permission request, each push subscribe a key fetch, each post a push subscribe, across any number of presses |
| SubscriptionPrompt.Prompt.constructor | src/components/SubscriptionPrompt.jsx:10-11 | the prompt starts hidden with no registration |
| SubscriptionPrompt.Prompt.CheckSubscription | src/components/SubscriptionPrompt.jsx:48-53 | the prompt becomes visible only when there is no subscription and permission is not "denied"; otherwise it is left as it was |
| SubscriptionPrompt.Prompt.RegisterServiceWorker | src/components/SubscriptionPrompt.jsx:24-46 | a registration is kept only when supported and successful, and only then is the subscription checked |
| SubscriptionPrompt.Prompt.HandleSubscribe | src/components/SubscriptionPrompt.jsx:55-89 | without a registration nothing is asked and nothing changes; otherwise the calls of one attempt are appended and the prompt hides when the attempt says so |
| ApplicationList.ApplicationsOf | src/pages/ApplicationListPage.jsx:22 | a missing response or missing `applications` gives the empty list; a present array is kept as it is |
| ApplicationList.ShownDescription | src/pages/ApplicationListPage.jsx:43-45 | at most 103 characters; the first min(length, 100) characters are kept; a longer text ends in "..." |
| ApplicationList.ShownUnchangedIff | src/pages/ApplicationListPage.jsx:43-45 | the text is shown unchanged exactly when it has at most 100 characters, or 103 ending in "..." |
| ApplicationList.ShownDescriptionIdempotent | src/pages/ApplicationListPage.jsx:43-45 | cutting an already cut description changes nothing |
| ApplicationList.ColorsFollowTone | src/pages/ApplicationListPage.jsx:152-171 | both switches pick the colours of the same tone for every status |
| ApplicationList.ToneIgnoresCase | src/pages/ApplicationListPage.jsx:152-171 | a status and its lower-case spelling get the same tone and colours |
| ApplicationList.CaseInsensitive | src/pages/ApplicationListPage.jsx:152-171 | statuses that differ only in letter case get the same colours |
| ApplicationList.OtherIsRed | src/pages/ApplicationListPage.jsx:152-171 | any status that is not a spelling of "approved" or "pending" is red |
| ApplicationList.CardOf | src/pages/ApplicationListPage.jsx:34-60 | a card shows its application's id, name, status and repository, the colours of the status's tone, and the description as `ShownDescription` cuts it (at most 103 characters) |
| ApplicationList.Cards | src/pages/ApplicationListPage.jsx:33-34 | one card per application, in response order |
| ApplicationList.ListPage | src/pages/ApplicationListPage.jsx:19-34 | loading shows the spinner first, then an error shows "Error: " and its message, otherwise the grid holds exactly `Cards` of the listed applications (the empty list when the field is missing) |
| ApplicationSubmit.PlusMatchesIff | src/pages/ApplicationSubmitPage.jsx:118 | running the `+` loop of the pattern accepts exactly the non-empty names made of lower-case letters, digits and `-` |
| ApplicationSubmit.NameExamples | src/pages/ApplicationSubmitPage.jsx:118-120 | "my-app-2" is accepted; the empty name, upper case, `_` and spaces are refused |
| ApplicationSubmit.Entries | src/pages/ApplicationSubmitPage.jsx:99-100 | the object's keys are exactly the five field names, each holding the text of its own control |
| ApplicationSubmit.Payload | src/pages/ApplicationSubmitPage.jsx:99-101 | keys are exactly the field names; `port` is `parseInt` of the typed port; every other field is the typed string |
| ApplicationSubmit.OnlyPortConverted | src/pages/ApplicationSubmitPage.jsx:101 | a field holds a number exactly when it is `port`; all others are the submitted strings |
| ApplicationSubmit.PortParsed | src/pages/ApplicationSubmitPage.jsx:101 | a port typed as an integer, possibly followed by a fraction or exponent, is sent as that integer |
| ApplicationSubmit.SubmitPage.HandleSubmit | src/pages/ApplicationSubmitPage.jsx:97-104 | the payload is submitted, and navigation to "/" happens exactly when the submission succeeds; a rejection leaves the location unchanged |
| ApplicationSubmit.SubmitPage.Submit | src/pages/ApplicationSubmitPage.jsx:114-146 | an invalid form (a field empty or the name off-pattern) submits nothing; a valid one runs the handler |
| Sidebar.Entries | src/components/Sidebar.jsx:33-37 | one entry per menu item, in order, active exactly when its link equals the path |
| Sidebar.Render | src/components/Sidebar.jsx:30-64 | the admin section shows exactly for admins; 3 entries for users and 5 for admins, taken in order from both lists |
| Sidebar.MemberMenu | src/components/Sidebar.jsx:11-45 | a non-admin sees exactly /applications, /profile, /notifications in that order |
| Sidebar.AdminMenu | src/components/Sidebar.jsx:11-64 | an admin sees the same three first, then /admin/users and /admin/applications |
| Sidebar.NoAdminEntriesForMembers | src/components/Sidebar.jsx:46 | no admin item and no link under /admin/ appears for a non-admin |
| Sidebar.AtMostOneActive | src/components/Sidebar.jsx:11-64 | no two entries are active at once |
| Sidebar.ExactMatchOnly | src/components/Sidebar.jsx:33-62 | a path that is no entry's link, such as /applications/5, activates nothing |
| Sidebar.OwnPageActive | src/components/Sidebar.jsx:33-62 | on its own link's page each entry is active |
| NotFound.Step | src/pages/NotFoundPage.jsx:10-21 | a tick lowers the countdown by exactly one, and navigation is counted exactly when the new value is 0 |
| NotFound.RunCounts | src/pages/NotFoundPage.jsx:6-21 | after n ticks the countdown is 5 - n, and there has been one navigation if n is at least 5, none otherwise |
| NotFound.NavigatesOnFifthTick | src/pages/NotFoundPage.jsx:17-21 | the navigation happens on exactly the fifth tick |
| NotFound.MessageShowsCountdown | src/pages/NotFoundPage.jsx:30 | the shown text begins with the current countdown, which reads back as that value |
| NotFound.NotFoundPage.constructor | src/pages/NotFoundPage.jsx:6 | the countdown starts at 5 with no navigation |
| NotFound.NotFoundPage.Tick | src/pages/NotFoundPage.jsx:10-21 | one tick is the `Step` of the state before it; navigation to /applications happens when the countdown reaches 0; at most one navigation ever |
| NotFound.NotFoundPage.Text | src/pages/NotFoundPage.jsx:30 | the shown text parses back to the current countdown |
| JsNumber.ParseInt | src/pages/ApplicationSubmitPage.jsx:101 | the result is NaN exactly when no digit follows the leading white space and optional sign |
| JsNumber.ParseIntOfIntToString | src/pages/NotFoundPage.jsx:30 | a number written out with `String(n)` and followed by a non-digit reads back as `n` |

## Left out

- `src/utils/auth.js:1` and `src/services/api.js:2` import `Cookie`, but `src/utils/cookie.js:3` exports `cookie`. The model reads the one cookie store that module creates. It does not model a failing import or `Cookie` being `undefined`.
- `isTokenValid` and `removeAuthToken` are imported at `src/hooks/useAuth.js:7-8` but not defined in `src/utils/auth.js`. `isTokenValid()` is an input flag of `UseAuth.View`. `removeAuthToken()` removes the `authToken` cookie.
- UseAuth.View: `isAdmin` is reported as the truthiness of `isLoggedIn && isAdmin(user)`. The hook passes through the raw claim, which may be `undefined`, and every consumer only tests it for truthiness. The `user` argument to `isAdmin` is ignored by `src/utils/auth.js:9`, as in the source.
- The JWT library is not modelled. Decoding is a parameter that yields the `exp` and `is_admin` claims, or fails where `jwtDecode` throws. Signatures are never checked by the front end.
- Auth.IsAdmin: an `is_admin` claim that is not a boolean is not modelled; the claim is `true`, `false` or missing.
- `isLoggedIn` does not check `exp`. It is true exactly when a non-empty `authToken` cookie is present. Expiry takes effect only because the browser drops the cookie at `exp * 1000` ms (`Auth.SessionEndsAtExp`).
- UseAuth.AuthHook.OnLoginSuccess: the handler applies the corrected invalidation of the `user` query only (`UseAuth.Invalidate`). The call as written marks every cached query stale (`UseAuth.InvalidateAsWritten`, see Findings), and the handler does not model that.
- Auth.CookieExpiry: `exp` is modelled as a whole number of seconds. A JWT NumericDate may have a fraction; `new Date(exp * 1000)` would then carry milliseconds, which `CookieExpiry`'s whole-second expiry does not cover.
- React Query internals are not modelled: fetching, retries, the async scheduling of mutations and the cache's own bookkeeping. The cache is a map from key to entry, and each success handler is one atomic step.
- The hook only checks whether the `user` query returned a result; the profile's fields are not modelled.
- Timers are not modelled. A 404 tick is one interval callback plus the effect it causes. Unmounting the page, which clears the interval after navigating, is not modelled, so ticks may continue past zero.
- `atob` skips ASCII white space before decoding. The model refuses keys containing white space. All characters are also assumed to be below U+0100, as the characters of a base64 string are.
- `vapidPublicKeyResponse.vapidPublicKey` is modelled as a key string or a failed request. A response without that field (and the `TypeError` it would cause) is covered only as a failure.
- Service-worker registration, `PushManager`, the `Notification` API, `console` logging and `public/sw.js` are browser I/O. Only the decisions around them are modelled. Their answers are method parameters.
- String lengths count characters, while JavaScript counts UTF-16 code units. `toLowerCase` is modelled for ASCII letters only.
- react-router's case-insensitive matching and trailing-slash handling are not modelled. Paths are sequences of non-empty segments. A router picks the first matching line; `LegacyRouter.ExactPatternsDisjoint` shows that ranking and order agree for this table.
- `parseInt` of a digit run too long for a double is not modelled. Integers are unbounded.
- The URL and number constraints of the submit form (`type="url"`, `type="number"`) are not modelled; only `required` and the name pattern are.
- The submit page's status messages and the rest of the markup and styling are not modelled, as are the pages that only render query results.

## Findings

| source | as written | input that shows it | evidently intended | confidence | as-written member | corrected member |
|---|---|---|---|---|---|---|
| src/hooks/useAuth.js:26 | `invalidateQueries(["user"])` passes an array where version 5 of the query library expects a filter object. The hook reads `isPending` (lines 56, 58), which exists only in version 5. The filter has no `queryKey`, so it matches, and marks stale, every cached query | a cache holding `user` and `applications`: after login both are stale | only the `user` query is invalidated (`invalidateQueries({ queryKey: ["user"] })`) | medium; not executed; depends on the library version the `isPending` reads imply | UseAuth.InvalidateAsWrittenHitsOtherQueries | UseAuth.Invalidate |
