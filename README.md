# Session, routing and form rules of a product-catalog admin front-end

This project models the client-side core of a Next.js administration front-end
for a product catalog, and proves properties of that model in Dafny.

- **HTTP client and session store** (`ApiService`, `api_service.dfy`). The client keeps an access token and a
  refresh token, both in memory and in `localStorage`. It attaches a bearer header when it has a token. When a
  request meets a 401, or a fetch fails with "Failed to fetch", it awaits a refresh another caller has pending, or
  else refreshes the tokens itself, and re-issues the request once. A failed refresh loads the login page. A
  re-issue that fails again is answered as it comes, without a second refresh. Any other thrown error loads the
  login page at once.
- **Route guard** (`AuthGuard`, `auth_guard.dfy`). A pure decision on the loading flag, the authentication flag,
  the path, the role and the allowed roles. It yields at most one redirect.
- **Authentication provider** (`AuthProvider`, `auth_context.dfy`). It hydrates the role from storage and reacts
  to storage events from other tabs. Its login, logout and pass-through operations go through the client.
- **Page rules.**
  - The product list (`products_page.dfy`): pagination arithmetic, the search reset and the admin gate.
  - The add-user form (`add_user_page.dfy`, with `numerals.dfy` for `toString`/`Number` on role ids).
  - The set-password form (`set_password_page.dfy`).

Modelling choices:

- **Network.** One top-level request needs at most three fetch outcomes: its own fetch, one refresh and one
  re-issue. So the network is an `Outcomes` value holding those three.
- **Foreign effects.** Fetch calls, toasts and `window.location.href` assignments are an ordered
  `seq<Effect>` on the client object. The targets of `router.push` are a `pushes` sequence on each component.
- **Storage.** `localStorage` is a `map<string, string>`.
- **How a call ends.** `Settled` distinguishes a resolved promise from a rejected one. The client's `request`
  does not catch every rejection, as explained below.
- **Client state.** Pure functions over a `Session` value (`SetTokensSpec`, `RefreshSpec`, `RequestSpec`, …)
  state what each client operation does. The methods of `class ApiService` do the same step by step. Each method
  is proved to end in the state, result and effects its function gives.

`request` can reject. It returns `this.handleResponse(response)` from inside its `try` without awaiting it, so a
body that fails to decode as JSON rejects the promise past the `catch`. The model follows the code:
`HandleResponseSpec` gives `Rejected` when `json` is `None`. The callers in the provider turn that rejection into
`false` through their own `catch`.

## Model

| member | source | states |
|---|---|---|
| Types.Truthy | lib/api-service.ts:82 | a string is truthy iff it is neither null/undefined nor the empty string |
| Types.StartsWith | components/auth-guard.tsx:22 | `startsWith` holds iff the prefix is no longer than the string and agrees with it character by character |
| Types.Contains | lib/api-service.ts:154 | `includes`: the part occurs in the string at some position at which it fits; a prefix occurs, and a part longer than the string never does |
| Types.GetItem | lib/api-service.ts:13-14 | `getItem` gives the stored entry for a present key and null for a missing one |
| Types.Succeeded | lib/auth-context.tsx:65 | the envelope test `!hasError && result`: no error and a result to read |
| Api.AfterPending | lib/api-service.ts:119-120 | a caller that awaited a pending refresh resumes with the granted pair in memory and storage, or with both tokens and the three session keys gone after a failed one; the slot is free, the session consistent, no other storage key changed |
| Api.SetTokensSpec | lib/api-service.ts:18-29 | both in-memory and both stored tokens become the given ones; `userRole` is written only for a truthy role and otherwise keeps its previous entry; no other storage key changes |
| Api.ClearTokensSpec | lib/api-service.ts:31-40 | both in-memory tokens become null and exactly the keys accessToken, refreshToken and userRole are removed; every other key keeps its entry |
| Api.RefreshSpec | lib/api-service.ts:42-75 | true iff a refresh token is held and the endpoint answered non-401 with an envelope without error and with a result, and then the session holds the granted tokens; in every other case (no token, 401, error envelope, undecodable body, exception) the session is cleared; the refresh endpoint is fetched exactly when a token is held |
| Api.HeadersFor | lib/api-service.ts:77-88 | Content-Type is always application/json; Authorization is present iff the access token is truthy and is then `Bearer <token>`; no other header |
| Api.AttachedBody | lib/api-service.ts:111-113 | a body is attached iff one is given and the method is not GET, and it is the given one |
| Api.Accepted | app/products/page.tsx:51 | a settled call passes the envelope test iff it resolved to an envelope without error and with a result; a rejection fails it |
| Api.RefreshCall | lib/api-service.ts:49-55 | the refresh fetch is a POST of the held refresh token to the refresh endpoint, with a JSON content type and no bearer header |
| Api.RefreshGranted | lib/api-service.ts:57-64 | the refresh is granted iff its fetch answered with a status other than 401 and an envelope without error and with a result |
| Api.RequestCall | lib/api-service.ts:105-113 | the request's fetch goes to the endpoint under the base URL with the given method, a bearer header exactly when an access token is held, and the body exactly when one is given and the method is not GET |
| Api.AuthenticationFailed | lib/api-service.ts:127 | the made-up `{401, "Authentication failed"}` envelope, which no caller accepts |
| Api.NetworkFailure | lib/api-service.ts:174 | the made-up `{500, message}` envelope carrying the thrown message, which no caller accepts |
| Api.ErrorMessage | lib/api-service.ts:147 | the thrown error's message, or "Network error" when the thrown value is not an `Error` |
| Api.HandleResponseSpec | lib/api-service.ts:90-102 | state unchanged; rejects iff the body does not decode; otherwise resolves to the decoded envelope; a toast with the error message exactly when the envelope has an error with a truthy message |
| Api.RequestSpec | lib/api-service.ts:104-176 | the first effect is the fetch of the request with the current headers and attached body; with `retry` false the session is untouched; the refresh slot is never left set when it was free |
| Api.RespondedSpec | lib/api-service.ts:116-145 | anything but a 401 with `retry` is exactly `handleResponse`'s answer; with `retry` false the session is untouched |
| Api.ThrownSpec | lib/api-service.ts:146-175 | the first effect is the toast of the message; without "Failed to fetch" and `retry` the answer is `{500, message}`, the session is untouched and the only other effect is a page load of /login |
| Api.ReauthenticateSpec | lib/api-service.ts:131-142 | after the caller's own refresh the refresh slot is null again |
| Api.RequestBounded | lib/api-service.ts:118-175 | a request performs exactly one refresh fetch of its own when its own fetch met a 401 (or "Failed to fetch") with `retry`, no refresh was pending and a refresh token was held, and none otherwise (after a failed pending refresh no token is left to send); at most two fetches (one when `retry` is false); at most one page load of /login |
| Api.RespondedBounded | lib/api-service.ts:118-145 | the same bounds for what follows a first fetch that answered: one re-issue at most, and none with `retry` false |
| Api.ThrownBounded | lib/api-service.ts:146-175 | the same bounds for what follows a first fetch that threw, the toast included |
| Api.ReauthenticateBounded | lib/api-service.ts:131-142 | the refresh-and-re-issue path refreshes once when a refresh token is held, fetches at most once and loads /login at most once |
| Api.RequestKeepsSession | lib/api-service.ts:104-176 | from a session whose memory mirrors storage, a request leaves one that still does, and touches no storage key outside the three session keys |
| Api.ReauthenticateKeepsSession | lib/api-service.ts:131-142 | the same for the refresh-and-re-issue path |
| Api.UnauthorizedOutcomes | lib/api-service.ts:118-145 | a response that is not a 401 with `retry` goes straight to `handleResponse`; a 401 behind a failed pending refresh gives `{401, "Authentication failed"}` and a page load of /login, in the session that refresh cleared, with the slot free; a 401 whose own refresh fails gives the same answer with the session cleared and /login loaded last |
| Api.ThrownOutcomes | lib/api-service.ts:146-175 | an exception toasts its message (or "Network error") right after the fetch; without "Failed to fetch" and `retry` the answer is `{500, message}` and a page load of /login with the session untouched |
| Api.ThrownAfterFailedSharedRefresh | lib/api-service.ts:154-174 | a "Failed to fetch" while another caller's refresh is pending and fails: the answer is `{500, message}` in the session that refresh cleared, the slot free, with no refresh fetch of its own and /login loaded |
| Api.ThrownOwnRefreshFails | lib/api-service.ts:154-174 | a "Failed to fetch" with no refresh pending whose own refresh fails: the answer is `{500, message}`, the session cleared with the slot free, and /login loaded last |
| Api.RecoveredAfterUnauthorized | lib/api-service.ts:131-136 | after a 401 recovered by the caller's own refresh, the refresh fetch comes second, the re-issued fetch carries the refreshed bearer token, the session holds the granted tokens, the slot is free, and the answer is the re-issue's |
| Api.RecoveredBySharedRefresh | lib/api-service.ts:118-122 | after a 401 while another caller's refresh is pending and grants a pair, no refresh fetch of the request's own, the re-issued fetch carries the granted bearer token, and the session ends holding the granted pair with the slot free |
| Api.ApiService.constructor | lib/api-service.ts:11-16 | the in-memory tokens are those found in storage, and no refresh is pending |
| Api.ApiService.SetTokens | lib/api-service.ts:18-29 | the new state is `SetTokensSpec` of the old |
| Api.ApiService.ClearTokens | lib/api-service.ts:31-40 | the new state is `ClearTokensSpec` of the old |
| Api.ApiService.RefreshAccessToken | lib/api-service.ts:42-75 | result, new state and effects are those of `RefreshSpec` |
| Api.ApiService.AwaitPending | lib/api-service.ts:119-120 | the new state is `AfterPending` of the old; no effect |
| Api.ApiService.GetHeaders | lib/api-service.ts:77-88 | the headers are `HeadersFor` the current access token |
| Api.ApiService.HandleResponse | lib/api-service.ts:90-102 | result and effects are those of `HandleResponseSpec` |
| Api.ApiService.Request | lib/api-service.ts:104-176 | result, new state and effects are those of `RequestSpec` |
| Api.ApiService.Responded | lib/api-service.ts:116-145 | result, new state and effects are those of `RespondedSpec`: a 401 with `retry` awaits the pending refresh or refreshes, then re-issues or fails; anything else goes to `handleResponse` |
| Api.ApiService.Caught | lib/api-service.ts:146-175 | result, new state and effects are those of `ThrownSpec`: the message is toasted; a "Failed to fetch" with `retry` re-issues after a pending refresh that granted, and otherwise refreshes, in the session a failed pending refresh left |
| Api.ApiService.Reauthenticate | lib/api-service.ts:131-142 | result, new state and effects are those of `ReauthenticateSpec` |
| Api.ApiService.Get | lib/api-service.ts:178-180 | a GET without body and with `retry` |
| Api.ApiService.Post | lib/api-service.ts:182-184 | a POST with the body and with `retry` |
| Api.ApiService.Put | lib/api-service.ts:186-188 | a PUT with the body and with `retry` |
| Api.ApiService.Delete | lib/api-service.ts:190-192 | a DELETE without body and with `retry` |
| AuthGuard.SomeMatches | components/auth-guard.tsx:21-23 | `some` is true iff some listed path satisfies the guard's test |
| AuthGuard.IsAuthPage | components/auth-guard.tsx:21-23 | true iff the path is /login or /forgot-password, or starts with /set-password |
| AuthGuard.RoleOrEmpty | components/auth-guard.tsx:29 | the role when truthy, else the empty string |
| AuthGuard.Decide | components/auth-guard.tsx:19-33 | no redirect while loading; signed out: /login off auth pages, nothing on them; signed in on an auth page: /products; signed in elsewhere: /unauthorized iff allowed roles are given and lack the role; never /unauthorized without allowed roles; at most one target |
| AuthGuard.Render | components/auth-guard.tsx:35-43 | the spinner iff loading, otherwise the children whatever the redirect |
| AuthGuard.UnauthorizedMeansRoleNotAllowed | components/auth-guard.tsx:29 | with authentication derived from the role, a signed-in user off auth pages is sent to /unauthorized iff a role list is given that lacks the role |
| AuthGuard.SignedOutVisitorIsSentToLogin | components/auth-guard.tsx:25-26 | a signed-out visitor of /products is sent to /login |
| AuthContext.IsAuthenticated | lib/auth-context.tsx:125 | true iff the role is non-null and non-empty |
| AuthContext.HydratedRole | lib/auth-context.tsx:28-39 | the stored role iff both the stored access token and the stored role are truthy, otherwise the role unchanged |
| AuthContext.LoginSession | lib/auth-context.tsx:65-69 | after a successful login memory and storage hold the granted tokens, storage holds the granted role as text (even an empty one, and "undefined" for a missing one), no other key changes and the session stays consistent |
| AuthContext.PassThrough | lib/auth-context.tsx:92-117 | true iff the call resolved and the envelope has no error; false on a rejection |
| AuthContext.ReloadAfterLogin | lib/auth-context.tsx:28-39 | a reload after a login with a non-empty token and role hydrates to that role |
| AuthContext.StoredText | lib/auth-context.tsx:68 | `setItem` stores a present value as is and an absent one as the truthy text "undefined" |
| AuthContext.ReloadAfterRolelessLogin | lib/auth-context.tsx:65-69 | a login whose result lacks a role leaves the provider signed out, yet a reload hydrates to the role "undefined" and counts as signed in |
| AuthContext.ReloadAfterClear | lib/auth-context.tsx:28-39 | a reload after the session was cleared hydrates to no role, signed out |
| AuthContext.AuthProvider.constructor | lib/auth-context.tsx:22-25 | no user, no role, loading |
| AuthContext.AuthProvider.Hydrate | lib/auth-context.tsx:28-39 | the role becomes `HydratedRole` of storage and loading ends on both branches |
| AuthContext.AuthProvider.HandleStorageChange | lib/auth-context.tsx:43-53 | a userRole event sets the role to the new value, null included; an accessToken removal clears role and user and pushes /login; any other event changes nothing |
| AuthContext.AuthProvider.Login | lib/auth-context.tsx:61-76 | posts the credentials; true iff the settled envelope has no error and a result, and then the client holds `LoginSession` and the role is the granted one; otherwise, rejections included, false with role and client state as the request left them |
| AuthContext.AuthProvider.Logout | lib/auth-context.tsx:78-90 | whatever the server or network did: tokens cleared in memory and storage, user and role null, /login pushed |
| AuthContext.AuthProvider.ForgotPassword | lib/auth-context.tsx:92-99 | posts the email and returns `PassThrough` of the answer; role, user and tokens beyond the request's own handling untouched |
| AuthContext.AuthProvider.SetPassword | lib/auth-context.tsx:101-108 | posts token and both passwords and returns `PassThrough` of the answer |
| AuthContext.AuthProvider.CreateUser | lib/auth-context.tsx:110-117 | posts the new user and returns `PassThrough` of the answer; the provider's own state is untouched |
| ProductsPage.CeilDiv | app/products/page.tsx:54 | the least number of pages of the given size that holds the count |
| ProductsPage.PrevPage | app/products/page.tsx:197 | one page back, never below 1 |
| ProductsPage.NextPage | app/products/page.tsx:210 | one page on, never past the last page |
| ProductsPage.IsAdmin | app/products/page.tsx:36 | true iff the role is SuperAdmin or Admin; an administrator's role is truthy, so the list is fetched for it |
| ProductsPage.ShowPagination | app/products/page.tsx:192 | the control is shown iff it would list more than one page link |
| ProductsPage.PageNumbers | app/products/page.tsx:201 | the links 1..n, in order, n of them (none for n ≤ 0) |
| ProductsPage.ClampsStayInRange | app/products/page.tsx:196-212 | from a page in 1..totalPages, previous and next stay in that range and move at most one step in their direction |
| ProductsPage.NinetyFiveAtTenIsTenPages | app/products/page.tsx:54 | 95 products at 10 per page give 10 pages |
| ProductsPage.PageLinksInRange | app/products/page.tsx:201-207 | every listed link lies in 1..totalPages |
| ProductsPage.ProductsPage.constructor | app/products/page.tsx:29-34 | no products, one page, page 1, size 10, loading, empty search |
| ProductsPage.ProductsPage.FetchProducts | app/products/page.tsx:44-72 | records the query for the current page, size and search; a successful answer sets the items and ⌈totalCount / pageSize⌉ with the server's size; an error or rejection keeps products and page count; loading ends either way |
| ProductsPage.ProductsPage.Reload | app/products/page.tsx:38-42 | with a truthy role (present and non-empty), fetches as `FetchProducts` does (query recorded, items and page count from a successful answer, kept otherwise, loading ended); otherwise changes nothing |
| ProductsPage.ProductsPage.HandlePageChange | app/products/page.tsx:74-76 | the current page becomes the given one, which keeps it at least 1; nothing else changes |
| ProductsPage.ProductsPage.GoPrevious | app/products/page.tsx:196-199 | the page becomes max(1, page − 1) and stays at least 1 and within the page count; nothing else changes |
| ProductsPage.ProductsPage.GoNext | app/products/page.tsx:209-212 | the page becomes min(totalPages, page + 1) and stays at least 1 and within the page count; nothing else changes |
| ProductsPage.ProductsPage.GoToPage | app/products/page.tsx:201-205 | the i-th link selects page i + 1, within the page count; nothing else changes |
| ProductsPage.ProductsPage.ChangeSearch | app/products/page.tsx:130-133 | the term is the new one and the page is reset to 1 |
| ProductsPage.ProductsPage.HandleProductClick | app/products/page.tsx:78-82 | pushes /products/{id} iff the role is SuperAdmin or Admin, and nothing otherwise |
| Numerals.NatToString | app/users/new/page.tsx:38 | non-empty decimal digits without a leading zero |
| Numerals.IntToString | app/users/new/page.tsx:38 | non-empty, with a leading minus sign iff the number is negative |
| Numerals.NumberOf | app/users/new/page.tsx:92 | a number exactly for decimal integer text |
| Numerals.DigitsRoundTrip | app/users/new/page.tsx:92 | reading back the digits of a natural number yields it |
| Numerals.NumberOfIntToString | app/users/new/page.tsx:92 | `Number` of an id's `toString` is that id |
| AddUserPage.MissingField | app/users/new/page.tsx:77 | true iff the name, the email or the role is falsy |
| AddUserPage.SubmitDisabled | app/users/new/page.tsx:174 | enabled iff not submitting, not fetching roles and the role list is non-empty |
| AddUserPage.DefaultRole | app/users/new/page.tsx:37-40 | a non-empty list selects its first id as text, which reads back as that id; an empty list keeps the role |
| AddUserPage.ChosenRoleNumber | app/users/new/page.tsx:92 | a chosen role reads back through `Number` as the id of a listed role |
| AddUserPage.AddUserPage.constructor | app/users/new/page.tsx:21-26 | empty fields and list, not submitting, fetching roles |
| AddUserPage.AddUserPage.FetchRoles | app/users/new/page.tsx:31-62 | gets /Role; a successful answer sets the list and selects its first id; otherwise list and role stay; fetching ends whatever the outcome |
| AddUserPage.AddUserPage.SelectRole | app/users/new/page.tsx:151-163 | the role becomes the chosen entry's id as text |
| AddUserPage.AddUserPage.HandleSubmit | app/users/new/page.tsx:74-117 | an empty name, email or role sends nothing and changes nothing; otherwise posts `{name, email, role: Number(role)}` whose role is a listed id, pushes /products iff it succeeded, and ends not submitting |
| SetPasswordPage.SubmitDisabled | app/set-password/page.tsx:117 | enabled iff not submitting and the token is non-empty |
| SetPasswordPage.SetPasswordPage.constructor | app/set-password/page.tsx:16-19 | empty fields, no token, not submitting |
| SetPasswordPage.SetPasswordPage.ReadToken | app/set-password/page.tsx:24-36 | a truthy token parameter becomes the token; otherwise /login is pushed and the token stays |
| SetPasswordPage.SetPasswordPage.HandleSubmit | app/set-password/page.tsx:38-81 | differing passwords send nothing and change nothing; otherwise posts token and both passwords as held, pushes /login iff it succeeded, and ends not submitting |

## Left out

- Concurrency. The interleaving of several callers that share `refreshPromise` is not modelled;
  the model has one sequential caller. A refresh another caller started is the `refreshPending`
  slot of the session, holding how it will settle (`WillGrant` with the granted pair, or
  `WillFail`). Awaiting it applies that refresh's `setTokens` or `clearTokens` and frees the slot,
  as its starter does when it resumes first (lib/api-service.ts:133). Only a session that starts with
  the slot set exercises the shared branches, and the model does not fix which caller's refresh
  started first.
- The server-side branch where `window` is undefined. The model always has a browser: storage is
  always written and `window.location.href` is always assigned.
- `JSON.stringify`, `encodeURIComponent` and the URL query of the product list. Bodies are the
  `Body` datatype. The product query is recorded as its three parts (`PageQuery`), and the page takes
  the settled answer of its `get` as the `response` parameter.
- The synthetic envelopes `{ result: {} as T, … }` are modelled with result `None`. Every caller
  tests `hasError` before it reads a result, and these envelopes always carry an error.
- Toasts on the pages, JSX rendering, `toFixed`, `toLocaleDateString`, the spinner of the product
  list while the role is empty, and the "Back", "Add User" and "Add Product" buttons, which only
  navigate to fixed paths.
- ProductsPage.CeilDiv: models `Math.ceil` over floating-point division as integer ceiling
  division. It requires a non-negative count and a positive page size. `FetchProducts` requires the
  same of a successful answer, because a zero size has no page count.
- Numerals.NumberOf: models `Number` on decimal integer text only. Every other string, including
  the empty one that JavaScript reads as 0, is `None`. The add-user form only converts the text of a
  listed id, after it has rejected an empty role.
- AddUserPage.AddUserPage.FetchRoles: requires an empty role. The fetch runs once, at mount, while
  the form is hidden and no role can have been chosen.
- The browser-enforced `required` and `minLength={8}` attributes. `handleSubmit` does not check
  them, so the model does not check a password length.
- `app/forgot-password/page.tsx`, `components/header.tsx` and `app/unauthorized/page.tsx` contain
  no logic beyond calling the provider or navigating.
- Role names. The file with the `Roles` constants is not part of this model. The two
  administrator names are taken to be "SuperAdmin" and "Admin".
- The types say that a login result has a `user`. The code reads `result.role`, and the model
  follows the code (`LoginResult.role`, absent when the server sends none).
- AuthContext.AuthProvider.HandleStorageChange: the browser has already applied the other tab's
  write to the shared `localStorage` when the event fires, but the model does not apply it to the
  `storage` map. It models only the handler's reaction.
