# Session and notification logic of the tagform front end

This project models, in Dafny, the small pieces of sequential logic inside the
tagform front end (a React/Next.js client for a form builder). The rest of the
client is view code and is not modelled. The pieces are:

- **Route guard** (`RouteGuard`, `middleware.dfy`). A pure decision over the
  request path and whether an `access_token` cookie came with the request. It
  lets the request through, redirects to `/dashboard`, or redirects to
  `/auth/signin`. `Guard` adds the configured matcher, which decides on which
  paths the framework runs the middleware at all.
- **Toast bus** (`ToastContext`, `toast_context.dfy`). The provider holds an
  ordered list of notifications. `ShowToast` appends one with a caller-supplied
  id. `RemoveToast` filters out every entry with a given id; it is specified by
  the function `Without`.
- **User menu** (`UserProfileDropdown`, `user_profile_dropdown.dfy`). The
  display name falls back to "User". The avatar initials follow JavaScript's
  `split(" ")`, `map(n => n[0])`, `join("")`, `toUpperCase()` and `slice(0, 2)`.
  They are also proved equal to an independent scan for word starts. The
  logout handler clears the cached session.
- **OAuth callback** (`AuthCallback`, `auth_callback.dfy`). A three-way branch on
  the `error` and `access_token` query parameters.
- **Sign-up submission** (`SignUp`, `sign_up.dfy`). The empty-field guard, the
  registration call, the storage writes and the mapping from failures to
  messages.
- **Session lifecycle** (`SessionLifecycle`, `session.dfy`). Sign-up and the
  callback write only session keys, and a successful logout removes all of them.

Browser services are small classes in `Browser` (`browser.dfy`).
`LocalStorage` holds a `map<string, string>`. `Router` keeps the list of pushed
paths. Each handler is an imperative method that acts on these services and on
the `ToastProvider`. The method's postcondition ties the new state to a pure
`Effect` value: keys removed, entries written, the one toast shown, and the
navigation. The lemmas state the handler's properties about that `Effect`.

Remote calls (`auth.register`, `auth.logout`) are not made. The handler
receives the call's outcome as a parameter (`Api.Outcome`): success with a
payload, or failure with an optional status and message. Toast ids are
random in the source; here they are also parameters, and nothing assumes they
are unique.

Two observations from the code:

- The callback and sign-up pages write the token to `localStorage`, but the
  route guard reads a cookie. No modelled code writes that cookie. So a
  navigation to `/dashboard` passes the guard only if the server has set the
  cookie itself.
- A sign-up response without a `session` throws after `"user"` has been
  written. The catch block then reports "Failed to create account". The model
  keeps this partial write (`SignUp.MissingSessionStoresOnlyUser`).

## Model

| member | source | states |
|---|---|---|
| RouteGuard.Middleware | src/middleware.ts:4-20 | a redirect goes only to "/dashboard" or "/auth/signin", and to "/dashboard" exactly when the cookie is present; a path under neither prefix passes |
| RouteGuard.Guard | src/middleware.ts:22-24 | outside the configured matcher the middleware does not run, so the request passes |
| RouteGuard.PrefixesDisjoint | src/middleware.ts:6-7 | no path starts with both "/auth" and "/dashboard", so at most one branch fires |
| RouteGuard.SignedInLeavesAuthPages | src/middleware.ts:10-12 | an auth path requested with the cookie redirects to "/dashboard" |
| RouteGuard.SignedOutLeavesDashboard | src/middleware.ts:15-17 | a dashboard path requested without the cookie redirects to "/auth/signin" |
| RouteGuard.PassesWhenAllowed | src/middleware.ts:10-19 | an auth path without the cookie, or a dashboard path with it, passes through |
| RouteGuard.OtherPathsPass | src/middleware.ts:6-19 | a path under neither prefix passes, whatever the cookies |
| RouteGuard.RedirectsExactly | src/middleware.ts:10-19 | the middleware redirects if and only if one of the two guarded cases holds |
| RouteGuard.NoRedirectLoop | src/middleware.ts:10-19 | a redirect target, re-evaluated with the same cookies, passes; this holds for the raw middleware and under the matcher |
| RouteGuard.OnlyPresenceMatters | src/middleware.ts:5-17 | two cookie maps that agree on whether "access_token" is present give the same decision; its value never matters |
| RouteGuard.MatchedIsGuarded | src/middleware.ts:22-24 | every path the matcher selects starts with one of the two prefixes |
| RouteGuard.AuthorizeIsNotMatched | src/middleware.ts:6-24 | the raw prefix test treats "/authorize" as an auth page and redirects it with a token, but the matcher never runs the middleware there |
| ToastContext.Without | src/contexts/toast-context.tsx:18-20 | after filtering, no entry has the id, and the length drops by exactly the number of entries that had it |
| ToastContext.WithoutIsSubsequence | src/contexts/toast-context.tsx:19 | the surviving entries keep their original relative order |
| ToastContext.WithoutKeepsOthers | src/contexts/toast-context.tsx:19 | every entry with another id survives as often as it occurred; no entry with the id does |
| ToastContext.WithoutAbsentId | src/contexts/toast-context.tsx:19 | removing an id that no entry carries leaves the list unchanged |
| ToastContext.WithoutIdempotent | src/contexts/toast-context.tsx:19 | removing the same id twice equals removing it once |
| ToastContext.WithoutAppend | src/contexts/toast-context.tsx:15-19 | removal distributes over concatenation |
| ToastContext.WithoutCommutes | src/contexts/toast-context.tsx:19 | removals of two ids commute |
| ToastContext.CloseAfterShow | src/contexts/toast-context.tsx:13-20 | closing a just-shown toast returns the list to the old list filtered by that id; removing another id keeps the new toast last |
| ToastContext.ToastProvider.constructor | src/contexts/toast-context.tsx:11 | the provider starts with no notifications |
| ToastContext.ToastProvider.ShowToast | src/contexts/toast-context.tsx:13-16 | the list grows by one; the new last entry carries the caller's props and the given id; all earlier entries are unchanged and in order |
| ToastContext.ToastProvider.RemoveToast | src/contexts/toast-context.tsx:18-20 | the new list is the old one filtered by id: no entry has the id, the length drops by its count, order is kept, other entries survive, and an absent id changes nothing |
| ToastContext.UseToast | src/contexts/toast-context.tsx:34-40 | outside a provider the hook fails with "useToast must be used within a ToastProvider"; inside one it returns that provider |
| UserProfileDropdown.FullNameOf | src/components/UserProfileDropdown.tsx:16-17 | the optional chain yields a name only when the user, its metadata and the name are all present, and then it is the stored name |
| UserProfileDropdown.DisplayName | src/components/UserProfileDropdown.tsx:16-17 | the display name is never empty, and is the stored full name whenever that name is present and non-empty |
| UserProfileDropdown.Split | src/components/UserProfileDropdown.tsx:18-19 | splitting on " " yields at least one piece, and no piece contains a space |
| UserProfileDropdown.JoinSplit | src/components/UserProfileDropdown.tsx:19 | joining the pieces with single spaces gives back the original string |
| UserProfileDropdown.SplitJoin | src/components/UserProfileDropdown.tsx:19 | splitting space-free words joined by single spaces gives back the words |
| UserProfileDropdown.FirstChars | src/components/UserProfileDropdown.tsx:20-21 | the joined first characters number at most one per piece |
| UserProfileDropdown.ToUpper | src/components/UserProfileDropdown.tsx:22 | upper-casing keeps the length and maps each character on its own |
| UserProfileDropdown.FirstCharsOfSplit | src/components/UserProfileDropdown.tsx:18-21 | the first characters of the split pieces are exactly the non-space characters that begin the string or follow a space, in order; empty pieces add nothing |
| UserProfileDropdown.Initials | src/components/UserProfileDropdown.tsx:18-23 | the initials have at most 2 characters and equal the upper-cased word starts cut to 2 |
| UserProfileDropdown.DefaultDisplayName | src/components/UserProfileDropdown.tsx:16-23 | a missing or empty full name shows as "User", with initials "U" |
| UserProfileDropdown.InitialsOfWords | src/components/UserProfileDropdown.tsx:18-23 | a name of two or more words gives the upper-cased first letters of the first two words, in order |
| UserProfileDropdown.InitialOfOneWord | src/components/UserProfileDropdown.tsx:18-23 | a one-word name gives its upper-cased first letter |
| UserProfileDropdown.BlankNameHasNoInitials | src/components/UserProfileDropdown.tsx:18-23 | a name made only of spaces gives no initials |
| UserProfileDropdown.SpacesAddNoInitials | src/components/UserProfileDropdown.tsx:19-21 | a leading space, or a doubled space between words, does not change the initials |
| UserProfileDropdown.LogoutEffect | src/components/UserProfileDropdown.tsx:25-49 | logout never writes storage and removes only session keys; it navigates, and shows a success toast, exactly when the remote call succeeded; any removal comes with navigation to "/auth/signin" |
| UserProfileDropdown.LogoutClearsSession | src/components/UserProfileDropdown.tsx:28-39 | a successful logout removes exactly "user", "access_token" and "refresh_token", keeps every other key, and navigates to "/auth/signin" |
| UserProfileDropdown.LogoutFailureKeepsStorage | src/components/UserProfileDropdown.tsx:40-45 | a failed logout leaves storage as it was, shows an error toast and does not navigate |
| UserProfileDropdown.UserProfileDropdown.constructor | src/components/UserProfileDropdown.tsx:13 | the menu starts with the loading flag off |
| UserProfileDropdown.UserProfileDropdown.HandleLogout | src/components/UserProfileDropdown.tsx:25-49 | storage, toasts and router change exactly as the logout effect says (one toast, one navigation only on success), and the loading flag ends false on both paths |
| AuthCallback.CallbackEffect | src/app/auth/callback/page.tsx:13-46 | every run removes nothing and navigates to "/dashboard" or "/auth/signin"; it writes only "access_token", exactly when it goes to "/dashboard" and shows success, and the value written is the non-empty query parameter |
| AuthCallback.HandleCallback | src/app/auth/callback/page.tsx:13-46 | storage, toasts and router change exactly as the callback effect says: one toast and one navigation per run |
| AuthCallback.ErrorTakesPrecedence | src/app/auth/callback/page.tsx:17-25 | a non-empty error stores nothing, shows the error verbatim under "Authentication failed" and goes to "/auth/signin", even when a token is present |
| AuthCallback.TokenIsStored | src/app/auth/callback/page.tsx:27-37 | with no error, a non-empty token is stored under "access_token" exactly, a success toast is shown, and navigation goes to "/dashboard" |
| AuthCallback.NeitherParameter | src/app/auth/callback/page.tsx:38-45 | with neither parameter, nothing is stored, "Invalid response from server" is shown and navigation goes to "/auth/signin" |
| AuthCallback.EmptyParameterIsAbsent | src/app/auth/callback/page.tsx:14-27 | a parameter whose value is the empty string behaves exactly as if it were absent |
| AuthCallback.OnlyTokenIsWritten | src/app/auth/callback/page.tsx:17-45 | every run navigates, removes nothing and can write only "access_token"; it writes it exactly when it goes to "/dashboard" |
| SignUp.SignUpEffect | src/app/auth/signup/page.tsx:36-83 | a submission removes nothing, writes only "user", "access_token" and "refresh_token", and writes at all only when the fields are filled and registration succeeded; it navigates only to "/dashboard", and shows success exactly when it does |
| SignUp.FailureMessage | src/app/auth/signup/page.tsx:66-79 | the failure message shown is never empty |
| SignUp.MissingFieldRejected | src/app/auth/signup/page.tsx:40-47 | an empty field shows "Please fill in all fields", stores nothing and does not navigate |
| SignUp.RegistrationStoresSession | src/app/auth/signup/page.tsx:52-65 | a registration with a session writes exactly "user", "access_token" and "refresh_token" from the response, shows success and goes to "/dashboard" |
| SignUp.UnauthorizedIgnoresServerMessage | src/app/auth/signup/page.tsx:67-72 | a 401 shows "Authentication failed" whatever the server's message |
| SignUp.OtherFailureMessage | src/app/auth/signup/page.tsx:73-78 | any other failure shows the server's message when present and non-empty, otherwise "Failed to create account" |
| SignUp.FailedRegistrationChangesNothing | src/app/auth/signup/page.tsx:51-79 | a rejected registration writes nothing, does not navigate and shows an error |
| SignUp.MissingSessionStoresOnlyUser | src/app/auth/signup/page.tsx:55-78 | a response without a session leaves only "user" written, shows "Failed to create account" and does not navigate |
| SignUp.NavigatesOnlyOnSuccess | src/app/auth/signup/page.tsx:51-79 | the handler navigates if and only if the fields are filled and a full session came back, always to "/dashboard", and never removes a key |
| SignUp.SignUpPage.constructor | src/app/auth/signup/page.tsx:14-17 | the form starts with empty fields and the loading flag off |
| SignUp.SignUpPage.SetFullName | src/app/auth/signup/page.tsx:163 | the full-name input replaces the field |
| SignUp.SignUpPage.SetEmail | src/app/auth/signup/page.tsx:176 | the email input replaces the field |
| SignUp.SignUpPage.SetPassword | src/app/auth/signup/page.tsx:190 | the password input replaces the field |
| SignUp.SignUpPage.HandleSignUp | src/app/auth/signup/page.tsx:36-83 | register is called with (email, password, fullName) exactly when every field is filled; storage, toasts and router change as the sign-up effect says; the loading flag is untouched when validation fails and false once register was attempted |
| SessionLifecycle.LogoutClearsWhatSessionWrote | src/components/UserProfileDropdown.tsx:28-31 | a logout after any effect that touches only session keys leaves storage equal to the original minus the session keys |
| SessionLifecycle.LogoutUndoesSignUp | src/app/auth/signup/page.tsx:55-57 | whatever a sign-up submission stored, a successful logout removes it, and the rest of storage is as before |
| SessionLifecycle.LogoutUndoesCallback | src/app/auth/callback/page.tsx:27-29 | whatever the OAuth callback stored, a successful logout removes it, and the rest of storage is as before |

## Left out

- Rendering, styling, animation and icons of every page and component are not modelled. This includes the pages that only display static or sample data.
- The toast component (src/components/ui/toast.tsx) is not part of this model. Its auto-dismiss runs on a timer after `duration` plus an animation delay, and that timing is not modelled. Closing a toast is modelled only as the provider's `RemoveToast`.
- The HTTP client (src/lib/api-client.ts) is not part of this model: bearer-token injection, base URL and the calls themselves. Its response interceptor removes "access_token" and reloads the sign-in page on any 401. That side effect of a 401 from `register` or `logout` is not part of the handlers' effects here.
- UserProfileDropdown.LogoutFailureKeepsStorage: on a 401 from `auth.logout`, the HTTP client's interceptor also removes "access_token" and loads "/auth/signin" before the handler's catch block runs, so storage is not left exactly as it was; the lemma states the handler's own effect only.
- UserProfileDropdown.UserProfileDropdown.HandleLogout: on a 401 from `auth.logout`, the interceptor's removal of "access_token" and its page load of "/auth/signin" are not part of the stated new storage or history.
- SignUp.FailedRegistrationChangesNothing: on a 401 from `auth.register`, the interceptor removes "access_token" and loads "/auth/signin", so the program does change storage and location; the lemma states the handler's own effect only.
- SignUp.SignUpPage.HandleSignUp: on a 401 from `auth.register`, the interceptor's removal of "access_token" and its page load of "/auth/signin" are not part of the stated new storage or history.
- `JSON.parse` of the cached user and `JSON.stringify` of the registered user are not modelled. The first is an optional record with an optional full name. The second is a string payload taken as given. Non-string `full_name` or server `message` values are not modelled.
- Random toast ids (`Math.random().toString(36)`) are a parameter. Nothing assumes they are unique.
- UserProfileDropdown.Initials: upper-cases ASCII letters only and works on characters rather than UTF-16 code units, because full Unicode case mapping (which can change length) is not modelled.
- RouteGuard.Middleware: the redirect carries only the target path, not the absolute URL built from the request URL.
- RouteGuard.Guard: models the matcher patterns "/dashboard/:path*" and "/auth/:path*" as exact-or-prefix tests. Other path-matching rules of the framework, such as trailing slashes and locales, are not modelled.
- AuthCallback.HandleCallback: the query string is a map with one value per name. For a repeated parameter, `get` returns the first value; that case is not modelled.
- Each handler runs to completion as one method. Interleavings of asynchronous handlers are not modelled, such as a second submit while the first is pending. The loading flag's `true` value is visible only inside the method.
- The sign-up page's Google sign-in handler, password-visibility toggle and event `preventDefault`/`stopPropagation` calls are not modelled. The Google button is commented out in the page, and the rest is presentation or framework plumbing.
- The sign-in page only waits and navigates. The new-form page only generates a random id and redirects. The form editor, its draft/save reconciler and the public form runner are not part of this model.
