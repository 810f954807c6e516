# VPN back-office dashboard: a Dafny model

This project models the client-side logic of a VPN administration dashboard that
has two front ends over one REST backend:

- **Next.js front end** (`app/`, `lib/`, `hooks/`, `components/`). It has pages for
  users, VPN users, servers, subscription plans, admin accounts, system health and
  analytics. It uses an axios instance whose interceptors attach the stored bearer
  token, and on a 401 they remove it and send the browser to `/login`. Role and
  authentication hooks are read from `localStorage`, and a layout redirects
  visitors who have no token.
- **Vite/Redux front end** (`src/`). It has an auth slice (token, loading, error,
  isAdmin, with a copy of the token in `localStorage`) and a users slice that
  upserts fetched profiles by id. It also has a route gate `token && isAdmin`, a
  two-step login form, a user list, and its own axios instance that removes the
  token on a 401 without navigating.

How the model is built:

- **The browser.** It is a `Window` object holding `localStorage` (a map) and a log
  of navigations.
- **The query client and the toast library.** They are an `Effects` object holding
  a log of invalidated query keys and a log of toasts.
- **Server answers.** They are parameters: `Outcome` (succeeded, or failed with
  the axios error) for page mutations, and `Result<…, HttpError>` where the code
  reads the answer. Every page request passes the interceptors of its front end,
  so a 401 on any page mutation also ends the session (`LibApi.Settle`).
- **Code that updates state in place.** The reducers, hooks, interceptors, page
  handlers and login handlers are classes whose methods update fields. Each method
  is proved against a function of the old state. For example,
  `AuthStore.Logout` ensures `Snap() == Step(old(Snap()), Logout)`, and properties
  are proved about `Step` and `Run`.
- **Code that only computes.** Filters, classifications, key and parameter
  builders, and chart mappings are functions, with lemmas relating them.

Where the documented design of the system and its code disagree, the model follows the code:

- Only status 401 ends a session. A 403 is passed through like any other error.
- The Next.js interceptor navigates to `/login` on every 401, not once per
  session. Removing the token is idempotent (`LibApi.SecondUnauthorizedIsNoOp`),
  but the redirect is repeated.
- The Vite interceptor performs no navigation at all.
- Neither front end has a resource cache with deduplication or freshness of its
  own. That work is done by the query library, which is not part of this model.

## Model

| member | source | states |
|---|---|---|
| Types.UserRoleName | lib/types.ts:6 | a role is spelled "user" or "admin" |
| Types.SubscriptionStatusName | lib/types.ts:7 | a subscription status is spelled "active", "inactive" or "expired" |
| Types.ServerStatusName | lib/types.ts:38 | a server status is spelled "active", "inactive" or "maintenance" |
| Types.HealthServiceName | lib/types.ts:58 | a health service is spelled "db", "cache" or "system" |
| Types.HealthStatusName | lib/types.ts:59 | a health status is spelled "healthy", "warning" or "error" |
| Types.NamesAreInjective | lib/types.ts:6-59 | distinct members of each union have distinct spellings |
| Types.StatusFilterName | app/users/page.tsx:19 | the status filter is spelled "all", "active" or "inactive" |
| Types.StatusFilterSemantics | app/users/page.tsx:48-50 | 'all' accepts every user; 'active' keeps exactly the active users and 'inactive' exactly the others |
| Text.Lower | app/users/page.tsx:46-47 | lower-casing keeps the length, leaves no upper-case letter and changes nothing else |
| Text.LowerIsIdempotent | app/users/page.tsx:46-47 | lower-casing twice is lower-casing once |
| Text.IncludesIffOccurs | app/users/page.tsx:46-47 | `includes` holds iff the needle occurs at some index of the haystack |
| Text.EmptyIsIncluded | app/users/page.tsx:46-47 | the empty string is included in every string |
| Text.EmptyMatchesIgnoringCase | app/users/page.tsx:46-47 | an empty search matches every field, ignoring case |
| Text.TakeLast | app/analytics/page.tsx:22 | for n > 0, `slice(-n)` yields min(n, length) characters and they are the string's suffix |
| Seqs.Filter | app/users/page.tsx:45-52 | filtering keeps exactly the elements that satisfy the predicate, as an order-preserving subsequence, never longer |
| Seqs.FilterKeepsEverything | app/users/page.tsx:45-52 | when every element satisfies the predicate, filtering returns the list unchanged |
| Seqs.FilterFullLength | app/health/page.tsx:152 | the filtered list is as long as the input iff every element satisfies the predicate |
| Http.WithBearer | lib/api.ts:14-15 | Authorization becomes "Bearer " + token; every other header is kept as it was |
| Http.Authorize | lib/api.ts:13-16 | a truthy token sets the Bearer header; otherwise the headers are returned unchanged |
| Http.Request.constructor | lib/api.ts:5-8 | a request starts with the instance's JSON content-type header |
| Browser.ClearedOnUnauthorized | src/services/api.ts:22-24 | the stored token disappears iff the error is a 401; every other key and value is kept |
| Browser.ClearingTwiceIsClearingOnce | src/services/api.ts:22-23 | a second 401 leaves storage as the first one left it |
| Query.Invalidations | app/users/page.tsx:38-42 | a mutation's success invalidates its own key exactly once; a failure invalidates nothing |
| Query.Refreshes | app/users/page.tsx:39 | an invalidated key refreshes exactly the query keys that start with it, element by element |
| Query.RefreshedKeysExtendTheKey | app/vpn-users/page.tsx:46 | the refreshed keys are exactly the invalidated key followed by any further parts |
| Query.Effects.Settle | app/users/page.tsx:38-42 | the success/error callbacks append the invalidation (success only) and exactly one toast |
| Query.Effects.Show | app/login/page.tsx:32-37 | a toast is appended and no query is invalidated |
| LibApi.VisibleToken | lib/api.ts:12 | the token is read only in a browser, and it is the stored one |
| LibApi.StorageAfterError | lib/api.ts:27-29 | the stored token is removed only for a 401 in a browser; every other key keeps its value |
| LibApi.RedirectsAfterError | lib/api.ts:27-30 | the interceptor navigates to /login iff the error is a 401 in a browser |
| LibApi.OnRequest | lib/api.ts:10-18 | the config's headers gain the Bearer token iff a truthy token is visible; the same config is returned |
| LibApi.OnResponse | lib/api.ts:21-24 | a response is passed on unchanged |
| LibApi.OnError | lib/api.ts:25-32 | the error is rejected again unchanged; storage and navigation change only for a 401 in a browser |
| LibApi.Exchange | lib/api.ts:10-32 | one request through both interceptors: the caller receives exactly the server's answer, with the request and error effects above |
| LibApi.SecondUnauthorizedIsNoOp | lib/api.ts:27-28 | after one 401, another 401 changes storage no further |
| LibApi.StorageAfter | lib/api.ts:25-31 | after a page request, the token is gone iff it was absent or the request failed with a 401; every other key keeps its value |
| LibApi.RedirectsAfter | lib/api.ts:27-29 | after a page request, /login is navigated to iff it failed with a 401 |
| LibApi.Settle | lib/api.ts:25-31 | a page mutation's answer: a failure passes the error handler (storage and redirect as above), then the page's callbacks invalidate and toast |
| ServiceApi.OnRequest | src/services/api.ts:10-17 | the config's headers gain the Bearer token iff a truthy token is stored |
| ServiceApi.OnResponse | src/services/api.ts:20 | a response is passed on unchanged |
| ServiceApi.OnError | src/services/api.ts:21-28 | the error is rejected again unchanged; a 401 removes the stored token; there is never a navigation |
| ServiceApi.Exchange | src/services/api.ts:10-28 | one request through both interceptors: the answer reaches the caller unchanged, with no navigation |
| AuthSlice.Initial | src/store/authSlice.ts:11-16 | the initial state holds the stored token and is not loading, has no error, is not admin, and is synced with storage |
| AuthSlice.Step | src/store/authSlice.ts:37-67 | every reducer keeps the state's token equal to the stored token; only verifyAdmin.fulfilled grants admin; only logout, login.fulfilled and verifyAdmin.rejected change the token; every other storage key keeps its value |
| AuthSlice.StepFields | src/store/authSlice.ts:38-66 | what each reducer sets and what it leaves alone, field by field |
| AuthSlice.RunKeepsSynced | src/store/authSlice.ts:11-66 | state token and stored token stay equal over any sequence of actions |
| AuthSlice.AdminOnlyThroughVerification | src/store/authSlice.ts:59-61 | an admin at the end of any sequence of actions was admin before or saw a verifyAdmin.fulfilled |
| AuthSlice.AuthStore.constructor | src/store/authSlice.ts:11-16 | the store starts in `Initial` of the current storage |
| AuthSlice.AuthStore.Reload | src/store/authSlice.ts:11-16 | a full page load puts the store back in `Initial` of the current storage |
| AuthSlice.AuthStore.Logout | src/store/authSlice.ts:38-41 | state and storage follow `Step(…, Logout)`; no navigation |
| AuthSlice.AuthStore.LoginPending | src/store/authSlice.ts:45-48 | state follows `Step(…, LoginPending)` |
| AuthSlice.AuthStore.LoginFulfilled | src/store/authSlice.ts:49-54 | state and storage follow `Step(…, LoginFulfilled(t))` |
| AuthSlice.AuthStore.LoginRejected | src/store/authSlice.ts:55-58 | state follows `Step(…, LoginRejected(m))` |
| AuthSlice.AuthStore.VerifyAdminFulfilled | src/store/authSlice.ts:59-61 | state follows `Step(…, VerifyAdminFulfilled)` |
| AuthSlice.AuthStore.VerifyAdminRejected | src/store/authSlice.ts:62-66 | state and storage follow `Step(…, VerifyAdminRejected)` |
| AuthSlice.UnauthorizedResponseDesyncs | src/services/api.ts:22-23 | the interceptor's removal on a 401 leaves a slice that held a token out of step with storage |
| UserSlice.IndexOfId | src/store/userSlice.ts:37 | the first index holding the id, or none iff no item has it |
| UserSlice.FindIndex | src/store/userSlice.ts:37 | `findIndex` returns the first matching index, or -1 iff nothing matches |
| UserSlice.Upsert | src/store/userSlice.ts:37-39 | the user is in the result, and the length is unchanged or grows by one |
| UserSlice.UpsertReplaces | src/store/userSlice.ts:37-38 | a present id is replaced at its index; the length and all other items are unchanged |
| UserSlice.UpsertAppends | src/store/userSlice.ts:39 | a new id is appended at the end |
| UserSlice.UpsertKeepsIdsDistinct | src/store/userSlice.ts:37-39 | pairwise distinct ids stay pairwise distinct |
| UserSlice.UserStore.constructor | src/store/userSlice.ts:10-14 | items empty, not loading, no error |
| UserSlice.UserStore.FetchPending | src/store/userSlice.ts:30-33 | loading set, error cleared, items unchanged |
| UserSlice.UserStore.FetchFulfilled | src/store/userSlice.ts:34-40 | items become the upsert of the old items; loading cleared; error untouched; distinct ids preserved |
| UserSlice.UserStore.FetchRejected | src/store/userSlice.ts:41-44 | loading cleared; error is the message, or 'Failed to fetch user'; items unchanged |
| UseRole.Flags | hooks/use-role.ts:13-14 | isSuperAdmin iff role is 'super_admin'; isAdmin iff role is 'admin' or 'super_admin' |
| UseRole.FlagsAreOrdered | hooks/use-role.ts:6-14 | a super admin is an admin; with no role neither flag holds |
| UseRole.RoleHook.constructor | hooks/use-role.ts:6 | the role starts as null |
| UseRole.RoleHook.LoadRole | hooks/use-role.ts:8-11 | the role becomes the stored 'user_role'; storage is not written |
| UseAuth.AuthHook.constructor | hooks/use-auth.ts:8-9 | not authenticated and loading at first |
| UseAuth.AuthHook.CheckAuth | hooks/use-auth.ts:13-25 | loading ends; authenticated iff a truthy token is stored; storage untouched |
| UseAuth.AuthHook.Logout | hooks/use-auth.ts:30-34 | the token is removed, authenticated is cleared, and the browser goes to /login |
| AppRoutes.Authed | src/App.tsx:13 | authed iff the token is non-null and non-empty and the user is an admin |
| AppRoutes.TrimTrailingSlashes | src/App.tsx:18-30 | drops exactly the trailing slashes: the result is a prefix, and everything after it is '/' |
| AppRoutes.Normalize | src/App.tsx:18-30 | the path the router compares is non-empty and has no upper-case letters |
| AppRoutes.TablePathsAreNormal | src/App.tsx:18-30 | /login, /dashboard, /users and / are their own normal form |
| AppRoutes.Route | src/App.tsx:15-34 | on the normalised path: when not authed, only /login shows a screen and every other path redirects to /login; when authed, / redirects to /dashboard, /dashboard shows the dashboard, /users shows the user list and unknown paths render nothing |
| AppRoutes.RouteIgnoresTrailingSlash | src/App.tsx:18-30 | a trailing slash never changes the route |
| AppRoutes.RouteIgnoresCase | src/App.tsx:18-30 | lower-casing a path never changes the route |
| AppRoutes.TrimCommutesWithLower | src/App.tsx:18-30 | trimming slashes and lower-casing commute |
| AppRoutes.RedirectsLandOnScreens | src/App.tsx:19-28 | every redirect lands on a path that shows a screen |
| AppRoutes.FreshStartIsNotAuthed | src/App.tsx:13 | a stored token alone does not open the gate after a fresh start |
| AppRoutes.AuthedRequiresVerification | src/App.tsx:13 | being authed after any actions from a fresh start requires a verifyAdmin.fulfilled among them |
| DashboardLayout.RedirectTarget | components/layout/dashboard-layout.tsx:11-14 | the layout redirects to /login iff no truthy token is stored |
| DashboardLayout.Mount | components/layout/dashboard-layout.tsx:10-26 | the children always render; storage is only read; /login is navigated to iff no token is stored |
| UsersPage.FilteredUsers | app/users/page.tsx:45-52 | kept iff email or username contains the search ignoring case and the status filter matches; an order-preserving subsequence; absent while the list is absent |
| UsersPage.UnfilteredShowsAll | app/users/page.tsx:45-52 | an empty search with 'all' shows the whole list |
| UsersPage.DetailsQuery | app/users/page.tsx:29-33 | the details query runs iff a user with an id is selected, under ['users', id] |
| UsersPage.StatusChangeRefreshesPage | app/users/page.tsx:25-39 | invalidating ['users'] covers the list key and the details key |
| UsersPage.StatusSwitchShown | app/users/page.tsx:112-123 | the status switch is shown iff the role is super admin |
| UsersPage.UsersPage.constructor | app/users/page.tsx:18-20 | no user selected and no request sent |
| UsersPage.UsersPage.Select | app/users/page.tsx:129 | the clicked user becomes the selected one |
| UsersPage.UsersPage.UpdateUserStatus | app/users/page.tsx:35-43 | the change is sent; success invalidates ['users'] and toasts 'User status updated'; failure toasts the error, and a 401 also removes the token and goes to /login |
| VpnUsersPage.ListKey | app/vpn-users/page.tsx:25 | the list key is ['users','list',search,filter] |
| VpnUsersPage.ListKeysAreDistinct | app/vpn-users/page.tsx:25 | different searches or filters get different cache keys |
| VpnUsersPage.ListParams | app/vpn-users/page.tsx:27-31 | page=1 and limit=100 always; search is added iff it is non-empty |
| VpnUsersPage.FilteredUsers | app/vpn-users/page.tsx:52-57 | only the status filter is applied locally, as an order-preserving subsequence |
| VpnUsersPage.AllKeepsServerList | app/vpn-users/page.tsx:53 | 'all' keeps the server's list as it came |
| VpnUsersPage.DetailsQuery | app/vpn-users/page.tsx:36-40 | the details query is enabled iff the selected user has a user_id |
| VpnUsersPage.StatusChangeRefreshesPage | app/vpn-users/page.tsx:25-46 | invalidating ['users'] covers every list slot and the details key |
| VpnUsersPage.ShownOrNA | app/vpn-users/page.tsx:118-119 | a missing or empty phone or country shows 'N/A'; otherwise the value |
| VpnUsersPage.StatusSwitchShown | app/vpn-users/page.tsx:131-142 | the status switch is shown iff the role is super admin |
| VpnUsersPage.VpnUsersPage.constructor | app/vpn-users/page.tsx:18-20 | empty search, filter 'all', nothing selected |
| VpnUsersPage.VpnUsersPage.UpdateUserStatus | app/vpn-users/page.tsx:42-50 | the change is sent; success invalidates ['users'] and toasts; failure toasts the error, and a 401 also removes the token and goes to /login |
| UserList.Filtered | src/pages/Users/UserList.tsx:27-30 | kept iff name or email contains the query ignoring case; an order-preserving subsequence of the store's items |
| UserList.EmptyQueryShowsAll | src/pages/Users/UserList.tsx:27-30 | an empty query shows every stored profile |
| UserList.UserListView.constructor | src/pages/Users/UserList.tsx:21 | the query starts empty |
| UserList.UserListView.Submit | src/pages/Users/UserList.tsx:46 | an empty query leaves the store alone; otherwise the store runs pending then fulfilled (upsert) or rejected (the error's message or the fallback), and a 401 removes the stored token without navigating |
| HealthPage.HealthKey | app/health/page.tsx:12-28 | each service is polled under ['health', service name] |
| HealthPage.Cards | app/health/page.tsx:52-71 | the Database, Cache and System cards, in that order, each with its query's data |
| HealthPage.StatusOf | app/health/page.tsx:86 | the status name, or 'unknown' exactly when there is no data |
| HealthPage.DetailStatusLabel | app/health/page.tsx:168 | the details row shows 'Unknown' exactly when there is no data |
| HealthPage.StatusIcon | app/health/page.tsx:30-41 | healthy, warning and error each get their own icon; anything else gets the activity icon |
| HealthPage.StatusColor | app/health/page.tsx:43-50 | green, yellow and red classes for the three statuses; grey for anything else |
| HealthPage.MissingDataLooksUnknown | app/health/page.tsx:86-96 | a card without data is drawn grey with the activity icon |
| HealthPage.Overall | app/health/page.tsx:125-140 | operational iff every service is healthy; issues iff some service is in error; warnings otherwise |
| HealthPage.LoadingIsAWarning | app/health/page.tsx:125-139 | while some query has no data and none reports an error, the verdict is 'Some Warnings' |
| HealthPage.HealthyCount | app/health/page.tsx:152 | the healthy count never exceeds the number of services |
| HealthPage.CountAgreesWithVerdict | app/health/page.tsx:125-152 | the healthy count equals the number of services iff the verdict is 'All Systems Operational' |
| AnalyticsPage.ServerLabel | app/analytics/page.tsx:22 | "Server " followed by the last n characters of the id, or the whole id when it is shorter |
| AnalyticsPage.ConnectionData | app/analytics/page.tsx:21-24 | one bar per server in order, labelled by the last 4 characters, with its connections copied; none without data |
| AnalyticsPage.ServerLoad | app/analytics/page.tsx:68 | the mean connection count rounded to the nearest integer, and 0 when there are no bars |
| AnalyticsPage.EqualLoadsRoundToThemselves | app/analytics/page.tsx:68 | when every server has c connections, the load shown is c |
| AnalyticsPage.TotalOfEqual | app/analytics/page.tsx:68 | n servers with c connections each sum to n·c |
| AnalyticsPage.LoadWithinRange | app/analytics/page.tsx:68 | the rounded mean load lies between the smallest and the largest connection count |
| AnalyticsPage.TotalWithinRange | app/analytics/page.tsx:68 | the sum of n counts within [lo, hi] lies within [n·lo, n·hi] |
| AnalyticsPage.PerformanceData | app/analytics/page.tsx:26-30 | one point per sample in order, latency and uptime copied; none without data |
| AnalyticsPage.PerformanceTitle | app/analytics/page.tsx:121 | the details list names a server by the last 8 characters of its id |
| AnalyticsPage.ActiveUsers | app/analytics/page.tsx:44 | active users show as 0 without data, otherwise the reported number |
| AnalyticsPage.TotalBandwidth | app/analytics/page.tsx:56 | bandwidth shows as 0 without data, otherwise the reported number |
| PlansPage.Payload | app/plans/page.tsx:86-97 | the payload copies name, description, price and duration, and groups the four feature inputs under features |
| PlansPage.FormOf | app/plans/page.tsx:108-115 | editing loads all eight inputs from the plan |
| PlansPage.UnchangedEditResendsPlan | app/plans/page.tsx:86-115 | saving an edit without changes sends the plan's own fields back |
| PlansPage.PayloadIsInjective | app/plans/page.tsx:86-97 | different forms give different payloads |
| PlansPage.StatusValue | app/plans/page.tsx:76 | the switch sends 'active' iff checked, else 'inactive' |
| PlansPage.PlansPage.constructor | app/plans/page.tsx:29-30 | the form starts closed, with nothing being edited |
| PlansPage.PlansPage.OpenForm | app/plans/page.tsx:130 | 'Add Plan' opens the form |
| PlansPage.PlansPage.Fill | app/plans/page.tsx:142-184 | typing sets the form's values |
| PlansPage.PlansPage.Edit | app/plans/page.tsx:106-117 | the plan is remembered, its fields are loaded and the form opens |
| PlansPage.PlansPage.Submit | app/plans/page.tsx:40-104 | with the required inputs filled: an update of the edited plan iff one is being edited, otherwise a create; success invalidates ['plans'], toasts, closes and resets, and update also forgets the plan; failure toasts, and a 401 also removes the token and goes to /login |
| PlansPage.PlansPage.Delete | app/plans/page.tsx:119-123 | a delete is sent only after confirmation; success invalidates ['plans']; a 401 removes the token and goes to /login |
| PlansPage.PlansPage.SetStatus | app/plans/page.tsx:73-83 | the status is sent; success invalidates ['plans'] and toasts; failure toasts, and a 401 also removes the token and goes to /login |
| PlansPage.PlansPage.Cancel | app/plans/page.tsx:192-196 | the form closes, the edited plan is forgotten, and the inputs are reset |
| ServersPage.FormOf | app/servers/page.tsx:80-90 | editing loads the seven editable fields of the server |
| ServersPage.FormOfForgetsOnlyIdAndLoad | app/servers/page.tsx:80-90 | two servers load the same form iff they differ at most in id and current connections |
| ServersPage.StatusColor | app/servers/page.tsx:98-105 | green, red and yellow for active, inactive and maintenance; grey otherwise |
| ServersPage.KnownStatusesAreColoured | app/servers/page.tsx:98-105 | no server status falls back to grey |
| ServersPage.ServersPage.constructor | app/servers/page.tsx:28-29 | the form starts closed, with nothing being edited |
| ServersPage.ServersPage.OpenForm | app/servers/page.tsx:112 | 'Add Server' opens the form |
| ServersPage.ServersPage.Fill | app/servers/page.tsx:124-167 | typing sets the form's values |
| ServersPage.ServersPage.Edit | app/servers/page.tsx:80-90 | the server is remembered, its fields are loaded and the form opens |
| ServersPage.ServersPage.Submit | app/servers/page.tsx:39-78 | with the required inputs filled: an update iff a server is being edited, otherwise a create; success invalidates ['servers'], closes and resets; failure toasts, and a 401 also removes the token and goes to /login |
| ServersPage.ServersPage.Delete | app/servers/page.tsx:92-96 | a delete is sent only after confirmation; success invalidates ['servers']; a 401 removes the token and goes to /login |
| ServersPage.ServersPage.Cancel | app/servers/page.tsx:175-179 | the form closes, the edited server is forgotten, and the inputs are reset |
| AdminUsersPage.SelectableRolesAreAdminRoles | app/admin-users/page.tsx:111-118 | a completed form whose role is an option of the select holds 'admin' or 'super_admin' |
| AdminUsersPage.AdminUsersPage.constructor | app/admin-users/page.tsx:35-38 | the super-admin flag comes from the role; the form starts closed |
| AdminUsersPage.AdminUsersPage.OpenForm | app/admin-users/page.tsx:80-85 | only a super admin can open the form |
| AdminUsersPage.AdminUsersPage.Fill | app/admin-users/page.tsx:94-124 | typing sets the form's values; the role is one of the select's options |
| AdminUsersPage.AdminUsersPage.Submit | app/admin-users/page.tsx:45-67 | a completed form always creates, and the created account's role is 'admin' or 'super_admin'; success invalidates ['admin-users'], closes and resets; a 401 removes the token and goes to /login; nothing is ever sent for a non-super-admin |
| AdminUsersPage.AdminUsersPage.Delete | app/admin-users/page.tsx:56-73 | a delete is sent only by a super admin after confirmation; success invalidates ['admin-users']; a 401 removes the token and goes to /login |
| AdminUsersPage.AdminUsersPage.Cancel | app/admin-users/page.tsx:130-133 | the form closes and resets |
| LoginPage.LoginErrorMessage | app/login/page.tsx:37 | the error toast shows detail, else message, else 'Login failed', and is never empty |
| LoginPage.LoginAttempt | app/login/page.tsx:17-41 | success toast and /dashboard iff both requests succeed; verification is sent iff the login succeeded, carrying the just-stored token; the new token is stored on success; a failed request toasts its detail/message/'Login failed', and storage and navigation follow the interceptor (a 401 removes the token and goes to /login, any other status keeps storage) |
| LoginPage.Verification | app/login/page.tsx:28-37 | the admin check is one GET of the rate-limit configuration with the stored token; success toast and /dashboard iff it succeeds, and storage then keeps the token; on failure the error toast and the interceptor's storage and navigation |
| LoginPage.VerificationUsesNewToken | app/login/page.tsx:28-30 | the token is stored before the verification request, which carries it as its Bearer header |
| LoginPage.RefusedVerificationKeepsToken | app/login/page.tsx:28-37 | for every verification error other than 401, the new token stays stored, the error is toasted and nothing navigates |
| LoginPage.ForbiddenVerificationKeepsToken | app/login/page.tsx:28-37 | a 403 with an empty body toasts 'Login failed' and keeps the new token stored |
| LoginPage.GuardedLoginAttempt | app/login/page.tsx:28-37 | after a successful login, a token stays stored iff verification succeeded |
| LoginPage.GuardChangesOnlyRefusedVerification | app/login/page.tsx:28-37 | the guarded attempt differs from the written one exactly when verification fails with a status other than 401 |
| LoginPage.LoginPage.constructor | app/login/page.tsx:12-14 | empty fields, not loading |
| LoginPage.LoginPage.SubmitDisabled | app/login/page.tsx:65 | the button is disabled iff a login is in flight |
| LoginPage.LoginPage.HandleLogin | app/login/page.tsx:17-63 | with both required inputs filled, loading ends false and storage, navigations, toasts and the requests sent are those of `LoginAttempt`; with an empty input nothing happens |
| LoginPage.LoginPage.Verify | app/login/page.tsx:28-37 | storage, navigations, toasts and requests sent after the token is stored are those of `Verification`; loading and the form fields are unchanged |
| AuthLogin.Intercepted | src/services/api.ts:22-24 | the interceptor's 401 removes the stored token without touching the slice |
| AuthLogin.SubmitFlow | src/pages/Auth/Login.tsx:13-22 | redirect iff both thunks succeed; loading always ends false; a failed login records its error and keeps the token; a failed verification drops the token and admin flag |
| AuthLogin.Rendered | src/pages/Auth/Login.tsx:18 | after the redirect's full page load only storage survives: the store is synced with it, not loading and not admin; without a reload the submission's own state is kept |
| AuthLogin.RedirectLandsOnLogin | src/pages/Auth/Login.tsx:16-18 | after a successful sign-in the token is stored, but the page load forgets the verification and the gate sends /dashboard to /login |
| AuthLogin.InAppNavigationOpensTheGate | src/pages/Auth/Login.tsx:16-18 | with a router navigation instead of the page load, the gate is open and /dashboard shows the dashboard |
| AuthLogin.RejectedLoginCanDesync | src/pages/Auth/Login.tsx:16 | a 401 on the login request leaves the slice's old token out of step with storage |
| AuthLogin.LoginForm.constructor | src/pages/Auth/Login.tsx:10-11 | email and password start as 'admin' |
| AuthLogin.LoginForm.SubmitDisabled | src/pages/Auth/Login.tsx:45 | the button is disabled iff the slice is loading |
| AuthLogin.LoginForm.OnSubmit | src/pages/Auth/Login.tsx:13-22 | slice and storage end as `SubmitFlow` says, followed by the page load when it redirects; /dashboard is navigated to iff it redirects |

## Left out

- Query-library internals are not modelled: caching, deduplication, staleness, the 30-second `refetchInterval` of the health queries, and the refetch that an invalidation triggers. The model records which key is invalidated and when. `Query.Refreshes` states the library's prefix matching.
- The axios transport is not modelled: the base URL from the environment, serialisation and console logging. Server answers are parameters.
- Rendering is not modelled: JSX, component libraries, icons and CSS beyond the class strings the code chooses. Toasts are log entries and `confirm()` is a boolean input. Both `router.push` and `window.location.href` assignments are navigation entries. The assignment in src/pages/Auth/Login.tsx:18 is also a full page load, which rebuilds the Redux store from storage (`AuthStore.Reload`); the new page's own render is otherwise not modelled.
- Text.Lower: folds ASCII letters only, not Unicode `toLowerCase`.
- AnalyticsPage.ServerLoad: computed on exact reals, not IEEE doubles. Date and `toLocaleString` formatting is not modelled.
- Async interleaving is not modelled. Each handler runs as one sequential script over given answers, and concurrent mutations or thunks are out of scope.
- The plan shape follows the page (`price_usd` and a features record). The `SubscriptionPlan` declaration in lib/types.ts (`price`, `features: string[]`) does not match what the page reads.
- LoginPage.LoginAttempt and AuthLogin.SubmitFlow take the login answer as the returned `access_token` string. An answer without that field, which JavaScript would store as the text "undefined", is not modelled.
- PlansPage.Complete, ServersPage.Complete and AdminUsersPage.Complete: form validation is modelled as non-empty required text inputs. Numeric inputs are assumed to hold numbers, so a NaN from an empty number field is not modelled.
- Effects run as explicit method calls (`LoadRole`, `CheckAuth`, `Mount`), not on React's schedule. Re-renders are not modelled.
- The users service (src/services/userService.ts) is not part of this model. Its `getByEmail` answer is a parameter, and its `list` placeholder is unused by the core.
- The list and details fetches themselves are not modelled. Their data is a parameter of the filters and mappings. The details panel's `selectedUser && userDetails` guard is display only.
- The presentational files src/components/layout/Layout.tsx, src/pages/Dashboard.tsx, app/layout.tsx and app/dashboard/page.tsx are not part of this model.
- LoginPage.HandleLogin: the email input's `type="email"` format check is not modelled. Only its `required` attribute is, as a non-empty field.
- AppRoutes.Normalize: case folding covers ASCII letters only, and percent-decoding of paths is not modelled.
- Browser storage is a map from keys to strings, not a single token field, because the code also reads 'user_role'.

## Findings

| source | as written | input that shows it | evidently intended | confidence | as-written member | corrected member |
|---|---|---|---|---|---|---|
| app/login/page.tsx:28-37 | the new token is stored before verification, and the catch block only toasts, so a verification refused with a non-401 status leaves the token stored; the dashboard layout only checks that a token exists | login succeeds with token "t"; verification fails with status 403 | a failed admin verification withdraws the token, as `verifyAdmin.rejected` does in src/store/authSlice.ts:62-66 | medium, not executed | LoginPage.RefusedVerificationKeepsToken | LoginPage.GuardedLoginAttempt |
| src/pages/Auth/Login.tsx:16-18 | after both thunks succeed, `window.location.href = '/dashboard'` reloads the page; the store is built again with `isAdmin` false, nothing dispatches `verifyAdmin` on load, so the route gate of src/App.tsx:13-19 sends /dashboard to /login | login answers token "t"; verification succeeds | a router navigation that keeps the store, so the verified admin reaches the dashboard | medium, not executed | AuthLogin.RedirectLandsOnLogin | AuthLogin.InAppNavigationOpensTheGate |
