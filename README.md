# Mood Booster client: a Dafny model of its state logic

The application is a browser client for a "mood booster" chat service. It
signs users in, guards routes by role, lets a user chat with the assistant and
rename themselves, and shows administrators usage statistics. Everything that
talks to the backend is a call whose answer this model receives as a
parameter: an `Outcome<T>` that is either `Success(data)` or
`Failure(thrown)`, where the thrown value is an axios HTTP error with an
optional status, another `Error`, or a value that is not an `Error` at all.
Each React handler is one sequential step.

The model has one module per source file, plus `Routing`, which stands for
the react-router types the pages use and is no source file of the repository:

- `Types` (types.dfy): the `User`, `LoginData`, `RegisterData` and
  `EndpointStat` records, `Option`, the thrown-value type and `Outcome`.
  A `User` also carries `otherFields` for extra properties a backend object
  may bring along. With it the model can state which handlers copy a record
  field by field and which keep it whole. `apiCalls` is a `CallCount`
  because the store tests it with `typeof`.
- `Routing` (routing.dfy): the react-router `Location` and its `{ from }`
  navigation state, and a `Navigation` (target, state, replace).
- `AuthProvider` (auth_provider.dfy): the store's three fields as the value
  `AuthState`. Each handler is a step function on that value, and these
  functions carry the contracts. Class `AuthStore` has the same three
  fields as mutable state. Its methods assign them in the order
  the source does, and each ensures the new state is its step function of the
  old one.
- `ProtectedRoute` (protected_route.dfy): the guard's decision.
- `Login` (login.dfy): the post-login redirect, the error toast mapping and
  `handleSubmit` on top of the store.
- `EditProfile` (edit_profile.dfy): the form's four fields as `Form`, the
  Edit, Cancel, typing and Save transitions, and class `ProfileEditor`.
- `Dashboard` (dashboard.dfy): the chat transcript as `Chat`, JavaScript's
  `trim`, the greeting effect and the submit handler, and class `ChatPanel`.
- `AdminDashboard` (admin_dashboard.dfy): the filter, the two fetch helpers,
  `fetchUsers` as `FetchStep` and class `AdminPanel`, the totals and the tables.
- `Api` (api.dfy): `BASE_URL`, `handleResponse` and `apiRequest`. The
  `fetch` function is given as a parameter.
- `AxiosClient` (axios.dfy): the response interceptor. Its assignment to
  `window.location.href` is returned as a redirect target.

Some of the proved properties span several files:

- A visitor the guard bounces to `/login` from a page comes back to that
  page after a non-admin login on that same page. This does not survive a
  reload: when the session check fails with a 401 on a page whose path
  lacks `/login`, the interceptor loads `/login` afresh, without the
  navigation state, and a non-admin then lands on `/dashboard`.
- A wrong password typed on the login page causes no interceptor redirect
  and shows "Invalid email or password".
- Edit, any typing, then Cancel restores the name, also on the form as the
  failed save leaves it. In the running app that form is not what the user
  sees after a failed save: see `EditProfile.SaveStep` under "## Left out".
- The API call limit never withholds the chat reply. The reply is appended
  before the call is counted, and `incrementApiCalls` returns true whenever a
  user exists. At the limit, only `error` records it.
- Repeated increments saturate at 20; a count already above 20 is left alone.

## Model

| member | source | states |
|---|---|---|
| `AuthProvider.CurrentCalls` | src/auth/AuthProvider.tsx:133-134 | the stored count when it is a number, 0 otherwise |
| `AuthProvider.CopyDeclaredFields` | src/auth/AuthProvider.tsx:26-34 | the record `checkAuth` builds agrees with the response on the seven declared fields and carries nothing else |
| `AuthProvider.CheckAuthStep` | src/auth/AuthProvider.tsx:16-43 | failure clears `user`; success stores exactly the seven declared fields of the reply; `error` untouched; `isLoading` false either way |
| `AuthProvider.Settle` | src/auth/AuthProvider.tsx:49-126 | the common handler shape: `isLoading` ends false, the failure is re-raised unchanged (and nothing otherwise), success stores the new user, failure keeps `user` and sets the handler's message |
| `AuthProvider.LoginStep` | src/auth/AuthProvider.tsx:49-64 | success: `user` is the returned user, `error` null; failure: `user` unchanged, `error` "Failed to login", the error re-raised; `isLoading` false |
| `AuthProvider.RegisterStep` | src/auth/AuthProvider.tsx:66-81 | as login, with "Failed to register" |
| `AuthProvider.LogoutStep` | src/auth/AuthProvider.tsx:83-95 | success clears `user` and keeps any earlier `error` (it is not cleared first); failure keeps `user`, sets "Failed to logout", re-raises |
| `AuthProvider.UpdateNameStep` | src/auth/AuthProvider.tsx:97-109 | success stores the record the backend returned; failure keeps `user`, sets "Failed to update name", re-raises |
| `AuthProvider.DeleteAccountStep` | src/auth/AuthProvider.tsx:111-126 | success clears `user` and `error`; failure keeps `user`, sets "Failed to delete account", re-raises |
| `AuthProvider.IncrementStep` | src/auth/AuthProvider.tsx:128-152 | returns true iff a user exists; no user: nothing changes; below 20 (a non-numeric count read as 0): `apiCalls` becomes count + 1 and every other field and `error` stay; at or above 20: user unchanged, `error` "API call limit reached" |
| `AuthProvider.IncrementStaysWithinLimit` | src/auth/AuthProvider.tsx:136-145 | one call from a count of at most 20 adds exactly one below the limit, none at it, and never exceeds 20 |
| `AuthProvider.IncrementsSaturate` | src/auth/AuthProvider.tsx:131-151 | after k calls the count is min(c + k, 20) for a start c at most 20, and c itself above 20; no other field of the user changes |
| `AuthProvider.AuthStore.constructor` | src/auth/AuthProvider.tsx:8-10 | no user, loading, no error |
| `AuthProvider.AuthStore.CheckAuth` | src/auth/AuthProvider.tsx:16-43 | the new state is `CheckAuthStep` of the old |
| `AuthProvider.AuthStore.Login` | src/auth/AuthProvider.tsx:49-64 | new state and re-raised error are `LoginStep` of the old state |
| `AuthProvider.AuthStore.Register` | src/auth/AuthProvider.tsx:66-81 | new state and re-raised error are `RegisterStep` of the old state |
| `AuthProvider.AuthStore.Logout` | src/auth/AuthProvider.tsx:83-95 | new state and re-raised error are `LogoutStep` of the old state |
| `AuthProvider.AuthStore.UpdateName` | src/auth/AuthProvider.tsx:97-109 | new state and re-raised error are `UpdateNameStep` of the old state |
| `AuthProvider.AuthStore.DeleteAccount` | src/auth/AuthProvider.tsx:111-126 | new state and re-raised error are `DeleteAccountStep` of the old state |
| `AuthProvider.AuthStore.IncrementApiCalls` | src/auth/AuthProvider.tsx:128-152 | new state and result are `IncrementStep` of the old state |
| `AuthProvider.AuthStore.UpdateUser` | src/auth/AuthProvider.tsx:166-166 | replaces `user` only |
| `ProtectedRoute.Decide` | src/components/ProtectedRoute.tsx:15-28 | Loading iff loading; redirect to `/login` with `from` = current location iff not loading and no user; redirect to `/dashboard` iff a non-admin on an admin route; children otherwise; every redirect replaces and goes to one of those two paths |
| `ProtectedRoute.DecideDefault` | src/components/ProtectedRoute.tsx:11-11 | with `requireAdmin` at its default false, any signed-in user gets the page once loading ends |
| `Login.SavedFrom` | src/pages/Login.tsx:45-45 | `location.state?.from?.pathname`: present iff the state, `from` and a non-empty path are all there, and then equal to that path |
| `Login.RedirectAfterLogin` | src/pages/Login.tsx:40-49 | no navigation iff no user; an admin always goes to `/admin`; a non-admin to the saved path, else `/dashboard`; every navigation replaces |
| `Login.LoginErrorMessage` | src/pages/Login.tsx:28-36 | "Invalid email or password" iff an axios error with status 401; "An error occurred. Please try again." iff any other axios error; "An unexpected error occurred" iff not an axios error |
| `Login.HandleSubmit` | src/pages/Login.tsx:22-38 | the store ends as `LoginStep` says; a toast is shown iff the login failed, with the mapped message |
| `Login.GuardThenLoginReturnsToOrigin` | src/pages/Login.tsx:40-49 | after the guard bounces a visitor from a non-empty path, the login page sends a non-admin back to that path and an admin to `/admin` |
| `Login.SessionCheck401LosesOrigin` | src/auth/axios.ts:16-18 | a 401 on any path without `/login` loads `/login` with no navigation state, from which a non-admin's login goes to `/dashboard` and an admin's to `/admin` |
| `Login.WrongPasswordStaysOnLoginPage` | src/pages/Login.tsx:28-31 | a 401 on `/login` is not redirected by the interceptor, is re-raised by the store and shows "Invalid email or password" |
| `AxiosClient.Contains` | src/auth/axios.ts:17-17 | `includes`: false when `sub` is longer than `s`; true for the empty `sub` and for a prefix |
| `AxiosClient.ContainsFound` | src/auth/axios.ts:17-17 | whenever `includes` is true it names an offset at which `sub` occurs |
| `AxiosClient.ContainsAt` | src/auth/axios.ts:17-17 | a substring found at any offset makes `includes` true |
| `AxiosClient.Intercept` | src/auth/axios.ts:13-23 | the result passes through unchanged, success or failure; a redirect happens iff the failure is a 401 and the path does not contain `/login`, and it goes to `/login` |
| `AxiosClient.NoRedirectOnLoginPaths` | src/auth/axios.ts:17-17 | no redirect from any path that contains `/login` |
| `AxiosClient.RedirectIsIdempotent` | src/auth/axios.ts:16-19 | after a redirect, a further failure on the new path redirects no more |
| `Api.BaseUrl` | src/utils/api.ts:8-8 | the configured URL when set and non-empty, otherwise "http://localhost:3000"; never empty |
| `Api.ErrorMessage` | src/utils/api.ts:12-20 | a body's non-empty `message`; "An error occurred" for a body without one; for an unparseable or `null` body the status text, or "An error occurred" if that is empty; never empty |
| `Api.HandleResponse` | src/utils/api.ts:11-29 | a value iff the response is ok and its body parses, and then the body itself; a non-ok response throws an `Error` with that message; an ok response with an unparseable body throws "Invalid response format from server" |
| `Api.BuildRequest` | src/utils/api.ts:37-44 | URL is base URL then endpoint; method and body kept; credentials forced to "include"; headers are the caller's plus Content-Type, the caller's winning, "application/json" otherwise |
| `Api.BuildRequestWithoutOptions` | src/utils/api.ts:34-44 | with the default empty options the request has no method or body, includes credentials, and carries only `Content-Type: application/json` |
| `Api.ApiRequest` | src/utils/api.ts:32-52 | a response is classified by `HandleResponse`; a thrown `Error` is re-thrown unchanged; any other thrown value becomes "Network error occurred"; every failure is an `Error` |
| `EditProfile.InitialForm` | src/pages/EditProfile.tsx:11-14 | name is the user's name or empty, original name equals it, not editing, not loading |
| `EditProfile.Edit` | src/pages/EditProfile.tsx:18-21 | records the current name as the original and starts editing; the name is untouched |
| `EditProfile.Cancel` | src/pages/EditProfile.tsx:23-26 | the name becomes the original name and editing ends |
| `EditProfile.Type` | src/pages/EditProfile.tsx:112-113 | the name changes only while editing, and then to the typed text |
| `EditProfile.TypeAll` | src/pages/EditProfile.tsx:112-113 | any run of keystrokes keeps the original name and the editing flag, changes nothing unless editing, and leaves the last text; no keystrokes change nothing |
| `EditProfile.EditTypeCancelRestores` | src/pages/EditProfile.tsx:18-26 | Edit, any typing, then Cancel leaves the name as before Edit, not editing |
| `EditProfile.Renamed` | src/pages/EditProfile.tsx:43-51 | the saved record matches the user's seven declared fields except the name, which is the typed one |
| `EditProfile.SaveStep` | src/pages/EditProfile.tsx:38-62 | loading ends and the typed name stays; success ends editing, clears `error` and stores the renamed record of the user signed in when the save began (the backend's record when there was none); failure keeps editing and leaves the store as the failed `updateName` left it |
| `EditProfile.FailedSaveThenCancelRestores` | src/pages/EditProfile.tsx:57-58 | a failed save keeps the form editing, and Cancel still restores the name from before Edit |
| `EditProfile.ProfileEditor.constructor` | src/pages/EditProfile.tsx:10-14 | the fields are `InitialForm` of the user |
| `EditProfile.ProfileEditor.HandleEdit` | src/pages/EditProfile.tsx:18-21 | the new form is `Edit` of the old |
| `EditProfile.ProfileEditor.HandleCancel` | src/pages/EditProfile.tsx:23-26 | the new form is `Cancel` of the old |
| `EditProfile.ProfileEditor.HandleChange` | src/pages/EditProfile.tsx:112-113 | the new form is `Type` of the old |
| `EditProfile.ProfileEditor.HandleSave` | src/pages/EditProfile.tsx:38-62 | the new form and store are `SaveStep` of the old |
| `Dashboard.TrimStart` | src/pages/Dashboard.tsx:45-45 | a suffix of the input that does not start with white space, and everything removed before it is white space |
| `Dashboard.TrimEnd` | src/pages/Dashboard.tsx:45-45 | a prefix of the input that does not end with white space, and everything removed after it is white space |
| `Dashboard.Trim` | src/pages/Dashboard.tsx:45-45 | a contiguous part of the input, neither starting nor ending with white space, with only white space before and after it |
| `Dashboard.TrimStartEmptyIffBlank` | src/pages/Dashboard.tsx:45-45 | trimming the start leaves nothing iff every character is white space |
| `Dashboard.TrimEndEmptyIffBlank` | src/pages/Dashboard.tsx:45-45 | trimming the end leaves nothing iff every character is white space |
| `Dashboard.TrimEmptyIffBlank` | src/pages/Dashboard.tsx:45-45 | `input.trim()` is empty iff the input is only white space |
| `Dashboard.Greeting` | src/pages/Dashboard.tsx:36-36 | the text starts with "Hi " followed by the user's name, and goes on after it |
| `Dashboard.GreetStep` | src/pages/Dashboard.tsx:31-41 | an empty transcript with a user becomes the single greeting; otherwise nothing changes |
| `Dashboard.SubmitStep` | src/pages/Dashboard.tsx:43-74 | blank input: nothing changes and nothing is sent; otherwise the raw input is sent and appended as the user's message after the untouched earlier ones, the input is cleared and loading ends; on success the reply follows the question and one call is counted; on failure nothing else is appended and the store is untouched |
| `Dashboard.TranscriptIsAppendOnly` | src/pages/Dashboard.tsx:31-61 | earlier messages are a prefix of the transcript after either effect |
| `Dashboard.LimitDoesNotBlockReply` | src/pages/Dashboard.tsx:54-65 | a user at the limit still gets the reply appended; the user record stays and `error` says the limit was reached |
| `Dashboard.ChatPanel.constructor` | src/pages/Dashboard.tsx:16-18 | empty transcript, empty input, not loading |
| `Dashboard.ChatPanel.HandleChange` | src/pages/Dashboard.tsx:218-218 | replaces the input only |
| `Dashboard.ChatPanel.Greet` | src/pages/Dashboard.tsx:31-41 | the new chat is `GreetStep` of the old |
| `Dashboard.ChatPanel.HandleSubmit` | src/pages/Dashboard.tsx:43-74 | the new chat, store and sent text are `SubmitStep` of the old, including the early return when no user is signed in |
| `AdminDashboard.NonAdmins` | src/pages/AdminDashboard.tsx:15-15 | exactly the non-admin users of the list, no longer than it |
| `AdminDashboard.NonAdminsAppend` | src/pages/AdminDashboard.tsx:15-15 | the filter keeps the original order: it distributes over concatenation |
| `AdminDashboard.NonAdminsKeepsNonAdmins` | src/pages/AdminDashboard.tsx:15-15 | a list without admins passes whole, so filtering is idempotent |
| `AdminDashboard.GetAllUsers` | src/pages/AdminDashboard.tsx:10-16 | a failed request propagates its error; otherwise the filtered list |
| `AdminDashboard.GetEndpointStats` | src/pages/AdminDashboard.tsx:18-30 | a failed request gives the empty list; otherwise the fetched stats |
| `AdminDashboard.FetchStep` | src/pages/AdminDashboard.tsx:40-59 | loading ends; a failed first users fetch only sets "Failed to fetch data"; otherwise the stats are stored, and the users are the second list filtered, or the first filtered with the error set when the second fetch fails |
| `AdminDashboard.TotalApiCalls` | src/pages/AdminDashboard.tsx:122-122 | 0 for no users; a single user's own count; a number iff every listed count is numeric (with `TotalApiCallsAppend` this fixes the sum) |
| `AdminDashboard.TotalApiCallsAppend` | src/pages/AdminDashboard.tsx:122-122 | the total of a concatenation is the sum of the totals |
| `AdminDashboard.TotalApiCallsBounds` | src/pages/AdminDashboard.tsx:122-122 | with non-negative counts the total is defined and at least any single user's count |
| `AdminDashboard.TotalsOf` | src/pages/AdminDashboard.tsx:105-123 | "Total Users" is the list length; the calls card is the users' `TotalApiCalls`; an empty list shows 0 and 0 |
| `AdminDashboard.TotalsAfterFetch` | src/pages/AdminDashboard.tsx:44-49 | after a complete fetch the cards count and sum exactly the non-admins of the second list |
| `AdminDashboard.UserTable` | src/pages/AdminDashboard.tsx:226-239 | Loading iff loading; "No users found" iff loaded with no users; otherwise one row per user |
| `AdminDashboard.EndpointTable` | src/pages/AdminDashboard.tsx:153-166 | as written: Loading iff loading; "No endpoint statistics found" iff loaded with no users; otherwise one row per stat |
| `AdminDashboard.EndpointTableKeyedOnUsers` | src/pages/AdminDashboard.tsx:159-166 | stats without users show "no statistics"; users without stats show an empty table |
| `AdminDashboard.EndpointTableIntended` | src/pages/AdminDashboard.tsx:153-166 | keyed on the stats list: the message shows iff loaded with no stats, otherwise one row per stat |
| `AdminDashboard.IntendedTableReportsStats` | src/pages/AdminDashboard.tsx:45-47 | after a fetch the intended table, taken on its own, reports "no statistics" exactly when none were fetched |
| `AdminDashboard.PageOf` | src/pages/AdminDashboard.tsx:72-239 | a panel with an error shows only "Error: " and the message; otherwise the two cards and the two tables as written |
| `AdminDashboard.PageIntended` | src/pages/AdminDashboard.tsx:72-239 | the same page with the endpoint table keyed on its own list |
| `AdminDashboard.FailedFetchShowsOnlyError` | src/pages/AdminDashboard.tsx:50-72 | a failed first or second users fetch leaves the page showing only "Error: Failed to fetch data" |
| `AdminDashboard.IntendedPageReportsStats` | src/pages/AdminDashboard.tsx:44-72 | on the intended page, "no statistics" is shown iff the panel had no error, the second users fetch succeeded and no statistics were fetched |
| `AdminDashboard.AdminPanel.constructor` | src/pages/AdminDashboard.tsx:33-36 | empty lists, loading, no error |
| `AdminDashboard.AdminPanel.FetchUsers` | src/pages/AdminDashboard.tsx:41-56 | the new panel is `FetchStep` of the old |

## Left out

- HTTP itself (axios and `fetch`): every backend call is an `Outcome` parameter. This covers `api.get/post/patch/delete`, `sendMessageToAPI` and the fire-and-forget `incrementCounterAPI` calls. The request bodies of login, register, updateName and deleteAccount are parameters the model does not use.
- React scheduling: effect timing, batched `setState` and interleaving between concurrent handlers. Intermediate states such as `isLoading` being true during a request exist only inside the class methods and are not observable in the step functions.
- Rendering, toasts other than the login page's message, icons, logging, the `Date.now()` message ids, time formatting and scrolling.
- The route table in src/App.tsx: which route matches is react-router's decision, and react-router is not part of this model.
- Environment variables and vite.config.ts: the configured base URL is a parameter of `Api.BaseUrl`.
- `handleUpdateName` and `handleDeleteAccount` in src/pages/Dashboard.tsx, and the `handleLogout` wrappers of the pages: raw calls followed by a toast and navigation, with no state beyond `logout`.
- `AuthProvider.IncrementStep`: JavaScript numbers are modelled as unbounded integers; fractional, NaN or infinite `apiCalls` values are not modelled.
- `AuthProvider.CheckAuthStep`: the reply is always a record. A `null` or missing body, on which reading `response.data.id` throws and clears the user, is not modelled. Nor is a string, number or boolean body: reading its fields gives `undefined` without throwing, so the store keeps a record of undefined fields and the guard lets that "user" in.
- `AuthProvider.LoginStep`: a reply without a `user` property stores `undefined` as the user (src/auth/AuthProvider.tsx:54), and a `null` body throws; the model's reply always holds a user record.
- `AuthProvider.RegisterStep`: as login, at src/auth/AuthProvider.tsx:71.
- `EditProfile.SaveStep`: the form state it gives after a failed save is never shown. `updateName` sets the store's `isLoading` (src/auth/AuthProvider.tsx:98), so src/App.tsx:15-16 renders the loading screen instead of the router, EditProfile unmounts, and it mounts again from the stored user's name, not editing (src/pages/EditProfile.tsx:11-14). The model has no notion of unmounting. `EditProfile.FailedSaveThenCancelRestores` is about the same unshown form.
- `AdminDashboard.TotalApiCalls`: every count that is not a number gives no total. JavaScript's `+` gives different things for different values: `null` adds 0, `true` adds 1, `undefined` gives NaN, and a string concatenates. The model does not tell these cases apart.
- `AdminDashboard.NonAdmins`: `isAdmin` is a boolean here, so the loose `== false` comparison on non-boolean values is not modelled.
- `Api.BuildRequest`: headers are a map of exact names; a `Headers` object or array of pairs, and case-insensitive header names, are not modelled.

## Findings

| source | as written | input that shows it | evidently intended | confidence | as-written member | corrected member |
|---|---|---|---|---|---|---|
| src/pages/AdminDashboard.tsx:159 | the endpoint-statistics table chooses its "No endpoint statistics found" row on `users.length === 0` | a loaded panel with one endpoint stat and no non-admin users shows "No endpoint statistics found"; one with users and no stats shows an empty table with no message | the empty row is chosen on `endpointStats.length === 0` | medium, not executed | `AdminDashboard.EndpointTableKeyedOnUsers` | `AdminDashboard.EndpointTableIntended` |
