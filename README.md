# Platform web app: the authenticated client and session state, in Dafny

This project models the client-side core of the platform web app:

- **The authenticated request coordinator** (`src/services/api.ts`):
  - the token store over two fixed `localStorage` keys;
  - the request interceptor, which attaches `Authorization: Bearer <token>` (section 2.1 of RFC 6750);
  - the response-error handler, which serialises token refreshes through the module-level `isRefreshing` flag and the `failedQueue` of waiters drained by `processQueue`.
- **The auth service** (`src/services/auth.ts`): what `login`, `logout`, `getCurrentUser` and `register` do to the token store.
- **The dashboard page** (`src/pages/Dashboard/DashboardPage.tsx`):
  - the slug derived from a new workspace's name;
  - validation and trimming of the create-workspace form;
  - the greeting;
  - the form's state cells.
- **Session state:**
  - `AuthProvider` and `useAuth` (`src/contexts/AuthContext.tsx`);
  - the `useWorkspaces` hook (`src/hooks/useWorkspaces.ts`);
  - the `useProjects` and `useProject` hooks (`src/hooks/useProjects.ts`).

## How the model is built

**The coordinator is a state machine run one event at a time.** The JavaScript runtime is single-threaded, and each handler invocation runs to its first `await` without interleaving. So each of these is one event:

- a response error reaching the handler;
- the refresh call succeeding with a token pair;
- the refresh call failing with an error.

Network outcomes are parameters of these events. Interleavings of concurrent requests become different event orders.

**Pure functions say what each event does.** `OnResponseError`, `OnRefreshSuccess` and `OnRefreshFailure` map one `Coordinator` value to the next.

**The class carries the events out in place.** The module's state is the class `Api.ApiModule`. It holds:

- `storage`: a map standing for `localStorage`;
- `location`: the last redirect target;
- `isRefreshing` and `failedQueue`;
- `inFlight`: the request whose handler is suspended on the refresh call;
- `settled`: the log of settlements handed to waiters.

Its methods update the fields and are proved equal to the pure functions. Requests are the class `Api.RequestConfig`, whose `Authorization` header and `_retry` mark are updated in place.

**Lemmas state the promised properties.** Some cover one event; others cover whole event sequences, using `Run`, `Feasible` and `RefreshCalls`.

**Async functions are split at their `await`.** In the hooks, the part before the request is a `BeginFetch` method and the part after the response is a `CompleteFetch` method. On the page, the create handler is split into `SubmitCreate` and `FinishCreate`. The response is a parameter of the second method. The `AuthProvider` methods (`LoadUser`, `Login`, `Logout`, `RefreshUser`) are not split; they take the results of their requests as parameters. State cells are class fields.

### Behaviour of the code that the model exposes

- **The `_retry` mark is set late.** The mark is there to stop a request from starting a second refresh. But it is set only after the in-progress check (src/services/api.ts:105-117), so a queued request is never marked:
  - its second 401 is handled like a first one: when the client is idle and a refresh token is stored, it starts a second refresh (while another refresh is under way it is queued again; with no refresh token stored it takes the missing-token path);
  - the request that started the first refresh is rejected on its second 401.

  `Api.QueuedRequestRefreshesAgain` proves this.
- **The missing-refresh-token path returns before the `try/finally`.** Every other path clears `isRefreshing` in the `finally` at src/services/api.ts:147-149. This path returns before the `try` (src/services/api.ts:118-125). So `isRefreshing` stays `true` with no refresh in flight. Until the navigation to /login replaces the page (which the model leaves out):
  - every later 401 on an unmarked request is queued;
  - no refresh is started again;
  - no waiter is settled.

  `Api.StalledForever` and `Api.MissingRefreshTokenNeverRecovers` prove this for the module's state up to that navigation. The navigation set at src/services/api.ts:123 loads a new page, which starts over with a fresh `isRefreshing` and `failedQueue`.
- **The refresh call does not re-enter the handler.** It uses bare `axios`, not the configured instance. So a refresh outcome is an event of its own and never a response error.
- **The blank-name check runs on the trimmed name, not on the slug.** A name made only of dropped characters passes the check with an empty slug. A slug can also end in '-'. `Dashboard.NonBlankNameEmptySlug` and `Dashboard.SlugTrailingHyphen` prove these.
- **The mount fetch of `useWorkspaces` uses a stale closure.** It runs the callback of the first render, which saw no selection. A workspace chosen while that fetch is in flight is replaced by the first listed one (`UseWorkspaces.MountFetch`).

## Model

| member | source | states |
|---|---|---|
| Api.WithTokens | src/services/api.ts:53-56 | after `setTokens(a, r)` the access key reads a, the refresh key reads r, and every other key reads as before |
| Api.WithoutTokens | src/services/api.ts:61-64 | after `clearTokens()` both token keys read null and every other key reads as before |
| Api.ClearUndoesSet | src/services/api.ts:53-64 | clearing after storing a pair gives the same storage as clearing without storing it |
| Api.BearerRoundTrip | src/services/api.ts:71 | the token read back from `Bearer <token>` is the token, so distinct tokens give distinct headers |
| Api.SettleInOrder | src/services/api.ts:85-94 | `processQueue` hands out one settlement per waiter, the i-th to the i-th queued waiter, all with the same token or error |
| Api.OnResponseError | src/services/api.ts:98-152 | an unmarked 401 is queued exactly while refreshing, and starts a refresh exactly when idle with a refresh token stored; every other invocation is rejected with its own error; the mark is set only past the in-progress check; any unmarked 401 leaves the flag set; no waiter is settled and the queue only grows |
| Api.OnRefreshSuccess | src/services/api.ts:131-149 | the new pair is stored, the queue is empty, the flag is clear, nothing is in flight, earlier settlements are kept and the redirect target is unchanged |
| Api.OnRefreshFailure | src/services/api.ts:142-149 | both tokens are gone, the client goes to /login, the queue is empty, the flag is clear, nothing is in flight and earlier settlements are kept |
| Api.OtherErrorsPassThrough | src/services/api.ts:104-152 | a non-401 error, or a 401 on a request already marked `_retry`, is rejected with that same error and changes no state and no mark |
| Api.QueuedWhileRefreshing | src/services/api.ts:105-115 | a 401 on an unmarked request while refreshing appends exactly that request to the queue, changes nothing else, starts no refresh and leaves the request unmarked |
| Api.MissingRefreshTokenPath | src/services/api.ts:117-125 | idle with no usable refresh token: the request is marked, both tokens are cleared, the client goes to /login, the original error is returned, no refresh starts, and the flag stays set |
| Api.RefreshStartsOnlyWhenIdle | src/services/api.ts:104-133 | a refresh starts only for an unmarked 401 with the flag clear and nothing in flight; it carries the stored non-empty refresh token, marks the request and sets the flag |
| Api.RefreshSuccessSettlesAll | src/services/api.ts:131-149 | refresh success: storage holds exactly the new pair, every waiter is resolved with the new access token in queue order, the queue is empty and the flag is clear |
| Api.RefreshFailureRejectsAll | src/services/api.ts:142-149 | refresh failure: every waiter is rejected with the refresh error in queue order, both tokens are cleared, the client goes to /login, the queue is empty and the flag is clear |
| Api.RunPreservesValid | src/services/api.ts:79-149 | over any feasible event sequence, a refresh in flight always has the flag set and a clear flag always has an empty queue |
| Api.StepWhileRefreshing | src/services/api.ts:105-115 | one response error while the flag is set starts no refresh and only appends its request to the queue when it is an unmarked 401 |
| Api.RefreshingAbsorbsErrors | src/services/api.ts:105-115 | while the flag is set, response errors start no refresh, queue every unmarked 401 in arrival order, and change nothing else |
| Api.OneRefreshPerWindow | src/services/api.ts:104-133 | any number of 401s arriving together make exactly one refresh call: the first starts it, the rest queue behind it in order |
| Api.StalledForever | src/services/api.ts:118-125 | with the flag set and nothing in flight, only response errors can occur; until the page is replaced by the navigation to /login, the flag stays set, no waiter is settled and no refresh is made |
| Api.MissingRefreshTokenNeverRecovers | src/services/api.ts:117-125 | after the missing-refresh-token path, whatever events follow before the navigation to /login replaces the page, the flag stays set, nothing is in flight, no waiter is settled and no refresh is made |
| Api.QueuedRequestRefreshesAgain | src/services/api.ts:104-141 | a queued request is never marked: after a successful refresh its second 401 starts a new refresh, while the first request's second 401 is rejected |
| Api.ApiModule.constructor | src/services/api.ts:79-83 | a fresh module has the given storage, the flag clear, an empty queue and nothing in flight |
| Api.ApiModule.GetAccessToken | src/services/api.ts:39-41 | the stored access token, or null exactly when none is stored |
| Api.ApiModule.GetRefreshToken | src/services/api.ts:46-48 | the stored refresh token, or null exactly when none is stored |
| Api.ApiModule.SetTokens | src/services/api.ts:53-56 | storage becomes `WithTokens` of the old storage and nothing else changes |
| Api.ApiModule.ClearTokens | src/services/api.ts:61-64 | storage becomes `WithoutTokens` of the old storage and nothing else changes |
| Api.ApiModule.AttachAuthorization | src/services/api.ts:67-74 | the header becomes `Bearer <token>` exactly when a non-empty access token is stored; otherwise the request is unchanged |
| Api.ApiModule.ProcessQueue | src/services/api.ts:85-94 | the loop appends `Settle(queue, settlement)` to the settlements and empties the queue, changing nothing else |
| Api.ApiModule.HandleResponseError | src/services/api.ts:98-152 | the new state, the request's `_retry` mark and the outcome are those of `OnResponseError`; the header is untouched |
| Api.ApiModule.HandleRefreshSuccess | src/services/api.ts:131-149 | the new state is `OnRefreshSuccess`; the suspended request is retried with `Bearer <new access token>` and keeps its mark |
| Api.ApiModule.HandleRefreshFailure | src/services/api.ts:142-149 | the new state is `OnRefreshFailure`; the original request is rejected with the refresh error |
| Api.ResumeWaiter | src/services/api.ts:110-114 | a resolved waiter retries with `Bearer <token>`, a rejected one fails with the refresh error; the `_retry` mark is never set |
| Auth.Login | src/services/auth.ts:28-33 | on success the response's pair is stored and the body is returned unchanged; on failure the error propagates and storage is untouched |
| Auth.GetCurrentUser | src/services/auth.ts:46-49 | returns the profile or the error; its own code touches no storage |
| Auth.Logout | src/services/auth.ts:58-66 | both tokens are cleared and the call resolves, whether the server call succeeds or fails |
| Auth.Register | src/services/auth.ts:75-82 | returns the created user or the error; its own code touches no storage |
| Dashboard.Trim | src/pages/Dashboard/DashboardPage.tsx:56 | the result is a contiguous part of the input with only whitespace cut off on each side; it has no whitespace at either end and is empty exactly when the input is all whitespace |
| Dashboard.ToLower | src/pages/Dashboard/DashboardPage.tsx:57 | each upper-case ASCII letter becomes its lower-case letter, every other character stays, and no upper-case letter is left |
| Dashboard.StripDisallowed | src/pages/Dashboard/DashboardPage.tsx:58 | only lower-case letters, digits, whitespace and '-' are left |
| Dashboard.HyphenateWhitespace | src/pages/Dashboard/DashboardPage.tsx:59 | no whitespace is left; on filtered input only slug characters are left |
| Dashboard.Slug | src/pages/Dashboard/DashboardPage.tsx:56-59 | the slug holds only a-z, 0-9 and '-' |
| Dashboard.StripOneChar | src/pages/Dashboard/DashboardPage.tsx:58 | a single character is kept exactly when it is a-z, 0-9, whitespace or '-' |
| Dashboard.StripConcat | src/pages/Dashboard/DashboardPage.tsx:58 | the filter of a concatenation is the concatenation of the filters, so every kept character of the name stays, in order |
| Dashboard.HyphenateSplit | src/pages/Dashboard/DashboardPage.tsx:59 | where a non-whitespace character meets whitespace, the two parts are replaced independently |
| Dashboard.HyphenateRun | src/pages/Dashboard/DashboardPage.tsx:59 | a maximal whitespace run between two parts becomes exactly one '-' in its place, between the parts' results |
| Dashboard.HyphenateCounts | src/pages/Dashboard/DashboardPage.tsx:59 | each maximal whitespace run becomes exactly one '-'; the other characters stay, in order |
| Dashboard.SlugFixedPoint | src/pages/Dashboard/DashboardPage.tsx:56-59 | a string of slug characters is its own slug |
| Dashboard.SlugIdempotent | src/pages/Dashboard/DashboardPage.tsx:56-59 | deriving the slug of a slug gives the same slug |
| Dashboard.NonBlankNameEmptySlug | src/pages/Dashboard/DashboardPage.tsx:46-59 | a name that passes the blank check can give an empty slug |
| Dashboard.SlugTrailingHyphen | src/pages/Dashboard/DashboardPage.tsx:56-59 | a slug can end in '-' when a dropped character follows whitespace |
| Dashboard.IsBlank | src/pages/Dashboard/DashboardPage.tsx:46 | a name is refused exactly when it is all whitespace |
| Dashboard.CreateRequest | src/pages/Dashboard/DashboardPage.tsx:61-65 | the request carries the trimmed name (non-empty, with no whitespace at either end, for a name that passes the blank check), a slug of slug characters only, and a description that is absent exactly when the input is all whitespace |
| Dashboard.OptionalDescription | src/pages/Dashboard/DashboardPage.tsx:64 | the description is absent exactly when it is all whitespace, and otherwise is the non-empty trimmed text |
| Dashboard.CreateErrorMessage | src/pages/Dashboard/DashboardPage.tsx:79 | the message is the server's non-empty `detail` when present, else 'Failed to create workspace'; it is never empty |
| Dashboard.FirstWord | src/pages/Dashboard/DashboardPage.tsx:97 | `split(' ')[0]` is the longest prefix without a space |
| Dashboard.Greeting | src/pages/Dashboard/DashboardPage.tsx:97 | the greeting is the name's text before the first space, or 'User' when the name is missing or that text is empty |
| Dashboard.DashboardPage.constructor | src/pages/Dashboard/DashboardPage.tsx:34-38 | the modal starts closed with an empty form, no error and nothing being created |
| Dashboard.DashboardPage.OpenCreateModal | src/pages/Dashboard/DashboardPage.tsx:110 | opens the modal and changes nothing else |
| Dashboard.DashboardPage.EditName | src/pages/Dashboard/DashboardPage.tsx:166 | replaces the name and changes nothing else |
| Dashboard.DashboardPage.EditDescription | src/pages/Dashboard/DashboardPage.tsx:175 | replaces the description and changes nothing else |
| Dashboard.DashboardPage.SelectWorkspace | src/pages/Dashboard/DashboardPage.tsx:40-43 | the clicked workspace becomes current, nothing else in the hook changes, and the page goes to /projects |
| Dashboard.DashboardPage.SubmitCreate | src/pages/Dashboard/DashboardPage.tsx:45-65 | a blank name sets 'Workspace name is required' and sends nothing; otherwise the error is cleared, creation starts, and the request carries the trimmed name, the slug and the optional description |
| Dashboard.DashboardPage.FinishCreate | src/pages/Dashboard/DashboardPage.tsx:67-82 | success closes and resets the form, starts a refetch, selects the new workspace and goes to /projects; failure sets the message and leaves the workspaces alone; creation ends either way |
| Dashboard.DashboardPage.CloseModal | src/pages/Dashboard/DashboardPage.tsx:85-90 | closes the modal and resets name, description and error; `isCreating` is kept |
| AuthContext.AuthProvider.constructor | src/contexts/AuthContext.tsx:32-33 | the provider starts with no user and loading |
| AuthContext.AuthProvider.LoadUser | src/contexts/AuthContext.tsx:35-53 | the profile is requested exactly when a non-empty access token is stored; the user becomes the profile (authenticated) or none on failure (not authenticated), and user and `isAuthenticated` stay as they were without a token; loading ends |
| AuthContext.AuthProvider.Login | src/contexts/AuthContext.tsx:61-65 | succeeds exactly when both requests succeed, and then the user is the profile and `isAuthenticated` holds; otherwise the first error propagates and user and `isAuthenticated` stay; tokens stay stored if only the profile request fails |
| AuthContext.AuthProvider.Logout | src/contexts/AuthContext.tsx:70-73 | both tokens are cleared, the user ends as none and `isAuthenticated` is false |
| AuthContext.AuthProvider.RefreshUser | src/contexts/AuthContext.tsx:78-85 | the user becomes the profile (authenticated), or none on failure (not authenticated); no error propagates |
| AuthContext.UseAuth | src/contexts/AuthContext.tsx:109-115 | fails with 'useAuth must be used within an AuthProvider' exactly when no provider value is present, and otherwise returns it |
| UseWorkspaces.SelectionAfterFetch | src/hooks/useWorkspaces.ts:39-42 | the first listed workspace is chosen only when the callback saw no selection and the list is not empty; otherwise the selection stays |
| UseWorkspaces.WorkspacesState.constructor | src/hooks/useWorkspaces.ts:26-29 | an empty list, no selection, not loading and no error |
| UseWorkspaces.WorkspacesState.SetCurrentWorkspace | src/hooks/useWorkspaces.ts:27 | replaces the selection and nothing else |
| UseWorkspaces.WorkspacesState.BeginFetch | src/hooks/useWorkspaces.ts:31-33 | loading starts and the error is cleared; nothing else changes |
| UseWorkspaces.WorkspacesState.CompleteFetch | src/hooks/useWorkspaces.ts:35-47 | success replaces the list and applies `SelectionAfterFetch`; failure sets the (wrapped) error and keeps the list and selection; loading ends |
| UseWorkspaces.FetchWorkspaces | src/hooks/useWorkspaces.ts:31-48 | with a fresh callback, an existing selection is never replaced; success leaves the response's list and no error; loading ends |
| UseWorkspaces.MountFetch | src/hooks/useWorkspaces.ts:50-52 | the mount fetch replaces a selection made while it was in flight with the first listed workspace |
| UseProjects.WithDefaults | src/hooks/useProjects.ts:35-40 | missing options become page 1, page size 20 and automatic fetch on; given options pass through unchanged |
| UseProjects.ProjectsState.constructor | src/hooks/useProjects.ts:35-44 | the settings are the defaulted options; no projects, total 0, not loading, no error |
| UseProjects.ProjectsState.BeginFetch | src/hooks/useProjects.ts:46-53 | an empty workspace id makes no request and changes nothing; otherwise loading starts, the error is cleared, and page and page size are passed through |
| UseProjects.ProjectsState.CompleteFetch | src/hooks/useProjects.ts:53-60 | success replaces projects and total; failure sets the (wrapped) error and keeps them; loading ends |
| UseProjects.ProjectsState.Mount | src/hooks/useProjects.ts:46-67 | with automatic fetch off, or an empty workspace id, no request is made and no cell changes; otherwise the request carries page and page size, loading starts and the error is cleared |
| UseProjects.ProjectState.constructor | src/hooks/useProjects.ts:83-86 | no project, not loading, no error |
| UseProjects.ProjectState.BeginFetch | src/hooks/useProjects.ts:88-95 | either id empty: no request and no change; otherwise loading starts, the error is cleared, and the owner is requested too |
| UseProjects.ProjectState.CompleteFetch | src/hooks/useProjects.ts:94-101 | success sets the project; failure sets the (wrapped) error; loading ends |

## Left out

- HTTP transport, the axios instance and its base URL, and interceptor registration (src/services/api.ts:14-30): each network result is a parameter.
- Promise scheduling: only the order in which events reach the coordinator is modelled, not microtask timing.
- Retried requests: going through the interceptors again and the result of the retried request are not modelled. The model stops at the `Retried` outcome; a further failure is a new event.
- The identity arms are not modelled: the request interceptor's error arm (line 75), the response interceptor's success arm (line 97) and the re-rejection at line 114.
- `window.location.href` is a last-redirect field. The page load that follows is not modelled; it would reset `isRefreshing` and `failedQueue` and end the stall described above.
- Api.OnRefreshFailure: assumes the refresh error is a truthy value. A falsy thrown value would make `processQueue` resolve the waiters with null instead of rejecting them.
- Api.ApiModule.HandleRefreshSuccess: assumes the refresh response carries string `access_token` and `refresh_token` fields. Their absence is not modelled.
- Auth.Login, Auth.GetCurrentUser, Auth.Register, Auth.Logout and the AuthContext.AuthProvider methods: each takes its network result after the client's interceptors have run. What a 401 during one of these calls does to storage, the redirect target and `isRefreshing` belongs to `Api.OnResponseError`, `Api.OnRefreshSuccess` and `Api.OnRefreshFailure`: it may store a new token pair (src/services/api.ts:136), clear both tokens and go to /login (src/services/api.ts:122-123, 144-145), or leave `isRefreshing` set (src/services/api.ts:118-125). These members' frames show only what their own code does, so they do not show those effects.
- Dashboard.Slug: `trim`, `toLowerCase` and `\s` are modelled on ASCII text only. Unicode whitespace and case mappings are not modelled.
- Dashboard.CreateErrorMessage: assumes the server's `detail` is a string. A non-string `detail` (for example a list of validation errors) is not modelled.
- UseWorkspaces.FetchWorkspaces: assumes the callback saw the current selection. The stale first-render callback of the mount effect is `UseWorkspaces.MountFetch`.
- UseProjects.ProjectsState.Mount: the settings are fixed when the state is built. Re-creating the callback when options change, and the effect re-running, are not modelled.
- React rendering is not modelled:
  - setting state after unmount;
  - overlapping fetches of the same hook, where the later response wins;
  - the context value object.
- JSX rendering of the dashboard is not modelled, including the workspace cards, the loading and empty states, and the icon letter. It holds no logic beyond display.
- The thin service wrappers `src/services/projects.ts` and `src/services/workspaces.ts` are not part of this model.
- The presentational components, the other pages and the routing are not part of this model.
- Date formatting with `toLocaleDateString` depends on the locale and is not modelled.
