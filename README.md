# sub-store-panel, modelled in Dafny

sub-store-panel is a multi-tenant control panel in front of a Sub-Store engine. It has three parts:

- **The gateway** (`backend/server.js`). It keeps a table of tenants. Each tenant has a unique username and a unique secret path. The gateway logs tenants in with a JWT cookie and guards every route with the `requireAuth` middleware. It lets only administrators list the table, and lets a tenant change their own password or reset their own secret path. It proxies `/core-api/...` and `/` to the engine, under the tenant's secret path.
- **Two sync-interval records.** `utils/sync-gate.js` and `backend/utils/sync_manager.js` each persist an interval in hours and the time of the last run. Each answers whether a run is due and records a completed run.
- **The dashboard.** These are React contexts and components:
  - the authentication context and the impersonation context;
  - the router's guards;
  - the settings panel's dotted-path update;
  - the password, username and login forms with their validators;
  - the user dashboard's log pagination and cache refresh;
  - the administrator's system settings form.

The model follows the source file by file: one Dafny module per modelled source file.

- **Stateful code becomes classes.**
  - A class's fields are the source's state.
  - Each method has `modifies this`. Its `ensures` ties the new state to a pure step function of the old state.
  - The lemmas are proved about those step functions.
- **Decision code becomes functions with lemmas.** This covers route guards, validators and rewrites.
- **Three shared modules model the JavaScript runtime behaviour the core depends on:**
  - `JsStrings`: `trim`, `indexOf`, `replace` with a string pattern, `split`, and `length` in UTF-16 code units.
  - `JsNumbers`: `String(n)`, `parseInt` with and without a radix, `Number(s)`, and the `x || d` fallback.
  - `JsValues`: JSON values, truthiness, property reads and object spread, including the index keys a spread string contributes.

Outside inputs are parameters of the operations, with nothing assumed about them:

- time (`now`, in milliseconds or seconds as the source uses it);
- the 16 random bytes behind a secret path;
- the contents and writability of a config file;
- every HTTP answer the dashboard receives.

## Model

| member | source | states |
|---|---|---|
| SyncGate.ReadConfig | utils/sync-gate.js:31-40 | A missing file on a read-only disk throws. A missing file otherwise is created holding the defaults. A stored document is overlaid on the defaults. An unreadable file gives the default object itself. |
| SyncGate.UpdateSettingsStep | utils/sync-gate.js:66-70 | `updateSettings` throws exactly when its `readConfig` throws. |
| SyncGate.MarkRunStep | utils/sync-gate.js:93-98 | `markRunComplete` throws exactly when its `readConfig` throws. |
| SyncGate.Gate.constructor | utils/sync-gate.js:14-17 | The module starts with a default object equal to `DEFAULT_CONFIG`. |
| SyncGate.Gate.ReadConfigNow | utils/sync-gate.js:31-40 | The imperative `readConfig`, including creating a missing file, agrees with `ReadConfig`. A throw changes nothing. |
| SyncGate.Gate.GetSettings | utils/sync-gate.js:57-60 | Returns only the interval of the config read. It never exposes the last run time. |
| SyncGate.Gate.UpdateSettings | utils/sync-gate.js:66-70 | The read-modify-write leaves the state `UpdateSettingsStep` gives. It returns whether the write succeeded. |
| SyncGate.Gate.ShouldRun | utils/sync-gate.js:76-87 | Returns `Due` of the config read at `now`. |
| SyncGate.Gate.MarkRunComplete | utils/sync-gate.js:93-98 | Leaves the state `MarkRunStep` gives. |
| SyncGate.FreshConfig | utils/sync-gate.js:14-17 | A fresh config has an interval of 1 hour and a last run time of 0. It is created on first read. |
| SyncGate.ReadConfigOverlays | utils/sync-gate.js:35-36 | Every field the stored document has is read from it. Every default field it lacks takes its default. No other field appears. |
| SyncGate.ReadFailureGivesDefaults | utils/sync-gate.js:37-39 | A read or parse failure gives exactly the default object. |
| SyncGate.NormalizeNumber | utils/sync-gate.js:67 | `parseInt(hours) \|\| 1` on a number keeps it. 0 becomes 1. Negative numbers are not rejected. |
| SyncGate.NormalizeNeverZero | utils/sync-gate.js:67 | The stored interval is never 0. |
| SyncGate.UpdateSettingsEffect | utils/sync-gate.js:66-70 | The new interval is stored and the last run time is kept. When the write succeeds, the next read shows the new interval, and the call reports success. |
| SyncGate.OverlayAbsorbs | utils/sync-gate.js:35-36 | Overlaying a record that has every default key gives back that record. |
| SyncGate.UpdateSettingsIdempotent | utils/sync-gate.js:66-70 | Calling `updateSettings(h)` twice leaves the same state and answer as calling it once. |
| SyncGate.DueIffElapsed | utils/sync-gate.js:76-87 | The gate's hour comparison is the integer test `now - last >= hours * 3600000`. |
| SyncGate.MarkRunCloses | utils/sync-gate.js:93-98 | After a recorded run at `now`, with an interval of at least one hour, the gate is closed at `now`. |
| SyncGate.MarkRunKeepsInterval | utils/sync-gate.js:93-98 | `markRunComplete` leaves the interval read back unchanged. |
| SyncGate.LoweringIntervalKeepsDue | utils/sync-gate.js:79-81 | Lowering the interval while past the old threshold keeps the gate open. |
| SyncGate.FailedUpdateStillApplies | utils/sync-gate.js:37-39 | With an unreadable file on a read-only disk, `updateSettings` reports failure. The shared default object has still taken the new interval, and `getSettings` shows it. |
| SyncGate.ReadStringDocument | utils/sync-gate.js:35-36 | A config file holding a JSON string is spread character by character: the keys `"0"`, `"1"`, ... hold its characters, and the interval and last run time stay the defaults. |
| SyncGate.NormalizeHours | utils/sync-gate.js:67 | `parseInt(hours) \|\| 1`; its values are stated by `NormalizeNumber` and `NormalizeNeverZero`. |
| SyncGate.Due | utils/sync-gate.js:76-87 | The `shouldRun` comparison with `Number` conversions; `DueIffElapsed` states it as an integer test. |
| SyncManager.ShouldExecute | backend/utils/sync_manager.js:64-78 | `shouldExecuteSync` throws exactly when the config read is `null`. |
| SyncManager.Manager.constructor | backend/utils/sync_manager.js:22-31 | The record starts as the given file on the given disk. |
| SyncManager.Manager.GetConfigNow | backend/utils/sync_manager.js:37-46 | Agrees with `GetConfig`: a missing file is created on a writable disk, and a document is returned as parsed. |
| SyncManager.Manager.UpdateConfig | backend/utils/sync_manager.js:52-57 | A read-only disk throws and changes nothing. Otherwise the merged record is written and returned, as `UpdateConfigStep` says. |
| SyncManager.Manager.ShouldExecuteSync | backend/utils/sync_manager.js:64-78 | Gives `ShouldExecute` of the config read at `now`. |
| SyncManager.Manager.MarkSyncComplete | backend/utils/sync_manager.js:84-87 | Leaves the state `updateConfig({last_sync_time: now})` gives. It throws exactly on a read-only disk. |
| SyncManager.FreshRecord | backend/utils/sync_manager.js:14-17 | A fresh record has `interval_hours = 24` and `last_sync_time = 0`. A writable disk stores it. |
| SyncManager.GetConfigFallback | backend/utils/sync_manager.js:42-45 | A missing or unreadable file gives the defaults. A readable document is returned as it is. |
| SyncManager.UpdateIsShallowMerge | backend/utils/sync_manager.js:52-57 | Patch keys override and every other key is kept. No key is added. The merged record is both returned and what is read back. |
| SyncManager.UpdateIdempotent | backend/utils/sync_manager.js:54 | The same patch applied twice gives the same record and file as applying it once. |
| SyncManager.ShouldExecuteIff | backend/utils/sync_manager.js:64-78 | Due iff `now - last >= interval_hours * 3600000`. A missing last sync time counts as 0. |
| SyncManager.MarkChangesOnlyLastSync | backend/utils/sync_manager.js:84-87 | Only `last_sync_time` changes, and it becomes `now`. |
| SyncManager.MarkThenNotDue | backend/utils/sync_manager.js:64-87 | Right after marking at `now`, with an interval of at least 1 hour, no sync is due at `now`. |
| SyncManager.GetConfig | backend/utils/sync_manager.js:37-46 | `getConfig`; its cases are stated by `GetConfigFallback` and `FreshRecord`. |
| SyncManager.UpdateConfigStep | backend/utils/sync_manager.js:52-57 | `updateConfig`; `UpdateIsShallowMerge` and `UpdateIdempotent` state its effect. |
| SyncManager.SyncDue | backend/utils/sync_manager.js:64-78 | The `shouldExecuteSync` test; `ShouldExecuteIff` states it. |
| Gateway.Hex | backend/server.js:55 | `toString('hex')` gives two lowercase hex digits per byte. |
| Gateway.UnhexHex | backend/server.js:55 | The hex rendering can be read back into the same bytes. |
| Gateway.RandomPathShape | backend/server.js:55 | A secret path is `/` followed by 32 lowercase hex digits. Different bytes give different paths. |
| Gateway.FindByName | backend/server.js:68 | The username lookup returns a row with that name, or none exists. |
| Gateway.FindByNameExact | backend/server.js:35-42 | On a table meeting the UNIQUE constraints, the lookup finds the one row with that name. |
| Gateway.InsertKeepsWellFormed | backend/server.js:35-42 | An insert keeps both UNIQUE constraints. A successful insert adds exactly one row, under the next id. |
| Gateway.SeedEffect | backend/server.js:52-60 | An existing `admin` row is left alone. Otherwise an `admin`/`admin` row with role admin and a fresh path is inserted. Either way the constraints still hold. |
| Gateway.SignVerify | backend/server.js:78-100 | A token verifies with its own secret for exactly seven days. It never verifies with another secret. |
| Gateway.LoginOutcome | backend/server.js:66-85 | Login succeeds iff the password is a string, the named row exists and the password matches. It then sets a session cookie (no `maxAge`, no `expires`) holding a token with `{id, username, role, sub_store_path}` that expires after seven days, and echoes the path and role. An unknown name and a wrong password give the same 401. The process crashes, with no reply, exactly when the name is known and the password is missing or not a string, because `compareSync` throws inside the database callback. |
| Gateway.Logout | backend/server.js:87-90 | Clears the cookie and replies `{success: true}`. |
| Gateway.RequireAuthTable | backend/server.js:93-107 | The full decision table: no token, invalid token, or valid token, each under `/api/` or not. The request goes on exactly with a valid token, carrying its claims. An invalid token also clears the cookie. |
| Gateway.LoginCookieAuthenticates | backend/server.js:80-107 | The token in a login's session cookie passes `requireAuth` until it expires seven days after the login, carrying the row's path. |
| Gateway.ListUsersGuard | backend/server.js:113-118 | Any role other than `admin` gets 403 `Forbidden`. An admin sees every row without its hash. |
| Gateway.ChangePasswordOnlyCaller | backend/server.js:121-128 | Only the caller's password hash changes, the new password then matches it, and the table stays well-formed. A missing or non-string `newPassword` makes `hashSync` throw: Express answers 500 and nothing changes. |
| Gateway.ResetPathOnlyCaller | backend/server.js:131-137 | Only the caller's path changes, to the fresh one, which the reply names. A path another row holds gives 500 and changes nothing. The constraints still hold. |
| Gateway.TokenOutlivesReset | backend/server.js:131-153 | A token issued before a reset still verifies and still carries the old path. So the proxy keeps using the old path until the token expires. |
| Gateway.CoreApiRewriteSwapsPrefix | backend/server.js:150-174 | `/core-api` + rest is rewritten to the user's path + rest, the same as the root rewrite of rest. |
| Gateway.CoreApiRewriteWithoutPrefix | backend/server.js:150-153 | A path without `/core-api` passes the rewrite unchanged. |
| Gateway.ProxyError | backend/server.js:154-157 | A proxy error gives a fixed 502 body and leaves the cookie alone. |
| Gateway.UsersDb.constructor | backend/server.js:35-42 | The table starts empty, with the first AUTOINCREMENT id 1. |
| Gateway.UsersDb.SeedAdmin | backend/server.js:52-60 | Seeding leaves the table `Seed` gives. The table stays well-formed. |
| Gateway.UsersDb.ChangeOwnPassword | backend/server.js:121-128 | The table and the reply are those of `ChangePassword` for the caller's id, the 500 of a non-string password included. |
| Gateway.UsersDb.ResetOwnPath | backend/server.js:131-137 | The table and the reply are those of `ResetPath` for the caller's id. |
| Gateway.Insert | backend/server.js:35-42 | An `INSERT` under both UNIQUE constraints; `InsertKeepsWellFormed` states its effect. |
| Gateway.Seed | backend/server.js:52-60 | The start-up admin seeding; `SeedEffect` states it. |
| Gateway.Sign | backend/server.js:72-77 | `jwt.sign` with `expiresIn: '7d'`; `SignVerify` relates it to `Verify`. |
| Gateway.Verify | backend/server.js:100 | `jwt.verify`; `SignVerify` states when a signed token verifies. |
| Gateway.PasswordMatches | backend/server.js:71 | `bcrypt.compareSync`, idealised; `ChangePasswordOnlyCaller` shows a new password matches its hash. |
| Gateway.Login | backend/server.js:66-85 | The login handler, crash included; `LoginOutcome` and `LoginCookieAuthenticates` state it. |
| Gateway.RequireAuth | backend/server.js:93-107 | The `requireAuth` middleware; `RequireAuthTable` states its decision table. |
| Gateway.ListUsers | backend/server.js:113-118 | `GET /api/users`; `ListUsersGuard` states it. |
| Gateway.ChangePassword | backend/server.js:121-128 | `PUT /api/users/me/password`, the 500 of a throwing `hashSync` included; `ChangePasswordOnlyCaller` states it. |
| Gateway.ResetPath | backend/server.js:131-137 | `POST /api/users/me/reset-path`; `ResetPathOnlyCaller` and `TokenOutlivesReset` state it. |
| Gateway.CoreApiRewrite | backend/server.js:150-153 | The `/core-api` path rewrite; `CoreApiRewriteSwapsPrefix` and `CoreApiRewriteWithoutPrefix` state it. |
| Gateway.RootRewrite | backend/server.js:171-174 | The root proxy's path rewrite; `CoreApiRewriteSwapsPrefix` relates it to the `/core-api` rewrite. |
| Impersonation.ImpersonateProvider.constructor | frontend/dashboard/contexts/ImpersonateContext.jsx:15-17 | Starts on the admin console, impersonating nobody. |
| Impersonation.ImpersonateProvider.SwitchToOwnPanelNow | frontend/dashboard/contexts/ImpersonateContext.jsx:22-25 | The state becomes `SwitchToOwnPanel` of the old one, and exclusivity is kept. |
| Impersonation.ImpersonateProvider.ImpersonateNow | frontend/dashboard/contexts/ImpersonateContext.jsx:28-31 | The state becomes `Impersonate` of the old one, and exclusivity is kept. |
| Impersonation.ImpersonateProvider.ReturnToAdminNow | frontend/dashboard/contexts/ImpersonateContext.jsx:34-37 | The state becomes `ReturnToAdmin` of the old one, and exclusivity is kept. |
| Impersonation.ImpersonateProvider.GetEffectivePath | frontend/dashboard/contexts/ImpersonateContext.jsx:40-43 | Returns the effective path of the current state. |
| Impersonation.TransitionsExclusive | frontend/dashboard/contexts/ImpersonateContext.jsx:15-37 | The own-panel flag and an impersonated user are never set together, initially or after any transition. |
| Impersonation.SwitchToOwnPanelEffect | frontend/dashboard/contexts/ImpersonateContext.jsx:19-49 | Switching to the own panel counts as impersonating. It impersonates nobody, so the username is null and the path is the administrator's own. |
| Impersonation.ImpersonateEffect | frontend/dashboard/contexts/ImpersonateContext.jsx:19-49 | Impersonating sets the `{id, username, path}` triple and clears the flag. The path becomes the user's, and the username becomes theirs unless it is empty. |
| Impersonation.ReturnToAdminEffect | frontend/dashboard/contexts/ImpersonateContext.jsx:19-37 | Returning clears both fields, so `isImpersonating` is false. |
| Impersonation.EffectivePathChangesOnlyWhenImpersonating | frontend/dashboard/contexts/ImpersonateContext.jsx:19-43 | The effective path differs from the original only while a user is impersonated. |
| Impersonation.SwitchToOwnPanel | frontend/dashboard/contexts/ImpersonateContext.jsx:22-25 | `switchToOwnPanel`; `SwitchToOwnPanelEffect` and `TransitionsExclusive` state it. |
| Impersonation.Impersonate | frontend/dashboard/contexts/ImpersonateContext.jsx:28-31 | `impersonate(user)`; `ImpersonateEffect` and `TransitionsExclusive` state it. |
| Impersonation.ReturnToAdmin | frontend/dashboard/contexts/ImpersonateContext.jsx:34-37 | `returnToAdmin`; `ReturnToAdminEffect` and `TransitionsExclusive` state it. |
| Impersonation.EffectivePath | frontend/dashboard/contexts/ImpersonateContext.jsx:40-43 | `getEffectivePath`; `EffectivePathChangesOnlyWhenImpersonating` states it. |
| Router.ProtectedRouteTable | dashboard/router.jsx:16-37 | The guard waits exactly while validating. It renders exactly for a logged-in user who, on an admin-only route, is an admin. Every other case redirects to `/dashboard/`. |
| Router.HomePageChoice | dashboard/router.jsx:40-57 | Login when logged out. The admin dashboard exactly for an admin impersonating nobody. The user dashboard otherwise, including for every non-admin. |
| Router.SettingsAdminOnly | dashboard/router.jsx:60-92 | `/settings` renders only for admins. `/user-settings` renders for every logged-in user. |
| Router.GuardRedirectReachesHome | dashboard/router.jsx:60-92 | The guard's `/dashboard/` target is not a route, so the catch-all sends it to `/`, where `HomePage` renders. |
| Router.UnmatchedGoesHome | dashboard/router.jsx:88 | Any path that matches none of `/`, `/settings` and `/user-settings`, letter case and trailing slashes aside, redirects to `/`. |
| Router.ValidatingWaits | dashboard/router.jsx:20-26 | While validating, every guarded route waits. |
| Router.MatchesMeaning | dashboard/router.jsx:64-85 | A path matches a lower-case route without a trailing slash iff it is that route, ASCII letter case aside, followed by zero or more slashes. `/` is matched by every run of slashes. |
| Router.MatchesCaseAndSlashes | dashboard/router.jsx:64-85 | `/Settings//` matches `/settings`, and `//` matches `/`. `/settings/x` and `/settingsx` do not match `/settings`. |
| Router.Matches | dashboard/router.jsx:64-85 | React Router's case-insensitive match with any number of trailing slashes; `MatchesMeaning` states it. |
| Router.ProtectedRoute | dashboard/router.jsx:16-37 | The guard; `ProtectedRouteTable` states it. |
| Router.HomePage | dashboard/router.jsx:40-57 | The home page choice; `HomePageChoice` states it. |
| Router.Resolve | dashboard/router.jsx:60-92 | The route table with its catch-all; `SettingsAdminOnly`, `GuardRedirectReachesHome`, `UnmatchedGoesHome` and `ValidatingWaits` state it. |
| AuthContext.AuthProvider.constructor | frontend/dashboard/contexts/AuthContext.jsx:16-25 | The initial state is read from storage, as `Initial` says. |
| AuthContext.AuthProvider.LoginNow | frontend/dashboard/contexts/AuthContext.jsx:82-95 | State and storage become `Login` of the old ones. |
| AuthContext.AuthProvider.LogoutNow | frontend/dashboard/contexts/AuthContext.jsx:97-108 | State and storage become `Logout` of the old ones. |
| AuthContext.AuthProvider.UpdatePathNow | frontend/dashboard/contexts/AuthContext.jsx:110-113 | State and storage become `UpdatePath` of the old ones. |
| AuthContext.AuthProvider.ValidateToken | frontend/dashboard/contexts/AuthContext.jsx:31-80 | State and storage become `Validate` of the old ones for the given answers. |
| AuthContext.InitialState | frontend/dashboard/contexts/AuthContext.jsx:3-28 | The frontend URL falls back to the default. The must-change flag is on only for a stored `'1'`. Validation runs exactly when a token is stored. |
| AuthContext.LoginEffect | frontend/dashboard/contexts/AuthContext.jsx:82-95 | Authenticated iff the token is non-empty, and admin iff the role is `admin`. The path is stored, or `''`. The flag is `!!mustChange`, stored as `'1'`/`'0'`. A falsy frontend URL leaves the old one. |
| AuthContext.LoginSurvivesReload | frontend/dashboard/contexts/AuthContext.jsx:16-95 | A reload after login reads back the same token, role, path and flag. |
| AuthContext.LogoutEffect | frontend/dashboard/contexts/AuthContext.jsx:97-108 | Clears token, role, path and the flag, and resets the frontend URL. A reload stays logged out. |
| AuthContext.UpdatePathOnlyPath | frontend/dashboard/contexts/AuthContext.jsx:110-113 | Only the path changes, in both state and storage. |
| AuthContext.ValidateOutcome | frontend/dashboard/contexts/AuthContext.jsx:31-80 | Only a 401 clears token, role, path and frontend URL, and it keeps the must-change flag. Every other answer keeps the login. Validating always ends false. |
| AuthContext.Initial | frontend/dashboard/contexts/AuthContext.jsx:16-25 | The state read from storage at mount; `InitialState` states it. |
| AuthContext.Login | frontend/dashboard/contexts/AuthContext.jsx:82-95 | `login`; `LoginEffect` and `LoginSurvivesReload` state it. |
| AuthContext.Logout | frontend/dashboard/contexts/AuthContext.jsx:97-108 | `logout`; `LogoutEffect` states it. |
| AuthContext.UpdatePath | frontend/dashboard/contexts/AuthContext.jsx:110-113 | `updatePath`; `UpdatePathOnlyPath` states it. |
| AuthContext.Validate | frontend/dashboard/contexts/AuthContext.jsx:31-80 | `validateToken`; `ValidateOutcome` states it. |
| SettingsPanel.UpdateField | frontend/dashboard/components/SettingsPanel.jsx:73-82 | The walk-and-assign loops on a copy give `SetPath(prev, split(path, '.'), value)`. `prev` itself is a value and cannot change. |
| SettingsPanel.SetThenGet | frontend/dashboard/components/SettingsPanel.jsx:76-79 | After a successful update, reading the path gives the value. |
| SettingsPanel.SetPathDefinedIff | frontend/dashboard/components/SettingsPanel.jsx:76-79 | The update throws exactly when the keys before the last do not lead through existing fields to an object. |
| SettingsPanel.SetKeepsOthers | frontend/dashboard/components/SettingsPanel.jsx:75-80 | Every path that diverges from the updated one reads what it read before. |
| SettingsPanel.OneSegmentSetsTopLevel | frontend/dashboard/components/SettingsPanel.jsx:76-79 | A path with no dot sets that top-level field. |
| SettingsPanel.DefaultSettingsValues | frontend/dashboard/components/SettingsPanel.jsx:6-15 | The defaults: sync on, notification type `none`, Bark server `https://api.day.app`, group `SubStore`. |
| SettingsPanel.RegenerateOnPathChangeIff | frontend/dashboard/components/SettingsPanel.jsx:51-71 | `onPathChange` is called iff the user confirmed, the response is ok and `data.path` is truthy, and then with that path; the success message shows exactly then. The error toast shows iff the request or its body failed, or an ok reply's body is `null`. A non-ok reply is dropped silently whatever its body. A declined confirmation sends nothing. |
| SettingsPanel.Walk | frontend/dashboard/components/SettingsPanel.jsx:164 | Reading a dotted field such as `settings.notification.bark.serverUrl`; `SetThenGet` and `SetKeepsOthers` state it against `SetPath`. |
| SettingsPanel.SetPath | frontend/dashboard/components/SettingsPanel.jsx:76-79 | The walk-and-assign of `updateField`; `SetPathDefinedIff`, `SetThenGet` and `SetKeepsOthers` state it. |
| SettingsPanel.Regenerate | frontend/dashboard/components/SettingsPanel.jsx:51-71 | `handleRegeneratePath`; `RegenerateOnPathChangeIff` states it. |
| ChangePassword.EffectiveMinLength | dashboard/components/ChangePasswordModal.jsx:3 | `minLength` defaults to 8. |
| ChangePassword.PasswordModal.constructor | dashboard/components/ChangePasswordModal.jsx:6-7 | No error and not loading. |
| ChangePassword.PasswordModal.HandleSubmit | dashboard/components/ChangePasswordModal.jsx:9-43 | The request, the error and closing follow `Submit`. Loading ends false whenever a request was sent. |
| ChangePassword.CheckOrder | dashboard/components/ChangePasswordModal.jsx:10-17 | A request is sent iff the passwords match and their length in UTF-16 code units reaches the minimum. A mismatch is reported first. |
| ChangePassword.EndpointChoice | dashboard/components/ChangePasswordModal.jsx:20-30 | Admins use the per-user URL and everyone else the self URL. The body carries only the new password. |
| ChangePassword.ClosesOnlyOnOk | dashboard/components/ChangePasswordModal.jsx:33-39 | `onClose(true)` only on an ok response. Otherwise the failure or network message is shown. |
| ChangePassword.DefaultTooShortMessage | dashboard/components/ChangePasswordModal.jsx:3-15 | The default length message names 8. |
| ChangePassword.AstralCharactersCountTwice | dashboard/components/ChangePasswordModal.jsx:14 | Four characters outside the Basic Multilingual Plane are eight code units and pass the default minimum of 8. |
| ChangePassword.Check | dashboard/components/ChangePasswordModal.jsx:10-17 | The two checks; `CheckOrder` states them. |
| ChangePassword.Endpoint | dashboard/components/ChangePasswordModal.jsx:20-22 | The URL choice; `EndpointChoice` states it. |
| ChangePassword.Submit | dashboard/components/ChangePasswordModal.jsx:9-43 | `handleSubmit`; `CheckOrder`, `EndpointChoice` and `ClosesOnlyOnOk` state it. |
| ChangeUsername.InitialName | dashboard/components/ChangeUsernameModal.jsx:5 | The initial value is `currentUsername`, or `''`. |
| ChangeUsername.UsernameModal.constructor | dashboard/components/ChangeUsernameModal.jsx:5-6 | The initial name, and not saving. |
| ChangeUsername.UsernameModal.HandleSave | dashboard/components/ChangeUsernameModal.jsx:9-36 | The effect is `Save` of the typed name. `saving` is false afterwards in every outcome. |
| ChangeUsername.SaveChecks | dashboard/components/ChangeUsernameModal.jsx:10-18 | An empty or whitespace-only name gets a warning, and the current name gets an info message; neither sends a request. Any other name is sent as typed. |
| ChangeUsername.SuccessPassesSentName | dashboard/components/ChangeUsernameModal.jsx:20-32 | `onSuccess` is called exactly on an ok response, with the untrimmed name sent. |
| ChangeUsername.UntrimmedNameSent | dashboard/components/ChangeUsernameModal.jsx:10-25 | A name that differs from the current one only by surrounding whitespace is not "unchanged": it is sent with that whitespace, and `onSuccess` gets it. |
| ChangeUsername.Save | dashboard/components/ChangeUsernameModal.jsx:9-36 | `handleSave`; `SaveChecks`, `SuccessPassesSentName` and `UntrimmedNameSent` state it. |
| LoginForm.OrDefault | frontend/dashboard/components/Login.jsx:30-31 | `x \|\| d`: truthy values are kept and falsy ones give `d`. |
| LoginForm.Form.constructor | frontend/dashboard/components/Login.jsx:15-22 | The builtin captcha, no token, no error, not loading. |
| LoginForm.Form.LoadPublicSettingsNow | frontend/dashboard/components/Login.jsx:26-40 | The captcha settings become those `LoadPublicSettings` gives. A failure changes nothing. |
| LoginForm.Form.HandleSubmit | frontend/dashboard/components/Login.jsx:61-120 | Error, token and request follow `Submit`. Loading ends false whenever a request was sent. |
| LoginForm.CaptchaSelection | frontend/dashboard/components/Login.jsx:26-40 | The type defaults to `builtin`. Turnstile is configured iff the type is `turnstile` and the site key is non-empty. |
| LoginForm.GuardChain | frontend/dashboard/components/Login.jsx:65-77 | In Turnstile mode: unconfigured and tokenless are two errors. In builtin mode: an empty code is an error. A request is sent exactly when no check fails. |
| LoginForm.BodyShape | frontend/dashboard/components/Login.jsx:85-91 | A builtin body has `captchaId` and `captchaCode`. Any other body has only `turnstileToken` besides the credentials. |
| LoginForm.FailureResetsCaptcha | frontend/dashboard/components/Login.jsx:99-116 | After a failure, builtin mode reloads the captcha and Turnstile mode clears the token. |
| LoginForm.UnknownCaptchaType | frontend/dashboard/components/Login.jsx:65-91 | An unknown type demands a code but sends the token instead. |
| LoginForm.LoadPublicSettings | frontend/dashboard/components/Login.jsx:26-40 | The captcha settings from the public settings body; `CaptchaSelection` states them. |
| LoginForm.Guard | frontend/dashboard/components/Login.jsx:65-77 | The checks before the request; `GuardChain` states them. |
| LoginForm.Body | frontend/dashboard/components/Login.jsx:85-91 | The request body; `BodyShape` states it. |
| LoginForm.Submit | frontend/dashboard/components/Login.jsx:61-120 | `handleSubmit`; `GuardChain`, `FailureResetsCaptcha` and `UnknownCaptchaType` state it. |
| UserDashboard.FormatTargetShort | frontend/dashboard/components/UserDashboard.jsx:30-34 | A falsy target gives `''`. Text of up to 12 characters is kept. Longer text becomes its first 12 characters plus `…`. |
| UserDashboard.FormatTargetShortBound | frontend/dashboard/components/UserDashboard.jsx:30-34 | The output has at most 13 characters and starts like the input. |
| UserDashboard.EffectivePathAgrees | frontend/dashboard/components/UserDashboard.jsx:37 | The dashboard's path agrees with the context's `getEffectivePath`. |
| UserDashboard.BackendApiUrlShape | frontend/dashboard/components/UserDashboard.jsx:130-131 | The origin alone iff there is no path, and otherwise the origin, `/` and the path. |
| UserDashboard.LogsView.constructor | frontend/dashboard/components/UserDashboard.jsx:21-23 | No logs, no cursor, not loading. |
| UserDashboard.LogsView.StartLoad | frontend/dashboard/components/UserDashboard.jsx:73-86 | While a load is in flight nothing happens. Otherwise `Query` is sent and loading begins. |
| UserDashboard.LogsView.FinishLoad | frontend/dashboard/components/UserDashboard.jsx:87-104 | A failure or a non-ok page toasts and keeps logs and cursor. An ok page replaces or appends its results, and the cursor becomes `nextBeforeId` or null. Loading ends. |
| UserDashboard.QueryCursor | frontend/dashboard/components/UserDashboard.jsx:77-82 | The limit is 50. `beforeId` is sent iff not resetting and the cursor is truthy, and then as its text. The other user's log is read only by an impersonating admin. |
| UserDashboard.MergeOrder | frontend/dashboard/components/UserDashboard.jsx:94-98 | A reset shows exactly the new page. Otherwise the old entries are kept in order with the page after them. |
| UserDashboard.MergeTwice | frontend/dashboard/components/UserDashboard.jsx:94-98 | Two appended pages equal one page holding both. |
| UserDashboard.RefreshGuard | frontend/dashboard/components/UserDashboard.jsx:107-116 | A refresh request is made iff none is in flight and the path is non-empty, and then under the backend URL. An empty path is refused with no request. |
| UserDashboard.EffectivePath | frontend/dashboard/components/UserDashboard.jsx:37 | The path the dashboard shows; `EffectivePathAgrees` states it. |
| UserDashboard.BackendApiUrl | frontend/dashboard/components/UserDashboard.jsx:130-131 | The backend URL; `BackendApiUrlShape` states it. |
| UserDashboard.Query | frontend/dashboard/components/UserDashboard.jsx:77-82 | The access-log query; `QueryCursor` states it. |
| UserDashboard.Merge | frontend/dashboard/components/UserDashboard.jsx:94-98 | The page merge; `MergeOrder` and `MergeTwice` state it. |
| UserDashboard.Refresh | frontend/dashboard/components/UserDashboard.jsx:107-116 | The cache refresh; `RefreshGuard` states it. |
| SystemSettings.UpdateSettingOnlyKey | dashboard/components/SystemSettings.jsx:54-56 | `updateSetting` sets the given key and keeps every other field. |
| SystemSettings.UpdateSettingLastWins | dashboard/components/SystemSettings.jsx:54-56 | Two updates of the same key keep the second value. |
| SystemSettings.NumericInputFallbacks | dashboard/components/SystemSettings.jsx:122-192 | NaN or 0 stores 168, 8, 50, 0 and 20000. No field but the user cap is ever 0, and the user cap is never negative. |
| SystemSettings.NumericInputOfDecimal | dashboard/components/SystemSettings.jsx:122-192 | A non-zero number typed in is stored as itself. A negative user cap becomes 0. |
| SystemSettings.ShownDefaults | dashboard/components/SystemSettings.jsx:121-191 | The lifetime shown falls back on any falsy value. The `??` fields fall back only when missing; a stored 0 cap shows 0, not 200. |
| SystemSettings.ToggleAsWrittenStuckWhenUnset | dashboard/components/SystemSettings.jsx:208-212 | On a record without `showUserPath` the switch shows on. The toggle as written stores `true`, so it still shows on. |
| SystemSettings.ToggleAsWrittenCounterexample | dashboard/components/SystemSettings.jsx:208-212 | From the empty record, the first click leaves the switch on. |
| SystemSettings.ToggleFlips | dashboard/components/SystemSettings.jsx:209-212 | The corrected toggle always flips what the switch shows. |
| SystemSettings.TogglesAgreeOnBooleans | dashboard/components/SystemSettings.jsx:208-212 | The two toggles agree whenever the field is already a boolean. |
| SystemSettings.CaptchaButtons | dashboard/components/SystemSettings.jsx:225-234 | An unset type highlights builtin. At most one button is highlighted. |
| SystemSettings.SettingsForm.constructor | dashboard/components/SystemSettings.jsx:12-14 | The form starts at `{}`, loading and not saving. |
| SystemSettings.SettingsForm.Loaded | dashboard/components/SystemSettings.jsx:16-29 | The body replaces the record, or an error is toasted and the record stays. Loading ends. |
| SystemSettings.SettingsForm.UpdateSetting | dashboard/components/SystemSettings.jsx:54-56 | The record becomes `UpdateSettingStep` of the old one. |
| SystemSettings.SettingsForm.ToggleUserPath | dashboard/components/SystemSettings.jsx:208 | The record becomes the corrected toggle of the old one. |
| SystemSettings.SettingsForm.HandleSave | dashboard/components/SystemSettings.jsx:31-52 | Posts the whole record unchanged. Success iff the response is ok. Saving ends. |
| SystemSettings.UpdateSettingStep | dashboard/components/SystemSettings.jsx:54-56 | `updateSetting`; `UpdateSettingOnlyKey` and `UpdateSettingLastWins` state it. |
| SystemSettings.TokenExpiryInput | dashboard/components/SystemSettings.jsx:122 | The token lifetime typed in; `NumericInputFallbacks` and `NumericInputOfDecimal` state it. |
| SystemSettings.PasswordMinLengthInput | dashboard/components/SystemSettings.jsx:140 | The password minimum typed in; `NumericInputFallbacks` and `NumericInputOfDecimal` state it. |
| SystemSettings.CronBatchSizeInput | dashboard/components/SystemSettings.jsx:160 | The batch size typed in; `NumericInputFallbacks` and `NumericInputOfDecimal` state it. |
| SystemSettings.CronMaxUsersInput | dashboard/components/SystemSettings.jsx:176 | The user cap typed in; `NumericInputFallbacks` and `NumericInputOfDecimal` state it. |
| SystemSettings.CronTimeBudgetInput | dashboard/components/SystemSettings.jsx:192 | The time budget typed in; `NumericInputFallbacks` and `NumericInputOfDecimal` state it. |
| SystemSettings.TokenExpiryShown | dashboard/components/SystemSettings.jsx:121 | The lifetime shown; `ShownDefaults` states it. |
| SystemSettings.NullishShown | dashboard/components/SystemSettings.jsx:139-191 | The `??` fields shown; `ShownDefaults` states them. |
| SystemSettings.ShowsUserPath | dashboard/components/SystemSettings.jsx:209-212 | What the switch shows; `ToggleFlips` and `ToggleAsWrittenStuckWhenUnset` state it against the toggles. |
| JsStrings.TrimEmptyIffAllWhiteSpace | dashboard/components/ChangeUsernameModal.jsx:10 | `trim()` gives `''` exactly for all-whitespace text. |
| JsStrings.JoinSplit | frontend/dashboard/components/SettingsPanel.jsx:76 | Joining the pieces of `split('.')` gives the text back. |
| JsStrings.SplitPiecesLackSeparator | frontend/dashboard/components/SettingsPanel.jsx:76 | No piece of `split('.')` contains a dot. |
| JsStrings.ReplaceFirstAtStart | backend/server.js:152 | `replace` on text starting with the pattern swaps that prefix. |
| JsStrings.ReplaceFirstAbsent | backend/server.js:152 | `replace` on text without the pattern returns the text. |
| JsStrings.Utf16Length | dashboard/components/ChangePasswordModal.jsx:14 | `length` is at least the number of characters and at most twice it, and equals it when every character is in the Basic Multilingual Plane. |
| JsStrings.IndexOf | backend/server.js:152 | The first occurrence of the pattern, or none. |
| JsStrings.Split | frontend/dashboard/components/SettingsPanel.jsx:76 | `split` on one character; `JoinSplit`, `SplitPiecesLackSeparator` state it. |
| JsStrings.Trim | dashboard/components/ChangeUsernameModal.jsx:10 | `trim()`; `TrimEmptyIffAllWhiteSpace` states it. |
| JsStrings.ReplaceFirst | backend/server.js:152 | `replace` with a string pattern; `ReplaceFirstAtStart` and `ReplaceFirstAbsent` state it. |
| JsNumbers.ParseIntOfDecimal | utils/sync-gate.js:67 | `parseInt` reads back the decimal rendering of any integer, with or without radix 10. |
| JsNumbers.OrElse | utils/sync-gate.js:67 | `parse \|\| d`: NaN and 0 give `d`. |
| JsNumbers.StringToNumberOfDecimal | utils/sync-gate.js:79 | `Number(String(i))` is `i` for every integer, with whitespace around it or not. |
| JsNumbers.StringToNumber | utils/sync-gate.js:79 | `Number(s)`: blank text is 0. |
| JsNumbers.ParseInt | utils/sync-gate.js:67 | `parseInt`; `ParseIntOfDecimal` states it against `IntToDecimal`. |
| JsNumbers.IntToDecimal | frontend/dashboard/components/UserDashboard.jsx:79 | `String(n)`; `ParseIntOfDecimal` and `StringToNumberOfDecimal` read it back. |
| JsValues.SpreadOverrides | backend/utils/sync_manager.js:54 | In `{...a, ...b}` the keys of `b` win, and every other key of `a` is kept. |
| JsValues.SpreadStringIndices | utils/sync-gate.js:35-36 | Spreading a string gives exactly one key per character, its index in decimal, holding that character. |
| JsValues.Fields | utils/sync-gate.js:35-36 | What `{...v}` contributes; `SpreadOverrides` and `SpreadStringIndices` state it. |

## Left out

- **Not modelled by design:**
  - the internals of express, sqlite3, bcrypt, jsonwebtoken and node-cron;
  - proxy streaming;
  - all rendering, CSS and Toast timers;
  - `AdminDashboard.jsx`, `EditUserModal.jsx`, `app.js` and `app.jsx`.

  These are libraries or UI plumbing around the modelled decisions.
- **Idealised libraries:**
  - bcrypt is a hash that records its password, and has no salt or cost.
  - A JWT is a datatype of claims, key, issue time and expiry, with seven days written as 604800 seconds.
  - Forged or malformed tokens are an opaque alternative that never verifies.
- Database errors other than the UNIQUE constraints, and the `created_at` column, are not modelled. The sqlite callbacks' `err` branches for lost connections have no counterpart.
- Gateway.ListUsersGuard: the rows are a set, because the SQL has no `ORDER BY` and promises no order.
- Gateway.RequireAuthTable: the `path` is Express's `req.path`. Under `app.use('/core-api')` that path has the mount prefix already stripped. The model takes the string as is and does not model mounting.
- JsStrings.ReplaceFirst: the `$` replacement patterns of `String.prototype.replace` are not modelled. A user path holding `$&` would be expanded by JavaScript, but the gateway's paths are `/` and hex digits.
- JsNumbers.StringToNumber: `Number(s)` covers only optionally signed decimal integers and blank text. Hex, octal, binary, fractions, exponents and `Infinity` are NaN here.
- Numbers throughout are unbounded integers. The core stores only integers: hours, milliseconds, ids, lengths. Doubles, fractions and precision loss beyond 2^53 are not modelled.
- UserDashboard.FormatTargetShort: its length test and `slice(0, 12)` count Unicode code points, not UTF-16 code units, because a Dafny string cannot hold half of a surrogate pair. Characters outside the Basic Multilingual Plane would differ. `ChangePassword.Check` counts UTF-16 code units, as `length` does.
- JSON documents have no arrays, because none of the core's records holds one. The access-log page's `results` array is passed to the model as a sequence, with None when it is not an array.
- Whether a value is a string or a number is decided by the `Json` constructor. JavaScript's `typeof` on other host objects is not modelled.
- **Sync modules:**
  - The file system is an abstract store: absent, unreadable, or holding a document, plus a fixed writable flag.
  - `mkdir` failures and partial writes are not modelled.
  - In `initConfig`, only whether a missing file gets created is modelled.
- Randomness, the clock, `fetch`, `localStorage` and the clipboard are parameters. Storage is a map of strings.
- UserDashboard.LogsView.StartLoad: the source's `logsLoading` guard matters only when two loads overlap. The model splits `loadLogs` at its `await`, so overlap is two `StartLoad` calls before a `FinishLoad`. React's batching and re-render timing are not modelled. Percent-encoding of the query string is not modelled; only the `beforeId` text is.
- UserDashboard.RefreshGuard: `Date.now()` is the parameter `now`. The answer of the refresh request only chooses a toast and is not modelled.
- SettingsPanel.UpdateField: `JSON.parse(JSON.stringify(prev))` is a deep copy, which value semantics give for free. A throw inside the `setSettings` updater is modelled as None. In the dashboard that throw resurfaces while React renders, and `app.jsx` (lines 8-22) has no error boundary, so the whole dashboard unmounts. The model does not capture that unmounting.
- Dashboard requests that a modelled step makes are returned as the URL or body; their transport is not modelled.
- **No lockout or rate limiting.** `backend/server.js` has neither, so the model has none.
- **Reset-path does not check for a different path.** `backend/server.js` line 132 draws 16 random bytes and does not compare the result with the old path. `ResetPathOnlyCaller` promises the new path is whatever the bytes give, so the same path results only if the bytes reproduce it.
- **The cursor guard uses truthiness.** `UserDashboard.jsx` line 79 sends `beforeId` only for a truthy cursor, so a cursor of `0` or `''` also restarts from the top.
- Gateway.PasswordMatches: exact equality of the password with the one hashed. bcrypt reads only the first 72 bytes of a password, so two passwords that agree on those bytes both match; the model does not promise that.
- Gateway.Login: the username is taken as a string. A body whose `username` is missing, a number, a boolean or an object is not modelled; sqlite binds a missing one as NULL, which finds no row, as an unknown name does.
- Gateway.ChangePassword: the 500 of a throwing `hashSync` is Express's default error page, modelled as `ErrorPage(500)` without its HTML.
- Router.Matches: React Router also percent-decodes the path before matching; the model matches the path text as given. Letter case is folded for ASCII letters only, which covers the table's routes.
- JsValues.Fields: a spread string gives one index key per Unicode code point, where JavaScript gives one per UTF-16 code unit. The two differ only for characters outside the Basic Multilingual Plane.

## Findings

| source | as written | input that shows it | evidently intended | confidence | as-written member | corrected member |
|---|---|---|---|---|---|---|
| dashboard/components/SystemSettings.jsx:208-212 | The `showUserPath` switch shows "on" unless the field is exactly `false`. Its click stores `!settings.showUserPath`, the negated truthiness. | The record `{}` the form starts from, or any record without `showUserPath`. The switch shows on; the click stores `true`; the switch still shows on. The first click does nothing visible (lemmas `ToggleAsWrittenStuckWhenUnset` and `ToggleAsWrittenCounterexample`). | The click negates what the switch shows: it stores `false` when the switch shows on (lemma `ToggleFlips`; the form's `ToggleUserPath` uses it). | medium, not executed | SystemSettings.ToggleShowUserPathAsWritten | SystemSettings.ToggleShowUserPath |
