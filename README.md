# Auth session layer of the rehab front-end, in Dafny

The two page headers of the front-end, `Navbar` and `Header`, carry the same
auth-session logic. Each component keeps an in-memory auth state
`{token, user}` read from the browser's `localStorage`, a key-value store
shared by every tab of the origin. On mount it reads the state and
registers two window listeners: `storage`, fired by the browser when
another tab changes the store, and `authChange`, a signal the page fires
at its own tab. The `storage` handler re-reads only when the changed key
is `token` or `user`; the `authChange` handler always re-reads. On unmount
the component removes both listeners. `logout` removes both keys, resets
the state to `{null, null}`, fires `authChange` and navigates to `/`.
From the state each component derives its links: the role of the user
chooses a dashboard route through a case-insensitive `switch` with a
visitor-dashboard default.

The model:

- `wrappers.dfy`: `Option` for JavaScript `null`, `Result` for a call that throws.
- `ascii.dfy`: ASCII lower-casing, standing in for `toLowerCase`.
- `role_router.dfy`: the role table as a map (`RoleRouter.DashboardRoutes`), the six dashboard routes, JavaScript truthiness of an optional string, and `Resolve`, the table lookup the two `switch` statements are proved against.
- `session_store.dfy`: the store as `map<string, string>`, the session value, the read (`SessionStore.Read`), the effect of `setAuth(read())` when the read may throw (`Refreshed`), lemmas relating reads to store changes, and the `LocalStorage` class whose `items` the tabs share.
- `event_target.dfy`: the window's listener registry as a sequence of (event, callback handle, owner) with the semantics of `addEventListener` and `removeEventListener`.
- `auth_sync.dfy`: the imperative core. `Window` (one tab: the shared store, `JSON.parse`, the registered listeners, the log of fired events) and `AuthComponent` (the state, the last navigation, the current subscription) with the handlers, the mount effect, its cleanup and `logout`; then scenario methods: mount then unmount, logout twice, a sign-in in the same tab, a sign-in seen from another tab.
- `navbar.dfy`: `Navbar`'s `switch` and link list.
- `header.dfy`: `Header`'s copies of the read and of the `switch`, proved equal to `Navbar`'s, its conditional links, and repeated mount cycles.

`JSON.parse` is the window's `parse: string -> Parsed`, an arbitrary function that either throws (`SyntaxError`) or returns a value (`Value(None)` for `null`, else a user with an optional string role). Every lemma holds for every such function.

Three points of the code's behaviour shape the model:

- The read is not fail-soft. `JSON.parse` is called without a `try` (src/components/Navbar.jsx:14, src/components/Header.jsx:11). So `Read` returns `Failure(MalformedUser(text))` for a `user` text that does not parse, and the token is lost as well. A throwing `setAuth(read())` in a listener leaves the state unchanged (`Refreshed`). On mount it ends the effect before any listener is registered (`AuthComponent.Mount`).
- There is no single clear operation and no handling of a failing store. `logout` calls `removeItem` twice in a row, and a storage exception is not caught. The model has the two removals and no storage exception.
- The `storage` filter compares the event's key with `token` and `user` only. When another tab calls `localStorage.clear()`, the browser sends a `storage` event whose key is null. The filter drops it, so a signed-in component keeps its state although the store now reads `{null, null}` (`AuthSync.StorageClearIgnored`, `AuthSync.CrossTabClear`).

## Model

| member | source | states |
|---|---|---|
| `Ascii.ToLower` | src/components/Navbar.jsx:47 | lower-casing keeps the length and folds each character on its own |
| `RoleRouter.Resolve` | src/components/Navbar.jsx:45-65 | the table lookup always yields one of the six dashboard routes; a falsy role yields `/visitor-dashboard` |
| `Navbar.RoleToDashboardPath` | src/components/Navbar.jsx:45-65 | the switch is total, always yields one of the six dashboard routes, and a null or empty role yields `/visitor-dashboard` |
| `Navbar.RoleToDashboardPathIsTable` | src/components/Navbar.jsx:48-64 | the switch equals the table lookup for every role: admin, doctor and therapist, staff, patient, visitor, user, default |
| `Navbar.CaseInsensitive` | src/components/Navbar.jsx:46-47 | two roles with the same lower-case form get the same route |
| `Navbar.LowerCasedRoleSameRoute` | src/components/Navbar.jsx:47 | a role and its lower-case form get the same route |
| `Navbar.DoctorDashboardIff` | src/components/Navbar.jsx:51-53 | the doctor dashboard is reached exactly from `doctor` and `therapist`, in any letter case |
| `Navbar.VisitorDashboardIff` | src/components/Navbar.jsx:46-63 | the visitor dashboard is reached exactly from a falsy role, `visitor`, or a role not in the table |
| `Navbar.LowerCaseRole` | src/components/Navbar.jsx:48-61 | each role of the table, spelt in lower case, gets its table route |
| `Navbar.SampleRoles` | src/components/Navbar.jsx:46-61 | `admin`, `staff`, `patient`, `visitor` and `user` get their own dashboards; the empty and the missing role get `/visitor-dashboard` |
| `Navbar.AnySpellingOfTableRole` | src/components/Navbar.jsx:47-61 | a role whose lower-case form is in the table gets that entry's route, whatever its letter case |
| `Navbar.UnlistedRoleDefaults` | src/components/Navbar.jsx:62-63 | a role whose lower-case form is not in the table gets `/visitor-dashboard` |
| `Navbar.SampleUnknownRole` | src/components/Navbar.jsx:62-63 | `unknown-role` gets `/visitor-dashboard` |
| `Navbar.SampleMixedCaseRoles` | src/components/Navbar.jsx:47-53 | `Doctor` and `THERAPIST` both get `/doctor-dashboard` |
| `Navbar.DashboardLink` | src/components/Navbar.jsx:68 | the signed-in link is named after the role, or `Dashboard` for a falsy role, and leads to a dashboard route |
| `Navbar.NavLinks` | src/components/Navbar.jsx:39-43 | four links, the first three Home `/`, About `/about`, Contact `/contact`; the last is Login `/login` for a falsy token, else the dashboard link named `user?.role \|\| 'Dashboard'` and leading to the role's route |
| `Navbar.LoginLinkIffSignedOut` | src/components/Navbar.jsx:67-69 | a link to `/login` is on the list exactly when the token is falsy |
| `SessionStore.GetItem` | src/components/Navbar.jsx:13 | a stored key gives its string, a missing key gives null |
| `SessionStore.RoleOf` | src/components/Navbar.jsx:68 | `user?.role` is absent for a null user and is the user's own role otherwise |
| `SessionStore.DashboardLabel` | src/components/Navbar.jsx:68 | the label is never empty: the role when truthy, else `Dashboard` |
| `SessionStore.Read` | src/components/Navbar.jsx:12-15 | the read throws exactly when a non-empty `user` text fails to parse; otherwise the token is the stored one (or null) and the user is the parsed value, or null for a missing or empty text |
| `SessionStore.Refreshed` | src/components/Navbar.jsx:16 | `setAuth(read())` takes the fresh read when it returns and keeps the state when it throws |
| `SessionStore.ReadIgnoresOtherKeys` | src/components/Navbar.jsx:18-20 | setting or removing any one key other than `token` and `user` does not change the read, so the filter loses nothing on such events; the null-key event of a `clear()` is another matter (`AuthSync.StorageClearIgnored`) |
| `SessionStore.ReadAfterClear` | src/components/Navbar.jsx:30-32 | after both keys are removed a read gives `{null, null}`, whatever else the store holds |
| `SessionStore.ReadAfterWrite` | src/components/Navbar.jsx:12-15 | after a token and a parseable non-empty user text are written, a read gives back that token and user |
| `SessionStore.EmptyUserIsNull` | src/components/Navbar.jsx:14 | an empty `user` text reads as a null user, without parsing |
| `SessionStore.LocalStorage.RemoveItem` | src/components/Navbar.jsx:31-32 | removes one key and keeps every other entry |
| `EventTarget.Add` | src/components/Navbar.jsx:22-23 | the pair is registered afterwards and the old registry is a prefix of the new: a new pair is appended, a registered one changes nothing |
| `EventTarget.AddIdempotent` | src/components/Navbar.jsx:22-23 | registering the same pair twice registers it once |
| `EventTarget.Remove` | src/components/Navbar.jsx:25-26 | unregistering leaves the pair unregistered and never grows the registry |
| `EventTarget.RemoveOnlyDrops` | src/components/Navbar.jsx:25-26 | every pair left after unregistering was registered before |
| `EventTarget.RemoveKeepsOthers` | src/components/Navbar.jsx:25-26 | every other registered pair stays registered |
| `EventTarget.AddTwoRemoveTwo` | src/components/Navbar.jsx:22-27 | adding two new pairs and removing the same two restores the registry exactly |
| `AuthSync.AfterEvent` | src/components/Navbar.jsx:18-21 | an `authChange` or a `storage` event for `token` or `user` takes the fresh read (if it returns); a `storage` event for any other key, or with a null key, changes nothing |
| `AuthSync.AfterEventIdempotent` | src/components/Navbar.jsx:21 | handling the same event twice with no store change gives what handling it once gives |
| `AuthSync.Window.AddEventListener` | src/components/Navbar.jsx:22-23 | the registry becomes `Add` of the old registry |
| `AuthSync.Window.RemoveEventListener` | src/components/Navbar.jsx:25-26 | the registry becomes `Remove` of the old registry |
| `AuthSync.Window.DispatchEvent` | src/components/Navbar.jsx:35 | the event is logged, and every owner of a listener for it ends in the state the handler defines for the current store; no other state changes and the window stays well formed |
| `AuthSync.AuthComponent.constructor` | src/components/Navbar.jsx:8 | a new component holds `{null, null}`, has not navigated and is not subscribed |
| `AuthSync.AuthComponent.OnStorage` | src/components/Navbar.jsx:18-20 | re-reads only for the keys `token` and `user`, otherwise (a null key included) leaves the state; the store is not changed |
| `AuthSync.AuthComponent.OnAuthChange` | src/components/Navbar.jsx:21 | always re-reads; the store is not changed |
| `AuthSync.AuthComponent.Mount` | src/components/Navbar.jsx:11-23 | sets the state to the read and appends exactly one `storage` and one `authChange` listener with new callbacks; a throwing read changes nothing and registers nothing |
| `AuthSync.AuthComponent.Unmount` | src/components/Navbar.jsx:24-27 | removes exactly the two listeners the mount registered |
| `AuthSync.AuthComponent.Logout` | src/components/Navbar.jsx:30-37 | the store loses `token` and `user` and keeps every other key; the state and that of every `authChange` listener in the tab is `{null, null}`; one `authChange` is fired; the route is `/`; the window stays well formed |
| `AuthSync.MountThenUnmount` | src/components/Navbar.jsx:22-27 | mount then unmount leaves the registry equal to what it was before the mount |
| `AuthSync.LogoutTwice` | src/components/Navbar.jsx:30-36 | a second logout leaves the store and the state as the first left them; only the signal and the navigation repeat |
| `AuthSync.SignInSameTab` | src/components/Navbar.jsx:21 | after a same-tab write of both keys and an `authChange`, every `authChange` listener holds the written session |
| `AuthSync.CrossTabSignIn` | src/components/Navbar.jsx:18-20 | after another tab writes both keys, each write followed by its `storage` event, every `storage` listener of this tab holds the written session |
| `AuthSync.CrossTabSignInBatched` | src/components/Navbar.jsx:18-20 | the same when both events arrive only after both writes |
| `AuthSync.StorageClearIgnored` | src/components/Navbar.jsx:19 | a `storage` event with a null key leaves a signed-in state as it is, although a read of the cleared store gives `{null, null}` |
| `AuthSync.CrossTabClear` | src/components/Navbar.jsx:18-20 | after another tab clears the store, every `storage` listener of this tab keeps its old state while the store reads `{null, null}` |
| `Header.ReadAuth` | src/components/Header.jsx:9-12 | the read throws exactly when a non-empty `user` text fails to parse; otherwise the token is the stored one |
| `Header.ReadAuthAgrees` | src/components/Header.jsx:9-12 | the header's read equals the navbar's for every store and parser |
| `Header.RoleToDashboardPath` | src/components/Header.jsx:40-60 | the header's switch yields one of the six dashboard routes, and the visitor dashboard for a falsy role |
| `Header.RoleToDashboardPathAgrees` | src/components/Header.jsx:40-60 | the header's switch equals the navbar's for every role, null, empty and unknown ones included |
| `Header.Nav` | src/components/Header.jsx:75-87 | Home, Programs and Contact, then the dashboard link and the Logout button for a truthy token, else the Login link |
| `Header.LogoutShownIffSignedIn` | src/components/Header.jsx:79-84 | the Logout button is shown exactly when the token is truthy |
| `Header.DashboardShownIffSignedIn` | src/components/Header.jsx:79-81 | a dashboard link is shown exactly when the token is truthy |
| `Header.LoginShownIffSignedOut` | src/components/Header.jsx:79-86 | the Login link is shown exactly when the token is falsy, so exactly one of Login and Logout appears |
| `Header.DashboardLinkText` | src/components/Header.jsx:81 | the dashboard link reads the role, or `Dashboard` for a falsy role, and leads to the role's route |
| `Header.AgreesWithNavbar` | src/components/Header.jsx:79-85 | the header's session-dependent link is the navbar's last link, for every session |
| `Header.MountCycles` | src/components/Header.jsx:21-26 | any number of mount and unmount cycles leaves the registry as it was: no listener leaks |

`Header` runs the same effect and `logout` as `Navbar` (src/components/Header.jsx:14-36 against src/components/Navbar.jsx:16-37); the `AuthSync.AuthComponent` rows model both.

## Left out

- `src/api/api.js`: an axios instance configured from an environment variable; a network client with no logic of its own.
- Markup, inline styles, framer-motion animations, hover colours and the mobile menu's `isOpen` toggle: presentation only.
- React's scheduling of `useState` and `useEffect`: `setAuth` is a field assignment, the effect is `Mount`, its cleanup is `Unmount`, and React's promise to run the cleanup before a new mount is `Mount`'s requirement that the component is not subscribed.
- react-router's `navigate`: recorded as the target string in `navigatedTo`.
- `JSON.parse` itself: an arbitrary function parameter; the model does not parse JSON.
- Unicode case mapping of `toLowerCase`: only ASCII letters are folded.
- `String(role)` on a non-string role: the role is an optional string.
- Real cross-tab delivery and its timing: a `storage` event is delivered by calling `DispatchEvent` on the other tab's window.
- The console report of an exception thrown by a listener: the model keeps only its effect, which is that the owner's state does not change.
- Storage exceptions (quota, disabled storage): the code does not catch them, and the model has no failing store.
