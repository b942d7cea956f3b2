# Login pipeline and staff layout of the clinic portal

A Dafny model of two React components of the clinic/staff portal front end:

- **Login** (`fend/src/pages/Login.jsx`, `handleLogin`): a CSRF-cookie
  handshake, fingerprint acquisition, and a credential POST carrying
  `device_id`. Then `res.data.user || res.data` normalises the reply, the
  page shows "Login successful!" and a timer runs a role dispatch: `admin`
  goes to `/admin`, `staff` to `/staff`, `patient` stays, and any other
  role gets a "no dashboard yet" message. One catch shows the server's
  `message` or "Login failed". A finally clears `loading`.
- **StaffLayout** (`fend/src/layouts/StaffLayout.jsx`): on mount it fetches
  the inventory settings once. While still mounted, a success sets
  `allowInventory` to `!!data?.staff_can_receive`, and either outcome sets
  `loaded`. The side menu holds Dashboard, Appointments, Reminders and
  Account. Inventory sits between Reminders and Account exactly when
  `loaded && allowInventory`. Logout removes the `token` key from
  localStorage and goes to `/`.

Files:

- `Js.dfy` models the JavaScript value semantics the code depends on:
  values, truthiness, property reads that throw on `null`/`undefined`,
  optional chaining, `||`, and settled promises.
- `Login.dfy` holds the pure specification of an attempt as an ordered
  effect log (`LoginEffects`, `AttemptEffects`), the lemmas about it, and
  the `LoginPage` class whose methods update the page state step by step.
- `Staff.dfy` holds the menu, the flag state machine (`Step`, `Run`), the
  lemmas over every sequence of events, and the `StaffLayout` class with
  one method per event.

Network calls, the fingerprint generator and the timer are inputs: each
awaited call is given as the way its promise settles (`Resolved(value)` or
`Rejected(reason)`). A timer firing is the `FireTimer` method.

The code behaves as follows, and the model follows it:

- Logout removes the token and navigates only when the POST to `/logout`
  resolves. When the POST rejects, the code only logs, and the model does
  the same.
- The catch also handles a rejected fingerprint. It also handles the
  TypeError thrown when `res.data` is `null` or `undefined`, which ends in
  "Login failed".
- If the thrown value is itself `null` or `undefined`, reading
  `err.response` throws inside the catch. The message is then left
  unchanged, `loading` is still cleared, and the handler's promise
  rejects. This is `escaped` in `HandleLogin`.
- `loading` only shows a spinner. The submit button is not disabled.

## Model

| member | source | states |
|---|---|---|
| Js.Or | fend/src/pages/Login.jsx:32 | `a \|\| b` is truthy iff either operand is, and yields `a` when `a` is truthy, `b` otherwise |
| Login.NormalizeUser | fend/src/pages/Login.jsx:32 | fails (TypeError) iff `res.data` is null/undefined; otherwise yields `data.user` when truthy, else `data`; the user is never null/undefined |
| Login.Dispatch | fend/src/pages/Login.jsx:37-45 | navigates to `/admin` iff role is `"admin"`, to `/staff` iff `"staff"`; stays silently iff `"patient"`; every other role gets the no-dashboard notice |
| Login.FailureMessage | fend/src/pages/Login.jsx:47-49 | the catch throws iff the error is null/undefined; otherwise the message is truthy: the server's `response.data.message` when truthy, else "Login failed" |
| Login.Pipeline | fend/src/pages/Login.jsx:19-33 | the first rejected call ends the `try` with its own reason; with all three resolved the user logs in iff `res.data` is not null/undefined (else the TypeError), and is the normalised user |
| Login.Requests | fend/src/pages/Login.jsx:21-29 | the CSRF-cookie request always comes first; the fingerprint is requested iff the handshake resolved; the POST with the credentials and fingerprint is sent iff both resolved |
| Login.Settle | fend/src/pages/Login.jsx:34-49 | on success exactly "Login successful!" then the dispatch timer; on failure the catch's message, or nothing iff the thrown value is null/undefined |
| Login.LoginEffects | fend/src/pages/Login.jsx:16-53 | `loading` goes true first and false last and changes nowhere else; the handshake is the first request; the handler never navigates; a dispatch is scheduled iff the `try` body completed |
| Login.LoginMessage | fend/src/pages/Login.jsx:34-49 | after the handler the message is the success text, the catch's message, or unchanged when the catch itself throws |
| Login.HandshakeFailureAborts | fend/src/pages/Login.jsx:19-49 | after a failed handshake no fingerprint or POST request is made, nothing navigates, and the catch's message stays |
| Login.PostCarriesFingerprint | fend/src/pages/Login.jsx:21-29 | the POST is made iff the handshake and fingerprint resolved, right after them, and its body is exactly `{email, password, device_id: fingerprint}` |
| Login.AdminLoginGoesToAdmin | fend/src/pages/Login.jsx:25-38 | three resolved calls whose normalised user has role `"admin"` navigate exactly once, to `/admin` |
| Login.RejectedPostShowsMessage | fend/src/pages/Login.jsx:25-49 | a rejected POST navigates nowhere and leaves the server's `message` when truthy, else "Login failed" |
| Login.WrappedAndBareShapesAgree | fend/src/pages/Login.jsx:32 | `{user: u}` and bare `u` (without a truthy `user` of its own) normalise to the same user |
| Login.StaffRoutedFromEitherShape | fend/src/pages/Login.jsx:32-40 | `{user: {role: "staff"}}` and `{role: "staff"}` both dispatch to `/staff` |
| Login.AtMostOneNavigation | fend/src/pages/Login.jsx:36-46 | an attempt with its dispatch navigates at most once, exactly once iff it logged in an admin or staff user, and only to the dispatch's destination |
| Login.AttemptMessage | fend/src/pages/Login.jsx:34-49 | final message: success text for admin/staff/patient, the no-dashboard text for other roles, the catch's message on failure |
| Login.SuccessMessageBeforeDispatch | fend/src/pages/Login.jsx:34-51 | on success the message is set, then the timer scheduled, then `loading` released, all before any effect of the dispatch |
| Login.LoginPage.constructor | fend/src/pages/Login.jsx:9-12 | empty email, password and message; not loading |
| Login.LoginPage.SetEmail | fend/src/pages/Login.jsx:69 | the email field takes the typed value |
| Login.LoginPage.SetPassword | fend/src/pages/Login.jsx:82 | the password field takes the typed value |
| Login.LoginPage.HandleLogin | fend/src/pages/Login.jsx:16-53 | appends exactly `LoginEffects` to the log; `loading` is false afterwards; message, pending timers and the escape flag follow the outcome |
| Login.LoginPage.TryLogin | fend/src/pages/Login.jsx:19-46 | makes the calls in order, stopping at the first rejection, and yields exactly what the `try` body throws |
| Login.LoginPage.FireTimer | fend/src/pages/Login.jsx:36-46 | runs the oldest pending dispatch: navigates, notifies or does nothing as `Dispatch` decides |
| Staff.Menu | fend/src/layouts/StaffLayout.jsx:56-105 | Dashboard, Appointments, Reminders first and Account last; Inventory present iff `loaded && allowInventory`, and then fourth |
| Staff.Step | fend/src/layouts/StaffLayout.jsx:12-25 | no flag changes once unmounted; `loaded` never reverts; `allowInventory ==> loaded` is preserved; `allowInventory` turns on only through a mounted success with a truthy flag |
| Staff.UnmountedIgnoresEvents | fend/src/layouts/StaffLayout.jsx:13-24 | once unmounted, any sequence of events leaves the flags as they are |
| Staff.LateSettlementIgnored | fend/src/layouts/StaffLayout.jsx:17-24 | whatever arrives after the cleanup, the flags stay as the unmount left them |
| Staff.NoSettlementKeepsFlags | fend/src/layouts/StaffLayout.jsx:9-21 | until the fetch settles, `loaded` and `allowInventory` keep their initial values |
| Staff.AllowedOnlyWhenLoaded | fend/src/layouts/StaffLayout.jsx:15-21 | `allowInventory ==> loaded` holds after any events |
| Staff.ShownOnlyIfGranted | fend/src/layouts/StaffLayout.jsx:15-22 | the entry appears only after a mounted success whose `staff_can_receive` is truthy |
| Staff.InventoryShownIff | fend/src/layouts/StaffLayout.jsx:12-25 | for one mount, Inventory ends up shown iff the fetch succeeded with a truthy flag before the unmount |
| Staff.RemoveItem | fend/src/layouts/StaffLayout.jsx:30 | removes the key and keeps every other entry with its value |
| Staff.StaffLayout.constructor | fend/src/layouts/StaffLayout.jsx:9-13 | `allowInventory` and `loaded` false, mounted, so Inventory is absent |
| Staff.StaffLayout.OnSettingsLoaded | fend/src/layouts/StaffLayout.jsx:15-22 | while mounted: `allowInventory` is the truthiness of `staff_can_receive` and `loaded` is set; otherwise nothing changes |
| Staff.StaffLayout.OnSettingsFailed | fend/src/layouts/StaffLayout.jsx:18-22 | `allowInventory` stays false; `loaded` is set iff mounted; no error surfaces |
| Staff.StaffLayout.Unmount | fend/src/layouts/StaffLayout.jsx:24 | clears `mounted` and nothing else |
| Staff.StaffLayout.HandleLogout | fend/src/layouts/StaffLayout.jsx:27-35 | on success only `token` is removed from storage and the app goes to `/`; on failure storage and location are unchanged |

## Left out

- Markup, CSS, `NavLink` active styling, emoji labels, `LoadingSpinner`, `NotificationsBell`, `Outlet` and the `Link`s: presentation only. Menu entries keep their path and title.
- The API client, the CSRF cookie mechanics and the backend. Each call is only the way its promise settles. The requests are recorded, but the cookie they carry is not.
- `getFingerprint`: its result is an opaque value or a rejection.
- `e.preventDefault()` on the submit event: it only stops the browser's own form submission.
- The value the credential POST resolves with stands for `res.data`; the rest of the axios response is not modelled. Likewise a settings success carries only the destructured `data`.
- Infinity and -Infinity are not separate values. They are truthy like any nonzero `Num`, and only truthiness is read.
- `console.log` and `console.error`: diagnostics with no effect on state.
- The 150 ms delay: the deferred dispatch is a separate step, `FireTimer`.
- Interleaving of two overlapping `handleLogin` calls. Each handler runs to completion as one method call. Only their pending dispatch timers queue up.
- React StrictMode's double-run of effects, and re-renders: one mount is one `StaffLayout` object.
- JavaScript property lookup through prototypes: none of the properties read here is inherited. Numbers are reals plus NaN, which is all truthiness needs.
