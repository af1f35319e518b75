# Session handling of the analytics dashboard, in Dafny

This project models the client-side session logic of a Next.js dashboard. It
also models the mock backend that the client talks to.

- **Mock backend** (`mock_handlers.dfy`). `/api/login` accepts one hard-coded
  email/password pair and returns a fixed token and user. `/api/register`
  accepts any request whose three fields are non-empty. Both handlers are
  stateless functions from a request body to a status and a JSON body. A path
  with no handler is passed through.
- **Shared browser** (`web_storage.dfy`). One value holds the cookie jar,
  `localStorage`, `sessionStorage` and the class list of the root element.
  The `Browser` class holds that value, so every page reads and writes the
  same stores.
- **Login and registration forms** (`login_page.dfy`, `register_page.dfy`).
  Each form has ordered guard checks, one request, and a storage write or a
  message that depends on the reply. The server's reply is an input. For each
  form, a class method changes the form state step by step, and its contract
  ties the result to a pure function of the fields, the reply and the old
  storage.
- **Route guard** (`route_guard.dfy`). It decides on a token and a pathname.
  The path matcher uses a negative-lookahead prefix test, and a `.` in its
  alternatives is a regular-expression wildcard.
- **Dashboard session handling** (`dashboard.dfy`). This is a state machine on
  a virtual clock in milliseconds. It covers `performLogout`, `resetTimer`,
  the activity listeners, timer expiry, and the mount and unmount effect. The
  timer is one slot that holds the deadline of the pending timeout. Event
  traces (`Run`) let the lemmas reason about any sequence of events.
- **Corrected dashboard** (`dashboard_fixed.dfy`). The same state machine
  with the watchdog flag read from sessionStorage and cleared by the logout,
  the correction described under "Findings".
- **Avatar initials** (`user_profile.dfy`). Splitting on `" "` is proved
  invertible by joining. The first characters of the pieces are proved equal
  to an independent character-by-character reading (`WordHeads`).
- **Colour mode** (`theme.dfy`). A light/dark mode that is stored in
  `localStorage` and mirrored by the `dark` class.
- **Cross-file consequences** (`session_flow.dfy`). These lemmas follow from
  where each file reads and writes the session.

The code and the wider design description of this system disagree in places.
The model follows the code:

- There is no account store, so registering does not make a login possible.
- The server does not check the password length, and no duplicate-email
  error exists.
- The login page writes the session only to web storage. The route guard and
  the dashboard read cookies.
- A non-remembered login stores `keepLoggedIn="false"` in sessionStorage. The
  watchdog reads that flag from localStorage.

## Model

| member | source | states |
|---|---|---|
| MockHandlers.Login | src/mocks/handlers.js:4-19 | status is 200 iff email is exactly `user@example.com` and password exactly `password123`, else 401; a 200 carries token `mock-auth-token-123` and user `user-1`, a 401 only `Invalid credentials` |
| MockHandlers.Register | src/mocks/handlers.js:21-31 | 201 iff email, password and fullName are all truthy; a 201 echoes email and fullName under id `user-<stamp>` with no token, otherwise 400 `Missing required fields` |
| MockHandlers.Handle | src/mocks/handlers.js:3-33 | only `/api/login` and `/api/register` have handlers; every other path is passed through |
| MockHandlers.SuccessfulLoginsIdentical | src/mocks/handlers.js:7-15 | any two successful logins get the same response: one fixed token and one fixed user |
| MockHandlers.RejectedLoginsIdentical | src/mocks/handlers.js:16-18 | a wrong email and a wrong password get the identical 401 response |
| MockHandlers.RegisterResponseIgnoresPassword | src/mocks/handlers.js:22-27 | swapping one non-empty password for another leaves the register response unchanged, so it cannot reveal the password |
| MockHandlers.RegistrationGrantsNothing | src/mocks/handlers.js:3-33 | the same registration is accepted twice, and its credentials are still refused by login unless they are the hard-coded pair |
| RouteGuard.Guard | middlewares.js:3-18 | redirects to `/login` iff there is no truthy token and the path is not `/login`, `/register` or `/`; redirects to `/dashboard` iff there is a token and the path is `/login` or `/register`; otherwise lets the request through |
| RouteGuard.NoSelfRedirect | middlewares.js:9-15 | a redirect never targets the requested path |
| RouteGuard.RedirectSettles | middlewares.js:9-17 | the guard lets through the request it redirected to, so it cannot loop on its own |
| RouteGuard.HomeAlwaysPasses | middlewares.js:13-17 | `/` is served with or without a token |
| RouteGuard.Matches | middlewares.js:22 | the matcher regex: a path is guarded only when it starts with `/` and the text after it starts with none of the excluded alternatives, a `.` matching any character; in particular none of the alternatives taken literally follows the slash |
| RouteGuard.Route | middlewares.js:20-24 | paths the matcher excludes are never guarded; every other path gets the guard's decision |
| RouteGuard.ExcludedPrefixSkipped | middlewares.js:22 | every path whose text after `/` begins with an excluded alternative is skipped, whatever follows it |
| RouteGuard.MatcherExamples | middlewares.js:22 | `/apiary`, `/api/login` and (wildcard dot) `/faviconXico` are skipped; `/dashboard` and `/` are guarded |
| RouteGuard.ApiNeverRedirected | middlewares.js:20-24 | API paths pass without a token, although the guard alone would redirect them |
| LoginPage.SessionTier | src/app/login/page.jsx:52-60 | the session goes to localStorage iff "keep me logged in" is ticked, else to sessionStorage, never to cookies |
| LoginPage.StoreSession | src/app/login/page.jsx:51-60 | writes `authToken`, the serialised `user` and `keepLoggedIn` ("true" or "false") to the chosen tier; every other key, the other tier, cookies and classes are unchanged |
| LoginPage.Credentials | src/app/login/page.jsx:35-42 | the request body holds exactly `email` and `password` |
| LoginPage.Submit | src/app/login/page.jsx:24-73 | with an empty field: error, no request, no write. Navigation to `/dashboard` and the storage write happen iff the reply parsed with an ok status. A non-ok reply shows the server message or the fallback. Network or JSON failure shows the generic message. Cookies are never written |
| LoginPage.LoginForm.HandleSubmit | src/app/login/page.jsx:24-73 | the request sent, the navigation, the error and the new storage are those of `Submit`; `loading` is false afterwards |
| LoginPage.LoginForm.constructor | src/app/login/page.jsx:16-21 | the form starts empty, unticked, without an error and not loading |
| RegisterPage.Validate | src/app/register/page.jsx:24-38 | the three guards as exact conditions in their order: any empty field, then a password shorter than 6 UTF-16 units (`password.length`), then a mismatch with the confirmation; `None` iff all pass |
| RegisterPage.RegistrationBody | src/app/register/page.jsx:40-47 | the body holds exactly fullName, email and password, never confirmPassword |
| RegisterPage.Submit | src/app/register/page.jsx:18-67 | a request is sent iff the guards pass; exactly one of error and success is set; success and the redirect happen iff the reply parsed with an ok status; otherwise the server message, the fallback or the generic message |
| RegisterPage.LengthBoundary | src/app/register/page.jsx:29-33 | a password of JavaScript length 6 passes the length guard, one of length 5 is rejected |
| RegisterPage.AstralPasswordLength | src/app/register/page.jsx:29 | three characters outside the Basic Multilingual Plane have length 6 and pass the guard |
| RegisterPage.GuardOrder | src/app/register/page.jsx:24-38 | a mismatch is reported only after the emptiness and length guards pass |
| RegisterPage.RegisterForm.HandleSubmit | src/app/register/page.jsx:18-67 | the request sent, redirect, error and success are those of `Submit`; `loading` is false on every exit path |
| RegisterPage.RegisterForm.constructor | src/app/register/page.jsx:9-15 | the form starts empty, without messages and not loading |
| Dashboard.LoggedOut | src/app/dashboard/page.jsx:29-41 | removes exactly cookies `authToken`/`user`, localStorage `keepLoggedIn` and sessionStorage `authToken`/`user`, keeps every other entry, navigates to `/login?autologgedout=true` or `/login`, and leaves the timer and listeners alone |
| Dashboard.TimerReset | src/app/dashboard/page.jsx:43-52 | the slot changes only when localStorage `keepLoggedIn` is exactly "false", and then holds a single deadline now + 60000; nothing else changes |
| Dashboard.AfterActivity | src/app/dashboard/page.jsx:54-56 | a registered activity event pushes the deadline to now + 60000 when the flag is set, and changes nothing otherwise |
| Dashboard.Mounted | src/app/dashboard/page.jsx:58-104 | registers the four listeners; with a truthy `user` cookie keeps storage, records the user, and arms a full timeout exactly when localStorage `keepLoggedIn` is "false"; without one the storage becomes that of `performLogout()`, `/login` is navigated to, and no timer is armed |
| Dashboard.Advanced | src/app/dashboard/page.jsx:47-50 | the clock moves by dt; a deadline reached fires the auto logout and empties the slot |
| Dashboard.Unmounted | src/app/dashboard/page.jsx:106-112 | clears the timer and removes every activity listener, nothing else |
| Dashboard.Step | src/app/dashboard/page.jsx:29-112 | one event (mount, activity, passing time, Logout button, unmount): the clock never goes back, the navigation history only grows by at most one entry, and a well-formed timer slot stays so |
| Dashboard.Run | src/app/dashboard/page.jsx:29-112 | a sequence of events: the clock is monotone and earlier navigations are never rewritten |
| Dashboard.RunKeepsWellformed | src/app/dashboard/page.jsx:43-52 | along any event sequence a pending deadline stays in the future and at most one timeout away |
| Dashboard.QuietWithoutFlag | src/app/dashboard/page.jsx:29-56 | without localStorage `keepLoggedIn`="false" and no pending timer, no event sequence arms the timer or logs out automatically |
| Dashboard.ExpiryLogsOutOnce | src/app/dashboard/page.jsx:43-52 | the reached deadline clears the session keys and navigates to the auto-logout URL, and no later events ever auto-logout again |
| Dashboard.PendingTimerOutlivesManualLogout | src/app/dashboard/page.jsx:29-52 | `performLogout` leaves a pending timeout in place; if the deadline is reached before the page unmounts, it fires and logs out a second time |
| Dashboard.LogoutThenUnmountQuiet | src/app/dashboard/page.jsx:29-112 | the Logout button followed by the unmount its navigation causes: one manual logout, the timer cleared, and no later activity or time logs out automatically |
| Dashboard.SilentWhileDetached | src/app/dashboard/page.jsx:47-56 | with no pending timer and no listener, activity and passing time leave storage, navigation and the timer slot as they were |
| Dashboard.NothingFiresAfterUnmount | src/app/dashboard/page.jsx:106-112 | after unmount no activity or passage of time changes storage or navigates |
| Dashboard.LogoutIdempotent | src/app/dashboard/page.jsx:29-34 | logging out twice leaves storage as logging out once |
| Dashboard.InactivityScenario | src/app/dashboard/page.jsx:10-56 | activity at 59 s resets to a full minute; 59.999 s of silence after it does not log out and one more millisecond does |
| Dashboard.DashboardPage.PerformLogout | src/app/dashboard/page.jsx:29-41 | the five removals and the navigation give `LoggedOut` |
| Dashboard.DashboardPage.ResetTimer | src/app/dashboard/page.jsx:43-52 | clear-and-set of the slot gives `TimerReset` |
| Dashboard.DashboardPage.HandleActivity | src/app/dashboard/page.jsx:54-56 | delivering an event gives `AfterActivity` |
| Dashboard.DashboardPage.Mount | src/app/dashboard/page.jsx:58-104 | the cookie check, `resetTimer` and the four registrations give `Mounted` |
| Dashboard.DashboardPage.AdvanceClock | src/app/dashboard/page.jsx:47-50 | moving the clock gives `Advanced` |
| Dashboard.DashboardPage.Unmount | src/app/dashboard/page.jsx:106-112 | the cleanup gives `Unmounted` |
| Dashboard.DashboardPage.constructor | src/app/dashboard/page.jsx:14-16 | no timer, no listeners, no user and no navigation yet |
| DashboardFixed.LoggedOut | src/app/dashboard/page.jsx:29-41 | the corrected logout: the logout as written, also removing sessionStorage `keepLoggedIn`, so the watchdog flag is gone afterwards |
| DashboardFixed.TimerReset | src/app/dashboard/page.jsx:43-52 | the corrected reset: a full timeout is armed iff sessionStorage `keepLoggedIn` is "false", nothing else changes |
| DashboardFixed.Mounted | src/app/dashboard/page.jsx:58-104 | the mount effect with the corrected reset and logout: with a user it arms exactly when the session flag is set; without one it logs out and arms nothing |
| DashboardFixed.AfterActivity | src/app/dashboard/page.jsx:54-56 | a registered activity event re-arms a full timeout when the session flag is set, and changes nothing otherwise |
| DashboardFixed.Advanced | src/app/dashboard/page.jsx:47-50 | a reached deadline runs the corrected logout and empties the slot |
| DashboardFixed.Step | src/app/dashboard/page.jsx:29-112 | one event on the corrected dashboard: monotone clock, growing navigation history, well-formed timer slot |
| DashboardFixed.Run | src/app/dashboard/page.jsx:29-112 | a sequence of events on the corrected dashboard: monotone clock, earlier navigations kept |
| DashboardFixed.QuietWithoutFlag | src/app/dashboard/page.jsx:29-56 | without the session flag and with no timer pending, no event sequence arms the watchdog or logs out automatically |
| DashboardFixed.EphemeralSessionTimesOut | src/app/dashboard/page.jsx:43-104 | with the session flag and a user cookie, less than a minute of silence after the mount changes nothing, a full minute logs out automatically, and nothing does so again |
| DashboardFixed.ReadFixAloneRearmsAfterLogout | src/app/dashboard/page.jsx:29-52 | with only the reset corrected, a logout leaves the flag and the next reset arms a logged-out page; the corrected logout does not |
| UserProfile.Split | src/components/UserProfile.jsx:28-29 | at least one piece, and no piece contains a space |
| UserProfile.JoinSplit | src/components/UserProfile.jsx:29 | joining the pieces with `" "` gives the name back |
| UserProfile.WordHeads | src/components/UserProfile.jsx:29-31 | the reference reading: only non-space characters of the name, no more than it has |
| UserProfile.FirstCharsAreWordHeads | src/components/UserProfile.jsx:29-31 | the pieces' first characters, with empty pieces giving nothing, are exactly the first characters of the words |
| UserProfile.FirstChars | src/components/UserProfile.jsx:30-31 | `map((n) => n[0]).join("")`: one character per non-empty piece |
| UserProfile.NoHeadsIffAllSpaces | src/components/UserProfile.jsx:29-32 | there are no word heads iff the name is only spaces |
| UserProfile.UpperChar | src/components/UserProfile.jsx:32 | ASCII lower-case letters become upper-case; every other character is kept |
| UserProfile.ToUpper | src/components/UserProfile.jsx:32 | same length, character by character `UpperChar` |
| UserProfile.Initials | src/components/UserProfile.jsx:28-32 | never empty, no lower-case letter and no space; "U" for a missing user or fullName |
| UserProfile.InitialsOfName | src/components/UserProfile.jsx:28-32 | a name that is empty or all spaces gives "U"; otherwise the upper-cased word heads, one per non-empty piece, at most one per piece |
| UserProfile.BlankNameInitials | src/components/UserProfile.jsx:28-32 | a name of spaces gives "U" |
| Theme.Name | src/app/ThemeRegistry.jsx:29-30 | the stored name of a mode loads back as that mode |
| Theme.StoredMode | src/app/ThemeRegistry.jsx:17-18 | dark iff the stored value is exactly "dark" |
| Theme.Flip | src/app/ThemeRegistry.jsx:29 | the toggled mode differs from the old one |
| Theme.Styled | src/app/ThemeRegistry.jsx:19-23 | the `dark` class is present iff the mode is dark; other classes and all storage are kept |
| Theme.Loaded | src/app/ThemeRegistry.jsx:16-25 | the mode is the stored mode, the class agrees with it, and nothing is written to storage |
| Theme.Toggled | src/app/ThemeRegistry.jsx:27-39 | flips the mode, stores its name under `appThemeMode` with every other key kept, and the class agrees |
| Theme.ToggleTwice | src/app/ThemeRegistry.jsx:27-39 | two toggles restore the mode, the stored value and the class |
| Theme.ToggleThenReload | src/app/ThemeRegistry.jsx:17-30 | a reload after a toggle yields exactly the toggled mode and page |
| Theme.LoadIdempotent | src/app/ThemeRegistry.jsx:16-25 | loading twice is loading once |
| Theme.ThemeRegistry.constructor | src/app/ThemeRegistry.jsx:14 | the mode starts light |
| Theme.ThemeRegistry.LoadStoredMode | src/app/ThemeRegistry.jsx:16-25 | the new mode and page are those of `Loaded` |
| Theme.ThemeRegistry.ToggleColorMode | src/app/ThemeRegistry.jsx:27-39 | the new mode and page are those of `Toggled` |
| Http.OrElse | src/app/login/page.jsx:63-65 | `message \|\| fallback` is never empty for a non-empty fallback and is one of the two |
| Http.Text | src/app/login/page.jsx:53-57 | `setItem`'s coercion: a string is stored as it is, `undefined` as the text "undefined" |
| Http.UserJson | src/app/login/page.jsx:54-58 | `JSON.stringify(user)`: an absent user leaves "undefined", a present one an object literal opening with its `id` |
| Http.JsLength | src/app/register/page.jsx:29 | `String.length` in UTF-16 units: between the number of characters and twice it, and equal to it for text within the Basic Multilingual Plane |
| SessionFlow.DemoLoginSucceeds | src/app/login/page.jsx:51-61 | the hard-coded pair stores the fixed token in the chosen tier and navigates to `/dashboard` |
| SessionFlow.OtherCredentialsRejected | src/app/login/page.jsx:62-66 | any other non-empty pair shows `Invalid credentials`, writes nothing and stays |
| SessionFlow.LoginInvisibleToGuard | middlewares.js:4 | a login never changes the guard's decision on any path |
| SessionFlow.DemoLoginBouncedByGuard | middlewares.js:4-11 | without an `authToken` cookie the demo login's navigation to `/dashboard` is redirected to `/login` |
| SessionFlow.DashboardIgnoresStoredSession | src/app/dashboard/page.jsx:63-68 | without a `user` cookie the dashboard logs out on mount after any login, arming nothing |
| SessionFlow.LoginNeverArmsWatchdog | src/app/dashboard/page.jsx:44-45 | no login, remembered or not, lets any dashboard event sequence arm the timer or auto-logout |
| SessionFlow.EphemeralLoginTimesOut | src/app/dashboard/page.jsx:29-52 | after a non-remembered login and a mount with a user cookie, the corrected dashboard does not log out within a minute of silence, logs out automatically once after a full minute and never again; the dashboard as written never logs out automatically |
| SessionFlow.RememberedLoginNeverTimesOut | src/app/dashboard/page.jsx:43-52 | on the corrected dashboard a remembered login is never timed out when no session flag is left in the tab |
| SessionFlow.LogoutLeavesRememberedSession | src/app/dashboard/page.jsx:30-34 | after a remembered login, logout leaves the token and user in localStorage |
| SessionFlow.LogoutLeavesEphemeralFlag | src/app/dashboard/page.jsx:30-34 | after a non-remembered login, logout leaves sessionStorage `keepLoggedIn`="false" |
| SessionFlow.LogoutKeepsTheme | src/app/dashboard/page.jsx:30-34 | logout keeps the stored colour mode and the `dark` class |
| SessionFlow.ValidFormRegisters | src/mocks/handlers.js:23-27 | every form the register page sends is accepted with 201 and the page shows success |
| SessionFlow.LengthRuleOnlyInPage | src/app/register/page.jsx:29-33 | the page rejects the 5-character password `short`, which the backend would accept |
| SessionFlow.RegisteredUserCannotLogIn | src/mocks/handlers.js:7 | right after a successful registration, logging in with the same credentials shows `Invalid credentials` unless they are the hard-coded pair |
| SessionFlow.DemoUserInitials | src/components/UserProfile.jsx:28-32 | the demo user "John Doe" gets the avatar "JD" |

## Findings

| source | as written | input that shows it | evidently intended | confidence | as-written member | corrected member |
|---|---|---|---|---|---|---|
| src/app/dashboard/page.jsx:44 | `resetTimer` reads `keepLoggedIn` from localStorage, but the login page writes "false" only to sessionStorage (src/app/login/page.jsx:59) | a non-remembered login in a fresh browser, then a dashboard mount with a `user` cookie: the watchdog is never armed | read the flag from sessionStorage, and have `performLogout` remove it there too, so that non-remembered sessions time out after 60 s of inactivity and a logged-out page is not armed again | high (not executed) | SessionFlow.LoginNeverArmsWatchdog | SessionFlow.EphemeralLoginTimesOut |

The corrected dashboard is the module `DashboardFixed`. It reads the flag from sessionStorage. Its logout also removes that flag.
With only the read corrected, the flag survives a logout and re-arms the watchdog of a logged-out page (`DashboardFixed.ReadFixAloneRearmsAfterLogout`).
The module `Dashboard` and its class keep the code as written.

## Left out

- Rendering, widgets, charts, table columns and metric cards: presentation only.
- The dashboard's data fetches (`/api/metrics`, `/api/sales-trends`, `/api/user-growth`, `/api/category-distribution`, `/api/users-data`), their JSON decoding and the `loading`/`error` state they drive. No handler for them exists. `Handle` passes those paths through.
- The account store, the single-active-login flag, revenue sums and month grouping. No code for them exists in this system.
- `fetch` and router pushes: a request is the body `sent`, and a navigation is a recorded path. The server's reply is an input to each page's submit handler.
- The 2000 ms redirect after registration: recorded only as `redirectScheduled`.
- `Date.now()` in the registered user's id: an opaque `stamp` string.
- JSON values other than strings in request fields (numbers, `null`, nested objects) are not modelled. `JSON.stringify` escaping is not modelled, and neither is `JSON.parse` of the `user` cookie. The dashboard records the cookie text as the user.
- Dashboard.Mounted: a `user` cookie that is not valid JSON makes the source's `JSON.parse` throw and set an error message. The model records the text as the user instead.
- Whether the framework actually runs the guard file, and how it reads cookies: framework behaviour. Only the decision and the matcher are modelled.
- UserProfile.ToUpper: upper-cases ASCII letters only. Unicode case mapping and surrogate pairs are not modelled.
- The profile menu's open/close state, the mock worker's start-up, theme palettes, fonts, metadata, tailwind configuration and animations: UI and configuration.
- Navigation does not unmount the page. A router push is only recorded. The unmount that follows it in the browser is a separate `Unmount` event, which a trace may place anywhere or leave out.
- The timer slot after the timeout has fired is empty. The source's ref keeps the stale id, which `clearTimeout` then ignores, so behaviour is the same.
- React's rendering order, Strict Mode's double effects and listener identity across renders are not modelled. Each mount registers the four activity kinds as a set.
