# AlertX session and incident store, in Dafny

AlertX is a single-page login / signup / dashboard mock-up for traffic-incident
monitoring. Its only logic is the in-memory store inside the `App` component:
four state cells (the page shown, the signed-in user or nobody, a list of
alerts, a list of incidents) and the handlers that replace them when the user
submits a form, presses a button or picks a status. This project models that
store and proves what its handlers promise.

- `wrappers.dfy` (`Wrappers`): `Option`, standing for `User | null`.
- `users.dfy` (`Users`): the `User` record and how both forms derive it from
  the typed address: the text before the first `@` (the whole address if there
  is none) as name, and its first two characters, upper-cased, as initials.
- `records.dfy` (`Records`): `Alert` and `Incident`, the seed data, the
  dismiss filter (`Dismiss`) and the status update map (`UpdateStatus`),
  together with the invariants they keep: ids stay unique, and each incident's
  stored `statusColor` matches its `status`.
- `session.dfy` (`Session`): the four cells as one `State` value, the actions
  each rendered page offers (`Enabled`), what each action does (`Next`), the
  store invariant over every reachable state, and the allowed page changes.
- `store.dfy` (`Store`): class `App`, with the four cells as fields and one
  method per handler. Each method states its whole new state and that it
  equals `Session.Next` of the old state. `SessionWalkthrough` is a client
  that goes through a short session using the contracts alone.

The handlers validate nothing. They never read the password fields, and any
string, the empty one included, yields a user. The model therefore has no
error path for login or signup.

## Model

| member | source | states |
|---|---|---|
| Users.UpperChar | src/App.tsx:51 | an ASCII lower-case letter becomes its upper-case letter; every other character is kept; the result is never a lower-case ASCII letter |
| Users.UpperAscii | src/App.tsx:51 | `toUpperCase` keeps the length, upper-cases position by position and leaves no lower-case ASCII letter |
| Users.UpperAsciiIdempotent | src/App.tsx:51 | upper-casing an already upper-cased string changes nothing |
| Users.LocalPart | src/App.tsx:50 | `email.split('@')[0]` is a prefix of the address with no `@`, followed in the address by an `@` unless it is the whole address; an address without `@` is its own name |
| Users.LocalPartOfAddress | src/App.tsx:50 | for `local@domain` with no `@` in `local`, the name is exactly `local` |
| Users.Initials | src/App.tsx:51 | `substring(0, 2).toUpperCase()` has length min(2, length of name) and holds the name's leading characters upper-cased |
| Users.DeriveUser | src/App.tsx:50-52 | the user built from any address (the empty one included): the address itself, the text before its first `@`, and initials that are the address's first characters (at most two, never past the name) upper-cased |
| Users.DeriveUserOfAddress | src/App.tsx:50-52 | for `local@domain`, the user's name is `local` and the initials are the upper-cased first two characters of `local`, or all of a shorter `local` |
| Users.JaneDoe | src/App.tsx:50-52 | `jane.doe@example.com` yields name `jane.doe` and initials `JA` |
| Records.StatusColor | src/App.tsx:81 | the colour is `text-green-400` exactly when the status is `Resolved`, and `text-yellow-400` exactly when it is not |
| Records.SeedAlerts | src/App.tsx:15-21 | the initial alert list holds one alert, id 1, severity `high` |
| Records.SeedIncidents | src/App.tsx:22-44 | the initial incident list holds three incidents numbered 1 to 3, each with status `Resolved` or `In Progress` |
| Records.SeedWellFormed | src/App.tsx:15-44 | the seed alert and incidents have unique ids and every seed incident's colour matches its status |
| Records.Dismiss | src/App.tsx:72 | the filter is no longer than its input, keeps only alerts of the input whose id differs, keeps every one of those, and leaves the list unchanged when no alert has the id |
| Records.DismissAppend | src/App.tsx:72 | the filter distributes over concatenation, so kept alerts stay in their relative order |
| Records.DismissKeepsOrder | src/App.tsx:72 | dismissing the middle one of three alerts leaves the first and last, in that order |
| Records.DismissCounts | src/App.tsx:72 | each kept alert appears as many times as before; alerts with the id appear zero times |
| Records.DismissIdempotent | src/App.tsx:72 | dismissing the same id twice equals dismissing it once |
| Records.DismissRemovesOne | src/App.tsx:72 | with unique ids, dismissing a present id shortens the list by exactly one |
| Records.DismissKeepsUnique | src/App.tsx:72 | unique alert ids remain unique after a dismissal |
| Records.DismissSeedAlert | src/App.tsx:71-73 | dismissing alert 1 from the seed list leaves it empty |
| Records.Restatus | src/App.tsx:76-85 | an incident with another id is returned unchanged; a matching one keeps its id, time and location, takes the new status and gets the colour that status calls for |
| Records.UpdateStatus | src/App.tsx:75-86 | the map keeps the length and order and applies that per-incident rewrite at every position |
| Records.UpdateMissingIsIdentity | src/App.tsx:75-86 | an id that names no incident leaves the list unchanged |
| Records.UpdateKeepsIds | src/App.tsx:78-80 | the ids, position by position, are those before the update |
| Records.UpdateKeepsUnique | src/App.tsx:78-80 | unique incident ids remain unique after an update |
| Records.UpdateKeepsColors | src/App.tsx:81 | if every colour matched its status before an update, every colour matches after it |
| Records.UpdateLastWins | src/App.tsx:75-86 | two updates of the same id equal the second one alone, so resolving then reopening restores the open status and its colour |
| Records.UpdateCommutes | src/App.tsx:75-86 | updates of two different ids give the same list in either order |
| Records.ResolveSeedIncident | src/App.tsx:75-86 | resolving seed incident 2 makes it `Resolved` and green and leaves incidents 1 and 3 as they were |
| Session.Initial | src/App.tsx:13-44 | the first state: login page, nobody signed in, one alert and three incidents |
| Session.Enabled | src/App.tsx:88-323 | the actions each page wires to a handler (96, 133, 152, 202, 237, 262, 318): the login page offers only its form and the "Sign Up" link, the signup page only its form and the "Log In" link, the dashboard only logout, dismissal of a shown alert, and one of the two statuses for a shown incident |
| Session.Next | src/App.tsx:46-86 | the new state after each handler: only login, signup and logout change the user, only dismissal changes the alerts, only a status change changes the incidents; no action adds an alert or changes the number of incidents |
| Session.Inv | src/App.tsx:15-86 | no contract; defines the store invariant: unique alert ids, unique incident ids, every incident coloured by its status, and the dashboard shown exactly when someone is signed in |
| Session.InitialInv | src/App.tsx:13-44 | the first state (login page, nobody signed in, seed lists) satisfies the store invariant |
| Session.NextKeepsInv | src/App.tsx:46-86 | every handler, run for an action its page offers, keeps unique ids, colours matching statuses, and "dashboard shown exactly when someone is signed in" |
| Session.RunKeepsInv | src/App.tsx:46-86 | the invariant survives any sequence of offered actions |
| Session.ReachableInv | src/App.tsx:12-86 | every state reachable from the first render satisfies the invariant |
| Session.LogOutAfterAnything | src/App.tsx:66-69 | logout after any actions shows the login page with nobody signed in and keeps both lists as they were |
| Session.SignupIsLogin | src/App.tsx:56-64 | signup gives the same state as login with the same address |
| Session.PageStepsAllowed | src/App.tsx:88-213 | every offered action changes the page only along login to signup, signup to login, either form to dashboard, or dashboard to login |
| Session.PageStepsRealised | src/App.tsx:88-213 | each of those page changes is made by some offered action |
| Session.OnlyFormsEnterDashboard | src/App.tsx:46-64 | only the login and signup handlers bring up the dashboard |
| Session.OnlyLogOutLeavesDashboard | src/App.tsx:66-69 | only logout leaves the dashboard, and it goes to the login page |
| Store.SessionWalkthrough | src/App.tsx:46-86 | no contract; a client that, through the methods' contracts alone, signs in as jane.doe (initials JA), dismisses alert 1 (list empty), resolves then reopens incident 2 (status and colour restored, incidents 1 and 3 unchanged) and signs out (login page, nobody signed in, lists kept) |
| Store.App.constructor | src/App.tsx:13-44 | the store starts on the login page, with nobody signed in and the seed lists, and satisfies the invariant |
| Store.App.HandleLogin | src/App.tsx:46-54 | sets the user derived from the address and the dashboard page; the lists are untouched; the invariant is kept |
| Store.App.HandleSignup | src/App.tsx:56-64 | the same new state as login; no password is read or compared |
| Store.App.HandleLogout | src/App.tsx:66-69 | clears the user and shows the login page; the lists are untouched |
| Store.App.ShowSignup | src/App.tsx:133 | from the login page, shows the signup page and changes nothing else |
| Store.App.ShowLogin | src/App.tsx:202 | from the signup page, shows the login page and changes nothing else |
| Store.App.DismissAlert | src/App.tsx:71-73 | replaces the alerts by their filter on the id; nothing else changes; ids stay unique |
| Store.App.UpdateIncidentStatus | src/App.tsx:75-86 | replaces the incidents by their status update for the id; nothing else changes; ids stay unique and colours match statuses |

## Left out

- Rendering: the JSX markup, the CSS classes other than the two status colours, the icons and the fixed dashboard figures (src/App.tsx:88-334) are presentation only. The page wiring is kept only as `Session.Enabled`, which says which actions each page offers.
- Reading the form (`e.preventDefault()`, `form.elements.namedItem('email')`): the handlers take the address directly. The password fields are never read by the source, so they are not parameters.
- The browser's `required` and `type="email"` checks on the inputs: the browser enforces them, not the code, so the model has no validation error.
- React's `useState` scheduling and stale closures: each handler is one synchronous, atomic replacement of the cells it sets.
- Users.UpperAscii: upper-cases ASCII letters only, and `substring` counts characters rather than UTF-16 code units; full Unicode case mapping is not modelled.
- Store.App.ShowSignup and Store.App.ShowLogin: the source calls `setCurrentPage` with no check, but the link is only rendered on the login and signup page respectively; the methods require that page, which is also what keeps the "dashboard exactly when signed in" invariant.
- Session.Enabled offers a status change only for the two selector values `In Progress` and `Resolved`, and a dismissal only for a shown alert; the store functions themselves accept any status string and any id.
