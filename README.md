# Emergency alert app: the rules under the UI

A Dafny model of the rule-bearing core of a small emergency-alert web app:

- the emergency-contacts page: add, edit and delete contacts, with at most four contacts, trimmed non-empty names and phones, and a fixed set of four categories;
- the SOS button's state machine: idle, a three-second countdown, locating, and sent;
- the route guards that decide between a spinner, the page, or a redirect by sign-in state and role;
- the auth context's approval gate;
- the admin panel: it splits users by approval status, decides which buttons each user's card offers, and makes the status and role updates behind those buttons.

The hosted backend is not modelled as a service. Each table is a sequence held by the component that uses it:

- `emergency_contacts` in creation order;
- `profiles` in creation order;
- `alert_logs` in insertion order.

Each asynchronous call becomes one atomic step whose success or failure is a parameter. The parameters are `ok` (the list fetches `FetchContacts` and `FetchUsers`), `writeOk`, `fetchOk`, `deleteOk`, `logOk` (the alert log insert in `OnLocated`), a `Query` answer, or an `Option` row count. The one-second timer and the geolocation request become the events they deliver: `Tick`, `Located`, `LocateFailed`.

Modules, one per source file, plus a shared `Base`:

- `Base` (base.dfy): `Option` and ECMAScript `String.prototype.trim`.
- `Auth` (auth.dfy): `fetchProfile`, the exposed `user`, and the `AuthProvider` class with `handleSession`.
- `Routes` (routes.dfy): `ProtectedRoute`, `PublicRoute`, the route table and the router's path matching.
- `Contacts` (contacts.dfy): the category table and the pure table operations, and the `ContactsPage` class holding the table, the on-screen list and the form.
- `Sos` (sos.dfy): the pure transition function `Next` with its invariant and lemmas, and the `SosButton` class. Each event method of `SosButton` is proved to move the state exactly as `Next` does; the effect step `CountdownEffect` is proved against `Settle`, and `ResetState` against `Cleared`.
- `Admin` (admin.dfy): the status sections, the card buttons and the update functions, and the `AdminDashboard` class.

One behaviour of the guards is worth knowing. It is proved as `Routes.UnknownRoleRedirectsToItself`. Take a signed-in user whose profile is missing or whose role is neither "admin" nor "user". Every user route sends them to "/", and "/" redirects to itself. The auth context signs a user out when no profile can be fetched, so a missing profile does not last. It checks only the status, though: an approved profile whose role is null or unknown is kept, and for such a user the loop lasts the whole session.

## Model

| member | source | states |
|---|---|---|
| Base.Trim | src/pages/Contacts.tsx:82 | the trimmed text has whitespace at neither end, is no longer than the input, and is empty exactly when the input is all whitespace |
| Base.TrimIdempotent | src/pages/Contacts.tsx:87 | trimming an already trimmed value changes nothing, so a stored name or phone is stable under another save |
| Base.TrimKeeps | src/pages/Contacts.tsx:82 | a string with whitespace at neither end trims to itself |
| Base.TrimUnique | src/pages/Contacts.tsx:82 | any cut of whitespace-only pieces from both ends that leaves whitespace at neither end (or nothing, for an all-whitespace input) is exactly the trimmed value, so the trimmed value is the one such cut |
| Auth.FetchProfile | src/lib/auth.tsx:34-51 | null exactly when the query errs or returns no row; otherwise a profile with the requested id and the row's role and status |
| Auth.SessionUser | src/lib/auth.tsx:109 | the exposed user is the session's user, and null when there is no session |
| Auth.AuthProvider.constructor | src/lib/auth.tsx:30-32 | no session, no profile, loading |
| Auth.AuthProvider.HandleSession | src/lib/auth.tsx:54-86 | afterwards a stored profile is always approved and belongs to the session's user; a failed fetch, pending, rejected or any other status signs out once and clears the profile, with the matching alert for pending and rejected; a session without a user clears the profile without signing out; loading is false on every branch |
| Routes.ProtectedRoute | src/App.tsx:27-46 | while loading, only the spinner; with no user, a redirect to /auth; the page renders exactly when there is no required role or the profile role matches it; on a mismatch, admins go to /admin and everyone else to / |
| Routes.PublicRoute | src/App.tsx:54-64 | nothing while loading; a signed-in admin goes to /admin and a signed-in user to /; anyone else, including a signed-in user with another role, sees the page |
| Routes.MatchKey | src/App.tsx:78-127 | the form in which the router compares paths, with no route asking for case-sensitive matching: ASCII capitals become small letters, trailing slashes are dropped (an all-slash path keeps one), and nothing else changes |
| Routes.MatchKeyIdempotent | src/App.tsx:78-127 | a match key is its own match key |
| Routes.RouteFor | src/App.tsx:78-127 | a path shows the not-found page exactly when its match key is none of the five route patterns; only the sign-in page is behind the public guard and only the not-found page has none |
| Routes.RouteForIgnoresCaseAndSlashes | src/App.tsx:78-127 | a path and its match key reach the same route and show the same thing, so letter case and trailing slashes never matter |
| Routes.MixedCasePathIsGuarded | src/App.tsx:108-115 | "/Contacts/" reaches the contacts page's guard, so a signed-out visitor there is sent to /auth |
| Routes.Visit | src/App.tsx:78-127 | a path matching no route always renders the not-found page; while loading, a path matching /auth shows nothing and one matching a protected route a spinner; a redirect to /auth happens exactly for a signed-out visitor on a path matching a protected route; every redirect goes to /auth, /admin or / |
| Routes.RenderMatchesRole | src/App.tsx:78-124 | however the path is written, /admin renders only for an admin, / and /contacts only for a user, /profile for any signed-in user, and /auth never for a signed-in admin or user |
| Routes.RenderIffRole | src/App.tsx:78-124 | once loading is over and however the path is written, /admin renders exactly for admins, / and /contacts exactly for users, /profile exactly for signed-in users, and /auth exactly for visitors who are signed out or have no known role |
| Routes.ProfileForAnyRole | src/App.tsx:117-124 | /profile renders for every loaded signed-in user, whatever the role |
| Routes.RedirectsSettle | src/App.tsx:37-64 | for a signed-in admin or user, every redirect lands on a page that renders |
| Routes.UnknownRoleRedirectsToItself | src/App.tsx:37-44 | a signed-in user with no profile or an unknown role is redirected from / back to /, and from /admin and /contacts to /, while /auth and /profile render for them |
| Contacts.FindCategory | src/pages/Contacts.tsx:119-120 | the index of the first category with the value, or none when no category has it |
| Contacts.CategoryInfoOf | src/pages/Contacts.tsx:25-30 | `getCategoryInfo` returns a listed category: the one with the value when there is one, and "security" otherwise |
| Contacts.OwnedBy | src/pages/Contacts.tsx:51-58 | the fetched list holds exactly the table's rows owned by the user |
| Contacts.UpdateById | src/pages/Contacts.tsx:84-88 | an update gives the row with the id the new name, phone and category, keeps its id and owner, and leaves every other row and the length |
| Contacts.RemoveById | src/pages/Contacts.tsx:113-114 | a delete keeps exactly the rows without the id |
| Contacts.SaveDecision | src/pages/Contacts.tsx:82-107 | a save is ignored exactly with no user or a blank name or phone; refused as "Limit Reached" exactly when adding with 4 or more contacts on screen; failed exactly when the write errs; editing is never limited |
| Contacts.OwnedByAppend | src/pages/Contacts.tsx:99-101 | a new row shows last in its owner's list, and the rest of the list is unchanged |
| Contacts.OwnedByUpdate | src/pages/Contacts.tsx:84-88 | updating a table row updates the same contact in its owner's list |
| Contacts.OwnedByRemove | src/pages/Contacts.tsx:113-116 | deleting a table row removes it from its owner's list, and the others keep their order |
| Contacts.OwnedByIncreasing | src/pages/Contacts.tsx:51-57 | the fetched list keeps creation order |
| Contacts.RemoveOne | src/pages/Contacts.tsx:113-114 | with unique ids, a delete removes exactly the one contact with the id and keeps the rest in order |
| Contacts.RemoveAbsent | src/pages/Contacts.tsx:113-114 | deleting an id no row has changes nothing |
| Contacts.UpdateOne | src/pages/Contacts.tsx:84-88 | with unique ids, an edit changes exactly the one contact with the id |
| Contacts.RemoveKeepsIds | src/pages/Contacts.tsx:113-114 | after a delete, ids still increase and stay below the next id |
| Contacts.UpdateKeepsIds | src/pages/Contacts.tsx:84-88 | after an edit, ids still increase and stay below the next id |
| Contacts.AppendKeepsIds | src/pages/Contacts.tsx:99-101 | a row inserted under the next id keeps the table in creation order |
| Contacts.ContactsPage.constructor | src/pages/Contacts.tsx:44-49 | an empty list, a closed dialog, no contact being edited, an empty form with category "security" |
| Contacts.ContactsPage.FetchContacts | src/pages/Contacts.tsx:51-59 | with a user and an answer, the list becomes the user's rows in creation order; otherwise it is kept |
| Contacts.ContactsPage.OpenAdd | src/pages/Contacts.tsx:65-71 | the form is reset to an empty name and phone, category "security", no edit in progress, dialog open |
| Contacts.ContactsPage.OpenEdit | src/pages/Contacts.tsx:73-79 | the form holds exactly the contact's name, phone and category, and the dialog opens |
| Contacts.ContactsPage.TableUpdate | src/pages/Contacts.tsx:85-88 | the table's update of one row by id, keeping the id invariant |
| Contacts.ContactsPage.TableInsert | src/pages/Contacts.tsx:99-101 | the table's insert of one row owned by the user under the next id, at the end |
| Contacts.ContactsPage.HandleSave | src/pages/Contacts.tsx:81-111 | the outcome `SaveDecision` picks. Ignored, limited and failed saves change neither the table nor the list nor the dialog. An update rewrites only the edited row. An add appends one row with the trimmed name and phone and the chosen category, owned by the user. Either closes the dialog and refetches. On a synced list the new list is the old one updated in place, or with the new contact last, and never longer than 4 |
| Contacts.ContactsPage.HandleDelete | src/pages/Contacts.tsx:113-117 | the table loses exactly the rows with the id, the list is refetched whatever the delete answered, and on a synced list exactly that contact disappears |
| Sos.Cleared | src/components/SOSButton.tsx:19-23 | `resetState` gives idle, a counter of 3 and no location, and keeps the contact count |
| Sos.CountOf | src/components/SOSButton.tsx:51 | the number of rows returned, or 0 when none were |
| Sos.Settle | src/components/SOSButton.tsx:26-31 | a countdown whose counter has reached 0 moves to locating; any other state is left alone |
| Sos.Next | src/components/SOSButton.tsx:19-91 | keeps the invariant (counter within 0..3; idle means 3 and no location; sent means a location). Press gives a countdown at 3 from any state. A tick takes 1 off a running counter and reaches locating at 0. A located answer in locating stores the position and the row count (0 when none) and moves to sent. A location error in locating resets. Cancel and return always reset |
| Sos.Run | src/components/SOSButton.tsx:19-91 | every sequence of events from a state satisfying the invariant keeps it |
| Sos.TicksCountDown | src/components/SOSButton.tsx:26-34 | from a countdown at c, k < c ticks leave it counting at c - k, and exactly c ticks reach locating |
| Sos.PressThenThreeTicks | src/components/SOSButton.tsx:83-86 | a press and two ticks show 1; a press and three ticks start locating; in general a press and k < 3 ticks show 3 - k |
| Sos.PanelOf | src/components/SOSButton.tsx:97-170 | the confirmation shows exactly when the state is sent and a location is present, with the count and the position; the countdown panel shows the counter |
| Sos.PanelMatchesState | src/components/SOSButton.tsx:97 | in every reachable state the confirmation shows exactly when the alert was sent, and a countdown shows 1 to 3 |
| Sos.NatToString | src/components/SOSButton.tsx:106 | the printed count is the shortest decimal form: a non-empty string of digits, "0" exactly for zero, and no leading zero |
| Sos.NatToStringValue | src/components/SOSButton.tsx:106 | the printed count reads back as the count |
| Sos.ContactNoun | src/components/SOSButton.tsx:106 | "contact" exactly when the count is 1, "contacts" otherwise |
| Sos.SentText | src/components/SOSButton.tsx:105-107 | the confirmation line starts with the count printed in its shortest decimal form, whose digits read back as the count, and goes on with the noun chosen for it and "notified with your location" |
| Sos.SosButton.constructor | src/components/SOSButton.tsx:14-17 | idle, a counter of 3, no location, no contacts counted |
| Sos.SosButton.CountdownEffect | src/components/SOSButton.tsx:26-31 | the state moves exactly as `Settle` says |
| Sos.SosButton.HandleSos | src/components/SOSButton.tsx:83-86 | the state moves exactly as `Next` says for a press |
| Sos.SosButton.OnTimer | src/components/SOSButton.tsx:32 | the state moves exactly as `Next` says for a tick |
| Sos.SosButton.ResetState | src/components/SOSButton.tsx:19-23 | the state becomes `Cleared` |
| Sos.SosButton.HandleCancel | src/components/SOSButton.tsx:88-91 | the state moves exactly as `Next` says for cancel |
| Sos.SosButton.HandleReturn | src/components/SOSButton.tsx:125-131 | the state moves exactly as `Next` says for return |
| Sos.SosButton.OnLocated | src/components/SOSButton.tsx:41-69 | the state moves as `Next` says; in locating, with an accepted insert, exactly one alert log is added, carrying the user, the position and the count shown; otherwise the logs are unchanged |
| Sos.SosButton.OnLocateFailed | src/components/SOSButton.tsx:71-78 | the state moves exactly as `Next` says for a location error |
| Admin.WithStatus | src/pages/AdminDashboard.tsx:70-72 | a section holds exactly the users with its status |
| Admin.Unlisted | src/pages/AdminDashboard.tsx:70-72 | the users no section shows are exactly those whose status is none of the three |
| Admin.AdminView | src/pages/AdminDashboard.tsx:62-72 | "Access Denied" exactly when the profile is absent or not an admin, even while loading; an admin sees the three status sections of the fetched users |
| Admin.WithStatusAppend | src/pages/AdminDashboard.tsx:70-72 | each section is an order-preserving filter: filtering a concatenation filters each part |
| Admin.PartitionSizes | src/pages/AdminDashboard.tsx:70-72 | the three sections and the unlisted users together account for every user exactly once |
| Admin.SectionsDisjoint | src/pages/AdminDashboard.tsx:70-72 | no user is in two sections, and a user with any other status is in none |
| Admin.ActionsFor | src/pages/AdminDashboard.tsx:88-122 | approve and reject are offered exactly for pending users; promote exactly for approved users with role "user"; demote exactly for admins other than the viewer |
| Admin.Apply | src/pages/AdminDashboard.tsx:34-60 | a status update changes only the status, and a role update only the role |
| Admin.PatchFor | src/pages/AdminDashboard.tsx:88-118 | approve sets the status to approved and reject to rejected, both listed statuses other than pending; promote sets the role to admin and demote to user; only approve and reject touch the status |
| Admin.UpdateWhere | src/pages/AdminDashboard.tsx:35-38 | the row with the id is patched and every other row is kept |
| Admin.UpdateOne | src/pages/AdminDashboard.tsx:35-38 | with unique ids, an update touches exactly one record |
| Admin.ApproveMovesOne | src/pages/AdminDashboard.tsx:88-95 | approving a pending user moves exactly one user from the pending section to the approved one |
| Admin.NeverLowersOwnRole | src/pages/AdminDashboard.tsx:115-122 | an admin is offered nothing on their own card that would take their admin role away |
| Admin.PromoteThenDemote | src/pages/AdminDashboard.tsx:106-122 | a promoted user is offered demotion by any other admin, and demotion restores the row |
| Admin.Reverse | src/pages/AdminDashboard.tsx:23 | the rows in the opposite order |
| Admin.NewestFirst | src/pages/AdminDashboard.tsx:20-23 | the fetched users are the table's rows with creation times non-increasing |
| Admin.UpdateKeepsOrder | src/pages/AdminDashboard.tsx:34-60 | updates leave creation times, so the table stays in creation order |
| Admin.UpdateKeepsIds | src/pages/AdminDashboard.tsx:35-38 | updates leave ids unique |
| Admin.AdminDashboard.constructor | src/pages/AdminDashboard.tsx:10-11 | no users and loading |
| Admin.AdminDashboard.FetchUsers | src/pages/AdminDashboard.tsx:17-32 | with an answer, the users become the table newest first; after an error they are kept; loading ends either way |
| Admin.AdminDashboard.Update | src/pages/AdminDashboard.tsx:34-60 | on a write error nothing changes and nothing is refetched; otherwise exactly the named field of the user with the id changes and the users are refetched |
| Admin.AdminDashboard.UpdateStatus | src/pages/AdminDashboard.tsx:34-46 | `Update` with a status patch |
| Admin.AdminDashboard.UpdateRole | src/pages/AdminDashboard.tsx:48-60 | `Update` with a role patch |
| Admin.AdminDashboard.Click | src/pages/AdminDashboard.tsx:88-122 | a button the card offers makes the update it names |

## Left out

- Routes.MatchKey covers only the two relaxations the router applies to these literal patterns, letter case and trailing slashes. Percent-decoding of the address and repeated or missing leading slashes are not modelled, so a path such as "/%61dmin" or "//admin" is not claimed to reach any guard.
- Network I/O: the hosted backend's client calls, the auth-state subscription and `getSession`. Each call is one atomic step whose answer is a parameter.
- Two `handleSession` runs, one from the subscription and one from `getSession`, can interleave (src/lib/auth.tsx:88-96). That is asynchronous concurrency. The model runs one call at a time.
- A sign-out's own effect on the session is left out. It arrives later as another `handleSession` call. `AuthProvider.signOuts` only counts the sign-outs.
- Geolocation and `setTimeout`/`clearTimeout` are not modelled. They are replaced by `Tick`, `Located` and `LocateFailed` events.
- A location answer outside locating is assumed not to happen. The browser callbacks check no state, but only locating makes a request and the location panel has no controls, so nothing can leave locating before its answer; `Next` and `OnLocated`/`OnLocateFailed` leave the screen unchanged for an answer at any other time. A timer tick outside a countdown above 0 is likewise left without effect, as the effect only sets a timer there.
- Coordinates are opaque values. Their floating-point contents are not modelled, nor are `toFixed(6)` and the maps link built from them (src/components/SOSButton.tsx:93-95, 113).
- Toasts, `alert()`, `console.log` and `console.error` are left out. That includes the per-contact "alert sent" log lines (src/components/SOSButton.tsx:63-67). A save's toast is represented by its `SaveOutcome`, and an auth alert by the `notice` returned.
- JSX and styling are left out, as are the "N/A" placeholders and the "n/4" counter.
- src/pages/Dashboard.tsx, src/pages/Profile.tsx and src/components/BottomNav.tsx are not part of this model. They only pass data through and have no rules of their own.
- Contact ids: the server-assigned UUID and `created_at` timestamp are replaced by a natural-number id. A counter issues it in creation order, so "order by created_at" is table order.
- Contacts.ContactsPage.HandleSave: the category is any string. The form's select only offers the four listed values.
- The SOS button assumes a signed-in user is present. The source dereferences `user!`, and the button only appears behind a guard that requires a user.
- Sos.SosButton.OnLocated: the follow-up contacts query is represented only by how many rows it returned.
- Admin.NewestFirst: the table is kept in creation order and the fetch reverses it. Rows with equal `created_at` come back in the reverse of their table order. The database leaves that order unspecified.
- Admin.AdminDashboard.FetchUsers does not show the brief `loading = true` while the query is in flight. The method is one atomic step.
