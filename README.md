# Race-kit collection console — a Dafny model of its view logic

The console is a browser front end for a race event: it lists runners and
generates one kit per runner, records kit collections (by the runner or by a
representative), and lets an administrator activate, deactivate or delete
user profiles. All data lives in a hosted backend; the application itself
only filters in-memory lists, validates forms, sequences its requests and
picks what to render.

This project models that logic. The backend becomes an abstract store
(`Store.Tables`): five tables held as sequences of rows plus an id
generator. Every request to it takes a `Reply` parameter (`Ok`,
`Failed(message)` or `Thrown`) that stands for whatever the backend or the
network answered, so each operation is proved for every possible answer.

Modules, one per source component, plus shared ones:

- `Common`: `Option`, `Reply` and ids.
- `Seqs`: `Filter` is JavaScript's `Array.prototype.filter`. It is proved
  to return an order-preserving subsequence that keeps exactly the matching
  elements, with their multiplicity.
- `Text`: ASCII lower-casing, substring search, UTF-16 string length and the `value || fallback`
  default. That default treats an empty string like a missing value.
- `Store`: row shapes, the tables, and the update-by-`user_id` and
  delete-by-`user_id` results.
- `KitCollector`, `AdminPanel` and `RunnerManager` are mixed. Their filters
  and choices are functions; their stateful parts are classes whose methods
  update fields and call the store.
- `Dashboard` and `ResetPassword` are pure functions.
- `Index` holds a pure `Dispatch` and a class for the shell state.

Where the code behaves differently from what one would expect, the model
follows the code:

- One would expect a failed role lookup to leave the user a non-admin. The
  code keeps the previous role (`src/pages/Index.tsx:29-34`), and it never
  clears the role when the session changes (`src/pages/Index.tsx:44-49`).
  The page shown is not reset either. `Index.StaleRoleAfterFailedLookup`
  shows the effect: an admin's session ends while the admin page is open
  (it expires, or the admin signs out elsewhere); another user signs in on
  the same page and that user's lookup fails; the admin page is rendered for
  them. The dashboard's own admin card is not affected, since the dashboard
  looks the role up again with its own state.
- One would expect a kit's status to become `collected` when a collection
  is recorded. The client never writes `race_kits`, and `CollectKit` proves
  that table unchanged.
- `collectKit` leaves `collectingKit` untouched on its two early returns:
  no kit selected, and incomplete representative details. It clears it on
  every exit after that point.
- JavaScript truthiness is kept:
  - an empty `status` counts as `active`;
  - an empty `participant_id` is not searched;
  - blank phone, relationship and notes are stored as null.

## Model

| member | source | states |
|---|---|---|
| `Text.OrDefault` | src/components/AdminPanel.tsx:82-84 | the `or` default: a missing or empty value gives the fallback, any other value is kept |
| `Text.NullIfBlank` | src/components/KitCollector.tsx:144-145 | the `or null` default on a form field: null exactly when the field is blank, otherwise the field's text |
| `Text.Utf16Length` | src/components/ResetPassword.tsx:41 | JavaScript's `length`: at least the character count and at most twice it, equal to it exactly when no character is astral and to twice it exactly when every one is |
| `Text.Utf16LengthAppend` | src/components/ResetPassword.tsx:41 | the UTF-16 length of a concatenation is the sum of the lengths |
| `Text.ContainsAt` | src/components/KitCollector.tsx:95-97 | the substring search used by every filter holds iff the needle occurs at some position of the hay |
| `Store.WithStatus` | src/components/AdminPanel.tsx:101-112 | the status update by `user_id` keeps the row count and changes the status of exactly the rows with that `user_id`, nothing else |
| `Store.WithoutUser` | src/components/AdminPanel.tsx:113-119 | the delete by `user_id` leaves an order-preserving subsequence with no row of that user and every other row with its multiplicity |
| `Store.Tables.InsertRepresentative` | src/components/KitCollector.tsx:138-153 | on success one row with a fresh id is appended and that id returned; on failure nothing changes; no other table changes |
| `Store.Tables.InsertCollection` | src/components/KitCollector.tsx:159-172 | on success exactly one collection row is appended; on failure nothing changes; no other table changes |
| `Store.Tables.InsertRaceKits` | src/components/RunnerManager.tsx:70-77 | one batch request: on success all kits are appended with consecutive fresh ids, on failure none; no other table changes |
| `Store.Tables.UpdateStatus` | src/components/AdminPanel.tsx:101-112 | on success the profiles table becomes `WithStatus` of the old one, on failure it is unchanged; other tables unchanged |
| `Store.Tables.DeleteProfiles` | src/components/AdminPanel.tsx:113-119 | on success the profiles table becomes `WithoutUser` of the old one, on failure it is unchanged; other tables unchanged |
| `KitCollector.JoinedRunner` | src/components/KitCollector.tsx:62-75 | the embedded runner is null iff no runner row has the kit's `runner_id`; otherwise it holds the columns of such a row |
| `KitCollector.JoinRunners` | src/components/KitCollector.tsx:62-75 | the listed kits are the kit rows one for one, with id, number, status and runner id copied and the runner joined |
| `KitCollector.FilteredKits` | src/components/KitCollector.tsx:94-98 | an order-preserving subsequence of the kits keeping exactly those whose number, runner name or non-empty participant id contains the lower-cased term |
| `KitCollector.EmptySearchKeepsEveryKit` | src/components/KitCollector.tsx:94-98 | an empty search term keeps every kit |
| `KitCollector.KitSearchIgnoresTermCase` | src/components/KitCollector.tsx:94-98 | the result is the same for the term and its lower-cased form |
| `KitCollector.KitWithoutRunnerMatchesOnNumber` | src/components/KitCollector.tsx:95-97 | a kit whose runner is null matches iff its kit number contains the term |
| `KitCollector.RepresentativeRow` | src/components/KitCollector.tsx:140-146 | name, id number and id type are copied; phone and relationship are null iff blank and otherwise copied |
| `KitCollector.CollectionRecord` | src/components/KitCollector.tsx:161-167 | the record references the kit, the acting user and the given representative id, stores `self`/`representative`, and stores notes as null iff blank |
| `KitCollector.CollectControlFor` | src/components/KitCollector.tsx:258-268 | the collect button is offered iff the kit is `pending`, and disabled iff that kit is the one being collected |
| `KitCollector.RecordCollection` | src/components/KitCollector.tsx:134-172 | a representative row is inserted only for a representative collection; the record is written exactly when the representative insert (if any) and the record insert are both accepted, and a representative id is returned whenever its insert is accepted; a failed representative insert stops before the record; the record carries a null representative id iff the collection is `self`; `race_kits` is never written |
| `KitCollector.KitCollectorView.constructor` | src/components/KitCollector.tsx:44-58 | the view starts loading, with an empty list, no selection, `self` and a blank form |
| `KitCollector.KitCollectorView.FetchRaceKits` | src/components/KitCollector.tsx:60-88 | the list becomes the joined kit rows on success and is kept on failure; loading ends either way |
| `KitCollector.KitCollectorView.OpenCollectionDialog` | src/components/KitCollector.tsx:100-112 | whatever the previous form: the kit is selected, the type is `self`, the form is blank with id type `ic`, notes are empty and the dialog is open |
| `KitCollector.KitCollectorView.Submit` | src/components/KitCollector.tsx:134-180 | past the guards: success exactly when every insert is accepted, the rows written as for `RecordCollection`; on success the dialog closes and the list reloads, otherwise the view is unchanged |
| `KitCollector.KitCollectorView.CollectKit` | src/components/KitCollector.tsx:114-188 | guards in order; past them the outcome is fixed by the store's answers: the representative failure exactly when its insert is rejected, success exactly when every insert is accepted; nothing is written on a validation or login failure; no record follows a failed representative insert; success appends exactly one record; `race_kits` is untouched; the busy marker is cleared after validation |
| `AdminPanel.FilteredUsers` | src/components/AdminPanel.tsx:81-92 | an order-preserving subsequence keeping exactly the profiles that pass the search, status and role filters together |
| `AdminPanel.OpenFiltersKeepEveryUser` | src/components/AdminPanel.tsx:86-89 | empty search with both selectors on `all` keeps every profile |
| `AdminPanel.MissingRoleFailsUserFilter` | src/components/AdminPanel.tsx:83-89 | a profile without a role is excluded by the role filter `user` |
| `AdminPanel.MissingStatusReadsActive` | src/components/AdminPanel.tsx:84-88 | a profile without a status passes `active` exactly when it passes `all`, and never passes `inactive` |
| `AdminPanel.ActionsFor` | src/components/AdminPanel.tsx:178-216 | an active profile (missing status included) is offered deactivation only; any other is offered activation and deletion |
| `AdminPanel.StatusCountersBounded` | src/components/AdminPanel.tsx:337-358 | active + inactive never exceeds the total, and equals it when every status is missing, empty, `active` or `inactive` |
| `AdminPanel.CountersMatchFilters` | src/components/AdminPanel.tsx:345-370 | each counter equals the length of the list its selector value shows with an empty search |
| `AdminPanel.StatusUpdateLastWins` | src/components/AdminPanel.tsx:101-112 | two status updates of one user leave only the second |
| `AdminPanel.DeactivatedRowsReadInactive` | src/components/AdminPanel.tsx:101-106 | after deactivation every row of that user reads inactive and is offered activation and deletion |
| `AdminPanel.DeleteKeepsOtherUsers` | src/components/AdminPanel.tsx:113-119 | deleting a user leaves the rows of every other user exactly as they were, in order |
| `AdminPanel.DeleteAfterStatusUpdate` | src/components/AdminPanel.tsx:101-119 | a delete after a status change of the same user gives the same table as the delete alone |
| `AdminPanel.AfterAction` | src/components/AdminPanel.tsx:101-119 | a status change gives every row of the selected user the new status and keeps every other row, in place; a delete keeps, in order, every row of the other users with its multiplicity and no row of the selected user |
| `AdminPanel.ApplyAction` | src/components/AdminPanel.tsx:99-124 | the request succeeds exactly when the store answers without error; on success the profiles become the action's result, on failure they are unchanged; no other table changes |
| `AdminPanel.FetchError` | src/components/AdminPanel.tsx:49-71 | no error exactly when both the probe and the fetch succeed; otherwise the probe's failure, then the fetch's failure, then the unexpected-error message, in that order of precedence |
| `AdminPanel.AdminPanelView.constructor` | src/components/AdminPanel.tsx:27-36 | the view starts loading with no error, filters on `all`, no selection and no dialog |
| `AdminPanel.AdminPanelView.FetchUsers` | src/components/AdminPanel.tsx:38-75 | a failed probe or fetch sets the matching error and keeps the list; success clears the error and loads the table; loading ends |
| `AdminPanel.AdminPanelView.OpenConfirmDialog` | src/components/AdminPanel.tsx:141-145 | the profile and action are selected and the dialog opens |
| `AdminPanel.AdminPanelView.HandleUserAction` | src/components/AdminPanel.tsx:94-139 | no selection: a no-op; otherwise the action is applied to exactly the rows with the selected `user_id`; failure keeps the dialog and its target; success closes it, clears the selection and reloads |
| `RunnerManager.FilteredRunners` | src/components/RunnerManager.tsx:54-58 | an order-preserving subsequence keeping exactly the runners whose name, bib or non-empty participant id contains the lower-cased term |
| `RunnerManager.EmptySearchKeepsEveryRunner` | src/components/RunnerManager.tsx:54-58 | an empty term keeps every runner |
| `RunnerManager.RunnerSearchIgnoresTermCase` | src/components/RunnerManager.tsx:54-58 | the result is the same for the term and its lower-cased form |
| `RunnerManager.KitFor` | src/components/RunnerManager.tsx:63-68 | the kit for a runner carries its bib as kit number and its id, status `pending` and no contents |
| `RunnerManager.KitsToCreate` | src/components/RunnerManager.tsx:63-68 | one kit per runner, in order: the i-th kit is the kit for the i-th runner |
| `RunnerManager.KitsToCreateAppend` | src/components/RunnerManager.tsx:63-68 | kit generation distributes over concatenation of runner lists |
| `RunnerManager.GeneratedKitsAreCollectable` | src/components/RunnerManager.tsx:63-68 | every generated kit is listed for collection under its bib, joined to its runner, with the collect button enabled |
| `RunnerManager.RunnerManagerView.constructor` | src/components/RunnerManager.tsx:26-28 | the view starts loading with no runners and an empty search |
| `RunnerManager.RunnerManagerView.FetchRunners` | src/components/RunnerManager.tsx:30-48 | the list is replaced on success and kept on failure; loading ends |
| `RunnerManager.RunnerManagerView.CreateRaceKits` | src/components/RunnerManager.tsx:60-85 | one batch of kits for all loaded runners (not the filtered ones); the count reported equals the number of runners on success, nothing on failure; loading ends |
| `Dashboard.CollectionRate` | src/components/Dashboard.tsx:78-80 | between 0 and 100; 0 without kits; otherwise the whole percentage nearest to collected/total, halves rounding up |
| `Dashboard.StatsFrom` | src/components/Dashboard.tsx:79-87 | every counter is its count or 0 when absent; the rate is `CollectionRate` of the pending and collected counts, so at most 100 and 0 without kits |
| `Dashboard.OneInFourIsQuarter` | src/components/Dashboard.tsx:80 | pending 3 and collected 1 give 25 |
| `Dashboard.NothingPendingIsFull` | src/components/Dashboard.tsx:80 | no pending and some collected give 100 |
| `Dashboard.NothingCollectedIsZero` | src/components/Dashboard.tsx:80 | nothing collected gives 0 |
| `Dashboard.RoleAfterLookup` | src/components/Dashboard.tsx:40-57 | a failed lookup keeps the previous role; a found role is stored, or null when missing or empty |
| `Dashboard.AdminCardAfterLookup` | src/components/Dashboard.tsx:207-208 | after a successful lookup the user-management card shows iff the role is `admin` |
| `ResetPassword.ValidationError` | src/components/ResetPassword.tsx:36-49 | empty fields first, then a length below 6 UTF-16 units, then mismatch; no error iff filled, long enough and equal |
| `ResetPassword.ThreeAstralCharactersAreLongEnough` | src/components/ResetPassword.tsx:41-44 | three characters outside the Basic Multilingual Plane pass the length guard, as JavaScript counts 6 units |
| `ResetPassword.BmpPasswordLengthIsCharacterCount` | src/components/ResetPassword.tsx:41-44 | without astral characters the password is too short exactly when it has fewer than 6 characters |
| `ResetPassword.HandleResetPassword` | src/components/ResetPassword.tsx:33-76 | the update is sent iff validation passes; a validation failure changes only the error; after the update loading is off, success is set on acceptance and the error on failure |
| `ResetPassword.CheckSession` | src/components/ResetPassword.tsx:21-31 | without a session the error becomes the invalid-link message; with one nothing changes |
| `ResetPassword.ScreenOf` | src/components/ResetPassword.tsx:78-107 | success shows the success screen; otherwise an error mentioning "Invalid or expired" shows the invalid-link screen |
| `ResetPassword.NoSessionShowsInvalidLink` | src/components/ResetPassword.tsx:25-27 | without a session the invalid-link screen is shown |
| `ResetPassword.ValidationFailureKeepsForm` | src/components/ResetPassword.tsx:36-49 | a validation failure sends nothing and keeps the form on screen |
| `ResetPassword.AcceptedUpdateShowsSuccess` | src/components/ResetPassword.tsx:59-64 | an accepted update shows the success screen |
| `Index.Dispatch` | src/pages/Index.tsx:77-97 | `runners`, `collector` and `reset-password` pick their views; `admin` picks the admin view iff the role is `admin`; every other case is the dashboard |
| `Index.AdminScreenMatchesAdminCard` | src/pages/Index.tsx:83-86 | the admin view is dispatched only for the role that shows the admin card, and always for it |
| `Index.AdminRedirectIsStable` | src/pages/Index.tsx:87-90 | for a non-admin the admin page renders as the dashboard, like the page it redirects to |
| `Index.IndexPage.constructor` | src/pages/Index.tsx:15-19 | the shell starts loading on the dashboard page with no user, session or role |
| `Index.IndexPage.OnSession` | src/pages/Index.tsx:40-61 | the session and user follow the event (null without a session), loading ends, a role lookup starts for a signed-in user, the role is kept |
| `Index.IndexPage.FetchUserRole` | src/pages/Index.tsx:21-38 | the role becomes `RoleAfterLookup` of the old role; a failed lookup keeps it |
| `Index.IndexPage.Navigate` | src/pages/Index.tsx:90-95 | the dashboard's navigation sets the current page |
| `Index.IndexPage.Back` | src/pages/Index.tsx:78-86 | the back action of every sub-view sets the page to the dashboard |
| `Index.IndexPage.Render` | src/pages/Index.tsx:66-103 | loading shows the spinner; no user shows the landing page; otherwise the page is dispatched, and a non-admin on the admin page is sent back to the dashboard |

## Left out

- Backend calls: the hosted backend is an abstract store whose answers are parameters.
  - Row-level security is not modelled.
  - Server-side ordering (`order(...)`) and the `limit(1)` of the profile probe are not modelled; fetched lists are the tables in stored order.
  - Timestamps and `registration_date` are not modelled.
- `Store.Tables.InsertRaceKits`: the batch insert applies all rows or none. A partially applied batch is not modelled.
- Authentication: `signOut` (`src/components/Dashboard.tsx:24-38`), `getUser`, `getSession`, `updateUser` and the auth-state stream become parameters.
  - The order in which the initial session query and auth events arrive is not modelled.
  - A role-lookup answer is applied to the current state; an answer arriving after a later session change is not modelled separately.
- `KitCollector.KitCollectorView.CollectKit`: `getUser` is only a present or absent user. An exception thrown there is not modelled; the code would leave the same state as a missing user, with another message.
- `Dashboard.StatsFrom`: it models the normal path of `fetchStats`. Its exception path, which keeps the previous counters, is not modelled.
- Reloads issued without `await` after a success are modelled as completing before the operation's end state.
- Rendering: JSX, styling, badges, icons, toasts and console logging are not modelled.
  - The outcome values of `CollectKit`, `HandleUserAction` and `CreateRaceKits` stand for the step that failed, not for the message shown. An exception caught by the view's catch block gets the same outcome as an error reply from that step, so its generic message is not modelled; the resulting state is the same in both cases.
  - The role badge's display default `user` (`src/components/AdminPanel.tsx:163`) is not modelled.
- Plain state setters bound to inputs (search boxes, filter selectors, form fields, dialog cancel) are not modelled.
- `Dashboard.CollectionRate`: `Math.round` on a floating-point quotient is modelled as exact integer half-up rounding. Floating-point representation error is not modelled.
- `toLowerCase` is modelled on ASCII letters only; Unicode case mapping is not modelled.
- `toLocaleDateString` and the three-second redirect timer after a password reset are not modelled.
- The login page (`AuthPage`) and the generic type helpers of the backend's type file are not part of this model.
