# Event manager client: session, guard and event view engine

This project models the decision logic of a small React client for an event
manager. The modelled parts are:

- **Login page.** `handleLogin` calls `login(email, password)`. On success it writes `token`, `userId` and `name` to `localStorage` and navigates to `/events`. On failure it shows an error notice, and the notice text is chosen from the server's error payload.
- **Registration page.** `handleRegister` calls `register(name, email, password)`. On success it shows a notice and navigates to `/`. On failure it shows an error notice. The text of that notice depends on the HTTP status and on the payload.
- **`ProtectedRoute`.** It renders its children when `localStorage` holds a truthy `token`. Otherwise it redirects to `/`.
- **Event list page.** Its state is `events`, `sortBy` and `sortOrder`. Its parts are:
  - `fetchEvents`, which keeps only the events whose `userId` is the stored user id.
  - The sort select and its `"key-order"` option values.
  - The `sortedEvents` comparator.
  - The event form dialog and its `preConfirm` validation.
  - The create, edit and delete flows, each with its dialogs, service calls, notices and refetch.
  - Logout.

Modules, one per file:

| file | module | what it holds |
|---|---|---|
| `js.dfy` | `Js` | The JavaScript behaviour the pages rely on: optional values, numbers that may be NaN, truthiness, `===`, `Number(text)`, integer `toString` and `split`. |
| `api.dfy` | `Api` | The shapes of service results and errors (`{response: {status, data: {error}}}`). |
| `browser.dfy` | `Browser` | A `Browser` object holding `localStorage` as a string map and a trace of every observable effect, in order. The effects are service calls, notices, dialogs, navigation and storage writes. |
| `session.dfy` | `Session` | The storage keys and the login and logout storage transitions. |
| `guard.dfy` | `Guard` | `ProtectedRoute`. |
| `login.dfy` | `Login` | The login page and its error text. |
| `register.dfy` | `Register` | The registration page and its error text. |
| `sort_option.dfy` | `SortOption` | The sort select's value codec. |
| `event_sort.dfy` | `EventSort` | The `sortedEvents` comparator and the sort. |
| `event_form.dfy` | `EventForm` | `preConfirm` and the form dialog. |
| `event_list.dfy` | `EventList` | The owner filter, the flows, and the `EventListPage` class. |
| `event_list_properties.dfy` | `EventListProperties` | Properties of the flows. |

Each page is a class. Its handlers are methods that change the page's fields
and the shared `Browser`. Every handler is proved to append exactly the
effects given by a pure flow function (`LoginEffects`, `CreateFlow`, and so
on) and to leave the state that function describes. The properties are then
proved as lemmas about those functions.

The outcomes of things outside the program are parameters of the handlers:

- what a service call settles with;
- what the user presses in a dialog;
- the instant `new Date()` at each press;
- `new Date(text).getTime()`;
- `localeCompare`.

## Model

| member | source | states |
|---|---|---|
| `Js.IntToString` | src/pages/LoginPage.tsx:24 | `user.id.toString()`: non-empty, and it starts with '-' exactly for negative ids. |
| `Js.NumberOfIntToString` | src/pages/EventListPage.tsx:80 | `Number` of what `id.toString()` wrote is the id again. |
| `Js.NumberOf` | src/pages/EventListPage.tsx:80 | `Number(localStorage.getItem('userId'))`: null and the empty string read as 0, decimal integer text as its value, anything else as NaN. Its round trip with `toString` is stated by `Js.NumberOfIntToString`. |
| `Js.Split` | src/pages/EventListPage.tsx:100 | `value.split('-')`: at least one piece, no piece contains '-', and joining the pieces with '-' gives the value back. |
| `Js.SplitJoin` | src/pages/EventListPage.tsx:100 | Splitting a '-'-join of dash-free pieces returns those pieces. |
| `Js.JoinPrefix` | src/pages/EventListPage.tsx:100 | Joining two or more pieces with '-' starts with the first two pieces and the dash between them. |
| `Browser.Browser.GetItem` | src/components/ProtectedRoute.tsx:9 | `localStorage.getItem(key)` is null exactly when the key is absent, and is otherwise the stored string. |
| `Browser.Browser.SetItem` | src/pages/LoginPage.tsx:23-25 | `setItem` sets one key and records the write in the trace. Storage stays the replay of the trace. |
| `Browser.Browser.RemoveItem` | src/pages/EventListPage.tsx:260-261 | `removeItem` removes one key and records the removal in the trace. |
| `Browser.Browser.Emit` | src/pages/EventListPage.tsx:88-95 | A notice, dialog, service call or navigation is recorded in the trace and leaves storage unchanged. |
| `Browser.Browser.constructor` | src/components/ProtectedRoute.tsx:9 | The page starts with the given storage and an empty trace. |
| `Session.StoreLogin` | src/pages/LoginPage.tsx:23-25 | After login, `token`, `userId` (the decimal text of the id) and `name` hold the new values. Every other key is unchanged. |
| `Session.StoreLogout` | src/pages/EventListPage.tsx:260-261 | After logout, exactly `token` and `userId` are gone. `name` and every other key keep their values. |
| `Session.ReplayLoginWrites` | src/pages/LoginPage.tsx:23-25 | The three writes, in their order, reach `StoreLogin`. |
| `Session.ReplayLogoutWrites` | src/pages/EventListPage.tsx:260-261 | The two removals, in their order, reach `StoreLogout`. |
| `Session.UserName` | src/pages/EventListPage.tsx:79 | The greeting is never empty. It is the stored name when that is non-empty, and 'Usuario' otherwise. |
| `Session.StoredUserId` | src/pages/EventListPage.tsx:80 | The page's user id: 0 when `userId` is absent or empty, and a non-zero id only when `userId` is stored. `Session.LoginStoresUserId` and `Session.LogoutClearsUserId` state what it reads after login and after logout. |
| `Session.LoginStoresUserId` | src/pages/EventListPage.tsx:80 | After a login the page reads back exactly the logged-in user's id. That id is truthy iff it is not 0. |
| `Session.LogoutClearsUserId` | src/pages/EventListPage.tsx:159-160 | After logout the stored user id reads as `Number(null)`, which is 0 and falsy. |
| `Session.LogoutIdempotent` | src/pages/EventListPage.tsx:259-263 | Logging out twice leaves the same storage as logging out once. |
| `Session.LogoutAfterLogin` | src/pages/EventListPage.tsx:260-261 | Logout after login leaves the logged-in user's `name` and no `token` or `userId`. |
| `Guard.ProtectedRoute` | src/components/ProtectedRoute.tsx:8-16 | Renders iff `token` is present and non-empty. The children are rendered unchanged. Any other case redirects to `/`. |
| `Guard.GuardReadsOnlyToken` | src/components/ProtectedRoute.tsx:9 | Two storages with the same `token` entry get the same decision, whatever `userId`, `name` and other keys hold. |
| `Guard.GuardRejectsEmptyToken` | src/components/ProtectedRoute.tsx:11-12 | An empty-string `token` redirects to `/`. |
| `Guard.GuardAfterLogout` | src/components/ProtectedRoute.tsx:9-12 | After logout the guard always redirects. |
| `Guard.GuardAfterLogin` | src/components/ProtectedRoute.tsx:11-15 | After login the guard renders iff the server's token was non-empty. |
| `Login.LoginErrorText` | src/pages/LoginPage.tsx:32 | The text is never empty. It is `data.error` when that is truthy, and 'Verifica tus credenciales' otherwise. |
| `Login.LoginErrorIgnoresStatus` | src/pages/LoginPage.tsx:32 | The status code never affects the login error text. |
| `Login.LoginEffects` | src/pages/LoginPage.tsx:19-36 | The effects of `handleLogin`. `Login.LoginCallsServiceOnce`, `Login.LoginNavigatesAfterWrites`, `Login.LoginStorage` and `Login.LoginFailureHasNoSideEffects` state its properties. |
| `Login.LoginPage.HandleLogin` | src/pages/LoginPage.tsx:19-36 | Performs exactly `LoginEffects`: the call, then the three writes and navigation, or the error notice. Storage becomes `StoreLogin` on success and is unchanged on failure. |
| `Login.LoginPage.constructor` | src/pages/LoginPage.tsx:15-16 | Both inputs start empty. |
| `Login.LoginPage.SetEmail` | src/pages/LoginPage.tsx:15 | The email input updates `email` only. |
| `Login.LoginPage.SetPassword` | src/pages/LoginPage.tsx:16 | The password input updates `password` only. |
| `Login.LoginCallsServiceOnce` | src/pages/LoginPage.tsx:22 | `login` is called exactly once, with the email and password as typed, whatever the outcome. |
| `Login.LoginNavigatesAfterWrites` | src/pages/LoginPage.tsx:23-26 | On success, navigation to `/events` is the last effect and the only navigation. Storage already holds the whole session when it happens. |
| `Login.LoginStorage` | src/pages/LoginPage.tsx:21-35 | Replaying the login flow gives `StoreLogin` on success and the old storage on failure. |
| `Login.LoginFailureHasNoSideEffects` | src/pages/LoginPage.tsx:27-35 | A failed login writes no key and does not navigate. It ends with the error notice and its chosen text. |
| `Register.RegisterErrorText` | src/pages/RegisterPage.tsx:36-39 | The text is never empty. Status 400 gives 'Verifica los datos'. Any other status shows a truthy `data.error` verbatim, and otherwise gives 'Verifica los datos'. |
| `Register.BadRequestHidesServerError` | src/pages/RegisterPage.tsx:37-38 | A 400 shows 'Verifica los datos' even when the server sent an error string. |
| `Register.RegisterErrorTextOrigin` | src/pages/RegisterPage.tsx:36-39 | The text is either the server's error string or the generic text. |
| `Register.RegisterEffects` | src/pages/RegisterPage.tsx:20-43 | The effects of `handleRegister`. `Register.RegisterCallsServiceOnce` and `Register.RegisterFlowShape` state its properties. |
| `Register.RegisterPage.HandleRegister` | src/pages/RegisterPage.tsx:20-43 | Performs exactly `RegisterEffects` and leaves storage unchanged. |
| `Register.RegisterPage.constructor` | src/pages/RegisterPage.tsx:15-17 | All three inputs start empty. |
| `Register.RegisterPage.SetName` | src/pages/RegisterPage.tsx:15 | The name input updates `name` only. |
| `Register.RegisterPage.SetEmail` | src/pages/RegisterPage.tsx:16 | The email input updates `email` only. |
| `Register.RegisterPage.SetPassword` | src/pages/RegisterPage.tsx:17 | The password input updates `password` only. |
| `Register.RegisterCallsServiceOnce` | src/pages/RegisterPage.tsx:23 | `register` is called exactly once, with name, email and password in that order. |
| `Register.RegisterFlowShape` | src/pages/RegisterPage.tsx:23-30 | The flow never changes storage, and it navigates iff registration succeeded. It then goes to `/`, right after the 'Registro exitoso' notice. |
| `SortOption.KeyNamed` | src/pages/EventListPage.tsx:100 | Any key read from a piece of the value is the key of that name. |
| `SortOption.OrderNamed` | src/pages/EventListPage.tsx:100 | Any direction read from a piece of the value is the direction of that name. |
| `SortOption.NamedName` | src/pages/EventListPage.tsx:100-102 | Each key and each direction is read back from its own name. |
| `SortOption.Encode` | src/pages/EventListPage.tsx:284 | The select's value `${sortBy}-${sortOrder}`. `SortOption.DecodeEncode` proves that decoding it gives the state back, and `SortOption.OptionsAreEncodings` that it is always one of the six options. |
| `SortOption.Decode` | src/pages/EventListPage.tsx:99-103 | A decoded choice, displayed again, is a prefix of the value it was read from. |
| `SortOption.DecodeEncode` | src/pages/EventListPage.tsx:99-103 | Reading back the displayed value `${sortBy}-${sortOrder}` gives the state that produced it. |
| `SortOption.OptionsAreEncodings` | src/pages/EventListPage.tsx:284-292 | The six option values are exactly the encodings of the six states, in the listed order. |
| `SortOption.OptionRoundTrip` | src/pages/EventListPage.tsx:284-292 | Choosing any option and displaying the resulting state shows the same option again. |
| `SortOption.DefaultIsFirstOption` | src/pages/EventListPage.tsx:76-77 | The initial state is `date`/`asc`, shown as the first option. |
| `EventSort.DescNegatesAsc` | src/pages/EventListPage.tsx:106 | For every key, the descending comparator is exactly the negation of the ascending one. |
| `EventSort.Compare` | src/pages/EventListPage.tsx:105-118 | The comparator given to `sort`. `EventSort.DescNegatesAsc` proves descending is ascending negated, and `EventSort.CompareTotal` and `EventSort.CompareTransitive` that it is a total preorder. |
| `EventSort.CompareTotal` | src/pages/EventListPage.tsx:105-118 | For any two events, one does not sort after the other. Date keys always qualify; string keys do when `localeCompare` is a total preorder. |
| `EventSort.CompareTransitive` | src/pages/EventListPage.tsx:105-118 | "Does not sort after" is transitive. |
| `EventSort.Insert` | src/pages/EventListPage.tsx:105 | Inserting an event adds exactly that event. |
| `EventSort.InsertSorted` | src/pages/EventListPage.tsx:105-118 | Inserting into a sorted list keeps it sorted. |
| `EventSort.SortEvents` | src/pages/EventListPage.tsx:105 | `[...events].sort(...)` is a permutation of the events. |
| `EventSort.SortEventsSorted` | src/pages/EventListPage.tsx:105-118 | The result is in comparator order. |
| `EventSort.SortedIsFixpoint` | src/pages/EventListPage.tsx:105-118 | A list already in order is returned exactly as it is. |
| `EventSort.SortIdempotent` | src/pages/EventListPage.tsx:105-118 | Sorting twice by the same choice equals sorting once. |
| `EventSort.DateOrder` | src/pages/EventListPage.tsx:113-114 | By date, ascending output is non-decreasing in the instant and descending output is non-increasing. |
| `EventSort.TitleOrder` | src/pages/EventListPage.tsx:109-110 | By title, the titles follow `localeCompare` in the chosen direction. |
| `EventSort.LocationOrder` | src/pages/EventListPage.tsx:111-112 | By location, the locations follow `localeCompare` in the chosen direction. |
| `EventForm.PreConfirm` | src/pages/EventListPage.tsx:51-70 | Missing-field message iff some field is empty. Past-date message iff all are filled and the date is strictly before now. Otherwise accepted, with the four values unchanged. |
| `EventForm.RunFormModal` | src/pages/EventListPage.tsx:30-72 | Each rejected press shows its message and keeps the dialog open. The dialog resolves with the first accepted values, or with nothing when none was accepted. |
| `EventForm.EmptyFieldCheckedFirst` | src/pages/EventListPage.tsx:57-64 | An empty field is reported even when the date is also in the past. |
| `EventForm.DateBoundary` | src/pages/EventListPage.tsx:64 | A date equal to now is accepted. One millisecond earlier is rejected. |
| `EventForm.ModalValueWasAccepted` | src/pages/EventListPage.tsx:51-70 | Whatever the dialog resolves with was filled in and not in the past at the press that submitted it. |
| `EventForm.ModalClosedWhenAllRejected` | src/pages/EventListPage.tsx:57-67 | When every press is rejected, the dialog yields no value. |
| `EventList.OwnedBy` | src/pages/EventListPage.tsx:85 | An event is kept iff it was fetched and its `userId` strictly equals the current user id. |
| `EventList.OwnedByAppend` | src/pages/EventListPage.tsx:85 | The filter keeps the fetched order. |
| `EventList.OwnedByKeepsOwn` | src/pages/EventListPage.tsx:85 | When all fetched events are the user's, all are kept, in order. |
| `EventList.OwnedByNaN` | src/pages/EventListPage.tsx:80-85 | When the stored user id is not a number, no event is kept. |
| `EventList.ValidationMessages` | src/pages/EventListPage.tsx:58-65 | One validation message is shown per rejected press, in order. |
| `EventList.FetchEffects` | src/pages/EventListPage.tsx:82-97 | The effects of `fetchEvents`. `EventListProperties.FetchOutcome` and `EventListProperties.FetchIsLocal` state its properties. |
| `EventList.Settle` | src/pages/EventListPage.tsx:178-190 | What follows a create, update or delete call. `EventListProperties.SettleFacts` states its properties. |
| `EventList.SubmitCreate` | src/pages/EventListPage.tsx:159-191 | `handleCreateEvent` after the dialog returned values. `EventListProperties.CreateServiceCalls`, `EventListProperties.CreateSendsValidatedEvent` and `EventListProperties.CreateNeedsUser` state its properties. |
| `EventList.CreateFlow` | src/pages/EventListPage.tsx:155-192 | The effects and resulting list of `handleCreateEvent`. `EventListProperties.CreateServiceCalls`, `EventListProperties.CreateCancelled` and `EventListProperties.FlowsKeepStorage` state its properties. |
| `EventList.SubmitEdit` | src/pages/EventListPage.tsx:236-256 | `handleEditEvent` after the dialog returned values. `EventListProperties.EditServiceCalls` states its properties. |
| `EventList.EditFlow` | src/pages/EventListPage.tsx:227-257 | The effects and resulting list of `handleEditEvent`. `EventListProperties.EditServiceCalls` and `EventListProperties.FlowsKeepStorage` state its properties. |
| `EventList.DeleteFlow` | src/pages/EventListPage.tsx:194-225 | The effects and resulting list of `handleDeleteEvent`. `EventListProperties.DeleteOnlyWhenConfirmed` and `EventListProperties.EventsChangeOnlyOnRefetch` state its properties. |
| `EventList.LogoutEffects` | src/pages/EventListPage.tsx:259-263 | The effects of `handleLogout`. `EventListProperties.LogoutRemovesSession` states its properties. |
| `EventList.EventListPage.constructor` | src/pages/EventListPage.tsx:75-80 | No events and `date`/`asc` at first. The current user id and greeting name are read from storage. |
| `EventList.EventListPage.SortedEvents` | src/pages/EventListPage.tsx:105 | The sorted list is a permutation of `events`. |
| `EventList.EventListPage.SelectValue` | src/pages/EventListPage.tsx:284 | The select's value is always one of its six options, and it decodes to the page's current key and direction. |
| `EventList.PageEventsSorted` | src/pages/EventListPage.tsx:105-118 | When the comparator is a total preorder, the page's `sortedEvents` is sorted by its current key and direction and holds exactly its events. |
| `EventList.EventListPage.FetchEvents` | src/pages/EventListPage.tsx:82-97 | Performs the `getEvents` call, plus the error notice on failure. `events` becomes the user's fetched events, or stays unchanged on failure. The list only ever holds the user's events. |
| `EventList.EventListPage.HandleSortChange` | src/pages/EventListPage.tsx:99-103 | The new state decodes from the chosen value and is displayed as that same value. `events` is not reordered. |
| `EventList.EventListPage.SettleCall` | src/pages/EventListPage.tsx:178-190 | After a create, update or delete call: the success notice then `fetchEvents` when it resolved, or the error notice when rejected. This is exactly `Settle`. |
| `EventList.EventListPage.SubmitCreateEvent` | src/pages/EventListPage.tsx:159-191 | The create handler after the dialog performs exactly `SubmitCreate`: the user id check, the date conversion, the call and its settling. Storage is unchanged. |
| `EventList.EventListPage.HandleCreateEvent` | src/pages/EventListPage.tsx:155-192 | Performs exactly `CreateFlow` and leaves storage and the sort choice unchanged. |
| `EventList.EventListPage.HandleDeleteEvent` | src/pages/EventListPage.tsx:194-225 | Performs exactly `DeleteFlow` and leaves storage and the sort choice unchanged. |
| `EventList.EventListPage.SubmitEditEvent` | src/pages/EventListPage.tsx:236-256 | The edit handler after the dialog performs exactly `SubmitEdit`: the date conversion, the call and its settling. Storage is unchanged. |
| `EventList.EventListPage.HandleEditEvent` | src/pages/EventListPage.tsx:227-257 | Performs exactly `EditFlow` and leaves storage and the sort choice unchanged. |
| `EventList.EventListPage.HandleLogout` | src/pages/EventListPage.tsx:259-263 | Storage becomes `StoreLogout`. The trace gains the two removals and then navigation to `/`. |
| `EventListProperties.FetchOutcome` | src/pages/EventListPage.tsx:83-96 | A failed fetch keeps `events` and shows 'Error al obtener eventos'. A successful one keeps exactly the fetched events of the user. |
| `EventListProperties.FetchIsLocal` | src/pages/EventListPage.tsx:82-97 | `fetchEvents` calls `getEvents` and nothing else, and writes no storage. |
| `EventListProperties.FormIsLocal` | src/pages/EventListPage.tsx:30-72 | The form dialog neither calls a service nor writes storage. |
| `EventListProperties.SettleFacts` | src/pages/EventListPage.tsx:178-190 | After a call settles, the only further call is the refetch after a success. Storage is not written. |
| `EventListProperties.CreateServiceCalls` | src/pages/EventListPage.tsx:155-192 | `createEvent` is called once iff the dialog returned values, the stored user id is truthy and the date parses. The call carries the stored user id, and `getEvents` follows only a success. Otherwise no service is called. |
| `EventListProperties.CreateSendsValidatedEvent` | src/pages/EventListPage.tsx:156-177 | Whatever `createEvent` receives has a non-zero owner id read from storage. Its fields passed validation at a press whose instant was not after the event's date. |
| `EventListProperties.CreateNeedsUser` | src/pages/EventListPage.tsx:159-168 | With a missing or zero user id, no service is called, `events` is unchanged, and the flow ends with the missing-user notice. |
| `EventListProperties.CreateCancelled` | src/pages/EventListPage.tsx:156-157 | A dialog closed without values ends the flow: no call, no notice, no change. |
| `EventListProperties.EditServiceCalls` | src/pages/EventListPage.tsx:227-257 | `updateEvent` is called at most once, always with the edited event's id, and only when the dialog returned values whose date parses. `getEvents` follows only a success. |
| `EventListProperties.DeleteOnlyWhenConfirmed` | src/pages/EventListPage.tsx:206-215 | `deleteEvent(id)` is called iff the user confirms. Without confirmation nothing else happens and `events` is unchanged. |
| `EventListProperties.EventsChangeOnlyOnRefetch` | src/pages/EventListPage.tsx:206-224 | After delete, `events` changes only when the delete and the refetch both succeeded. It then becomes the user's fetched events. |
| `EventListProperties.FlowsKeepStorage` | src/pages/EventListPage.tsx:155-257 | The create, edit and delete flows never change storage. |
| `EventListProperties.LogoutRemovesSession` | src/pages/EventListPage.tsx:259-263 | Logout removes exactly `token` and `userId`, calls no service, and ends by navigating to `/`. |

## Left out

- JSX markup, CSS, the SweetAlert2 options and `showEventDetails` are presentation only. A notice is modelled by its icon, title and text; a dialog by its title and initial values.
- `src/services/authService.ts` and `src/services/eventService.ts` wrap an HTTP client (`./axiosConfig`) that is not part of this model. Their calls are effects in the trace, and their outcomes are parameters.
- `console.error` and `e.preventDefault()` are not modelled. They have no effect on state.
- Async scheduling and React render timing are not modelled. Each handler is one sequential step, and the un-awaited `fetchEvents()` after a mutation is taken to finish within that step. Interleavings of concurrent handlers are not modelled.
- Dates are integer millisecond instants. `new Date(text).getTime()` is a parameter that may yield NaN. `toISOString` is the identity on instants, and on NaN it throws inside the `try`, so the create or update error notice is shown with no call. `formatDateForInput` and locale formatting are not modelled. The comparator computes the date difference on the stored instants, so events whose stored date does not parse are not modelled.
- `localeCompare` is a parameter. The string-key ordering lemmas require it to be a total preorder.
- `Js.NumberOf` models `Number(text)` only on decimal integer text. Any other non-empty text is NaN. Fractions, exponents, whitespace and hexadecimal are not modelled, because the pages only store `id.toString()` of integer ids.
- `EventSort.SortEvents`: the library's stable sort is modelled by a stable insertion sort. The model proves the result is a sorted permutation and that sorting is idempotent. Stability itself, meaning that equal events keep their relative order, is not stated as a lemma.
- `EventList.EventListPage.HandleSortChange` requires the value to be one of the six option values. The select's `onChange` is its only caller. The source's type cast assumes the same, and it does not handle other strings.
- `App.tsx`, `main.tsx`, `AuthForm.tsx` and the routing wiring are not modelled. They contain no decision logic.
- A date equal to the current instant is accepted. The check in `preConfirm` is a strict `<` (src/pages/EventListPage.tsx:64), so only a date strictly before the press is rejected. `EventForm.DateBoundary` states this.
- Logout removes only `token` and `userId` (src/pages/EventListPage.tsx:260-261). The `name` entry stays in storage. `Session.LogoutAfterLogin` states this.
- Login.LoginPage.HandleLogin: a successful login response is assumed to carry both `user` and `token`, because `LoggedIn` always holds a well-formed user. A response without `user` would make `user.id` throw after `token` was already written (src/pages/LoginPage.tsx:23-24), leaving a token without a user id; that partial write is not modelled.
- Js.IntToString: ids are assumed to be safe integers. In the source they are JavaScript doubles, so `toString` switches to exponent form from 1e21 and ids above 2^53 are inexact. The model uses unbounded integers and plain decimal digits.
