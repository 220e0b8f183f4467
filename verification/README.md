# Attendance tracker (kintai-app): a Dafny model of its decision rules

The application lets employees clock in and out with their location. Supervisors see their subordinates' records, and admins manage roles. Its logic is a set of small decision rules wrapped in calls to a hosted identity provider, a document store, an address service and the device's position service. This project models those rules as pure Dafny functions over immutable datatypes. Every external call becomes a parameter that carries its outcome.

| file | module | models |
|---|---|---|
| `prelude.dfy` | `Prelude` | `null`/`undefined`, string truthiness, `split(sep)[0]`, `join` |
| `types.dfy` | `Types` | roles, record kinds, locations, attendance records, profiles, the display-name fallback, the day key |
| `messages.dfy` | `Messages` | the three error-message catalogs and their lookups |
| `attendance.dfy` | `Attendance` | the attendance composable: derived day state, clock-in/clock-out, the record listener |
| `router.dfy` | `Router` | the route table, the role lookup and the navigation guard |
| `auth_store.dfy` | `AuthStore` | the session store: state, getters, default profile, listener registration, login/register/logout |
| `geocoding.dfy` | `Geocoding` | address composition and fallbacks of reverse geocoding |
| `geolocation.dfy` | `Geolocation` | the geolocation composable: error messages, loading/error bookkeeping, reset |
| `user_functions.dfy` | `UserFunctions` | the server functions over the `users` collection |

The attendance store is a sequence of records in write order. The day's query returns one user's records for one day, newest first. The model assumes that server timestamps grow with write order. Under that assumption the query is the store's matching records in reverse (`Attendance.TodayView`). The two checks `canClockIn` and `canClockOut` are gates: they decide whether the UI offers each action, but the actions themselves never consult them. The model keeps that gap. `Attendance.DuplicateClockInClosesDay` shows what happens: a second clock-in is written, and the day then offers neither action.

A few behaviours follow the code rather than its comments:
- `fetchUserData` is documented as returning null on failure. The code never does: a failed read returns the synthesised profile, without a creation time.
- A successful `register` leaves `loading` true. It is raised on entry, and the success path never lowers it; a later session report, `login` or failed `register` does.
- Updating a profile that does not exist fails in the document store. `setAdminRole` therefore reports `internal` for an unknown target, not `invalid-argument`.
- When a position request fails, `getCurrentPosition` keeps any earlier position and address.
- The geolocation composable's message for error code 1 is its own text. It differs from the catalog's `permission-denied` entry (`Geolocation.ErrorTextsVersusCatalog`).
- Subscribing to the day's records twice overwrites the detach handle without detaching the first listener. That listener then keeps delivering snapshots after `unsubscribeFromRecords` (`Attendance.DoubleSubscribeLeaks`). The model keeps the detach handle, whether its listener still runs, and the number of leaked listeners. The document store ends a listener after it reports an error, while the composable keeps that listener's handle; calling the handle later changes nothing more (`Attendance.ErrorEndsListener`).
- The day key in `useAttendance` is a computed value with no reactive inputs, so it is computed once per composable. The model binds it once, in `Attendance.Tracker.today`.

## Model

| member | source | states |
|---|---|---|
| Prelude.BeforeFirst | src/stores/auth.ts:46 | `split(sep)[0]` is the longest prefix free of `sep`; it is followed by `sep` when `sep` occurs, and is the whole string when it does not |
| Prelude.Join | src/services/geocoding.ts:62 | the empty list joins to the empty string; a join starts with its first part, followed by the separator when more parts follow |
| Prelude.JoinLength | src/services/geocoding.ts:62 | a join holds every part's characters plus one separator between neighbours |
| Prelude.JoinSnoc | src/services/geocoding.ts:62 | joining one more part appends the separator and that part |
| Types.DefaultDisplayName | src/stores/auth.ts:46 | the display name is the provider's name when non-empty; otherwise, for an email not starting with `@`, exactly the email's part before the first `@`; otherwise `User`; it is never empty |
| Types.TodayKey | src/composables/useAttendance.ts:34-37 | on an ISO instant, the day key is its first ten characters and has the `YYYY-MM-DD` shape |
| Messages.Lookup | src/constants/messages.ts:32-42 | a catalog returns the entry for a known code and its default otherwise; the result is always one of its messages |
| Messages.GetAuthErrorMessage | src/constants/messages.ts:32-34 | auth codes map to their entry, unknown codes to the auth default |
| Messages.GetGeolocationErrorMessage | src/constants/messages.ts:36-38 | geolocation codes map to their entry, unknown codes to the geolocation default |
| Messages.GetAttendanceErrorMessage | src/constants/messages.ts:40-42 | attendance codes map to their entry, unknown codes to the attendance default |
| Messages.CatalogsHaveDefaults | src/constants/messages.ts:5-27 | every catalog has a default entry, so all three lookups are total |
| Messages.CredentialFailuresShareMessage | src/constants/messages.ts:6-8 | unknown user, wrong password and invalid credential show one and the same message |
| Messages.SpecificAuthMessagesDistinct | src/constants/messages.ts:9-12 | duplicate email, weak password and invalid email have distinct messages, also distinct from the credential message and the default |
| Attendance.CountOf | src/composables/useAttendance.ts:49 | a count of a kind never exceeds the number of records, and is zero exactly when no record has that kind |
| Attendance.FindFirst | src/composables/useAttendance.ts:39-45 | `find` returns the first record of the kind, with no earlier one of that kind, and nothing exactly when there is none |
| Attendance.LastClockIn | src/composables/useAttendance.ts:39-41 | the latest clock-in is the first clock-in of the newest-first list, and missing exactly when the day has no clock-in |
| Attendance.LastClockOut | src/composables/useAttendance.ts:43-45 | the latest clock-out is the first clock-out of the newest-first list, and missing exactly when the day has no clock-out |
| Attendance.CanClockIn | src/composables/useAttendance.ts:47-51 | clock-in is offered exactly when no latest clock-in is shown |
| Attendance.CanClockOut | src/composables/useAttendance.ts:53-58 | when clock-out is offered, a latest clock-in is shown and no latest clock-out |
| Attendance.CountOneIffExactlyOne | src/composables/useAttendance.ts:54-58 | a count of one holds exactly when one index carries the kind and no other does |
| Attendance.CanClockInIff | src/composables/useAttendance.ts:48-51 | clock-in is offered exactly when the day has no clock-in |
| Attendance.CanClockOutIff | src/composables/useAttendance.ts:54-58 | clock-out is offered exactly when the day has exactly one clock-in and no clock-out |
| Attendance.GatesExclusive | src/composables/useAttendance.ts:48-58 | the two offers never hold together, and with two or more clock-ins neither holds |
| Attendance.TodayView | src/composables/useAttendance.ts:62-67 | the day's query holds exactly the store's records of that user and day |
| Attendance.ViewAfterWrite | src/composables/useAttendance.ts:62-67 | a new record of the day heads the next query result, and a record of another user or day leaves it unchanged |
| Attendance.NewTracker | src/composables/useAttendance.ts:26-37 | a new composable has no records, no error, no listener and is not loading; its day key is the `YYYY-MM-DD` date of the clock's ISO instant |
| Attendance.AddRecord | src/composables/useAttendance.ts:92-136 | a write appends exactly one record with the given kind, the user, the location and the day key, whatever the offers say; a failure leaves the store alone and sets the kind's message; loading ends either way |
| Attendance.ClockInAction | src/composables/useAttendance.ts:92-111 | success keeps every earlier record, appends exactly the clock-in record of this user, name, location and day with the server's id and time, clears the error and resolves; failure leaves the store alone, sets the clock-in message and rethrows; only loading and the error change in the composable |
| Attendance.ClockOutAction | src/composables/useAttendance.ts:117-136 | as clock-in, with a clock-out record and the clock-out message |
| Attendance.Subscribe | src/composables/useAttendance.ts:61-69 | one more listener runs and its handle is kept; a handle already held is overwritten, its listener still running |
| Attendance.SubscribeThenDeliverSyncs | src/composables/useAttendance.ts:61-73 | after attaching, the next snapshot makes the composable show the store's day exactly, and leaves the error as it was |
| Attendance.DeliverSnapshot | src/composables/useAttendance.ts:69-73 | while any listener runs, a snapshot makes the day's records the day's query over the store and changes nothing else; with none running, it changes nothing |
| Attendance.DeliverSnapshotError | src/composables/useAttendance.ts:74-77 | a running listener's error sets the fetch failure message and ends that listener, leaving a held handle in place; otherwise nothing changes |
| Attendance.Unsubscribe | src/composables/useAttendance.ts:81-86 | a held handle is called, stopping its listener if it still runs, and dropped; leaked listeners keep running; without a handle nothing happens |
| Attendance.UnsubscribeIdempotent | src/composables/useAttendance.ts:81-86 | a second detach changes nothing and calls no handle |
| Attendance.SubscribeOnceThenDetachStops | src/composables/useAttendance.ts:61-86 | a single subscription followed by a detach leaves no listener, so snapshots and errors no longer arrive |
| Attendance.ErrorEndsListener | src/composables/useAttendance.ts:61-86 | after an error ends the only listener, the message is shown, snapshots no longer arrive, and a detach still calls the kept handle |
| Attendance.DoubleSubscribeLeaks | src/composables/useAttendance.ts:61-86 | after two subscriptions and a detach no handle is held, yet snapshots still update the day's records, and a further detach calls nothing |
| Attendance.FormatTime | src/composables/useAttendance.ts:143-150 | a missing timestamp renders as `--:--` |
| Attendance.ClockInEnablesClockOut | src/composables/useAttendance.ts:92-111 | on an empty day, a delivered clock-in becomes the latest clock-in and switches the offer from clock-in to clock-out |
| Attendance.ClockOutClosesDay | src/composables/useAttendance.ts:117-136 | after the single clock-in, a delivered clock-out becomes the latest clock-out, keeps the clock-in, and closes both offers |
| Attendance.DuplicateClockInClosesDay | src/composables/useAttendance.ts:92-104 | an ungated second clock-in is written, and the day then offers neither action |
| Router.GetUserRole | src/router/index.ts:57-65 | the role is the stored one when the profile is found, and nothing when it is missing or the read fails |
| Router.HomeOf | src/router/index.ts:85-89 | the home route is the admin dashboard exactly for admins and the attendance page otherwise, a missing role included |
| Router.Guard | src/router/index.ts:75-110 | the first check that fires decides, in the order sign-in, guest, admin, non-admin, with the documented targets; the guard proceeds exactly when none fires |
| Router.MetaOf | src/router/index.ts:12-36 | paths without a view of their own carry no flags |
| Router.MissingProfileActsAsUser | src/router/index.ts:57-107 | on every route, a missing profile and an unreadable one give the same decision, the one a plain user's profile gives |
| Router.SignedOutIgnoresRole | src/router/index.ts:79-82 | without a session the decision does not depend on the role |
| Router.NoRedirectLoop | src/router/index.ts:12-36 | on the route table every redirect lands on a view where the guard lets the same session through |
| Router.Settle | src/router/index.ts:12-110 | from any declared path, following the root's static redirect and then the guard's verdict on that view reaches a view the guard accepts: the view itself when the guard proceeds, its redirect target otherwise, and the login page exactly for signed-out sessions |
| AuthStore.InitialState | src/stores/auth.ts:20-25 | the store starts with no user, loading, no error, not initialised |
| AuthStore.CurrentUser | src/stores/auth.ts:28 | the current user is the stored profile, or nothing |
| AuthStore.IsLoading | src/stores/auth.ts:33 | the loading getter reads the store's loading flag |
| AuthStore.IsAuthenticated | src/stores/auth.ts:29 | signed in exactly when a current user is set |
| AuthStore.IsAdmin | src/stores/auth.ts:30 | admin exactly when a user is set whose role is admin, which excludes supervisor |
| AuthStore.IsSupervisor | src/stores/auth.ts:31 | supervisor exactly when a user is set whose role is supervisor, which excludes admin |
| AuthStore.Subordinates | src/stores/auth.ts:32 | the subordinates are the user's list when present and empty otherwise |
| AuthStore.RoleGettersConsistent | src/stores/auth.ts:28-31 | the admin and supervisor getters match the stored role, never both hold, and neither holds without a user |
| AuthStore.DefaultRole | src/stores/auth.ts:44-45 | a synthesised profile is an admin's exactly for the bootstrap address, and never a supervisor's |
| AuthStore.DefaultProfile | src/stores/auth.ts:44-61 | a synthesised profile has the account's id, its email or `''`, the display-name fallback, admin exactly for the bootstrap address and never supervisor, no subordinates |
| AuthStore.FetchUserData | src/stores/auth.ts:43-81 | a stored profile is used unchanged; otherwise the default profile is used, written back only when the store had none and the write succeeds |
| AuthStore.WriteFailureSwallowed | src/stores/auth.ts:63-70 | a failed write of the default profile does not change the profile used |
| AuthStore.InitAuth | src/stores/auth.ts:84-86 | the first call registers the listener and marks the store initialised; later calls register nothing |
| AuthStore.InitAuthIdempotent | src/stores/auth.ts:84-86 | a second call changes no state and registers no listener |
| AuthStore.OnSessionChange | src/stores/auth.ts:84-98 | before `initAuth` registered the listener a session change does nothing; afterwards it sets the user to the fetched profile or to nothing, and ends loading |
| AuthStore.SessionChangesNeedInitAuth | src/stores/auth.ts:20-98 | from the initial state no session change reaches the store and it stays loading; after `initAuth` the first change ends loading and signs in exactly on a sign-in |
| AuthStore.Login | src/stores/auth.ts:107-124 | success sets and returns the fetched profile; failure keeps the user, sets the catalog message for the code and rethrows; loading ends either way |
| AuthStore.Register | src/stores/auth.ts:132-154 | success writes and sets a user-role profile without subordinates and leaves loading raised; a failed creation or write sets the catalog message, ends loading and rethrows |
| AuthStore.Logout | src/stores/auth.ts:157-168 | success clears only the user; failure keeps the user, sets the catalog message and rethrows |
| AuthStore.LoginAgreesWithListener | src/stores/auth.ts:88-117 | a sign-in and the listener's report of it set the same user, in either order |
| AuthStore.RegisterLoadingEndsWithListener | src/stores/auth.ts:88-154 | the loading flag a successful registration leaves raised is lowered by the next session report |
| AuthStore.LoginThenLogoutSignsOut | src/stores/auth.ts:107-168 | after any sign-in and a successful sign-out, no user, role or subordinate remains |
| AuthStore.RegisterNeverGrantsAdmin | src/stores/auth.ts:132-154 | the register step itself assigns the user role even to the bootstrap address, while a first sign-in with that address synthesises an admin profile; the session report that account creation also triggers is a separate step |
| Geocoding.Locality | src/services/geocoding.ts:56-58 | the locality is the first truthy of city, town and village, and missing exactly when all three are falsy |
| Geocoding.Parts | src/services/geocoding.ts:52-60 | there are at most four parts and none is empty |
| Geocoding.PartsInOrder | src/services/geocoding.ts:55-60 | the parts are, in order, state, locality, suburb and road, each present exactly when truthy |
| Geocoding.LocalityPreference | src/services/geocoding.ts:56-58 | a truthy city hides town and village, and a truthy town hides village |
| Geocoding.CountryAndPostcodeIgnored | src/services/geocoding.ts:55-60 | country and postcode never change the parts |
| Geocoding.ReverseGeocode | src/services/geocoding.ts:30-67 | a thrown request, a non-OK answer or a missing address give the coordinates; otherwise the result is the parts joined by spaces, or the display string when there are none |
| Geocoding.RoadComesLast | src/services/geocoding.ts:55-62 | a truthy road is the last part: the address is the road-less address, a space and the road |
| Geocoding.ComposedAddressLength | src/services/geocoding.ts:62 | a composed address is non-empty, and its length is the parts' lengths plus one space between neighbours |
| Geolocation.InitialState | src/composables/useGeolocation.ts:14-19 | the wrapper starts not loading, with no error, position or address |
| Geolocation.ErrorMessage | src/composables/useGeolocation.ts:54-62 | codes 1, 2 and 3 get fixed texts; other errors show their own message, or the generic one when it is empty; the result is never empty |
| Geolocation.ErrorTextsVersusCatalog | src/composables/useGeolocation.ts:54-59 | the code-1 text differs from the catalog's permission entry; codes 2 and 3 and the generic text agree with the catalog |
| Geolocation.GetCurrentPosition | src/composables/useGeolocation.ts:27-67 | a position stores it and its address, with no error; a failure sets the mapped message, keeps the rest and rethrows; loading ends either way |
| Geolocation.Reset | src/composables/useGeolocation.ts:70-77 | from any state, reset gives the initial state |
| Geolocation.ResetThenRequest | src/composables/useGeolocation.ts:70-77 | after a reset, a request leaves a position exactly when it succeeded and an error exactly when it failed |
| UserFunctions.NewUserDoc | functions/src/index.ts:21-27 | a created profile has role user, the email or the empty string, the display-name fallback and the server time |
| UserFunctions.OnUserCreate | functions/src/index.ts:10-35 | an existing profile is left alone; otherwise exactly the new-account document is added under the account's id; a failed read or write changes nothing and rethrows |
| UserFunctions.OnUserDelete | functions/src/index.ts:38-46 | exactly the account's entry is removed; a failure changes nothing and rethrows |
| UserFunctions.CreateThenDeleteRestores | functions/src/index.ts:10-46 | deleting a freshly created account restores the collection |
| UserFunctions.SetAdminRole | functions/src/index.ts:49-82 | the caller is refused in the order unauthenticated, permission denied, invalid argument, internal; only success changes anything, and then only the target's role, to admin |
| UserFunctions.SetAdminRoleIdempotent | functions/src/index.ts:76-78 | repeating a successful promotion succeeds and changes nothing more |
| UserFunctions.SetAdminRoleMonotone | functions/src/index.ts:49-82 | no call removes admin rights, and only the named user can gain them |

## Left out

- Identity-provider, document-store, HTTP and device-position calls: each is replaced by an outcome parameter (success, failure with a code, document present, absent or unreadable).
- Attendance.DeliverSnapshotError: that the store ends a listener once it has reported an error is the document store's documented behaviour, not code of this application.
- Real-time delivery, asynchronous interleavings and the double-submit race: actions are sequential steps, and snapshot delivery is a separate step.
- The race between `register` and the session report its account creation triggers: if that report reads no profile yet for the bootstrap address, it writes an admin profile. The model runs the two as separate steps.
- Attendance.TodayView: ordering by server timestamp is modelled as reverse write order, which assumes that server timestamps grow with write order.
- Attendance.FormatTime: the locale formatting of a present timestamp is a caller-supplied function; only the missing-timestamp branch is the model's own.
- The clock: the day key is computed from an ISO string that the caller supplies (`Types.TodayKey`), because reading the device clock is I/O.
- Coordinates: the `toFixed(6)` coordinate pair is an opaque string supplied by the caller, because floating-point formatting is not modelled.
- Router.Guard: the source reads the role afresh for each check that needs it. The model takes a single role value per navigation, so it assumes those reads agree.
- The wait for the first session resolution before the guard runs: it is modelled as the `signedIn` input.
- `setAdminRole`: a failure to read the caller's profile, and a payload that is not an object, are not modelled. Both surface as raw runtime errors.
- Logging, and the message tables' JavaScript prototype lookups (such as the code `constructor`): the tables are Dafny maps.
- The seed scripts, the re-exporting `useAuth` composable and the UI components are not part of this model.
