# Booking client: session, guards, reservation flow and booking lists in Dafny

This project models the logic of a React client for a service-booking
platform. The client has the following parts:

- a session provider, which keeps the signed-in user, the administrator flag,
  a loading flag and a key/value credential store (`localStorage`);
- two route guards built on that session;
- the booking page, which loads a day's free time slots and reserves one;
- the user's booking list and the administrator's booking list;
- the sign-in and sign-up forms;
- a date formatter.

Every network answer is a parameter of the operation that awaits it: a
success with its data, or an error, which may be an axios error with an HTTP
status and body. "Now" is also a parameter. Markup is not modelled.

The modules follow the source files:

| module | file | form |
|---|---|---|
| `Js` | none | JavaScript built-ins the pages rely on: `||` on strings, truthiness of `number \| ""`, `trim`, `length` in UTF-16 code units, `split`/`join`, `Number`, `String`, `padStart` |
| `Calendar` | none | the day numbering behind `new Date(y, m - 1, d, hh, mm)`, with its month overflow and its two-digit-year rule; `YYYY-MM-DD` formatting |
| `DateFormat` | `src/utils/date.ts` | functions |
| `Api` | none | records and errors of the REST API; the `detail`-first error message rule |
| `AuthContext` | `src/auth/AuthContext.tsx` | pure step functions over a `Session` value, and the class `AuthProvider` whose methods perform them on its fields |
| `RouteGuards` | `src/auth/AdminRoute.tsx`, `src/auth/ProtectedRoute.tsx` | functions |
| `CreateBooking` | `src/pages/CreateBooking.tsx` | functions for the pure rules; a trace model of the slot requests; class `CreateBookingPage` |
| `MyBookings` | `src/pages/MyBookings.tsx` | functions and lemmas; class `MyBookingsPage` |
| `AdminBookings` | `src/pages/AdminBookings.tsx` | functions, the method that fills the query parameters, class `AdminBookingsPage` |
| `Login` | `src/pages/Login.tsx` | functions; class `LoginForm`, whose handler drives an `AuthProvider` |
| `Register` | `src/pages/Register.tsx` | functions; class `RegisterForm` |

Some behaviours of the code are surprising. The model follows the code, and
the proofs show each of them:

- After `logout`, a `refreshMe` answer that was already in flight is still
  applied. The code has no staleness guard, so it signs the user back in with
  an empty store (`AuthContext.StaleAnswerAfterLogout`,
  `RouteGuards.StaleAnswerOpensAdminPage`).
- A rejected login POST leaves `loading` true, because nothing resets it
  (`AuthContext.LoginRejectedKeeps`).
- `ProtectedRoute` has no loading placeholder. It renders as soon as a user
  name or a token is stored (`RouteGuards.OnMount`).
- The booking page's submit handler does not check `submitting`. Only the
  disabled button prevents a second submission.
- The booking page's failure message has no fixed fallback for axios errors.
  It reads `non_field_errors[0]`, then `detail`, then the transport message,
  and may therefore be empty (`CreateBooking.SubmitErrorPrecedence`).
- On the administrator's page, a successful confirm or cancel sets its notice.
  The refetch that follows clears the notice again before anything awaits, so
  the notice is never left set (`AdminBookings.AdminBookingsPage.HandleConfirm`).

## Model

| member | source | states |
|---|---|---|
| `DateFormat.FormatThreeParts` | src/utils/date.ts:2-5 | a present, non-empty `a-b-c` with three dash-separated parts becomes `c-b-a`; a missing or empty input gives `--` |
| `DateFormat.FormatIgnoresExtraParts` | src/utils/date.ts:4-5 | with more than three parts, only the first three are used, in reverse order |
| `DateFormat.FormatTwoParts` | src/utils/date.ts:4-5 | with fewer than three parts, the missing day is rendered as `undefined` (JavaScript destructuring) |
| `DateFormat.FormatInvolution` | src/utils/date.ts:4-5 | on strings with exactly three dash-separated parts, formatting twice returns the input |
| `DateFormat.FormatIsoDate` | src/utils/date.ts:4-5 | a `YYYY-MM-DD` date of a four-digit year becomes a 10-character `DD-MM-YYYY` with the same digits |
| `Js.Split` | src/utils/date.ts:4 | `split` gives at least one part, no part holds the separator, and joining the parts gives the input back |
| `Js.SplitJoin` | src/utils/date.ts:4 | splitting the join of separator-free parts gives the parts back |
| `Js.Length` | src/pages/Register.tsx:68-69 | `length` counts UTF-16 code units: between one and two per character, and zero only for the empty string |
| `Js.LengthOfBmp` | src/pages/Register.tsx:68-69 | without astral characters, `length` is the number of characters |
| `Js.LengthConcat` | src/pages/Register.tsx:68-69 | `length` adds up over concatenation |
| `Js.TrimEmptyIff` | src/pages/Login.tsx:46 | `trim()` is empty exactly for a string made only of white space |
| `Js.TrimShape` | src/pages/Register.tsx:86-92 | the trimmed string is a contiguous piece of the input, only white space is cut, and its ends are not white space |
| `Js.TrimIdempotent` | src/pages/Register.tsx:86-92 | trimming twice is the same as trimming once |
| `Js.ToNumberIntToString` | src/pages/CreateBooking.tsx:246 | `Number(String(n))` is `n` for every integer |
| `Js.ToNumberTwoDigits` | src/pages/CreateBooking.tsx:44-45 | `Number` reads a zero-padded two-digit field back as its value |
| `Calendar.DayNumberOrder` | src/pages/MyBookings.tsx:90-91 | for valid dates, the day numbering the `Date` constructor uses orders days as the calendar does |
| `Calendar.MakeDayValid` | src/pages/MyBookings.tsx:90 | for a valid date, the constructor's month and day normalisation gives that date's own day number |
| `Calendar.IsoDateIsFullDate` | src/pages/CreateBooking.tsx:42-47 | for a four-digit year, `dateISO` is an RFC 3339 section 5.6 `full-date` whose digit fields hold the year, month and day |
| `Calendar.IsoDateFields` | src/pages/CreateBooking.tsx:42-47 | `split("-")` of `dateISO` gives the three fields, and `Number` reads each of them back |
| `Calendar.IsoDateInjective` | src/pages/CreateBooking.tsx:42-47 | different valid dates have different `dateISO` strings, so the reset effect fires exactly on a change of day |
| `Api.FirstTruthy` | src/pages/AdminBookings.tsx:35-40 | a `c0 \|\| c1 \|\| ... \|\| fallback` chain of strings yields the first non-empty candidate, or the fallback when all are empty |
| `Api.DetailFirstPrecedence` | src/pages/AdminBookings.tsx:33-44 | axios error: `detail`, then `non_field_errors[0]`, then the transport message, then the fallback, never empty when the fallback is not; another `Error`: its message; anything else: the fallback |
| `AuthContext.RefreshWithoutToken` | src/auth/AuthContext.tsx:36-42 | without an access token, `refreshMe` ends with no user, no admin flag and `loading` false, keeps the store, and does not depend on any answer |
| `AuthContext.RefreshSuccess` | src/auth/AuthContext.tsx:46-48 | success sets `user` to the returned name and `isAdmin` to `is_staff \|\| is_superuser`, and keeps the store |
| `AuthContext.RefreshUnauthorizedIsLogout` | src/auth/AuthContext.tsx:51-52 | a 401 answer has exactly the effect of `logout` |
| `AuthContext.RefreshFailsClosed` | src/auth/AuthContext.tsx:53-57 | any other failure clears `isAdmin` and keeps `user` and the store |
| `AuthContext.RefreshSettles` | src/auth/AuthContext.tsx:39-40 | every completed `refreshMe` ends with `loading` false, and `isAdmin` is set only by a successful answer for a staff or superuser account |
| `AuthContext.StepsKeepAdminHasUser` | src/auth/AuthContext.tsx:28-76 | every step keeps the invariant "administrator implies a user" |
| `AuthContext.StaleAnswerAfterLogout` | src/auth/AuthContext.tsx:35-62 | with no staleness guard, an answer landing after `logout` gives back a user with administrator rights while the store stays empty |
| `AuthContext.LoginRejectedKeeps` | src/auth/AuthContext.tsx:64-66 | a rejected login POST keeps the store and `user`, and leaves `loading` true |
| `AuthContext.LoginWritesStore` | src/auth/AuthContext.tsx:66-75 | a successful login POST, with any token, writes `access`, `refresh` and `user` and keeps every other key, unless the follow-up answer is a 401; `loading` ends false |
| `AuthContext.LoginEmptyTokenSignsOut` | src/auth/AuthContext.tsx:68-75 | an empty access token is stored, and the `refreshMe` that follows finds no token and signs the session out |
| `AuthContext.LoginStores` | src/auth/AuthContext.tsx:66-75 | a successful login writes `access`, `refresh` and `user`, keeps every other key, sets `user`, and ends with `loading` false unless the follow-up answer is a 401 |
| `AuthContext.LoginThenUnauthorized` | src/auth/AuthContext.tsx:64-76 | a 401 from `auth/me/` right after a successful login undoes the login entirely |
| `AuthContext.ReloadRestoresLogin` | src/auth/AuthContext.tsx:24-26 | mounting with the store a login left behind, then running the start-up `refreshMe` with the same answer, reaches the same session |
| `AuthContext.AuthProvider.constructor` | src/auth/AuthContext.tsx:24-26 | the provider starts with the stored user name, no admin flag and `loading` true |
| `AuthContext.AuthProvider.Logout` | src/auth/AuthContext.tsx:28-33 | the store becomes empty, and `user`, `isAdmin` and `loading` are reset |
| `AuthContext.AuthProvider.RefreshMeStart` | src/auth/AuthContext.tsx:35-44 | reports whether `auth/me/` is requested, which happens exactly when a token is stored |
| `AuthContext.AuthProvider.RefreshMeFinish` | src/auth/AuthContext.tsx:45-61 | applies the answer as `RefreshFinish` prescribes |
| `AuthContext.AuthProvider.RefreshMe` | src/auth/AuthContext.tsx:35-62 | `refreshMe` run to its end: the state is `AfterRefreshMe` of the old state, `loading` is false, and `AdminHasUser` is kept |
| `AuthContext.AuthProvider.Login` | src/auth/AuthContext.tsx:64-76 | `login` run to its end; the promise rejects exactly when the POST is rejected |
| `RouteGuards.AdminRoute` | src/auth/AdminRoute.tsx:8-12 | placeholder whenever loading; `/login` exactly when not loading and there is no user; `/bookings` exactly for a user who is not an administrator; render only when not loading, with a user, and an administrator |
| `RouteGuards.ProtectedRoute` | src/auth/ProtectedRoute.tsx:7-13 | `/login` exactly when there is neither a user nor a stored token, and render otherwise; `loading` and `isAdmin` are not inputs |
| `RouteGuards.AdminRouteNonAdmin` | src/auth/AdminRoute.tsx:10 | a signed-in user who is not an administrator is never sent to `/login`, and never shown the page |
| `RouteGuards.AdminRenderImpliesProtectedRender` | src/auth/AdminRoute.tsx:8-12 | whenever the administrator's page renders, the signed-in pages render too |
| `RouteGuards.LogoutRedirects` | src/auth/ProtectedRoute.tsx:7-11 | after `logout` both guards redirect to `/login` |
| `RouteGuards.OnMount` | src/auth/ProtectedRoute.tsx:7-13 | on mount, the administrator's page shows the placeholder while the signed-in pages already render when a user name or token is stored |
| `RouteGuards.AdminRouteAfterRefresh` | src/auth/AdminRoute.tsx:8-12 | after a successful `refreshMe`, the administrator's page renders exactly for staff or superuser accounts and otherwise redirects to `/bookings` |
| `RouteGuards.UnauthorizedCloses` | src/auth/AuthContext.tsx:51-52 | a 401 from `auth/me/` makes both guards redirect to `/login` |
| `RouteGuards.StaleAnswerOpensAdminPage` | src/auth/AdminRoute.tsx:8-12 | a stale administrator answer after `logout` opens the administrator's page although no token is stored |
| `CreateBooking.PickOf` | src/pages/CreateBooking.tsx:246 | `Number(value) \|\| ""` selects a service exactly for a value that reads as a non-zero number |
| `CreateBooking.SelectServiceOption` | src/pages/CreateBooking.tsx:246 | choosing the option of a service with a non-zero id selects that id |
| `CreateBooking.IsSameDay` | src/pages/CreateBooking.tsx:160-163 | two days are the same exactly when they are equal |
| `CreateBooking.ToMinutesOfTime` | src/pages/CreateBooking.tsx:165-168 | `toMinutes` of `HH:MM:SS` is `60 * HH + MM`; the seconds are ignored |
| `CreateBooking.SlotDisabledIff` | src/pages/CreateBooking.tsx:366 | a slot is disabled exactly when the selected day is today and its `HH:MM` is not later than the current `HH:MM` |
| `CreateBooking.SlotDisabledAt` | src/pages/CreateBooking.tsx:165-172 | the same for any start time whose first two fields `Number` reads as the hour and the minute |
| `CreateBooking.SlotEnabled` | src/pages/CreateBooking.tsx:366 | slots on any other day, and slots whose start cannot be read, are never disabled |
| `CreateBooking.CanSubmit` | src/pages/CreateBooking.tsx:152 | the button is enabled exactly when the handler's own check (lines 115-118) yields a payload and no submission is running; the payload then carries the selected service and slot |
| `CreateBooking.SubmitErrorPrecedence` | src/pages/CreateBooking.tsx:135-146 | axios error: `non_field_errors[0]`, then `detail`, then the transport message, which may be empty; another `Error`: its message; otherwise "Could not create booking." |
| `CreateBooking.Issued` | src/pages/CreateBooking.tsx:80-82 | issuing a slot request raises the counter and the loading flag, and keeps the list |
| `CreateBooking.Settled` | src/pages/CreateBooking.tsx:89-95 | an answer whose number is not the counter changes nothing; the current one sets the list (empty on failure) and clears the loading flag |
| `CreateBooking.CounterGrows` | src/pages/CreateBooking.tsx:78-81 | over any run the counter never decreases, and every issued request raises it |
| `CreateBooking.StaleTail` | src/pages/CreateBooking.tsx:89 | answers to superseded requests after the current one change nothing |
| `CreateBooking.LastIssuedWins` | src/pages/CreateBooking.tsx:80-97 | in any order of answers, once the latest request is answered the list is that answer's data (or empty on error) and loading is off |
| `CreateBooking.CreateBookingPage.constructor` | src/pages/CreateBooking.tsx:28-39 | the page starts with no service, today's date, nothing loaded and the counter at 0 |
| `CreateBooking.CreateBookingPage.FetchSlots` | src/pages/CreateBooking.tsx:80-82 | each request gets a number greater than every number given before |
| `CreateBooking.CreateBookingPage.SlotsAnswered` | src/pages/CreateBooking.tsx:84-96 | an answer is applied exactly as `Settled` says |
| `CreateBooking.CreateBookingPage.SelectionChanged` | src/pages/CreateBooking.tsx:99-107 | the list, the selected slot and both messages are cleared, and slots are requested exactly when a service is selected |
| `CreateBooking.CreateBookingPage.SelectService` | src/pages/CreateBooking.tsx:246 | the select sets `Number(value) \|\| ""`. An unchanged value changes nothing else. A change runs the reset, and a request made then takes the next number and is recorded among the issued ones |
| `CreateBooking.CreateBookingPage.SelectDate` | src/pages/CreateBooking.tsx:281 | a cleared picker, or a day with the same `dateISO`, changes nothing else. Otherwise the reset runs, and a request made then takes the next number and is recorded among the issued ones |
| `CreateBooking.CreateBookingPage.ClickSlot` | src/pages/CreateBooking.tsx:366-373 | a click selects the slot unless its button is disabled |
| `CreateBooking.CreateBookingPage.ClearSlot` | src/pages/CreateBooking.tsx:328 | the clear button drops the selected slot |
| `CreateBooking.CreateBookingPage.HandleSubmit` | src/pages/CreateBooking.tsx:109-150 | the payload is the handler's check of the selection, and is posted exactly when `CanSubmit` would hold with nothing submitting; `submitting` itself is not consulted. Without a service or a slot: only the error, and no POST. On success: the notice, and the reload it returns, which asks for the same service and day under the next request number (recorded among the issued ones); the list is that reload's answer and the slot is cleared. On failure: the message, with the selection and the list kept, and no request. Once past the check, `submitting` ends false; the early return leaves it as it was |
| `CreateBooking.CreateBookingPage.BookingCreated` | src/pages/CreateBooking.tsx:128-130 | after a successful POST, the notice is set and the slots are requested again for the same service and day, under a number above every earlier one; the list is that request's answer and the slot is cleared |
| `MyBookings.CancelledNeverAllowed` | src/pages/MyBookings.tsx:126 | a cancelled booking is never cancellable |
| `MyBookings.StartArgsOfFields` | src/pages/MyBookings.tsx:86-90 | fields that `Number` reads as y, m, d, hh, mm give `new Date(y, m - 1, d, hh, mm, 0, 0)` those arguments |
| `MyBookings.DateFieldsOf` | src/pages/MyBookings.tsx:86 | `Number` reads the fields of a `YYYY-MM-DD` date as its year, month and day |
| `MyBookings.TimeFieldsOf` | src/pages/MyBookings.tsx:87 | `Number` reads the first two fields of `HH:MM:SS` as the hour and the minute |
| `MyBookings.LaterThanNow` | src/pages/MyBookings.tsx:90-91 | the start instant is later than now exactly when its day is later, or it is today and its `HH:MM` is later |
| `MyBookings.CanCancelIff` | src/pages/MyBookings.tsx:83-92 | a booking can be cancelled exactly when its start, to the minute, is strictly after now |
| `MyBookings.PastSlotIsNotCancellable` | src/pages/MyBookings.tsx:83-92 | for a booking dated today, the booking page disables its slot exactly when the list no longer allows cancelling it |
| `MyBookings.ServiceMapKeys` | src/pages/MyBookings.tsx:74-78 | the map holds exactly the listed ids |
| `MyBookings.ServiceMapLastWins` | src/pages/MyBookings.tsx:76 | each id maps to the name of the last service listed under it |
| `MyBookings.BuildServiceMap` | src/pages/MyBookings.tsx:74-78 | the `forEach` loop builds exactly `ServiceMap` |
| `MyBookings.GetServiceName` | src/pages/MyBookings.tsx:80-81 | the mapped name, even an empty one, else `Service #<id>` |
| `MyBookings.ServiceNameOf` | src/pages/MyBookings.tsx:80-81 | a listed id shows one of the listed names; an unlisted id shows `Service #<id>`, whose number reads back as the id |
| `MyBookings.ReplaceById` | src/pages/MyBookings.tsx:101 | replacement keeps length and order, and replaces exactly the entries with the given id |
| `MyBookings.ReplaceByIdKeepsIds` | src/pages/MyBookings.tsx:98-101 | replacing with the server's copy keeps all ids and is idempotent; once cancelled, that booking is no longer cancellable |
| `MyBookings.MyBookingsPage.constructor` | src/pages/MyBookings.tsx:47-52 | the page mounts with no bookings and no services, `loading` true, and the load effect's `alive` flag set |
| `MyBookings.MyBookingsPage.Unmount` | src/pages/MyBookings.tsx:69-71 | the cleanup clears `alive` |
| `MyBookings.MyBookingsPage.LoadSettled` | src/pages/MyBookings.tsx:51-72 | after the page is left, nothing changes. Otherwise: the data on success, an alert on failure, and `loading` ends false |
| `MyBookings.MyBookingsPage.HandleCancel` | src/pages/MyBookings.tsx:94-106 | a declined confirmation makes no request and changes nothing. Success replaces the booking by the server's answer. Failure alerts and keeps the list |
| `MyBookings.MyBookingsPage.ServiceName` | src/pages/MyBookings.tsx:80-81 | the shown name is `GetServiceName` of the map built from the services |
| `AdminBookings.StatusText` | src/pages/AdminBookings.tsx:16 | a status is sent as one of `PENDING`, `CONFIRMED`, `CANCELLED` |
| `AdminBookings.DateISOFilter` | src/pages/AdminBookings.tsx:107-115 | `dateISO` is empty exactly when no date is chosen, and equal strings mean equal dates |
| `AdminBookings.ParamsOfUnique` | src/pages/AdminBookings.tsx:130-134 | the parameters are determined by the filters |
| `AdminBookings.UnfilteredRequest` | src/pages/AdminBookings.tsx:130-134 | the request carries no parameter exactly when no filter is set |
| `AdminBookings.ClearedFiltersUnfiltered` | src/pages/AdminBookings.tsx:182-187 | after clearing, or with a username of blanks, the request is unfiltered |
| `AdminBookings.BuildParams` | src/pages/AdminBookings.tsx:130-134 | each key is present exactly when its filter is set, holding that filter's value; the username is trimmed and left out when blank; there are no other keys |
| `AdminBookings.FindService` | src/pages/AdminBookings.tsx:117 | `find` returns the first service with the id, or none exactly when no service has it |
| `AdminBookings.ServiceNameShown` | src/pages/AdminBookings.tsx:117 | the first matching service's name, or `#<id>` when that name is empty |
| `AdminBookings.ServiceNameFallback` | src/pages/AdminBookings.tsx:117 | with no matching service the name is `#<id>`, and the id reads back |
| `AdminBookings.ActionsByStatus` | src/pages/AdminBookings.tsx:411 | confirm is enabled only for pending bookings, and cancel for any that is not cancelled; a confirmable booking is cancellable |
| `AdminBookings.AdminBookingsPage.constructor` | src/pages/AdminBookings.tsx:94-105 | the page starts with empty filters and lists |
| `AdminBookings.AdminBookingsPage.FetchBookings` | src/pages/AdminBookings.tsx:124-145 | requests with the current filters' parameters. Success takes the data; failure empties the list and shows the message with fallback "Could not load bookings.". Messages are cleared first and `loading` ends false |
| `AdminBookings.AdminBookingsPage.Settle` | src/pages/AdminBookings.tsx:125-144 | the state `fetchBookings` leaves after its answer |
| `AdminBookings.AdminBookingsPage.Act` | src/pages/AdminBookings.tsx:156-180 | the shared confirm/cancel flow: both messages cleared; on success the refetch runs (which clears the notice); on failure only the error, with the list unchanged |
| `AdminBookings.AdminBookingsPage.HandleConfirm` | src/pages/AdminBookings.tsx:156-167 | confirm, with fallback "Could not confirm booking." |
| `AdminBookings.AdminBookingsPage.HandleCancel` | src/pages/AdminBookings.tsx:169-180 | cancel, with fallback "Could not cancel booking." |
| `AdminBookings.AdminBookingsPage.ClearFilters` | src/pages/AdminBookings.tsx:182-187 | every filter is reset to empty |
| `AdminBookings.AdminBookingsPage.SelectService` | src/pages/AdminBookings.tsx:267 | the service filter becomes `Number(value) \|\| ""` |
| `AdminBookings.AdminBookingsPage.SelectStatus` | src/pages/AdminBookings.tsx:285 | the status filter becomes the chosen status, or empty for "All" |
| `AdminBookings.AdminBookingsPage.SelectDate` | src/pages/AdminBookings.tsx:302 | the date filter becomes the picked day, or none when cleared |
| `AdminBookings.AdminBookingsPage.TypeUsername` | src/pages/AdminBookings.tsx:317 | the username filter is stored as typed |
| `Login.CanSubmitIff` | src/pages/Login.tsx:46 | enabled exactly when the username has a non-white-space character, the password is non-empty, and nothing is submitting; then the handler's check passes |
| `Login.LoginErrorMessage` | src/pages/Login.tsx:20-31 | `detail`, then `non_field_errors[0]`, then the transport message, then "Login failed."; never empty for an axios error |
| `Login.CheckedCredentials` | src/pages/Login.tsx:53-60 | `login` is called exactly when the button would be enabled, with the trimmed username and the password as typed |
| `Login.LoginForm.constructor` | src/pages/Login.tsx:37-44 | empty fields, nothing submitting, no messages |
| `Login.LoginForm.HandleSubmit` | src/pages/Login.tsx:48-69 | a blank username or empty password sets the error and does not call `login`. Otherwise the session performs `login`, success shows the notice and failure the message, and `submitting` ends false |
| `Login.LoginForm.Attempt` | src/pages/Login.tsx:58-68 | the `try`/`finally` around `login` |
| `Register.ErrorPrecedence` | src/pages/Register.tsx:25-40 | `username[0]`, `email[0]`, `password[0]`, `non_field_errors[0]`, `detail`, the transport message, then the fallback; another `Error` gives its message |
| `Register.FieldErrorBeforeDetail` | src/pages/Register.tsx:29-33 | a field error outranks `detail`, unlike the sign-in rule |
| `Register.CanSubmitMeans` | src/pages/Register.tsx:60-72 | an enabled button means four non-blank text fields, equal passwords, and a password `length` of at least six UTF-16 units: at least three characters, and at least six when none is astral |
| `Register.AstralPasswordAccepted` | src/pages/Register.tsx:68-69 | a password of three emoji has `length` 6 and enables the button |
| `Register.PayloadTrimmed` | src/pages/Register.tsx:86-92 | the text fields are sent trimmed, and the password exactly as typed |
| `Register.RegisterForm.constructor` | src/pages/Register.tsx:45-58 | empty fields, not loading, no messages |
| `Register.RegisterForm.HandleRegister` | src/pages/Register.tsx:74-102 | different passwords set "Passwords do not match." and make no POST. Otherwise the trimmed payload is posted, success shows the notice and failure the message, and `loading` ends false |

## Left out

- Rendering, styles, icons and layout components are presentation only.
- `src/pages/Dashboard.tsx`, `src/App.tsx` and `src/components/Navbar.tsx` are routing and an `isAdmin` card. They are not part of this model.
- The HTTP client `src/api/axios` is not part of this model. Every request is replaced by its answer, given as a parameter.
- No 401 interceptor is assumed.
- `console.error` is not modelled.
- The `services/` requests of the booking and administrator pages, and their `loadingServices` flag, are not modelled. The administrator page's list of services is a field that starts empty.
- `window.confirm`, `alert`, `window.scrollTo` and `navigate` are not modelled. A confirmation becomes a boolean input; an alert becomes a boolean result.
- The `setTimeout` auto-dismiss of messages and the click-to-dismiss banners are not modelled.
- The date picker's `minDate` is not modelled.
- The password-visibility toggles and the form field setters of the sign-in and sign-up pages are not modelled. The handlers read the fields as they stand.
- The effect that reloads the administrator's list on mount and whenever the service, status, date or username filter changes (src/pages/AdminBookings.tsx:151-154) is not modelled as firing by itself. `AdminBookings.AdminBookingsPage.FetchBookings` is that reload, and it clears both messages. The filter setters only update their filter.
- React scheduling is not modelled. Each handler runs atomically from its start to the answers it awaits. Interleavings are modelled only where the source guards against them: `fetchSeq`, with any order of answers (`CreateBooking.LastIssuedWins`), and the `alive` flag. `refreshMe` is split into start and finish so that an answer arriving after `logout` can be expressed.
- `AdminBookings.AdminBookingsPage.FetchBookings`: its `loading` flag is true only while the request is in flight, which the atomic model does not show. Overlapping fetches are not modelled; the page has no guard against them.
- Time zones and daylight saving are not modelled. Dates are local calendar dates, and "now" is a local date and time.
- `Date` validity limits are not modelled.
- `MyBookings.CanCancelIff` and `MyBookings.LaterThanNow` cover years from 100 on. The constructor's mapping of years 0 to 99 to 1900 to 1999 is modelled in `Calendar.DateTimeMinutes`, but it is not proved about.
- `Number` is modelled for optionally signed decimal digits with surrounding white space, and the empty string. Every other text, such as fractions, exponents and hexadecimal, is treated as NaN.
- `getFullYear` is written without padding, as the source does. The `full-date` result (`Calendar.IsoDateIsFullDate`) is stated for four-digit years.
- Integer widths are not modelled: ids and counters are unbounded integers, where the source uses 64-bit floating point.
- A booking whose date or time is `null` on the administrator's page is only displayed. The display itself (`formatDateDMY`, `slice(0, 5)`) is covered by `DateFormat` and is otherwise left out.
