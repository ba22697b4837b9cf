# masdeporte_mobile booking rules, modelled in Dafny

This project models the client-side rules of the masdeporte mobile booking application, a React Native app in
which users browse sports companies, reserve a time slot and pay a 25 % deposit through Mercado Pago. The model
leaves out screens, styles and HTTP transport. It keeps the decisions the JavaScript makes, and proves things
about them.

Each core source file has its own module:

| module | file | form |
|---|---|---|
| `ApiClient` | `utils/api.js` | There are route tables and a predicate for public and auth routes. The request interceptor is a method on a `Request` object and a `KeyValueStore`. The response interceptor is a state machine (`HandleResponseError`), and `Send` drives one request through refresh and retry. It also holds `checkAuth`, `login`, `handleLogout`, the slot clean-up in `getAvailability` and the error classes of `createAppointment`. |
| `BookingForm` | `components/BookingForm.js` | Prices are exact `real`s. The form is the class `BookingFormState`, with the coupon transitions and `handleBooking`. |
| `CompanyDetail` | `screens/CompanyDetailScreen.js` | The backend-to-screen mapping, the opening-hours table and date validation are functions. The booking tab's selection state is the class `BookingSelection`. |
| `DateSelector` | `components/DateSelector.js` | The date loop, the month grouping, the month filter and month navigation are methods of the class `DatePicker` and of the module. |
| `TimeSlotSelector` | `components/TimeSlotSelector.js` | `formatTime`, slot selection, grouping by time and the order in which render branches are chosen. |
| `MyAppointments` | `screens/MyAppointmentsScreen.js` | Filtering, the same-day test and the sorted grouping by date. The screen state holds loading, cancelling and the modal. |
| `ServiceSelector` | `components/ServiceSelector.js` | `formatDuration` with a parser that inverts it, and the selected-card test. |
| `PaymentResultScreen` | `screens/PaymentResultScreen.js` | The table from status to outcome, the auto-navigation guard, the identifier block and the status lookup. |
| `UserContext` | `context/UserDetailContext.js` | The session record, the merge of a partial update, what `updateUserDetails` writes, what `loadUserData` reads back, and `logout`. |
| `LoginScreen` | `screens/LoginScreen.js` | The input guard, the call to `login` and the session update made before navigating. |
| `RegisterScreen` | `screens/RegisterScreen.js` | The two field checks in order, the register request and the alerts for its outcomes. |
| `DeepLink` | `App.js` | Routing of `masdeporte://` links to screens, query parameters, and the `parse` map that sets defaults for the payment parameters. |

Helper modules:
- `Wrappers` holds `Option`.
- `JsValues` holds JavaScript truthiness, `||` defaults and how `undefined` prints in a string.
- `Text` holds substring search, trimming, ASCII case mapping, decimal numerals and lexicographic order.
- `Storage` is AsyncStorage as a class over a `map<string, string>`.
- `Grouping` is the generic "forEach, push into a dictionary" that three components share.
- `Calendar` converts day numbers to dates and back, and holds the months of `Date.getFullYear`/`getMonth`.

Conventions of the model:
- A date is an integer day number (day 0 is 1970-01-01). The caller's time zone has already been applied.
- `null` and `undefined` are both `None`.
- Backend responses, storage failures and whether a link can be opened are parameters of the operations.

## Model

| member | source | states |
|---|---|---|
| ApiClient.AuthRoutesArePublic | utils/api.js:17-29 | Every auth route is also a public route, so the request interceptor never attaches a token to a request that the response interceptor would not refresh. |
| ApiClient.IsPublicRoute | utils/api.js:17-29 | A URL is public exactly when it is present and contains one of the eight public route strings; a missing URL is never public. |
| ApiClient.IsAuthRoute | utils/api.js:72-79 | A URL is an auth route exactly when it is present and contains one of the four auth route strings; a missing URL is never one. |
| ApiClient.ShouldRefresh | utils/api.js:83-88 | A refresh is attempted only for a 401 or 403 that is not a network error, on a URL that is not an auth route, and when `_retry` is unset. A 500, a 404 or a missing status never refreshes. |
| ApiClient.RegisterPathIsProtected | utils/api.js:192 | The path `users/auth/register`, which has no leading slash, matches neither route list. Register requests are therefore treated as protected and refreshable. |
| ApiClient.LoginPathIsPublicAuthRoute | utils/api.js:22 | The login path is both public and an auth route. |
| ApiClient.AuthorizationFor | utils/api.js:29-35 | The header changes only for a non-public URL with a truthy stored access token. In that case it is `Bearer <token>` with the stored token. |
| ApiClient.Request.constructor | utils/api.js:59 | A fresh request config has no Authorization header and no `_retry` flag. |
| ApiClient.AttachToken | utils/api.js:29-36 | The request interceptor sets the header exactly as `AuthorizationFor` says, and leaves `_retry` alone. |
| ApiClient.RotateTokens | utils/api.js:114-125 | After a successful refresh the access token is overwritten. The refresh token is overwritten only when the reply carries a truthy one. Every other key is untouched. |
| ApiClient.HandleResponseError | utils/api.js:58-152 | A network error is rejected as it is. A refresh is sent exactly when the status is 401/403, the URL is not an auth route and `_retry` is unset, and only with the stored refresh token. `_retry` is set first. A 200 rotates the tokens and resends with the new bearer. A non-200 body rejects with the original error. A 401/403 refresh failure removes exactly the three credential keys. Every other path leaves the store unchanged. |
| ApiClient.Send | utils/api.js:56-152 | There is at most one refresh per request and at most two sends. The first send carries the interceptor's header. A success, a network error or any failure that is not refreshed is settled after one send: the success fulfils, a failure rejects with its own error, and the store is unchanged. A refresh happens exactly for a 401/403 on a non-auth URL without `_retry` and with a stored refresh token, and sets `_retry`. A resend happens exactly after a 200 refresh; it carries the rotated token and settles as the second reply does. A non-200 refresh body rejects with the original error and leaves the store. A failed refresh rejects with the refresh error and clears the three credential keys exactly when it was a 401/403. |
| ApiClient.Login | utils/api.js:169-187 | `login` returns the reply unchanged. It writes access token, refresh token and role only when `statusCode` is 200. |
| ApiClient.StoreSessionContents | utils/api.js:176-180 | After a successful login the store maps the three credential keys to the reply's values, and every other key is as before. |
| ApiClient.LoginEstablishesSession | utils/api.js:155-165 | `checkAuth` holds after a stored login exactly when token, refresh token and role are all non-empty. |
| ApiClient.CheckAuth | utils/api.js:155-165 | Signed in exactly when the access token, the refresh token and the role are all stored and non-empty, for any stored map. Without an access token it is false. |
| ApiClient.ClearedCredentialsEndSession | utils/api.js:144 | After the three credential keys are removed, `checkAuth` is false. |
| ApiClient.RotationKeepsSession | utils/api.js:114-125 | Rotating in a non-empty access token keeps a valid session valid. |
| ApiClient.HandleLogout | utils/api.js:209-216 | Logout removes exactly the three credential keys, after which `checkAuth` is false. |
| ApiClient.NormalizeSlot | utils/api.js:325-327 | A slot longer than five characters is cut to its first five. A shorter slot is returned unchanged. |
| ApiClient.NormalizeSlots | utils/api.js:325-328 | The cleaned list has the same length and order, element by element. |
| ApiClient.NormalizeSlotIsTake | utils/api.js:325-327 | The clean-up is "take five characters", and applying it twice is the same as once. |
| ApiClient.NormalizeSlotsIdempotent | utils/api.js:325-328 | Cleaning an already cleaned list changes nothing. |
| ApiClient.GetAvailability | utils/api.js:318-352 | Success exactly when the body reports success, with the cleaned slots. Otherwise there are no slots and a truthy message: the backend's when it sent one, else a default. |
| ApiClient.AppointmentErrorMessage | utils/api.js:371-381 | The message is never empty. A 400 with a truthy backend message shows that message; every other rejection shows one of the five fixed texts, and a reply without a status gets the generic one. |
| ApiClient.CreateAppointment | utils/api.js:359-389 | Success exactly when the backend created the appointment. Every failure carries a non-empty message. |
| ApiClient.AppointmentErrorClasses | utils/api.js:371-381 | Status 400 gives the backend message or its default. 401 asks for login, 409 says the slot is taken, 500 and above is a server error, and any other status gets the generic text. |
| Storage.ClearCredentials | utils/api.js:144 | Removes exactly `accessToken`, `refreshToken` and `userRole`, and keeps every other key with its value. |
| Storage.SetAll | utils/api.js:176-180 | A `multiSet` of pairs leaves exactly the old keys plus the written ones. |
| Storage.SetAllDistinct | utils/api.js:176-180 | With distinct keys, each written key reads back its value and every other key reads as before. |
| Storage.KeyValueStore.constructor | context/UserDetailContext.js:43-49 | The store starts from the given entries. |
| Storage.KeyValueStore.GetItem | context/UserDetailContext.js:43-49 | `getItem` returns the entry or nothing. |
| Storage.KeyValueStore.SetItem | context/UserDetailContext.js:84 | `setItem` updates one key. |
| Storage.KeyValueStore.MultiSet | utils/api.js:176-180 | `multiSet` applies the pairs in order. |
| Storage.KeyValueStore.RemoveCredentials | utils/api.js:212 | `multiRemove` of the three credential keys. |
| BookingForm.Deposit | components/BookingForm.js:38 | The deposit is a quarter of the total: four deposits make the total, and for a non-negative total it lies between 0 and the total. |
| BookingForm.Remaining | components/BookingForm.js:39 | The remaining amount and the deposit add up to the total, and the remaining amount is three deposits. |
| BookingForm.TotalPriceWithDiscount | components/BookingForm.js:33-35 | Gives the price when no coupon with a truthy discount is applied, and otherwise `max(0, price - discount)`: at least both bounds, and exactly `price - discount` when the discount does not exceed the price. It is never negative for a non-negative price. |
| BookingForm.PriceBreakdown | components/BookingForm.js:38-39 | Deposit plus remaining is the discounted total. The deposit is a quarter of it, the remaining is three deposits, and both are non-negative. A non-negative discount never raises the price. |
| BookingForm.FullDiscountIsFree | components/BookingForm.js:34 | A discount of at least the price makes total, deposit and remaining all zero. |
| BookingForm.ExampleBreakdown | components/BookingForm.js:33-39 | A 10000 service with a 2000 coupon totals 8000, with a deposit of 2000 and 6000 remaining. |
| BookingForm.NormalizeCode | components/BookingForm.js:72 | The code sent is the trimmed code in upper case: as long as the trimmed text, and with no lower-case letter. |
| BookingForm.NormalizeCodeShape | components/BookingForm.js:64 | The normalised code is empty exactly when the typed code is blank, and otherwise starts and ends with a non-space. |
| BookingForm.CouponErrorMessage | components/BookingForm.js:85-93 | A success reply without `discountAmount` says the coupon data is invalid. A refusal shows the reply's message or the default. A thrown error shows the response message, else the error message, else the default. |
| BookingForm.CreatePaymentPreference | utils/api.js:514-528 | Success exactly for a created preference, carrying its `init_point`. A failure carries the backend message or the default, which is never empty. |
| BookingForm.PreferenceAlertIsClientMessage | components/BookingForm.js:202 | The form's alert on a failed preference is the client's message, so its own fallback text is the client default. |
| BookingForm.StartTimeDay | components/BookingForm.js:128 | The `startTime` sent falls on the day of the ISO date it was built from. |
| BookingForm.PaymentDataFor | components/BookingForm.js:118-157 | The amount charged is the deposit of the discounted total. `originalAmount` is the price and `totalAmountWithDiscount` is the discounted total. The three return URLs are payment deep links with status success, failure and pending. The user id and e-mails come from the session, and the payer's name and surname are never empty. |
| BookingForm.ReturnLinksShowTheirOutcome | components/BookingForm.js:136-140 | Each return URL opens the payment-result screen. Success shows the reserved screen, failure the rejected screen and pending the pending screen. |
| BookingForm.ExpectedOutcome | components/BookingForm.js:164-207 | The user is redirected exactly when the preference was created and the link can be opened, and then to its `init_point`. A failed preference reports its message. A created preference whose link cannot be opened gives the cannot-open error, and one whose `canOpenURL` throws gives the processing error, each exactly. An authenticated booking never asks for login. |
| BookingForm.BookingFormState.constructor | components/BookingForm.js:25-30 | The form starts with no coupon, empty notes and code, the input hidden and nothing loading. |
| BookingForm.BookingFormState.ApplyCoupon | components/BookingForm.js:63-98 | A blank code sends nothing, alerts that a code is required and changes nothing. Otherwise the request carries the normalised code, the company, the undiscounted price and the user's e-mail. Acceptance applies the coupon, clears the code and hides the input. Every failure leaves no coupon applied, so the total is back to the price. |
| BookingForm.BookingFormState.SendCoupon | components/BookingForm.js:69-97 | The request carries the given code, the company, the undiscounted price and the e-mail. An accepted answer keeps the coupon, clears the code and hides the input. Any other answer drops the coupon and leaves the code and the input as they were. The in-progress flag ends cleared. |
| BookingForm.BookingFormState.RemoveCoupon | components/BookingForm.js:261 | Removing the coupon brings the total back to the service price. |
| BookingForm.BookingFormState.OpenCouponInput | components/BookingForm.js:271 | Shows the code input and changes nothing else. |
| BookingForm.BookingFormState.CancelCouponInput | components/BookingForm.js:302-305 | Hides the input and clears the code, which leaves the Apply button disabled. |
| BookingForm.BookingFormState.ChangeCouponCode | components/BookingForm.js:282 | The typed code is kept in upper case. The Apply button is then disabled exactly when a coupon is being applied or the typed text is blank. |
| BookingForm.BookingFormState.HandleBooking | components/BookingForm.js:101-211 | A user who is not signed in gets the login prompt, and no payment is built. Otherwise the payment data is `PaymentDataFor` the current notes and coupon, the outcome follows the preference reply and whether the link can be opened, and loading ends. |
| CompanyDetail.MapBackendToFrontend | screens/CompanyDetailScreen.js:165-189 | Identity fields are copied. A truthy text field is copied; an empty or missing one gets its placeholder ("Sin categoría", "Descripción no disponible", "Dirección no disponible", "Teléfono no disponible"). Numbers are copied when truthy and default by `\|\|` otherwise: cancellation hours to 24, min advance to 0, max advance to 30, minutes between turns to 0. The between-turns flag is true only for `true`. Opening hours are mapped entry by entry. |
| CompanyDetail.ZeroMaxAdvanceBecomesThirty | screens/CompanyDetailScreen.js:179 | A backend `maxAdvanceDays` of 0 becomes 30. |
| CompanyDetail.PickerWindowOfMappedCompany | screens/CompanyDetailScreen.js:419-420 | The date picker is given the mapped company's window. |
| CompanyDetail.GetDayName | screens/CompanyDetailScreen.js:191-202 | The seven weekday constants get their Spanish names, and any other value is returned unchanged. |
| CompanyDetail.DayStatusOf | screens/CompanyDetailScreen.js:214-231 | A row carries the day's Spanish name. An open row shows the times of a working entry for that day. A closed row has no times. A day whose entries are all non-working, or that has none, is closed; a day with entries that are all working days is open. |
| CompanyDetail.FindHour | screens/CompanyDetailScreen.js:215 | `find` returns nothing exactly when no entry is for that day, and otherwise an entry for that day. |
| CompanyDetail.GetAllDaysWithStatus | screens/CompanyDetailScreen.js:209-233 | Without a company the table is empty. Otherwise it has seven rows, Monday to Sunday, each open exactly when its found entry is a working day, with times only when open. |
| CompanyDetail.OpenIffSomeWorkingEntry | screens/CompanyDetailScreen.js:209-233 | With one entry per day, a day is open exactly when some entry for it is a working day. |
| CompanyDetail.FoundIsTheOnlyEntry | screens/CompanyDetailScreen.js:209-233 | With one entry per day, the entry `find` returns is a working day exactly when some entry for that day is. |
| CompanyDetail.FirstEntryDecides | screens/CompanyDetailScreen.js:215 | Only the first entry for a day counts. |
| CompanyDetail.IsDateValid | screens/CompanyDetailScreen.js:102-129 | Without a company every day is valid. Otherwise a day is valid exactly when `min <= days ahead <= max`. The too-soon rejection is checked first, then the too-far one, each with its own message. |
| CompanyDetail.RejectionsAreDistinct | screens/CompanyDetailScreen.js:114-126 | The two rejection messages differ. |
| CompanyDetail.OfferedDaysAreValid | screens/CompanyDetailScreen.js:102-129 | Every day the picker offers for a mapped company passes validation. |
| CompanyDetail.BookingSelection.constructor | screens/CompanyDetailScreen.js:31-36 | Nothing is selected, and there are no slots and no error. |
| CompanyDetail.BookingSelection.HandleServiceSelect | screens/CompanyDetailScreen.js:132-138 | A new service clears day, slot, slots and error, so the slot picker is disabled and no form is shown. |
| CompanyDetail.BookingSelection.FetchAvailability | screens/CompanyDetailScreen.js:75-99 | Loading ends. Success stores the cleaned slots and clears the error, and failure stores no slots and the message. The slot list is shown exactly when slots came back, and the empty view never hides an error. |
| CompanyDetail.BookingSelection.HandleDateSelect | screens/CompanyDetailScreen.js:140-154 | An invalid day alerts its rejection and changes nothing. A valid day is selected and the slot cleared, and availability is fetched for the selected service exactly when one is selected. After the fetch the slots are the cleaned slots on success, with the "no slots for this date" error exactly when that list is empty; on failure there are no slots and the message is the one availability returned. |
| CompanyDetail.BookingSelection.HandleTimeSlotSelect | screens/CompanyDetailScreen.js:156-158 | Only the slot changes. |
| Calendar.CivilFromDays | components/DateSelector.js:40 | A day number's calendar date has a month from 1 to 12 and a day from 1 to 31. |
| Calendar.MonthOf | components/DateSelector.js:40 | The month of a day is well formed. |
| Calendar.FromIndex | components/DateSelector.js:83 | Month counting is onto. |
| Calendar.IndexInjective | components/DateSelector.js:83 | Month counting is one-to-one. |
| Calendar.Shift | components/DateSelector.js:83 | Shifting a month by `d` moves its count by exactly `d`. |
| Calendar.ShiftCarry | components/DateSelector.js:83 | Shifting a month carries into the year exactly as `setMonth` with an out-of-range month does. |
| Calendar.ShiftZero | components/DateSelector.js:83 | Shifting by zero changes nothing. |
| Calendar.ShiftCompose | components/DateSelector.js:83 | Two shifts are one shift by their sum. |
| Calendar.ShiftInverse | components/DateSelector.js:116-127 | Back undoes forward. |
| Calendar.MonthKeyInjective | components/DateSelector.js:40 | Different months have different `year-month` keys. |
| Calendar.SameMonthKeyIffSameMonth | components/DateSelector.js:40 | Two days share a key exactly when they are in the same month. |
| DateSelector.PolicyNoticeWindows | components/DateSelector.js:175 | The notice is hidden exactly for windows of `min <= 0` and `max >= 365`, so the default 0..30 shows it. |
| DateSelector.IsDateSelected | components/DateSelector.js:66-69 | A date is marked exactly when it is the selected date, and nothing is marked without a selection. |
| DateSelector.GroupDatesByMonth | components/DateSelector.js:37-47 | The groups are keyed by the months in order of first appearance. Each group holds exactly that month's dates, in their order. |
| DateSelector.MonthGroupIsOneMonth | components/DateSelector.js:37-47 | A date is in a month's group exactly when it falls in that month. |
| DateSelector.DatePicker.constructor | components/DateSelector.js:18 | The picker opens on today's month. |
| DateSelector.DatePicker.GenerateAvailableDates | components/DateSelector.js:21-32 | Yields `max - min + 1` dates when `min <= max`, and none otherwise. The k-th date is today plus `min + k` days. |
| DateSelector.DatePicker.GetCurrentMonthDates | components/DateSelector.js:87-90 | The dates on screen are exactly the available dates of the month on screen, and the list is empty exactly when that month has none. |
| DateSelector.DatePicker.NavigateMonth | components/DateSelector.js:81-85 | Corrected behaviour: the month on screen moves by exactly `direction` months (see Findings). |
| DateSelector.DayNumberOf31January2027 | components/DateSelector.js:82-83 | Day 20849 is 2027-01-31. |
| DateSelector.DateOfDay20849 | components/DateSelector.js:82-83 | The calendar date of day 20849. |
| DateSelector.DayNumberOf3March2027 | components/DateSelector.js:82-83 | Day 20880 is 2027-03-03. |
| DateSelector.DateOfDay20880 | components/DateSelector.js:82-83 | The calendar date of day 20880. |
| DateSelector.DateOfDay20852 | components/DateSelector.js:82-83 | Day 20852 is 2027-02-03. |
| DateSelector.ForwardFrom31January2027 | components/DateSelector.js:81-85 | As written, one step forward from 31 January lands on 3 March. |
| DateSelector.BackFrom3March2027 | components/DateSelector.js:81-85 | As written, one step back from 3 March lands on 3 February. |
| DateSelector.NavigateMonthAsWrittenSkipsFebruary | components/DateSelector.js:81-85 | As written, one "next month" press from 31 January 2027 lands on 3 March, two months on, skipping February. February is reached only by pressing back from there, which lands on 3 February. |
| DateSelector.ForwardSkipsFebruary | components/DateSelector.js:81-85 | As written, the forward press from 31 January 2027 (day 20849) lands on 3 March 2027 (day 20880), in March. |
| DateSelector.BackReachesFebruary | components/DateSelector.js:81-85 | As written, the back press from 3 March 2027 lands on 3 February 2027, in February. |
| DateSelector.NavigateMonthAsWrittenKeepsDay | components/DateSelector.js:81-85 | As written, the date the arrow leads to lies `day - 1` days after the first of the intended month, so at most 30 days past it: the overflow reaches at most the month after. |
| DateSelector.NavigateMonthCorrected | components/DateSelector.js:81-85 | With the month kept as a (year, month) pair, navigation moves exactly `direction` months, never stays put on +1, and going back undoes going forward. |
| TimeSlotSelector.FormatTime | components/TimeSlotSelector.js:20-24 | A missing time gives `""`. Otherwise it gives the first five characters, or the whole string when shorter. The same function is defined in components/BookingForm.js:57-60 and screens/CompanyDetailScreen.js:204-207. |
| TimeSlotSelector.FormatTimeIsNormalizeSlot | components/TimeSlotSelector.js:20-24 | On a present slot it is the availability clean-up, and formatting twice equals formatting once. |
| TimeSlotSelector.MarkedSlotsAreTheSelection | components/TimeSlotSelector.js:26-29 | Every marked slot equals the selected slot, so marked slots are equal to each other. |
| TimeSlotSelector.IsSlotSelected | components/TimeSlotSelector.js:26-29 | A slot is marked exactly when the selection is truthy and the slot equals it: a marked slot is the selected slot and is present and non-empty, nothing is marked without a truthy selection, and the slot equal to a truthy selection is marked. |
| TimeSlotSelector.GroupSlotsByTime | components/TimeSlotSelector.js:31-41 | The groups are keyed by the formatted times in order of first appearance. Each group holds exactly the slots of that time, in their order. |
| TimeSlotSelector.SlotGroupsPartition | components/TimeSlotSelector.js:31-41 | Each slot appears in its own time's group as often as in the list, and in no other group. Group sizes add up to the number of slots. |
| TimeSlotSelector.NormalizedGroupsAreUniform | components/TimeSlotSelector.js:31-41 | For cleaned slots every member of a group is the group's label. |
| TimeSlotSelector.RenderBranch | components/TimeSlotSelector.js:45-97 | The view shown is chosen in the order disabled, loading, error, empty, list. Each view appears exactly under its condition, and the error view shows the error. |
| MyAppointments.FilterAppointments | screens/MyAppointmentsScreen.js:68-78 | Keeps exactly the appointments that match all three filters, and never adds one. |
| MyAppointments.Matches | screens/MyAppointmentsScreen.js:69-77 | A matching appointment has the filtered status unless the filter is `all`, and is grouped under the filtered day when a day is given. With a day filter, an appointment without a start time never matches. |
| MyAppointments.FilterAppend | screens/MyAppointmentsScreen.js:68-78 | Filtering distributes over concatenation, so order is preserved. |
| MyAppointments.FilterMultiplicity | screens/MyAppointmentsScreen.js:68-78 | A matching appointment is kept as often as it occurs, and others not at all. |
| MyAppointments.DefaultFiltersKeepAll | screens/MyAppointmentsScreen.js:68-78 | With the default filters (`""`, `"all"`, `""`) every appointment is kept. |
| MyAppointments.SameDayIffGroupKey | screens/MyAppointmentsScreen.js:62-66 | For a present start time and a given day, the same-day test is exactly "the group key is that day". |
| MyAppointments.IsSameDay | screens/MyAppointmentsScreen.js:62-66 | Holds only for a present start time that begins with the day, which contains no `T`. An empty day never matches. |
| MyAppointments.SortKeys | screens/MyAppointmentsScreen.js:140-141 | Sorts the distinct day keys ascending, keeping the same keys. |
| MyAppointments.GroupByDate | screens/MyAppointmentsScreen.js:133-143 | Gives one group per day key present, with the keys strictly ascending. Each group's items are exactly that day's appointments, in order. |
| MyAppointments.DayKeys | screens/MyAppointmentsScreen.js:142 | The keys of the groups, in order. |
| MyAppointments.DateGroupsPartition | screens/MyAppointmentsScreen.js:133-143 | Every filtered appointment lands in exactly its day's group, and group sizes add up to the number filtered. |
| MyAppointments.GetStatusText | screens/MyAppointmentsScreen.js:125-131 | `CONFIRMED` is "Confirmado" and `CANCELLED` is "Cancelado", each exactly. Anything else is "Desconocido". |
| MyAppointments.CanCancel | screens/MyAppointmentsScreen.js:195 | The cancel button appears only for a "PENDING" or "CONFIRMED" status, never for a missing or cancelled one, so a cancellable appointment is never labelled or coloured as cancelled. |
| MyAppointments.GetStatusColor | screens/MyAppointmentsScreen.js:117-123 | Green exactly for confirmed, red exactly for cancelled, and grey exactly for every other status. |
| MyAppointments.PendingIsCancellableButUnknown | screens/MyAppointmentsScreen.js:195 | A pending appointment offers the cancel button, yet its status text is "Desconocido". |
| MyAppointments.MarkCancelled | screens/MyAppointmentsScreen.js:88-92 | Sets status `CANCELLED` on exactly the appointments with the cancelled id. Every other appointment is unchanged, and the length is kept. |
| MyAppointments.MarkCancelledSettles | screens/MyAppointmentsScreen.js:88-92 | Marking twice equals marking once. The cancelled appointment reads "Cancelado" and no longer offers the cancel button. |
| MyAppointments.AppointmentsScreen.constructor | screens/MyAppointmentsScreen.js:21-30 | Starts loading, with no appointments, default filters, no selection and the modal closed. |
| MyAppointments.AppointmentsScreen.LoadAppointments | screens/MyAppointmentsScreen.js:36-54 | Loading ends. Success replaces the list (a missing list is empty), and with the default filters the whole new list is shown. Failure keeps the list and shows the message or the default. |
| MyAppointments.AppointmentsScreen.OpenCancelModal | screens/MyAppointmentsScreen.js:107-110 | Selects the appointment and opens the modal. |
| MyAppointments.AppointmentsScreen.CloseCancelModal | screens/MyAppointmentsScreen.js:112-115 | Closes the modal and clears the selection. |
| MyAppointments.AppointmentsScreen.HandleCancelAppointment | screens/MyAppointmentsScreen.js:80-105 | Without a selection nothing happens. Success marks the selected id cancelled, confirms, closes the modal and clears the selection. Failure alerts the message or the default and keeps the list. |
| ServiceSelector.FormatDurationHours | components/ServiceSelector.js:23-25 | From 60 minutes on, hours and remainder recompose the minutes, with `0 <= rest < 60`. The text is `"<h>h"` for a zero remainder and `"<h>h <r>min"` otherwise. |
| ServiceSelector.FormatDuration | components/ServiceSelector.js:19-26 | Under an hour the text ends in ` min`. From an hour on it contains `h`, and ends in `h` for whole hours and in `min` otherwise. |
| ServiceSelector.NumeralOfNatToString | components/ServiceSelector.js:21 | A printed number reads back as itself. |
| ServiceSelector.ParseMinutes | components/ServiceSelector.js:20-22 | `"<m> min"` reads back as m minutes. |
| ServiceSelector.ParseHours | components/ServiceSelector.js:25 | `"<h>h"` reads back as h hours. |
| ServiceSelector.HoursAndMinutesOf | components/ServiceSelector.js:25 | The hours-and-minutes text splits at its `h`. |
| ServiceSelector.ParseHoursMinutesText | components/ServiceSelector.js:25 | `"<h>h <r>min"` is read by the hours-and-minutes branch. |
| ServiceSelector.ParseHoursMinutes | components/ServiceSelector.js:25 | `"<h>h <r>min"` reads back as `h*60 + r` minutes. |
| ServiceSelector.ParseFormatDuration | components/ServiceSelector.js:19-26 | Every non-negative duration's text reads back as that duration. |
| ServiceSelector.FormatDurationInjective | components/ServiceSelector.js:19-26 | Different durations never read the same. |
| ServiceSelector.AtMostOneCardSelected | components/ServiceSelector.js:42 | With distinct service ids at most one card is marked, and none when nothing is selected. |
| ServiceSelector.IsCardSelected | components/ServiceSelector.js:42 | A card is marked exactly when there is a selection with the card's id, whatever the rest of the selected record holds. The selected service's own card is marked and none is marked without a selection. |
| PaymentResultScreen.OutcomeOf | screens/PaymentResultScreen.js:143-184 | success/approved mean reserved, pending means pending, and failure/rejected mean rejected, each exactly. Everything else is unknown. |
| PaymentResultScreen.ConfigFor | screens/PaymentResultScreen.js:143-184 | Only the rejected outcome sends the user back, the reserved title is shown exactly for the reserved outcome, and every configuration has a message and a button text. |
| PaymentResultScreen.GetStatusConfig | screens/PaymentResultScreen.js:143-184 | Only failure/rejected send the user back, and every other status leads home. The "¡Turno Reservado!" title is shown exactly for success/approved. |
| PaymentResultScreen.TitleDeterminesOutcome | screens/PaymentResultScreen.js:143-184 | The four outcomes have four different titles. |
| PaymentResultScreen.AutoNavigateIffReserved | screens/PaymentResultScreen.js:63 | Going home by itself happens exactly on the reserved outcome once loading is over. |
| PaymentResultScreen.ShouldAutoNavigate | screens/PaymentResultScreen.js:63 | Going home by itself happens only once loading is over, and only on an outcome whose button leads home. |
| PaymentResultScreen.PaymentTypeAloneShowsNothing | screens/PaymentResultScreen.js:209 | A link with only a payment type shows no identifier block. |
| PaymentResultScreen.ShowInfoBlock | screens/PaymentResultScreen.js:209 | The identifier block is shown exactly when one of payment id, preference id or external reference is truthy: any truthy one shows it, and with all three missing or empty it is hidden. |
| PaymentResultScreen.PaymentResultState.constructor | screens/PaymentResultScreen.js:25-26 | The screen starts loading with no details. |
| PaymentResultScreen.PaymentResultState.CheckPaymentStatus | screens/PaymentResultScreen.js:100-129 | Looks up exactly when the link has a payment id, and keeps details only from a successful lookup. The verified status line then shows exactly when the found details carry a status, and without a lookup it is as before. Loading ends, the outcome shown never changes, and the screen then goes home by itself exactly on the reserved outcome. |
| UserContext.MergeLaws | context/UserDetailContext.js:106-114 | `{...prev, ...new}`: an empty update changes nothing, repeating an update changes nothing more, two updates compose, and favourites and bookings are kept, because an update cannot carry them. |
| UserContext.Merge | context/UserDetailContext.js:107 | An empty update changes nothing. Favourites and bookings are kept, because an update cannot carry them. A token in the update wins, and without one the old token is kept. A sign-in flag in the update wins. |
| UserContext.WritesOf | context/UserDetailContext.js:83-104 | Every write is for one of the update's keys whose new value is truthy, and it stores that value. |
| UserContext.WritesOfComplete | context/UserDetailContext.js:83-104 | Every key whose new value is truthy is written. |
| UserContext.WritesOfDistinct | context/UserDetailContext.js:83-104 | Over distinct keys, no key is written twice. |
| UserContext.SessionKeysDistinct | context/UserDetailContext.js:83-104 | The seven storage keys are distinct. |
| UserContext.StoreAfterUpdate | context/UserDetailContext.js:83-104 | After all the writes, a key reads its truthy new value, or else what it held before. |
| UserContext.WritesDone | context/UserDetailContext.js:83-104 | The writes that went through are a prefix of the writes, all of them when none threw. |
| UserContext.LoadedDetails | context/UserDetailContext.js:41-76 | Signed in exactly with a truthy stored token, and then every field comes from storage and the lists are empty. Without a token only the flag is cleared. |
| UserContext.LoadAfterUpdate | context/UserDetailContext.js:41-116 | After an update with a token, reloading gives a signed-in state whose written fields match the merged state. |
| UserContext.LoadAfterLogout | context/UserDetailContext.js:118-131 | After logout, reloading only clears the flag, and e-mail and user id stay in storage. |
| UserContext.LogoutRestoresInitial | context/UserDetailContext.js:8-19 | The logged-out state is the initial state, and reloading after logout gives it back. |
| UserContext.UserSession.constructor | context/UserDetailContext.js:8-19 | The session starts in the initial state. |
| UserContext.UserSession.LoadUserData | context/UserDetailContext.js:41-76 | The state becomes what the stored entries say. |
| UserContext.UserSession.UpdateUserDetails | context/UserDetailContext.js:78-116 | The state is the merge, even when a write throws. The store holds exactly the writes that went through. |
| UserContext.UserSession.Logout | context/UserDetailContext.js:118-135 | On success, exactly the three credential keys are removed and the state is reset. When removal throws, nothing changes. |
| LoginScreen.LoginPatch | screens/LoginScreen.js:40-47 | The login update never carries a name or surname. |
| LoginScreen.LoginErrorMessage | screens/LoginScreen.js:34-53 | The alert text starts with `Error al iniciar sesión: `. For a non-200 reply the rest is the reply's message as string concatenation prints it. |
| LoginScreen.LoginSessionContents | screens/LoginScreen.js:40-47 | The session holds the reply's tokens and role and the typed e-mail, and is signed in. `userId` is the reply's `userId` when truthy, else its `id`. Name and surname are kept. |
| LoginScreen.ReloadAfterLogin | screens/LoginScreen.js:40-47 | Reloading the store after a login gives a signed-in state with the same token and e-mail. |
| LoginScreen.LoginForm.constructor | screens/LoginScreen.js:18-22 | Empty fields, not loading, not navigating. |
| LoginScreen.LoginForm.HandleSubmit | screens/LoginScreen.js:24-57 | An empty field alerts and calls nothing. A 200 reply merges the login update into the session, stores it, and only then turns navigation on. Any other reply alerts and leaves session and store as they were. |
| RegisterScreen.ValidateRegistration | screens/RegisterScreen.js:22-30 | Gives missing fields exactly when a field is empty, and too short exactly when all are present and the password is under six characters. Otherwise it proceeds. |
| RegisterScreen.EmptyFieldCheckFirst | screens/RegisterScreen.js:22-30 | A short password with a missing name is reported as missing fields. |
| RegisterScreen.SixCharactersAccepted | screens/RegisterScreen.js:27-30 | Six characters pass and five do not. |
| RegisterScreen.RegisterRequestFor | utils/api.js:190-197 | Posts to the register path with role `USER` and the typed fields. |
| RegisterScreen.RegisterAlert | screens/RegisterScreen.js:34-42 | A reply other than 400/500 confirms the registration. A 400/500 body or a rejection gives the error prefix and the message, as concatenation prints it. |
| RegisterScreen.ErrorAlert | screens/RegisterScreen.js:42 | The alert starts with the prefix and ends with the message. |
| RegisterScreen.RegisterForm.constructor | screens/RegisterScreen.js:16-19 | Empty fields, not loading. |
| RegisterScreen.RegisterForm.HandleSubmit | screens/RegisterScreen.js:21-46 | Failing input reports its check and sends nothing. Valid input posts the register request, alerts per reply and ends loading. |
| DeepLink.AfterFirst | App.js:22-32 | A link splits at its first `?` into path and query. |
| DeepLink.ScreenFor | App.js:21-32 | A link without the `masdeporte://` prefix opens nothing. PaymentResult opens exactly for the prefix with path `payment`. |
| DeepLink.ScreenOfPath | App.js:24-32 | PaymentResult is opened exactly by the path `payment`. A company screen is opened by `company/` and a non-empty slug without `/`, which it receives. An empty path opens nothing. |
| DeepLink.QueryParam | App.js:31-33 | A link without `?` carries no parameter. |
| DeepLink.SplitOn | App.js:33-44 | Splitting the query always gives at least one piece. |
| DeepLink.ParsePaymentParams | App.js:35-43 | `status` is the raw value when truthy and `"unknown"` otherwise, so it is never empty. Each of the other eight parameters passes through when truthy and becomes `null` otherwise. |
| DeepLink.ParsedParamsAreTruthyOrMissing | App.js:36-43 | Every other parsed parameter is either missing or truthy, and a truthy one is kept. |
| DeepLink.ParseIdempotent | App.js:35-43 | Parsing twice is parsing once. |
| DeepLink.LinkOpensPath | App.js:21-32 | A prefixed link opens the screen of its path, and its query is what follows the `?`. |
| DeepLink.SingleParam | App.js:33-44 | A one-parameter query reads back its value. |
| DeepLink.PaymentLinkRoundTrip | App.js:31-35 | The payment link built for a status opens PaymentResult and carries that status. |
| DeepLink.ParsedStatusOfLink | App.js:35 | The parsed status of such a link is the status it was built with. |
| Text.Take | components/TimeSlotSelector.js:23 | `substring(0, n)` gives the first n characters, or the whole string when shorter. |
| Text.BeforeFirst | screens/MyAppointmentsScreen.js:64 | `split("T")[0]` is the longest prefix without `T`, followed by `T` when shorter. |
| Text.BeforeFirstOfJoin | components/BookingForm.js:128 | The text before the first `T` of `a + "T" + b` is `a` when `a` has no `T`. |
| Text.BeforeFirstAbsent | screens/MyAppointmentsScreen.js:64 | Without a `T` the whole text is kept. |
| Text.TrimStart | components/BookingForm.js:64 | Drops exactly the leading spaces. |
| Text.TrimEnd | components/BookingForm.js:64 | Drops exactly the trailing spaces. |
| Text.TrimSpec | components/BookingForm.js:64 | `trim()` is a middle slice with blank margins, starting and ending with a non-space. |
| Text.TrimStartKeepsNonSpace | components/BookingForm.js:64 | No non-space character is dropped at the start. |
| Text.TrimEndKeepsNonSpace | components/BookingForm.js:64 | No non-space character is dropped at the end. |
| Text.TrimEmptyIffBlank | components/BookingForm.js:64 | `!code.trim()` holds exactly for blank codes. |
| Text.ToUpperKeepsBlank | components/BookingForm.js:282 | Upper-casing keeps a text blank exactly when it was, so `trim()` empties both alike. |
| Text.ToUpper | components/BookingForm.js:282 | Upper-cases character by character, keeping the length. |
| Text.ToLower | screens/MyAppointmentsScreen.js:70-72 | Lower-cases character by character, keeping the length. |
| Text.ContainsEmpty | screens/MyAppointmentsScreen.js:70-72 | Every name contains the empty search term. |
| Text.ContainsPrefix | screens/MyAppointmentsScreen.js:70-72 | A string contains each of its prefixes. |
| Text.NotContainsLonger | utils/api.js:29 | A string never contains a longer one. |
| Text.NotContainsMissingChar | utils/api.js:29 | A string never contains a text with a character it lacks. |
| Text.ContainsInExtension | utils/api.js:29 | Containment survives adding text on either side. |
| Text.DigitChar | components/ServiceSelector.js:21 | A digit character has its value. |
| Text.NatToString | components/ServiceSelector.js:21 | A printed number is a non-empty run of digits, one digit exactly below 10. |
| Text.NatToStringRoundTrip | components/ServiceSelector.js:21 | A printed number's digits give back the number. |
| Text.NatToStringInjective | components/ServiceSelector.js:21 | Different numbers print differently. |
| Text.LexLessIrreflexive | screens/MyAppointmentsScreen.js:141 | `sort()` order is irreflexive. |
| Text.LexLessTransitive | screens/MyAppointmentsScreen.js:141 | `sort()` order is transitive. |
| Text.LexLessTotal | screens/MyAppointmentsScreen.js:141 | `sort()` order is total on distinct keys. |
| Text.InsertSorted | screens/MyAppointmentsScreen.js:141 | Inserting a new key into a strictly sorted list keeps it strictly sorted, with exactly one more key. |
| Grouping.Select | components/DateSelector.js:39-45 | A group holds only elements of the list with its key. |
| Grouping.SelectAppend | components/DateSelector.js:39-45 | Grouping distributes over concatenation, so order is kept. |
| Grouping.SelectMultiplicity | components/TimeSlotSelector.js:33-39 | An element is in its own key's group as often as in the list, and in no other. |
| Grouping.KeysInOrder | components/DateSelector.js:39-45 | The keys in order of first appearance: distinct, covering every element, and each one used. |
| Grouping.SelectEmptyIffAbsent | components/DateSelector.js:89 | A key's group is empty exactly when the key is absent. |
| Grouping.SelectSnoc | components/DateSelector.js:44 | Pushing an element extends exactly its own group. |
| Grouping.KeysSnoc | components/DateSelector.js:41-43 | Pushing an element adds its key exactly when the key is new. |
| Grouping.GroupBy | components/DateSelector.js:37-47 | The `forEach` loop builds exactly the groups of `Select`, keyed by `KeysInOrder`. |
| Grouping.Bucket | components/DateSelector.js:40-44 | One turn of the loop keeps the groups exact for the elements seen so far plus the new one, and lists the element's key exactly when it is new. |
| Grouping.TotalSizeEmpty | components/TimeSlotSelector.js:31-41 | No elements, no group members. |
| Grouping.TotalSizeSnoc | components/TimeSlotSelector.js:31-41 | Pushing an element adds one member when its key is listed. |
| Grouping.TotalSizeCovering | components/TimeSlotSelector.js:31-41 | Groups over distinct covering keys hold every element once. |
| Grouping.GroupSizesSum | components/TimeSlotSelector.js:31-41 | Group sizes add up to the list length. |

## Left out

- Network and storage I/O are left out: axios, AsyncStorage durability, `Linking.openURL`/`canOpenURL`, `Alert`, navigation resets and timers (the 500, 800, 300 and 1500 ms delays). Backend replies, the link check and storage failures are parameters. Storage failures are modelled only where the code reacts to them, in `updateUserDetails` and `logout`. A storage throw in the request interceptor, in `checkAuth` or in `loadUserData` is not modelled.
- Refresh races are left out. Concurrent requests that refresh at the same time are not modelled; one request chain is followed at a time.
- ApiClient.Send: when a resent request fails again, the model passes that error through unchanged, because `_retry` is already set. It does not model the resend going through the full axios stack.
- Wall-clock time, time zones and daylight saving are left out. Days are integer day numbers already set to midnight. `toISOString().split('T')[0]` is an input string (`isoDate`) in `HandleBooking`.
- Locale formatting is foreign library code and is not modelled: `Intl.NumberFormat`, `toLocaleDateString`, `formatPrice`, `formatDate` and `formatMonth`.
- BookingForm.PriceBreakdown: money is exact `real`. The IEEE rounding of `* 0.25` is not modelled.
- Text.ToUpper: case mapping covers ASCII letters only. JavaScript's full Unicode case mapping and its UTF-16 string lengths are not modelled; strings are sequences of characters.
- Text.ToLower: case mapping covers ASCII letters only, like `Text.ToUpper`. Accented capitals such as 'Ú' are left unchanged.
- MyAppointments.Matches: the search lower-cases with `Text.ToLower`, so it is ASCII-only. A search for "FÚTBOL" does not match "Fútbol" here, while JavaScript's `toLowerCase` would match it (screens/MyAppointmentsScreen.js:70-72).
- Calendar.CivilFromDays and Calendar.DaysFromCivil: no general lemma states that they are inverses or that they agree with JavaScript's `Date` calendar. That agreement is shown only on the concrete dates the lemmas use (day numbers 20849, 20852 and 20880).
- UserContext.Merge: favourites and bookings are kept only because a `Patch` has no favourites or bookings keys. The source's `{...prev, ...newDetails}` would overwrite them whenever an update carries those keys.
- `null` and `undefined` are both `None`. For example, a coupon reply whose `discountAmount` is `null` passes the source's `!== undefined` test and is applied without a discount. Here it is treated as invalid coupon data. The total is the service price either way.
- DeepLink.QueryParam: percent-decoding of query values is left out. So is whatever else the navigation library does when it reads query parameters, including which keys it passes to `parse`.
- The `collection_status`/`collection_id` precedence is left out, because no code in these files implements it.
- These inputs are not modelled, and the model treats them as empty arrays or ordinary keys:
  - A backend `businessHours` that is not an array.
  - A `dayNames` lookup with prototype keys such as `"toString"`.
  - The `maxLength={20}` limit of the coupon input.
- CompanyDetail: `fetchCompanyData`, `onRefresh` and the service-list mapping are network plumbing and are not modelled.
- CompanyDetail: the `catch` in `fetchAvailability` is left out, because `getAvailability` never throws.
- CompanyDetail: `latitude`/`longitude` are left out; nothing in the core reads them.
- The screens `ServicesScreen`, `HomeScreen` and `SafeNavigator`, and `app.config.js`, are not part of this model.
- `loginWithGoogle`, `providerService` other than availability and appointments, `appointmentService.getAppointmentById` and `confirmAppointmentAfterPayment` are not part of this model.
- DateSelector: the component's default props (0 and 30 days) are covered only through `PolicyNoticeWindows`. `isToday` and `getDayName` (display only) are not modelled.
- DateSelector.IsDateSelected: dates are day numbers, so "same calendar day" is equality of day numbers.
- Where the code and the documented behaviour differ, the model follows the code:
  - A weekday is open exactly when its FIRST entry for that day (`find`) is a working day, not when any entry is (`FirstEntryDecides`).
  - The coupon success alert uses `response.message`.
  - Because `appointmentService`'s failure message is never empty, the screens' own fallback texts are never shown. The model keeps the client's default text.
  - `formatTime` is defined three times with the same body (BookingForm, CompanyDetailScreen, TimeSlotSelector). It is modelled once, as `TimeSlotSelector.FormatTime`.
  - In `handleBooking`, `preference.message` of a failed preference is never empty, so the form's own "Error al crear el pago" fallback is never reached.
  - The `catch` that shows "Error al procesar el pago" is modelled only for a `canOpenURL` that throws (`ProcessingError`). A throw from a missing `preference.data` or from `toISOString` on an invalid date is not modelled.

## Findings

| source | as written | input that shows it | evidently intended | confidence | as-written member | corrected member |
|---|---|---|---|---|---|---|
| components/DateSelector.js:81-85 | `navigateMonth` copies `currentMonth`, which holds the day of the month it was opened on, and calls `setMonth(getMonth() + direction)`. On a day that the target month lacks, the date overflows into the month after it. | The picker is opened on 31 January 2027 and "next month" is pressed. The target date 31 February becomes 3 March 2027: one "next" press from 31 January skips February, whose dates are reached only by pressing "back" from March. | The month on screen moves by exactly `direction` months. | not executed | DateSelector.NavigateMonthAsWrittenSkipsFebruary | DateSelector.NavigateMonthCorrected |
