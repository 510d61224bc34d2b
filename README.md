# BusNaama client core in Dafny

BusNaama is a React Native app. Students follow their school bus live on a map. Drivers publish the bus position from their phone. This project models the decision logic of the client:

- the session manager: cold-start restore, login, logout, profile refresh and forced sign-out over a two-entry secure store;
- the realtime bridge: a key/value tree keyed `buses/bus_{id}/{location|status|driver}`, whole-value writes, reads, and `on('value')` listeners;
- the driver's tracking screen: permission, tracking flag, one-shot driver announcement, location watch, duration counter and displayed speed;
- the REST client: header merge, response classification, 404 as the only failure that becomes a value, and error-message precedence;
- the login and change-password forms, with their check order and busy flags;
- the rider's bus-details view: fetch, live flag, a location listener only while live, route line, markers and map centre;
- the two home screens, the root navigator's screen set, language detection and the EN/UR switch.

Each handler is one sequential step. What the platform answers becomes a parameter of that step:

- an HTTP response or network rejection (`Api.Response`);
- an identity-provider throw;
- a store write failure;
- a permission status;
- a watch handle;
- the clock (`now`).

Handlers that show a busy flag while awaiting are split at the await into a `Begin…` and a `Finish…` method: `PasswordForm` and `LoginForm`. Objects whose fields the app updates are classes with `modifies` clauses: `AuthProvider`, `Database`, `TrackingScreen`, the view classes and `PreferenceStore`. Pure rules are functions with lemmas.

Logout clears the in-memory state unconditionally. It deletes the stored token and profile only after the identity provider's sign-out has succeeded, and it stops at the first throw. `Auth.AuthProvider.Logout` models this. `Auth.InterruptedLogoutKeepsSession` proves the consequence: a logout interrupted before the token deletion leaves the session restorable at the next cold start.

## Model

| member | source | states |
|---|---|---|
| Auth.RestoredSession | client/contexts/AuthContext.tsx:40-62 | A session is restored iff the token entry is a non-empty string and the profile entry parses. The restored state is authenticated, not loading, carries the stored token, and takes user/student/driver from the blob. |
| Auth.AuthProvider.constructor | client/contexts/AuthContext.tsx:31-38 | Initial state: all of user, student, driver and token null; loading; not authenticated. |
| Auth.AuthProvider.LoadStoredAuth | client/contexts/AuthContext.tsx:40-62 | Store unchanged. Restores the session when `RestoredSession` gives one. Otherwise, including a read throw, only `isLoading` becomes false. |
| Auth.EffectiveToken | client/contexts/AuthContext.tsx:167 | `tokenParam \|\| state.token`: the explicit token wins when truthy; None exactly when neither is truthy. |
| Auth.AuthProvider.RefreshWith | client/contexts/AuthContext.tsx:166-186 | No token, or a non-OK response: Ok, nothing changes. Rejection: rethrown, nothing changes. OK: the profile blob is persisted and only user/student/driver change; token and flags are kept. |
| Auth.AuthProvider.RefreshUser | client/contexts/AuthContext.tsx:166-186 | Same as RefreshWith, against the token currently held. |
| Auth.AuthProvider.Login | client/contexts/AuthContext.tsx:92-126 | Rejected or non-OK: throws (`Login failed`) with no state or store change. OK: token persisted before sign-in. A sign-in throw leaves the state as it was. Then authenticated with null profile fields, then refreshed with the new token. |
| Auth.LoginRequest | client/contexts/AuthContext.tsx:95-102 | POST to `/api/auth/login/` with only a JSON content type and the credentials as body. |
| Auth.MeRequest | client/contexts/AuthContext.tsx:171-173 | GET `/api/auth/me/` with only `Authorization: Token <token>`. |
| Auth.LogoutRequest | client/contexts/AuthContext.tsx:130-137 | POST `/api/auth/logout/` with only the token header. |
| Auth.StoreAfterLogout | client/contexts/AuthContext.tsx:139-141 | The store after logout never gains entries. Both keys are gone after a clean run; the token is gone when only the profile deletion throws. |
| Auth.AuthProvider.Logout | client/contexts/AuthContext.tsx:128-162 | The state is always fully signed out. The backend logout is attempted iff the held token is truthy, and its failure is ignored. The store is `StoreAfterLogout` of the failing step. |
| Auth.LogoutForgetsSession | client/contexts/AuthContext.tsx:140-141 | Once the token deletion ran, nothing is restorable at the next cold start. |
| Auth.InterruptedLogoutKeepsSession | client/contexts/AuthContext.tsx:139-160 | A throw from sign-out or from the token deletion leaves exactly the session that was restorable before. |
| Auth.AuthProvider.OnAuthStateChanged | client/contexts/AuthContext.tsx:64-86 | A signed-out report while a truthy token is stored deletes the token, then the profile, then signs out. A throw stops the handler there: a failed read or token deletion changes nothing, and a failed profile deletion leaves the token deleted and the state as it was. Otherwise nothing changes. |
| Realtime.BusPathInjective | client/lib/firebase.ts:10-57 | Two keys are equal only for the same bus id and the same field. So a bus has three distinct keys and buses share none. |
| Realtime.FieldNameInjective | client/lib/firebase.ts:10-57 | The three field names are distinct. |
| Realtime.Lookup | client/lib/firebase.ts:21-23 | `exists() ? val() : null`: Some exactly when the key is present, with its value. |
| Realtime.WriteIsolation | client/lib/firebase.ts:10-11 | A write at one bus key leaves the read at every other bus key unchanged. |
| Realtime.ReadAfterWrite | client/lib/firebase.ts:11-23 | Reading a key after writing it gives the written value. |
| Realtime.Notify | client/lib/firebase.ts:89-93 | A change notifies listeners without adding or dropping any; what each one receives is given by ListenerSeesEveryChange. |
| Realtime.ListenerSeesEveryChange | client/lib/firebase.ts:84-115 | After a series of changes at a key, a listener on it has received every value in order, nulls included; other listeners receive nothing. |
| Realtime.DetachedListenerHearsNothing | client/lib/firebase.ts:95-114 | A detached listener is not called again. |
| Realtime.Database.Set | client/lib/firebase.ts:11 | A whole-value overwrite of one key that notifies that key's listeners. A rejected write throws and changes nothing. |
| Realtime.Database.Remove | client/lib/firebase.ts:89-93 | A deletion at a key, made by another party, removes only that key and calls its listeners with null. |
| Realtime.Database.On | client/lib/firebase.ts:93-111 | A fresh listener on the key, called at once with the current value. |
| Realtime.Database.Off | client/lib/firebase.ts:95-114 | Detaches only that listener. |
| Realtime.UpdateBusLocation | client/lib/firebase.ts:6-16 | Replaces the value at the bus's location key and no other. A failure is rethrown with nothing changed. |
| Realtime.GetBusLocation | client/lib/firebase.ts:19-28 | The stored location or null; a failed read yields null. |
| Realtime.SetBusActiveStatus | client/lib/firebase.ts:34-49 | Writes exactly `{isActive, lastUpdated: now}` at the status key; a failure is rethrown. |
| Realtime.SetBusDriver | client/lib/firebase.ts:52-66 | Writes exactly `{id, name}` at the driver key; a failure is rethrown. |
| Realtime.GetBusActiveStatus | client/lib/firebase.ts:70-80 | The stored status or null; a failed read yields null. |
| Realtime.CreateLocationListener | client/lib/firebase.ts:84-96 | Attaches a new listener to the location key, called at once with the current value; nothing else changes. |
| Realtime.CreateStatusListener | client/lib/firebase.ts:101-115 | Same for the status key. |
| Realtime.Unsubscribe | client/lib/firebase.ts:95-114 | Removes exactly that listener. |
| Api.AuthHeaders | client/lib/api.ts:12-19 | Defaults are the JSON content type and `Token <token>`. Caller headers override same-named keys only, and every key of both appears. |
| Api.ResourceResult | client/lib/api.ts:27-39 | OK gives the body and 404 gives null. Any other status throws the given message; a rejection is rethrown. 404 is the only failure turned into a value. |
| Api.GetStudentBus | client/lib/api.ts:23-40 | GET `/api/student/bus/` with the default headers, classified by ResourceResult with `Failed to fetch bus`. |
| Api.GetDriverBus | client/lib/api.ts:41-58 | GET `/api/driver/bus/`, same classification. |
| Api.GetBusDetails | client/lib/api.ts:61-81 | GET `/api/buses/{id}/`, classified with `Failed to fetch bus details`. |
| Api.BusEndpointInjective | client/lib/api.ts:66 | Different bus ids have different detail endpoints. |
| Api.StatusRequest | client/lib/api.ts:92-98 | PATCH to `/api/buses/{id}/` with body `{status}`. Exactly the two headers are sent, and `Authorization` survives the caller's own `Content-Type`. |
| Api.UpdateBusActiveStatus | client/lib/api.ts:86-107 | Succeeds iff the response is OK. Every non-OK status throws, 404 included; a rejection is rethrown. |
| Api.PasswordErrorMessage | client/lib/api.ts:126-127 | `detail`, else `error`, else `Failed to change password`; an unparsable body counts as `{}`. Never empty. |
| Api.ChangePasswordRequest | client/lib/api.ts:117-123 | POST to `/api/auth/change-password/` with default headers and both passwords. |
| Api.ChangePassword | client/lib/api.ts:111-133 | Succeeds iff OK. Rejections are rethrown; other failures throw PasswordErrorMessage of the body. |
| LiveTracking.FormatDurationFields | client/screens/LiveTrackingScreen.tsx:210-214 | The text is the unpadded minutes, `:`, then exactly two seconds digits. Reading both back gives `mins*60 + secs == seconds` with `secs < 60`. |
| LiveTracking.FormatDuration | client/screens/LiveTrackingScreen.tsx:210-214 | The `:` sits right after the minutes' decimal text and is followed by at least two characters. |
| LiveTracking.SecondsField | client/screens/LiveTrackingScreen.tsx:213 | Seconds below 60, zero-padded, are exactly two digits that read back to the seconds. |
| LiveTracking.DriverId | client/screens/LiveTrackingScreen.tsx:170 | `user?.id ?? 0`: the user's id, or 0 without a user. |
| LiveTracking.DriverNameAsWritten | client/screens/LiveTrackingScreen.tsx:171 | The name as written is never empty. |
| LiveTracking.DriverNameFallbackUnreachable | client/screens/LiveTrackingScreen.tsx:171 | The name as written is never the `Driver` fallback unless the user's own name is `Driver`. A missing user gives `undefined undefined`; empty names give a single space. |
| LiveTracking.DriverName | client/screens/LiveTrackingScreen.tsx:169-172 | Corrected name: never empty. `Driver` without a user or without names; otherwise the first and last names joined by a space. |
| LiveTracking.DisplayedSpeed | client/screens/LiveTrackingScreen.tsx:185 | The shown speed is `k` when positive, else 0; never negative. |
| LiveTracking.SampleLocation | client/screens/LiveTrackingScreen.tsx:187-193 | The published location carries the sample's lat/lng, the time, the unclamped `k`, and the heading defaulting to 0. |
| LiveTracking.TrackingScreen.constructor | client/screens/LiveTrackingScreen.tsx:48-55 | Permission unknown, not tracking, driver not announced, no watch, duration and speed 0. |
| LiveTracking.TrackingScreen.RequestLocationPermission | client/screens/LiveTrackingScreen.tsx:140-156 | Granted iff the status is `granted` and nothing threw; any throw gives false. |
| LiveTracking.TrackingScreen.StartTracking | client/screens/LiveTrackingScreen.tsx:158-208 | Without permission: re-request only, no flag change, no writes. With it: duration 0; status true written before the backend PATCH, whose failure is swallowed. The driver is announced once, only with a driver profile, and the flag is set after success. Any throw leaves tracking off. Listeners on the status key receive the `true` status, then driver listeners receive the announcement; no listener is attached or detached. Permission is kept in every branch that had it. |
| LiveTracking.TrackingScreen.OnLocationSample | client/screens/LiveTrackingScreen.tsx:182-194 | Shown speed is DisplayedSpeed(k). The bus's location key gets SampleLocation, and every listener on that key receives it; no listener is attached or detached. A failed write changes nothing in the store. |
| LiveTracking.TrackingScreen.StopTracking | client/screens/LiveTrackingScreen.tsx:79-88 | Removes and nulls the watch if one exists, and writes status false. On success: backend told (failure swallowed), not tracking, speed 0. A status throw propagates. The announced flag is kept. Status listeners receive the `false` status. |
| LiveTracking.TrackingScreen.Tick | client/screens/LiveTrackingScreen.tsx:132-138 | The duration grows by one per tick only while tracking. |
| LiveTracking.TrackingScreen.HandleBackAction | client/screens/LiveTrackingScreen.tsx:111-118 | Back opens the stop confirmation iff tracking, else goes back. |
| LiveTracking.TrackingScreen.ConfirmStopPressed | client/screens/LiveTrackingScreen.tsx:100-103 | Leaves the screen iff stopping did not throw. The new state, the `false` status write with its notifications, and the backend request are StopTracking's. |
| Profile.AvatarUrl | client/screens/ProfileScreen.tsx:36-39 | None without an avatar; `https` addresses kept; otherwise `baseUrl + avatar`. The stored path is always the tail of the address. |
| Profile.InfoValue | client/screens/ProfileScreen.tsx:208 | The value, or `Not set` when missing or empty. |
| Profile.IdRow | client/screens/ProfileScreen.tsx:142 | `Employee ID` with the driver's employee id iff the role is `driver`; otherwise `Student ID` with the student id. |
| Profile.WithEntry | client/screens/ProfileScreen.tsx:95 | Typing sets one field and keeps the others. |
| Profile.Toggled | client/screens/ProfileScreen.tsx:49-52 | Flips exactly the one visibility flag. |
| Profile.PasswordForm.OpenPasswordModal | client/screens/ProfileScreen.tsx:154 | Shows the modal. |
| Profile.PasswordForm.EnterText | client/screens/ProfileScreen.tsx:95 | Typing sets the one field, via WithEntry, and keeps the others. |
| Profile.PasswordForm.ToggleVisibility | client/screens/ProfileScreen.tsx:49-52 | Flips one visibility flag, via Toggled. |
| Profile.ToggleTwice | client/screens/ProfileScreen.tsx:49-52 | Toggling the same field twice restores the record. |
| Profile.ValidatePasswords | client/screens/ProfileScreen.tsx:64-66 | The check order as an iff per verdict: any empty field, then a `length` below 6 UTF-16 code units, then a mismatch; accepted otherwise. |
| Profile.LengthBoundary | client/screens/ProfileScreen.tsx:65 | A matching password of six code units is accepted, and a shorter non-empty one is too short. Without characters above U+FFFF, acceptance is exactly six characters or more. |
| Profile.EmojiCountsTwice | client/screens/ProfileScreen.tsx:65 | Four letters and one emoji are six code units, so that password is accepted. |
| Strings.Utf16Length | client/screens/ProfileScreen.tsx:65 | `length` counts UTF-16 code units: between one and two per character. |
| Strings.Utf16LengthBmp | client/screens/ProfileScreen.tsx:65 | Without characters above U+FFFF, `length` is the number of characters. |
| Strings.Utf16LengthAstral | client/screens/ProfileScreen.tsx:65 | Every character above U+FFFF counts twice. |
| Strings.Utf16LengthConcat | client/screens/ProfileScreen.tsx:65 | `length` adds up over concatenation. |
| Profile.PasswordForm.ClosePasswordModal | client/screens/ProfileScreen.tsx:54-58 | Hides the modal, resets all three fields to empty, clears the error. |
| Profile.PasswordForm.BeginChangePassword | client/screens/ProfileScreen.tsx:60-70 | No token: nothing. A failed check sets its message. The request is issued iff token and all checks pass, and then the form is busy. |
| Profile.PasswordForm.FinishChangePassword | client/screens/ProfileScreen.tsx:70-79 | Success closes and clears the modal. Failure sets the message or `password_change_failed` and keeps the fields. Never busy afterwards. |
| Login.BlankFieldRejected | client/screens/LoginScreen.tsx:36 | The credential check passes iff neither field is all whitespace. |
| Login.LoginForm.EnterCredentials | client/screens/LoginScreen.tsx:87-102 | Typing sets the user name and the password as typed. |
| Login.LoginForm.BeginLogin | client/screens/LoginScreen.tsx:35-45 | Missing credentials set the error and do not log in. Otherwise the error is cleared, the form turns busy, and login gets the trimmed user name and the raw password. |
| Login.LoginForm.FinishLogin | client/screens/LoginScreen.tsx:45-52 | A throw shows its message or `login_failed`; never submitting afterwards. |
| BusDetails.DriverAvatarIsProfileRule | client/screens/BusDetailsScreen.tsx:55-60 | The driver avatar address follows the same rule as the profile avatar. |
| BusDetails.DriverAvatarUrl | client/screens/BusDetailsScreen.tsx:55-60 | An address exists iff the driver has a truthy avatar, and the avatar path is always its tail. |
| BusDetails.CopyPoints | client/screens/BusDetailsScreen.tsx:65 | Same length, same points, same order. |
| BusDetails.RouteLine | client/screens/BusDetailsScreen.tsx:61-75 | None iff there is no bus, route or path array; otherwise exactly the path. |
| BusDetails.StartCoord | client/screens/BusDetailsScreen.tsx:77 | The first point of a non-empty line. |
| BusDetails.EndCoord | client/screens/BusDetailsScreen.tsx:78 | The last point of a non-empty line. |
| BusDetails.SinglePointRoute | client/screens/BusDetailsScreen.tsx:77-78 | A one-point route starts and ends at that point. |
| BusDetails.InitialCenter | client/screens/BusDetailsScreen.tsx:162-166 | The live location, else the student's home when both coordinates are non-zero, else `[73.0479, 33.6844]`. |
| BusDetails.ShowLiveMarker | client/screens/BusDetailsScreen.tsx:231 | The live marker is drawn iff a location has been delivered and the bus is live. |
| BusDetails.LiveMarkerIsCentre | client/screens/BusDetailsScreen.tsx:162-166 | Whenever the live marker is drawn, the map opens centred on it, whatever the student's home is. |
| BusDetails.Render | client/screens/BusDetailsScreen.tsx:140-159 | Loader while loading; then the error or `Bus not found`; the details only with no error and a bus. |
| BusDetails.BusDetailsView.FetchBusDetails | client/screens/BusDetailsScreen.tsx:80-95 | No token: nothing. Otherwise the error is cleared and the bus set; `isLive` is set only for a non-null bus; a failure sets the message. Loading always ends. |
| BusDetails.BusDetailsView.OnStatusPushed | client/screens/BusDetailsScreen.tsx:102-106 | A null push is ignored; a status sets `isLive`. |
| BusDetails.BusDetailsView.OnLocationPushed | client/screens/BusDetailsScreen.tsx:116-117 | The pushed value, null included, becomes the shown location. |
| BusDetails.BusDetailsView.SyncStatusListener | client/screens/BusDetailsScreen.tsx:100-108 | Detaches the previous listener; a status listener exists iff there is a bus. The new listener is called at once with the current status; no other listener receives anything. |
| BusDetails.BusDetailsView.SyncLocationListener | client/screens/BusDetailsScreen.tsx:110-131 | Detaches the previous listener; a location listener exists iff bus and live. Otherwise the shown location is reset to null. The new listener is called at once with the current location; no other listener receives anything. The live marker is only drawn while a location listener is attached. |
| Navigation.Screens | client/navigation/RootStackNavigator.tsx:117-213 | Loader iff loading. Signed out: only Login. Signed in: DriverHome for role `driver`, StudentHome for any other role or no user, then BusDetails, LiveTracking, Profile. |
| Navigation.SignedOutOnlyLogin | client/navigation/RootStackNavigator.tsx:132-137 | Signed out, Login is the only reachable route. |
| Navigation.SignedInDestinations | client/navigation/RootStackNavigator.tsx:140-208 | Signed in, the shared screens are reachable for every role and exactly one home screen is registered. |
| Navigation.LoadingBlocksNavigation | client/navigation/RootStackNavigator.tsx:122-128 | While loading no route is reachable. |
| Home.RenderContent | client/screens/StudentHomeScreen.tsx:81-111 | Skeleton iff loading; then the error; then no-bus iff no error and no bus; the bus card iff a bus and no error. |
| Home.Greeting | client/screens/DriverHomeScreen.tsx:248 | `first_name`, else `username`, else the fallback (`Driver` here, `Student` on the student screen). |
| Home.GreetingNonEmpty | client/screens/StudentHomeScreen.tsx:166 | With a non-empty fallback the greeting is never empty. |
| StudentHome.StudentHomeView.FetchBus | client/screens/StudentHomeScreen.tsx:46-63 | No token: nothing, so loading never ends. Otherwise the error is cleared, the bus set, `liveStatus` only for a non-null bus; a failure sets the message or `failed_to_load_bus`. Both spinners stop. |
| StudentHome.StudentHomeView.HandleRefresh | client/screens/StudentHomeScreen.tsx:68-72 | The spinner starts, then the fetch; without a token it keeps spinning. With a token, the bus, error and live flag end as FetchBus leaves them, and both spinners stop. |
| StudentHome.StudentHomeView.HandleBusPress | client/screens/StudentHomeScreen.tsx:74-79 | Navigates to BusDetails with the bus id and driver iff there is a bus. |
| DriverHome.DriverHomeView.FetchBus | client/screens/DriverHomeScreen.tsx:68-81 | No token: nothing. Otherwise the error is cleared and the bus set; a failure sets the message or `Failed to load bus information`. Both spinners stop. |
| DriverHome.DriverHomeView.HandleRefresh | client/screens/DriverHomeScreen.tsx:87-91 | The spinner starts, then the fetch; without a token it keeps spinning. With a token, the bus and error end as FetchBus leaves them, and both spinners stop. |
| DriverHome.DriverHomeView.HandleStartTracking | client/screens/DriverHomeScreen.tsx:93-98 | Navigates to LiveTracking with the bus id iff there is a bus, which is exactly when the button shows. |
| DriverHome.DriverHomeView.ShowsStartButton | client/screens/DriverHomeScreen.tsx:255 | The start button never shows beside the no-bus state, and the bus card never shows without it. |
| DriverHome.StartButtonLeadsSomewhere | client/screens/DriverHomeScreen.tsx:96 | The LiveTracking route is registered for every signed-in user. |
| I18n.DeviceLanguage | client/i18n/i18n.ts:26 | The first locale's language code, or `en` without one. |
| I18n.Detected | client/i18n/i18n.ts:16-28 | A truthy saved language wins; otherwise, including a read error, the device locale rule. |
| I18n.PreferenceStore.Detect | client/i18n/i18n.ts:16-28 | Returns Detected of what storage holds under `@app_language`, or of a failed read. |
| I18n.PreferenceStore.CacheUserLanguage | client/i18n/i18n.ts:29-35 | Writes under `@app_language`; a failed write is swallowed. |
| I18n.ResourceLanguage | client/i18n/i18n.ts:41-48 | Translations come from `en` or `ur`; any other language falls back to `en`. |
| I18n.ToggledChoiceSurvivesRestart | client/i18n/i18n.ts:18-31 | A language chosen with the switch and cached is what the next start detects, whatever the locale. |
| LanguageSwitch.CurrentLang | client/components/LanguageSwitch.tsx:8 | A missing or empty language is `en`. |
| LanguageSwitch.SlideTarget | client/components/LanguageSwitch.tsx:11-15 | 1 iff the language starts with `ur`, else 0. |
| LanguageSwitch.ToggleTarget | client/components/LanguageSwitch.tsx:21-24 | Always `en` or `ur`, and on the other side of the switch. |
| LanguageSwitch.ToggleTwiceRestores | client/components/LanguageSwitch.tsx:21-24 | Two presses are the identity on `en` and `ur`. |
| Decimal.ParseNatToString | client/lib/firebase.ts:10 | The plain decimal text of a number reads back to that number. |
| Decimal.IntToStringInjective | client/lib/firebase.ts:10 | Different ids have different decimal texts. |
| Strings.PadStart | client/screens/LiveTrackingScreen.tsx:213 | `padStart`: the result is the requested width or longer. It ends with the input and is prefixed only with the fill character. |
| Strings.TrimEmptyIffAllWhitespace | client/screens/LoginScreen.tsx:36 | `trim()` is empty iff the text is entirely ECMAScript whitespace. |

## Left out

- Rendering: JSX, styles, animations, haptics, alerts and map camera moves. Only their visibility conditions are modelled.
- set/get/deleteSecureItem (client/contexts/AuthContext.tsx:19-28): not separate members. They are the update, lookup and key removal on `AuthProvider.store` inside each handler.
- Secure-store write failures during login and refresh are not modelled. Store failures are modelled for the cold-start read (`readFails` of LoadStoredAuth), the logout deletions, and the forced sign-out's read and deletions.
- JSON: parsing and serialising are not modelled beyond an opaque profile round trip. A parse error of an OK response body is left out.
- The `/api/auth/me/` body is taken to be the user together with its nested `student`/`driver`, as `Profile`. The source stores the whole body as `user`.
- URL resolution against the API base is not modelled. Requests keep the endpoint path; `getApiUrl` is an opaque base-URL string.
- Floating point: latitude, longitude and heading are `real` values that are only copied. The `speed * 3.6` rounding is an integer input `k`. `Number(...)` of the home coordinates is left out. `NaN` heading is not distinguished from a missing one.
- Decimal.NatToString: JavaScript writes numbers of 1e21 and above in exponent notation. The model always writes plain decimal, so its texts match the source only for ids below 1e21.
- Concurrency: handlers are atomic. Overlapping location writes, unmount cleanup racing in-flight promises, and ordering across subscriptions are not modelled.
- The realtime SDK's own behaviour beyond whole-value writes is not modelled. For example, whether identical writes are suppressed is left out.
- LiveTracking.TrackingScreen.StartTracking: a second start while a watch is attached overwrites the handle without removing the old watch. The screen only offers start while not tracking, so no lemma covers this.
- LiveTracking.TrackingScreen.StartTracking: announces the corrected `LiveTracking.DriverName`, not the name as written at client/screens/LiveTrackingScreen.tsx:171. Without a user the source announces `undefined undefined` where the model announces `Driver`; with empty names it announces a single space. `LiveTracking.DriverNameAsWritten` models the source's name (see Findings).
- I18n.ResourceLanguage: does not model i18next's reduction of a region code such as `ur-PK` to `ur` before falling back.
- Translation: `t(key)` is not modelled. Messages are kept as their key (`Types.Message.Key`). The `|| "Enter your credentials"` literal after `t('error_missing_fields')` is therefore not represented.
- i18next's `changeLanguage` is a foreign call. The switch's result is the language passed to it.
- The commented-out navigator at client/navigation/RootStackNavigator.tsx:30-113 is dead code and is not modelled.

## Findings

| source | as written | input that shows it | evidently intended | confidence | as-written member | corrected member |
|---|---|---|---|---|---|---|
| client/screens/LiveTrackingScreen.tsx:171 | `` `${user?.first_name} ${user?.last_name}` \|\| 'Driver' ``. The template literal always holds the space, so the fallback can never apply. | User null: announced name `undefined undefined`. User with empty first and last names: a single space. | Announce `Driver` when there is no user or no name. | not executed | LiveTracking.DriverNameAsWritten, LiveTracking.DriverNameFallbackUnreachable | LiveTracking.DriverName (used by LiveTracking.TrackingScreen.StartTracking) |
