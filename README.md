# Food-ordering client: session, profile form, location card and address book

This project models the client-side logic of a React Native food-ordering app. It covers five parts:

- **Session store** (`app/auth/useAuthStore.js`, module `AuthStore`). This covers OTP login, the two persisted keys `authToken` and `userData`, restoring a session at start-up (fail-closed: any fault clears the session), and logout. `Store` is a class whose fields are the store's state. Device storage is a class over a `map<string, string>`.
- **Authenticated HTTP client** (`app/auth/useAxios.js`, module `AuthAxios`). An instance has the fixed base URL `http://10.0.2.2:8080`. Its request interceptor sets `Authorization: Bearer <token>` only for a truthy token. The token is snapshotted when the instance is made.
- **Profile form** (`app/EditProfile.js`, module `EditProfile`). This covers `validateForm` with the required-field checks and the email pattern `^[^\s@]+@[^\s@]+\.[^\s@]+$`, field edits, the guarded update request and the save button.
- **Location card** (`app/LocationMap.js`, module `LocationMap`). This covers the display address composed from a reverse-geocode result, the 1000 m unit threshold, the 5000 m serviceability threshold, the reset at the start of a locate, and when `onLocationUpdate` fires.
- **Address book** (`app/address.js`, module `AddressBook`). This covers form edits, the add and edit modals, merging the device position into the form, and the save-disabled rule and submit choice. It also covers the add, update and delete handlers, each of which re-fetches the whole list after the server accepts the change.

The JavaScript semantics the app depends on live in `JsCore`:

- flat values and objects (a key whose value is `undefined` is absent)
- truthiness
- `message || fallback`
- the ECMAScript whitespace set shared by `trim()` and `\s`

Network replies, permission answers, device positions, geocode results and storage read faults are all method parameters. `JSON.stringify`/`JSON.parse` are an abstract `Codec` whose round trip is required when a store is created. Server traffic from the address screen is recorded in a `sent` field as a list of `Request` values.

Two behaviours of the code are worth stating up front:

- `sendOtp` records the error and rethrows it (`app/auth/useAuthStore.js:78`), so `Store.SendOtp` returns `Thrown(message)`.
- On a denied permission, `getCurrentLocation` returns early from inside the `try`, but the `finally` still clears `loading` (`app/address.js:57-60, 77-78`). So `AddressScreen.GetCurrentLocation` states that only `loading` changes, not that nothing changes.

## Model

| member | source | states |
|---|---|---|
| JsCore.OrElse | app/auth/useAuthStore.js:76 | the server message when it is a non-empty string, else the fallback; never empty when the fallback is not |
| JsCore.TrimStartCutsSpace | app/EditProfile.js:63 | trimming the start removes a run of whitespace only, and what is left does not start with whitespace |
| JsCore.TrimEndCutsSpace | app/EditProfile.js:63 | trimming the end removes a run of whitespace only, and what is left does not end with whitespace |
| JsCore.BlankIffAllSpace | app/EditProfile.js:63 | `!s.trim()` holds exactly when every character of `s` is ECMAScript whitespace |
| AuthStore.SessionToken | app/auth/useAuthStore.js:93-95 | a token is accepted exactly when the response's `token` is a non-empty string, and it is that string |
| AuthStore.UserRecord | app/auth/useAuthStore.js:30-36 | the stored user has no `token`, and its customerId and mobileNumber are the response's |
| AuthStore.UserRecordKeeps | app/auth/useAuthStore.js:30-36 | every key other than `token` reads in the user record as in the response, and a response without `undefined` gives a user record without one |
| AuthStore.Persisted | app/auth/useAuthStore.js:31-36 | after login `authToken` holds the token and `userData` the user's JSON; every other key is present exactly as before, with the same value |
| AuthStore.Restore | app/auth/useAuthStore.js:110-115 | no session exactly when either key is missing or empty; otherwise the stored token with the parsed user, or corrupt when the user data does not parse |
| AuthStore.PersistThenRestore | app/auth/useAuthStore.js:108-125 | what a login persists restores to the same token and user, with the response's customerId and mobileNumber and no token inside the user |
| AuthStore.ClearedRestoresNothing | app/auth/useAuthStore.js:52-54 | once both keys are removed nothing is restored |
| AuthStore.Store.constructor | app/auth/useAuthStore.js:12-20 | initial state: empty number and OTP, not loading, no error, not sent, unauthenticated, null ids, no user or token |
| AuthStore.Store.SetMobileNumber | app/auth/useAuthStore.js:23 | sets only the mobile number |
| AuthStore.Store.SetOtp | app/auth/useAuthStore.js:24 | sets only the OTP |
| AuthStore.Store.SetLoading | app/auth/useAuthStore.js:25 | sets only the loading flag |
| AuthStore.Store.SetError | app/auth/useAuthStore.js:26 | sets only the error |
| AuthStore.Store.SetAuthData | app/auth/useAuthStore.js:29-50 | storage becomes the persisted login; the store is authenticated with the token, the user record, customerId and mobileNumber from the response; the error is cleared; the session invariant holds |
| AuthStore.Store.ClearAuthData | app/auth/useAuthStore.js:52-64 | both keys are removed and the session fields are reset; loading and error are kept |
| AuthStore.Store.SendOtp | app/auth/useAuthStore.js:67-82 | posts only the mobile number; success resolves with the payload and marks the OTP sent; failure records and throws the server message or "Failed to send OTP"; loading ends false |
| AuthStore.Store.VerifyOtp | app/auth/useAuthStore.js:84-106 | posts number and OTP; a reply with a token persists it and authenticates; a reply without one, or a failure, changes no session field or storage and throws the server message or "Failed to verify OTP" |
| AuthStore.Store.VerifyToken | app/auth/useAuthStore.js:108-131 | true exactly when storage restores a session; a missing key changes nothing; a restored session sets token, user, customerId and mobileNumber; a read fault or unparsable user data clears storage and session |
| AuthStore.Store.Logout | app/auth/useAuthStore.js:133-142 | storage and session are cleared and a later restore finds no session |
| AuthStore.Store.InitializeAuth | app/auth/useAuthStore.js:145-152 | answers whether storage restores a session; missing keys change nothing; a restored session sets token, user, customerId and mobileNumber; a read fault or unparsable user data clears storage and session; loading and error are kept |
| AuthStore.LoginThenRestore | app/auth/useAuthStore.js:97 | a login followed by a start-up restore succeeds with the same token, user, customerId and mobileNumber |
| AuthAxios.BearerValue | app/auth/useAxios.js:19 | the header value is "Bearer " followed by the token, unchanged |
| AuthAxios.BearerRoundTrip | app/auth/useAxios.js:19 | reading the token back from the header value gives the token |
| AuthAxios.BearerInjective | app/auth/useAxios.js:19 | distinct tokens give distinct header values |
| AuthAxios.AttachBearer | app/auth/useAxios.js:17-22 | with a truthy token `Authorization` carries exactly that token; with a null or empty one the headers are unchanged; other headers are never touched |
| AuthAxios.ApiClient.constructor | app/auth/useAxios.js:11-13 | an instance has the fixed base URL and the token it was given |
| AuthAxios.ApiClient.InterceptRequest | app/auth/useAxios.js:17-22 | returns the same config object; its headers become the bearer-attached headers |
| AuthAxios.ApiClient.InterceptError | app/auth/useAxios.js:23 | the request error is rejected unchanged |
| AuthAxios.UseAxios | app/auth/useAxios.js:8-27 | a fresh instance on the fixed base URL holding the store's token at that moment |
| AuthAxios.SnapshotSurvivesLogout | app/auth/useAxios.js:9 | an instance made while logged in still sends the old token after the store logs out |
| EditProfile.CheckedEmailMatches | app/EditProfile.js:71 | a string passing the character-level email check matches the regular expression |
| EditProfile.MatchedEmailChecks | app/EditProfile.js:71 | a string matching the regular expression passes the character-level check |
| EditProfile.EmailCheckMatchesPattern | app/EditProfile.js:71 | the executable email check accepts exactly the strings the regular expression matches |
| EditProfile.PatternIsNotBlank | app/EditProfile.js:68-71 | an email the pattern matches is never blank, so the "required" branch never hides a match |
| EditProfile.FullNameError | app/EditProfile.js:63-66 | "Full name is required" exactly when the name is blank once trimmed |
| EditProfile.EmailError | app/EditProfile.js:68-74 | "Email is required" exactly when the email is blank once trimmed |
| EditProfile.EmailErrorMeaning | app/EditProfile.js:68-74 | a non-blank email is accepted exactly when it matches the pattern, and otherwise gets "Please enter a valid email" |
| EditProfile.FormValidIff | app/EditProfile.js:59-79 | the form is valid exactly when the name is not blank and the email matches; the mobile number never matters |
| EditProfile.WithField | app/EditProfile.js:81-86 | the named field takes the new value and the others keep theirs |
| EditProfile.SubmitBody | app/EditProfile.js:88-96 | a request is sent exactly when the form is valid, carrying the full name and email only |
| EditProfile.SaveEnabledOnlyForValidData | app/EditProfile.js:198 | an enabled save button means not submitting and data that would be sent |
| EditProfile.EditProfileScreen.constructor | app/EditProfile.js:20-32 | initial state: loading, not submitting, no error, empty form, no field errors, not valid |
| EditProfile.EditProfileScreen.ValidateForm | app/EditProfile.js:59-79 | afterwards the field errors and the valid flag are those of the current form data, and the flag is returned |
| EditProfile.EditProfileScreen.FetchProfile | app/EditProfile.js:36-53 | success loads the profile; failure keeps the form and records the server message or "Failed to fetch profile data"; loading ends and the validation reflects the form |
| EditProfile.EditProfileScreen.HandleChange | app/EditProfile.js:81-86 | only the named field changes, and validation reflects the new data |
| EditProfile.EditProfileScreen.HandleSubmit | app/EditProfile.js:88-105 | sends exactly the body for valid data and nothing otherwise; a rejected update records the server message or "Failed to update profile"; submitting ends false after a send |
| LocationMap.BuildingLabel | app/LocationMap.js:82 | the name when truthy, else the street number and street joined by a space (null written as "null"); never empty |
| LocationMap.PresentPartsKept | app/LocationMap.js:83 | the kept parts are all non-empty, and none are kept exactly when every part is falsy |
| LocationMap.FullAddressSpelledOut | app/LocationMap.js:83 | the full address is the building, then ", street" if present, then ", city" if present |
| LocationMap.FullAddressEmptyIff | app/LocationMap.js:83 | the full address is empty exactly when building, street and city are all falsy |
| LocationMap.ComposedAddressNonEmpty | app/LocationMap.js:80-90 | every geocode result yields a non-empty full address that starts with its building label |
| LocationMap.DistanceLabelFor | app/LocationMap.js:113-117 | kilometres exactly when the distance is above 1000 m, and the label stands for the same distance |
| LocationMap.ServiceabilityOf | app/LocationMap.js:120-126 | serviceable exactly up to and including 5000 m; beyond it the fixed not-serviceable message |
| LocationMap.ServiceabilityRules | app/LocationMap.js:113-126 | moving closer never loses service, and an unserviceable distance is always shown in kilometres |
| LocationMap.LocationMapScreen.constructor | app/LocationMap.js:9-19 | initial state: no location or error, loading, street "Fetching location...", empty full address, no distance, serviceable |
| LocationMap.LocationMapScreen.LocationUpdateFor | app/LocationMap.js:40-48 | the parent is told exactly when it has a callback and the full address is non-empty, with the details, distance and serviceability |
| LocationMap.LocationMapScreen.CurrentView | app/LocationMap.js:133-159 | spinner exactly while loading; an error without retry exactly when out of range; an error with retry otherwise; else the building or street |
| LocationMap.LocationMapScreen.ReverseGeocode | app/LocationMap.js:76-96 | the first result replaces the details with a non-empty address; no result leaves them; a failure keeps them and sets the error to "Couldn't fetch address details" |
| LocationMap.LocationMapScreen.FetchLocation | app/LocationMap.js:50-74 | resets to serviceable with no error; a denied permission sets the denial as the error and locates nothing; a located position is stored and geocoded, and then the parent is told; loading ends |
| LocationMap.LocationMapScreen.CalculateDistance | app/LocationMap.js:98-127 | without a location nothing changes; otherwise the distance label and serviceability follow the thresholds, and the error is cleared or set to the not-serviceable message |
| AddressBook.WithField | app/address.js:82-87 | the named field takes the new text; every other field, the id, type and coordinates are kept |
| AddressBook.EditUndone | app/address.js:82-87 | typing the old text back restores the form exactly |
| AddressBook.WithCoordinates | app/address.js:68-72 | only latitude and longitude change, to the position's |
| AddressBook.EditAndLocateCommute | app/address.js:68-72 | a field edit and a locate give the same form in either order |
| AddressBook.SaveDisabledFor | app/address.js:292 | disabled exactly while loading or while latitude is zero, so a blank form can never be saved |
| AddressBook.SubmitRequest | app/address.js:291 | an update of the form's own id exactly in edit mode, an add otherwise, with the form as body |
| AddressBook.MutationTraffic | app/address.js:92-93 | a mutation is followed by a list re-fetch exactly when the server accepted it |
| AddressBook.TrafficSplit | app/address.js:89-129 | the traffic of a run is that of the calls before any given call, then its own, then that of the calls after it |
| AddressBook.AcceptedMutationsRefetch | app/address.js:89-129 | in any run of add, update and delete calls, the i-th call, when accepted, sits right after the traffic of the calls before it and is followed at once by a list re-fetch, even when the same request is repeated |
| AddressBook.ViewOf | app/address.js:191-206 | spinner only on a first load; an error hides the list; the list shown is the loaded one |
| AddressBook.AddressScreen.constructor | app/address.js:19-35 | initial state: empty list, loading, no error, modals closed, add mode, blank form, nothing sent |
| AddressBook.AddressScreen.FetchAddresses | app/address.js:42-52 | one list request; success replaces the list, failure keeps it and records the server message or "Failed to fetch addresses" |
| AddressBook.AddressScreen.Mutate | app/address.js:89-129 | sends the request and re-fetches exactly when accepted; a rejection records the server message or the fallback; a recorded error is never cleared |
| AddressBook.AddressScreen.HandleAddAddress | app/address.js:89-101 | posts the form, re-fetches once accepted and closes the modal; a rejection records "Failed to add address" or the server message |
| AddressBook.AddressScreen.HandleUpdateAddress | app/address.js:103-116 | puts the form under the id, re-fetches once accepted, closes the modal and leaves edit mode; a rejection keeps both |
| AddressBook.AddressScreen.HandleDeleteAddress | app/address.js:118-129 | deletes the id and re-fetches once accepted; a rejection records "Failed to delete address" or the server message |
| AddressBook.AddressScreen.GetCurrentLocation | app/address.js:54-80 | a located position is stored and merged into the form's coordinates only, and the map opens; otherwise only loading changes |
| AddressBook.AddressScreen.HandleInputChange | app/address.js:82-87 | the form becomes the single-field edit of the old form |
| AddressBook.AddressScreen.OpenEditModal | app/address.js:131-139 | the form is a copy of the address, the map centres on its coordinates, edit mode and the modal are on |
| AddressBook.AddressScreen.OpenAddModal | app/address.js:141-154 | the form is blank with type "Home", add mode, the modal is open, and save is disabled |
| AddressBook.AddressScreen.ConfirmLocation | app/address.js:156-158 | the map closes |
| AddressBook.AddressScreen.SaveDisabled | app/address.js:292 | disabled exactly while loading or while the form's latitude is zero |
| AddressBook.AddressScreen.CurrentView | app/address.js:191-206 | the list is shown only without an error, and a recorded error shows once loading ends |
| AddressBook.AddressScreen.SubmitForm | app/address.js:291 | sends the update or the add that the edit mode selects; once accepted the modal closes, edit mode ends and the re-fetch replaces the list or records the fetch failure; a rejection keeps the list and records the matching fallback; loading ends false |
| AddressBook.ErrorIsSticky | app/address.js:199 | once an error is recorded, a later save and delete leave the screen on the error whatever the server answers |

## Left out

- The HTTP calls themselves (axios) are not modelled. Replies are parameters: the payload, or a failure carrying the server's message when it sent one. For the store, the message is the one under `response.data.data.message`; for the screens, the one under `response.data.message`.
- `JSON.stringify` and `JSON.parse` have no implementation. They are an abstract codec on flat records, and a round trip that never yields empty text is required of it.
- AsyncStorage: writes and removals always succeed. A failing read is the `readFault` parameter of `VerifyToken`.
- EditProfile.EditProfileScreen.FetchProfile: the profile payload is three strings. The code copies `fullName` and `email` unchecked (`app/EditProfile.js:41-43`), and a null or absent value would make `.trim()` throw inside validation (`:63`, `:68`). That throw is not modelled, and the validation state after a fetch relies on the string typing.
- Nested objects and arrays inside server payloads and stored records are not modelled; records are flat maps of primitives.
- JSON text that parses to a non-object is modelled as corrupt user data, which clears the session. JavaScript itself clears only for `null`, and keeps a number or a string as the "user".
- AuthStore.SessionToken: a truthy token that is not a string (a number, `true`) counts as missing here, whereas the code would store it.
- Router navigation after logout and after a profile update, alerts, console logging and styles are not modelled.
- `BASE_URL` from the Expo configuration (`app/auth/useAuthStore.js:8`) is a deployment value; the store's endpoints are not modelled.
- Haversine distance, `toFixed(1)` and `Math.round` formatting are not modelled. The distance in metres is an input, and the label keeps the unrounded value.
- NaN coordinates are not modelled. Latitudes are reals, so a zero latitude is the only falsy one.
- Location permission, GPS, reverse-geocoding services and map rendering are not modelled; their answers are parameters. A missing `restaurantLocation` always falls back to the default. React effect scheduling is not modelled. The default object is rebuilt on every render (`app/LocationMap.js:21-28`), so once a location is known the distance effect (`:34-38`) runs again after every render. Each run overwrites the error, so in the running screen the geocode-failure message (`:94`) and a denial on a later refresh (`:58`) are replaced on the next render by the serviceability result. The model runs `CalculateDistance` only when it is called, so `ReverseGeocode` and `FetchLocation` state the error they set, not how long it stays on screen.
- The order in which React runs the location effect (`calculateDistance`) relative to a pending reverse geocode is not modelled. Interleaving of overlapping async requests is event-loop concurrency.
- The address list's `View on Map` button, key extraction and the map modal's back button are not modelled.
- Which address fields the server returns is not modelled. The address record holds the fields the form edits, plus `id`, `addressType` and the coordinates.
- The onboarding pager (`app/index.js`), the tab bar (`app/components/TabBar.js`) and the root layout (`app/_layout.js`) are not part of this model. Neither are cart, order and payment screens.
