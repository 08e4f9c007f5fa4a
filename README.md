# Dairy management screens — a Dafny model

The Dairy Management App is a React Native field client for dairy farms. This
project models the logic of five of its screens:

- **Infrastructure assessment** (`InfraScreen.js`): the list of subsections of
  one assessment section, a keyword-chosen icon per subsection, the fixed
  three-tier rubric (colour, label, icon and description per score 1–3), the
  expand/collapse state of each card, the score selector, the submit flow with
  its per-subsection in-flight flag, and photo attachment.
- **Livestock form** (`FormScreen.js`, and the clear-all action of
  `HomeScreen.js`): the ten-field form, validation that rejects blank or
  whitespace-only fields, location capture with its error messages, and
  saving a record to the `dairyData` list in on-device storage.
- **Login** (`LoginScreen.tsx`): the shared sign-in/sign-up form, the
  sign-up checks (required fields first, then the password match), the login
  check, and switching between the two views.
- **User map** (`MapScreen.js`): keeping only users with truthy coordinates,
  centring the map on the first of them, one marker per user, and the details
  modal that a marker's message opens.
- **Assessment categories** (`ScoreScreen.js`): turning the server's sections
  into cards (an icon by exact name with a wind-icon default, a gradient by
  id), and the navigation parameters a card press passes to the
  infrastructure screen.

Each screen's state becomes a Dafny `class` whose methods change its fields
the way the component's `setState` calls do. The decision logic becomes pure
functions, with lemmas about them. Network responses, the permission answer,
the geolocation result, the camera result, the storage outcome and the user's
answer to a confirmation dialog are all method parameters. Alerts are
returned as values holding their title and message.

Modules, one file each:

- `Common` (`common.dfy`)
- `Text` (`text.dfy`): JavaScript `trim`, `toLowerCase` and `includes`
- `Storage` (`storage.dfy`): the key-value store
- `Infra` (`infra.dfy`)
- `Livestock` (`livestock.dfy`)
- `Login` (`login.dfy`)
- `UserMap` (`usermap.dfy`)
- `ScoreCategories` (`scorecategories.dfy`)

Two behaviours of the code that the model follows:

- **Selections do not survive a re-render.** `ScoreSelector` and
  `CategoryCard` are components declared inside the body of `InfraScreen`
  (`InfraScreen.js:265`, `InfraScreen.js:352`), and the selector is drawn only
  while its card is expanded (`InfraScreen.js:399`). So a selector is mounted
  afresh, starting from `scores[id] || null`, on re-expanding and on every
  other state update of the screen. `Infra.ScoreSelector.constructor` models
  that starting point; see "## Left out" for the updates the model does not
  reset on.
- **No stored scores.** These screens neither load earlier scores nor cache
  them on the device, and a submit always POSTs (`InfraScreen.js:103`). The
  scores map starts empty and is filled only by successful submissions.

## Model

| member | source | states |
|---|---|---|
| Text.TrimStart | DairyManagementApp/src/screens/FormScreen.js:181 | the result is a suffix of the input; everything removed is whitespace; the result does not start with whitespace |
| Text.TrimEnd | DairyManagementApp/src/screens/FormScreen.js:181 | the result is a prefix of the input; everything removed is whitespace; the result does not end with whitespace |
| Text.LeadingRunEnd | DairyManagementApp/src/screens/FormScreen.js:181 | the scan from an index stops at the first character that is not whitespace, or at the end, and passes only whitespace |
| Text.TrailingRunStart | DairyManagementApp/src/screens/FormScreen.js:181 | the backward scan to an index stops after the last character before it that is not whitespace, or at 0, and passes only whitespace |
| Text.Trim | DairyManagementApp/src/screens/FormScreen.js:181 | `trim()` removes leading and then trailing whitespace; `TrimIsSlice` and `TrimIsStrippedSlice` state what that leaves |
| Text.TrimIsSlice | DairyManagementApp/src/screens/FormScreen.js:181 | `trim()` leaves the slice of the text that starts where the leading whitespace ends |
| Text.TrimIsStrippedSlice | DairyManagementApp/src/screens/FormScreen.js:181 | only whitespace lies before and after that slice, and it neither starts nor ends with whitespace |
| Text.TrimEmptyIffAllWhitespace | DairyManagementApp/src/screens/FormScreen.js:181 | `trim()` gives the empty string exactly when the text is all whitespace |
| Text.ToLower | DairyManagementApp/src/screens/InfraScreen.js:135 | `toLowerCase()` keeps the length and lower-cases each ASCII capital in place, leaving every other character alone |
| Text.ToLowerIdempotent | DairyManagementApp/src/screens/InfraScreen.js:135 | lower-casing twice is lower-casing once |
| Text.Includes | DairyManagementApp/src/screens/InfraScreen.js:136-141 | `includes()`: the keyword starts the text or occurs in its tail; its partner `IncludesIffOccurs` proves this means an occurrence at some index |
| Text.OccursAtIncludes | DairyManagementApp/src/screens/InfraScreen.js:136-141 | an occurrence of the keyword at some index makes `includes` true |
| Text.IncludesHasOccurrence | DairyManagementApp/src/screens/InfraScreen.js:136-141 | `includes` true means there is an index where the keyword occurs |
| Text.IncludesIffOccurs | DairyManagementApp/src/screens/InfraScreen.js:136-141 | `includes` holds exactly when the keyword occurs at some index |
| Storage.ListStore.constructor | DairyManagementApp/src/screens/FormScreen.js:210-211 | a new store holds no keys |
| Storage.ListStore.GetList | DairyManagementApp/src/screens/FormScreen.js:210-211 | a missing key reads as the empty list; a present key reads as its stored list |
| Storage.ListStore.SetItem | DairyManagementApp/src/screens/FormScreen.js:215 | the key now reads as the new list and no other key changes |
| Storage.ListStore.RemoveItem | DairyManagementApp/src/screens/HomeScreen.js:28 | the key reads as empty afterwards and every other key reads as before |
| Common.HasId | DairyManagementApp/src/screens/InfraScreen.js:94 | `!userId` fails exactly for a missing id or 0 |
| Infra.TierOf | DairyManagementApp/src/screens/InfraScreen.js:145-185 | a rubric tier exists exactly for the scores 1, 2 and 3 |
| Infra.GetScoreColor | DairyManagementApp/src/screens/InfraScreen.js:187-189 | the colours of scores 1, 2 and 3 are red, amber and green; any other or missing score gives grey `#6B7280` |
| Infra.GetScoreText | DairyManagementApp/src/screens/InfraScreen.js:191-193 | the labels are "Bad Practice", "Needs Improvement" and "Good Practice"; anything else gives "Not Assessed" |
| Infra.GetScoreIcon | DairyManagementApp/src/screens/InfraScreen.js:195-197 | the icons are XCircle, AlertCircle and CheckCircle; anything else gives the camera |
| Infra.GetScoreDescription | DairyManagementApp/src/screens/InfraScreen.js:199-201 | a tier plus an exact rubric subsection name gives that rubric cell; otherwise "No description available" |
| Infra.ScoreTextAssessedIff | DairyManagementApp/src/screens/InfraScreen.js:191-193 | the label is "Not Assessed" exactly when the score has no tier |
| Infra.ScoreColorsDistinct | DairyManagementApp/src/screens/InfraScreen.js:145-189 | different tiers have different colours, and none of them is the unassessed grey |
| Infra.DescriptionAvailableIff | DairyManagementApp/src/screens/InfraScreen.js:145-201 | a real description appears exactly when the score has a tier and the name is one of the six rubric subsections |
| Infra.FirstKeywordIconSpec | DairyManagementApp/src/screens/InfraScreen.js:134-143 | the reference keyword search returns the icon of the first keyword the name contains, and Home when it contains none |
| Infra.GetIconForSubsection | DairyManagementApp/src/screens/InfraScreen.js:134-143 | the icon is always one of Home, Shield, Wind, Droplets and Trash2 |
| Infra.IconFollowsKeywordTable | DairyManagementApp/src/screens/InfraScreen.js:134-143 | the if-chain agrees with the first-match search over the ordered keyword table, applied to the lower-cased name |
| Infra.IconIgnoresCase | DairyManagementApp/src/screens/InfraScreen.js:135 | a name and its lower-cased form get the same icon |
| Infra.InitialSelection | DairyManagementApp/src/screens/InfraScreen.js:266 | the selector starts on the recorded score when there is a truthy one, and on nothing otherwise |
| Infra.SelectedOptions | DairyManagementApp/src/screens/InfraScreen.js:285-286 | the highlighted options are exactly the selected score when it is one of 1–3, and none otherwise (no selection, or a value outside 1–3) |
| Infra.IsSubmitting | DairyManagementApp/src/screens/InfraScreen.js:267 | `submitting[id]`, with a subsection never submitted read as not in flight |
| Infra.SubmitEnabled | DairyManagementApp/src/screens/InfraScreen.js:324-327 | the button is enabled exactly when a truthy score is selected and the card has no submission in flight; `StartSubmit` and `FinishSubmit` state the button after each step |
| Infra.RecordedScoreIsReselected | DairyManagementApp/src/screens/InfraScreen.js:266 | after a score is recorded, a fresh selector for that subsection starts on it and highlights exactly it |
| Infra.ScoreSelector.constructor | DairyManagementApp/src/screens/InfraScreen.js:265-267 | a mounted selector's selection is the recorded score, or nothing |
| Infra.ScoreSelector.HandleScoreSelect | DairyManagementApp/src/screens/InfraScreen.js:269-271 | the tapped score becomes the selection; it is then the only highlighted option when it is one of 1–3, and nothing is highlighted otherwise |
| Infra.InfraScreen.constructor | DairyManagementApp/src/screens/InfraScreen.js:42-49 | the section id defaults to 1 and the user id is read from the route parameters; every per-subsection map starts empty and loading is on |
| Infra.InfraScreen.FetchSubsections | DairyManagementApp/src/screens/InfraScreen.js:67-91 | an ok response replaces the subsections; a failure keeps them and shows the load-error alert; loading ends |
| Infra.InfraScreen.ToggleSection | DairyManagementApp/src/screens/InfraScreen.js:203-208 | exactly the toggled card flips between expanded and collapsed |
| Infra.InfraScreen.StartSubmit | DairyManagementApp/src/screens/InfraScreen.js:93-100 | with no user id there is an alert and nothing changes; otherwise the subsection is marked in flight, and its button is then disabled whatever is selected |
| Infra.InfraScreen.FinishSubmit | DairyManagementApp/src/screens/InfraScreen.js:101-131 | success records the score and shows the success alert; failure keeps the scores and shows the error alert; the in-flight flag is cleared either way, so the button is enabled again exactly when a score is chosen |
| Infra.InfraScreen.SubmitScore | DairyManagementApp/src/screens/InfraScreen.js:93-131 | the whole submit gives the same outcome as those two steps; other subsections' scores are kept |
| Infra.InfraScreen.HandleSubmit | DairyManagementApp/src/screens/InfraScreen.js:273-279 | with no truthy selection it asks for a score and changes nothing; otherwise it submits the selected score, with the outcome and alert of `SubmitScore` |
| Infra.InfraScreen.HandleImageUpload | DairyManagementApp/src/screens/InfraScreen.js:210-263 | a photo taken records its URI for the subsection; cancel, camera error or permission denied leave the images as they were, with the matching alert |
| Infra.ToggleTwiceRestores | DairyManagementApp/src/screens/InfraScreen.js:203-208 | toggling one card twice restores every card's expansion state |
| Livestock.LivestockForm.Set | DairyManagementApp/src/screens/FormScreen.js:161-166 | the named field takes the new text and every other field keeps its own |
| Livestock.FormExtensional | DairyManagementApp/src/screens/FormScreen.js:18-32 | a form is determined by the texts of its ten fields |
| Livestock.SetSameValueIsIdentity | DairyManagementApp/src/screens/FormScreen.js:161-166 | writing a field's own text back leaves the form unchanged |
| Livestock.EveryFieldIsRequired | DairyManagementApp/src/screens/FormScreen.js:169-180 | every one of the ten fields is in the required list |
| Livestock.MissingFields | DairyManagementApp/src/screens/FormScreen.js:181 | a field is reported missing exactly when it is in the list and blank after trimming |
| Livestock.IsBlank | DairyManagementApp/src/screens/FormScreen.js:181 | a field is blank after `trim()` exactly when it holds only whitespace, or nothing |
| Livestock.ValidateForm | DairyManagementApp/src/screens/FormScreen.js:168-189 | the form is valid exactly when no field is blank after trimming |
| Livestock.ValidIffNoFieldAllWhitespace | DairyManagementApp/src/screens/FormScreen.js:168-189 | the form is valid exactly when no field is empty or whitespace only |
| Livestock.WhitespaceOnlyIsMissing | DairyManagementApp/src/screens/FormScreen.js:181-186 | entering whitespace only in any field makes the form invalid |
| Livestock.LocationErrorMessage | DairyManagementApp/src/screens/FormScreen.js:129-143 | codes 1, 2 and 3 give the permission, unavailable and timeout messages; any other code gives the unknown-error message; all carry the common prefix |
| Livestock.LocationMessagesDistinguishKnownCodes | DairyManagementApp/src/screens/FormScreen.js:129-143 | every message starts with the prefix; a known code's message differs from every other code's; all unknown codes share one message |
| Livestock.FormScreen.constructor | DairyManagementApp/src/screens/FormScreen.js:18-35 | the form starts empty, with no location and not locating |
| Livestock.FormScreen.HandleInputChange | DairyManagementApp/src/screens/FormScreen.js:161-166 | one field changes and the location state is kept |
| Livestock.FormScreen.GetCurrentLocation | DairyManagementApp/src/screens/FormScreen.js:93-159 | no permission gives no result and no change; a position is stored and returned; an error returns the code's message with the "Location Error" alert; locating ends once the request is made |
| Livestock.FormScreen.SaveData | DairyManagementApp/src/screens/FormScreen.js:191-231 | it saves exactly when the form is valid, a location is obtained and storage works; it then appends the form with its location, date and id to `dairyData`; in every other case the store is unchanged and the case's alert is shown; on success the stored list is one longer, keeps the earlier records in order and has the new one last |
| Livestock.FormScreen.AppendRecord | DairyManagementApp/src/screens/FormScreen.js:210-215 | the record is appended under `dairyData` exactly when reading and writing both succeed, an absent list reading as empty; the list then grows by one with the record last; a failed read or write leaves the store unchanged |
| Livestock.StoredListGrew | DairyManagementApp/src/screens/FormScreen.js:210-215 | the growth a save promises: one record longer, the earlier records unchanged in order, the new one last |
| Livestock.SaveAlerts | DairyManagementApp/src/screens/FormScreen.js:145-229 | every way `saveData` ends shows one alert, except a location error, which is followed by the generic failure; only a save shows the success alert; the generic failure comes last and appears exactly for location and storage failures |
| Livestock.ClearDairyData | DairyManagementApp/src/screens/HomeScreen.js:15-38 | only a confirmed, successful removal empties `dairyData`; cancelling or a failure leaves the store as it was; the alert matches the outcome |
| Login.AccountForm.Set | DairyManagementApp/src/screens/LoginScreen.tsx:54-56 | the named field takes the new text and every other field keeps its own |
| Login.CheckSignUp | DairyManagementApp/src/screens/LoginScreen.tsx:60-72 | sign-up succeeds exactly when first name, phone and password are non-empty and the two passwords match; it reports missing fields exactly when one of the three is empty |
| Login.CheckLogin | DairyManagementApp/src/screens/LoginScreen.tsx:74-82 | login succeeds exactly when phone and password are both non-empty |
| Login.RequiredCheckedBeforeMismatch | DairyManagementApp/src/screens/LoginScreen.tsx:60-68 | a mismatch is reported only when all required fields are present; an empty first name always reports missing fields |
| Login.LoginReadsOnlyCredentials | DairyManagementApp/src/screens/LoginScreen.tsx:74-82 | two forms with the same phone and password log in alike |
| Login.SignUpIgnoresOtherFields | DairyManagementApp/src/screens/LoginScreen.tsx:60-72 | editing a field that the sign-up checks do not read leaves the verdict unchanged |
| Login.WhitespaceOnlyValuesPass | DairyManagementApp/src/screens/LoginScreen.tsx:60-82 | neither check trims: whitespace-only text, which `trim()` would reduce to nothing, counts as present, so it logs in and leaves sign-up to the password match |
| Login.LoginScreen.constructor | DairyManagementApp/src/screens/LoginScreen.tsx:26-50 | the screen opens on the login view with every field empty |
| Login.LoginScreen.HandleInputChange | DairyManagementApp/src/screens/LoginScreen.tsx:54-56 | one field changes; the view is kept |
| Login.LoginScreen.HandleSignUp | DairyManagementApp/src/screens/LoginScreen.tsx:60-72 | the verdict follows the checks in order; only success switches to the login view; the form is kept; the alert matches the verdict |
| Login.LoginScreen.HandleLogin | DairyManagementApp/src/screens/LoginScreen.tsx:74-82 | it navigates on exactly when phone and password are present, with the matching alert |
| Login.LoginScreen.ShowSignUp | DairyManagementApp/src/screens/LoginScreen.tsx:131 | the sign-up link shows the sign-up view and keeps the form |
| Login.LoginScreen.ShowLogin | DairyManagementApp/src/screens/LoginScreen.tsx:289 | the sign-in link shows the login view and keeps the form |
| UserMap.WithLocation | DairyManagementApp/src/screens/MapScreen.js:37 | every kept user has truthy coordinates, and a user is kept exactly when it has them |
| UserMap.HasLocation | DairyManagementApp/src/screens/MapScreen.js:37 | `u.latitude && u.longitude`: both coordinates present and non-zero |
| UserMap.WithLocationOfConcat | DairyManagementApp/src/screens/MapScreen.js:37 | the filter keeps order: filtering a concatenation concatenates the filtered parts |
| UserMap.WithLocationKeepsLocated | DairyManagementApp/src/screens/MapScreen.js:37 | a list of located users passes the filter unchanged |
| UserMap.WithLocationIdempotent | DairyManagementApp/src/screens/MapScreen.js:37 | filtering twice is filtering once |
| UserMap.FirstKeptIsFirstLocated | DairyManagementApp/src/screens/MapScreen.js:37-41 | the user the map centres on is the first user in the response that has a location |
| UserMap.Markers | DairyManagementApp/src/screens/MapScreen.js:52-62 | there is one marker per user |
| UserMap.UserAt | DairyManagementApp/src/screens/MapScreen.js:94 | `users[index]` is that user inside the list and undefined outside it |
| UserMap.MarkerSelectsItsUser | DairyManagementApp/src/screens/MapScreen.js:52-62 | the index a marker posts back selects the user the marker was drawn for |
| UserMap.MapScreen.constructor | DairyManagementApp/src/screens/MapScreen.js:19-24 | no users, the centre over India, no selection, modal hidden, web view key 0, loading |
| UserMap.MapScreen.ModalShown | DairyManagementApp/src/screens/MapScreen.js:111-146 | the details modal is on screen exactly when loading has ended, there is a user to show (past the two early returns), a user is selected and the visible flag is set |
| UserMap.MapScreen.LoadUsersData | DairyManagementApp/src/screens/MapScreen.js:33-49 | success keeps exactly the located users and centres on the first one, if any; failure keeps users and centre and alerts; every user shown is located; loading ends and the web view key goes up by one; the modal is then shown exactly when users remain and a user is selected with the flag set |
| UserMap.MapScreen.HandleWebViewMessage | DairyManagementApp/src/screens/MapScreen.js:90-100 | a "showDetails" message selects the user at its index and opens the modal; any other message, including unparseable text, changes nothing |
| UserMap.MapScreen.CloseModal | DairyManagementApp/src/screens/MapScreen.js:157 | the modal is hidden and nothing else changes |
| UserMap.ShowMarkerDetails | DairyManagementApp/src/screens/MapScreen.js:90-100 | once loading has ended (the web view holding the markers is drawn only then, l.111-118), pressing any marker's details button shows the modal for that marker's user |
| ScoreCategories.IconFor | DairyManagementApp/src/screens/ScoreScreen.js:93-102 | a name in the icon table gets its icon; any other name gets the wind icon |
| ScoreCategories.GradientFor | DairyManagementApp/src/screens/ScoreScreen.js:105-114 | ids in the gradient table get their entry; any other id gets cyan |
| ScoreCategories.ToCategory | DairyManagementApp/src/screens/ScoreScreen.js:143-148 | a card carries its section's id and name, with the icon by name and the gradient by id |
| ScoreCategories.ToCategories | DairyManagementApp/src/screens/ScoreScreen.js:143-148 | there is one card per section, in the response's order |
| ScoreCategories.WindIffUnknownName | DairyManagementApp/src/screens/ScoreScreen.js:93-102 | a card shows the wind icon exactly when its section's name is not in the table |
| ScoreCategories.EveryGradientIsCyan | DairyManagementApp/src/screens/ScoreScreen.js:105-114 | every card gets the cyan gradient, whatever its id |
| ScoreCategories.ToCategoriesOfConcat | DairyManagementApp/src/screens/ScoreScreen.js:143-148 | cards are built one section at a time: a concatenation gives concatenated cards |
| ScoreCategories.HandleCategoryPress | DairyManagementApp/src/screens/ScoreScreen.js:166-173 | the navigation carries the user id, the card's id as section id and its title as section name |
| ScoreCategories.PressOpensItsSection | DairyManagementApp/src/screens/ScoreScreen.js:166-173 | pressing the card of the i-th section navigates with that section's own id and name |
| ScoreCategories.ScoreScreen.constructor | DairyManagementApp/src/screens/ScoreScreen.js:117-120 | there are no cards yet and loading is on |
| ScoreCategories.ScoreScreen.FetchScoreCategories | DairyManagementApp/src/screens/ScoreScreen.js:132-164 | an ok response replaces the cards with the ones built from it; a failure keeps the cards and alerts; loading ends |
| ScoreCategories.OpenInfraScreen | DairyManagementApp/src/screens/ScoreScreen.js:166-173 | the infrastructure screen opens for the same user on the pressed card's section, with nothing scored yet |

## Left out

- Network calls (`fetch`, `getUsersList`) are not modelled. Each becomes a `Response` parameter: ok with data, not ok, or thrown. Request bodies, URLs and logging are not modelled.
- Infra.InfraScreen.FinishSubmit: a server reply that is not ok and one that throws are both treated as one failure. The code reads the error body, logs it and shows the same alert, so nothing visible differs.
- The Android permission dialogs and the `Platform.OS` check are not modelled. The answer is a parameter: `hasPermission` for the location, and for the camera `CameraOutcome.PermissionRefused` (the denied alert) or `CameraOutcome.PermissionFailed` (the request threw; the code logs a warning and returns silently, `InfraScreen.js:226-229`). The alerts shown by the location permission helper are not modelled.
- Camera picker options and the `response.assets` shape are not modelled. A photo taken is given by its URI.
- JSON parsing and serialisation of stored data and of web-view messages are not modelled. The store holds lists of records, and a message is either unparseable or an action with an index.
- Registration date and record id (`new Date()`, `Date.now()`) are parameters, because clocks are outside the model.
- Text.ToLower: only ASCII letters are folded. JavaScript's full Unicode case mapping is not modelled.
- Text.IsWhitespace: it lists the ECMAScript WhiteSpace and LineTerminator code points by hand: the ASCII ones, no-break space, U+1680, U+2000–U+200A, the line and paragraph separators, U+202F, U+205F, U+3000 and the BOM. It does not follow the Unicode Zs category as it changes over versions.
- UserMap.IsTruthy: a coordinate is `Some` and not 0. `NaN` coordinates, which JavaScript treats as falsy, cannot be written as a Dafny `real`.
- ScoreCategories.IconFor: only the eight names of the table are looked up. Inherited object keys such as `"constructor"`, which would return a prototype member in JavaScript, are not modelled. Infra.GetScoreDescription has the same omission.
- Livestock.MissingFields: it states which fields are missing but not the order of the list, which the screen never shows.
- Livestock.FormScreen.GetCurrentLocation: the save button is disabled while locating (`FormScreen.js:348-351`). That is a rendering rule, not a precondition of the method, so the model does not require it.
- Livestock.FormScreen.SaveData: the "Try Again" button of the location-error alert is not modelled. It starts a fresh location request, which `GetCurrentLocation` models on its own.
- Rendering is not modelled: styles, animations, gradients as drawn, the Leaflet HTML page and the text of its popups, the date picker and the gender dropdown.
- Infra.ScoreSelector: the model keeps a selector's selection across updates of other screen state. In the code, `ScoreSelector` and `CategoryCard` are declared inside `InfraScreen` (`InfraScreen.js:265`, `InfraScreen.js:352`), so every state update of the screen remounts every open selector. An unsubmitted selection then resets to `scores[id] || null`. Such updates include toggling any card, a photo upload, a subsection fetch, and the start or end of any card's submit. The model states only the starting point of a remount (`Infra.ScoreSelector.constructor`, `Infra.RecordedScoreIsReselected`). It does not reset existing selectors when those updates happen, because React's reconciliation is not part of the model.
- Navigation is not modelled: to the home screen after a successful login, and to the map screen from the OK button of the save alert. The model returns the verdict that decides them.
- The buttons of the two load-error alerts are not modelled: Retry and Cancel (`navigation.goBack()`) of the subsection-load alert (`InfraScreen.js:84-85`), and Retry and Cancel of the category-load alert (`ScoreScreen.js:157-158`). A Retry is a fresh call of `FetchSubsections` or `FetchScoreCategories`, which the model has on its own; going back is navigation.
- Focus-driven reloading of the map (`useIsFocused`) is not modelled. `LoadUsersData` is the reload.
- Concurrency between overlapping async calls is not modelled. Each call runs to completion in the model, apart from the submit flow, which is split at its await as `StartSubmit` and `FinishSubmit`.
