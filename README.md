# office-manager-native, client core in Dafny

This project models the client-side core of the office-manager mobile app (React Native, TypeScript).
That core has three parts.

- **The session lifecycle.** `AuthProvider` keeps `status` (checking, signed out, signed in), `user` and `token`. It mirrors them to two persistent stores: the session token in AsyncStorage and the last manual login in SecureStore.
  - On start-up it restores the session behind a biometric gate.
  - Its transitions are `signIn`, `signOut`, `refreshUser` and `setUserState`.
- **The screens' handlers.** These are manual and biometric login on the login screen, and enter/exit with single-flight guarding on the home screen. They also include note editing in the entered-users list, the office filter, registration, and the two password-reset forms.
- **The small rules the screens rely on.** These are office ordering, API base-URL resolution, size normalisation, the avatar initial, and the option-card toggle.

Every remote call, storage backend and OS capability is an input. An awaited call is a value `Attempt<T>`: `Done(value)` if it resolves, `Threw(error)` if it rejects. A storage backend is a map plus a failure switch. When the switch is on, every call to that backend throws.

Each async handler runs to completion, so one call is one step.

Code that changes state step by step is modelled imperatively. That covers the provider, the stores, the screens' state and the avatar's error latch. Each is a class whose methods are proved to produce exactly the next state given by a pure specification function, e.g. `Current() == RestoreSpec(old(Current()), …)`. The properties themselves are lemmas about those functions.

Code that is made of expressions stays functional, namely the navigator, the sorting and filtering, the configuration and the size rules.

Modules:

- **Common, Js, Strings, Sorting:** shared values; JavaScript truthiness, `??`, property access and `String(v)`; the whitespace set of `String.prototype.trim`; a stable insertion sort standing in for `Array.prototype.sort`.
- **Storage:** the two backends (`AsyncStorage`, `SecureStore`).
- **TokenStorage, CredentialStorage:** `tokenStorage` and `credentialStorage`.
- **Session:** `AuthProvider`.
- **Login, Navigation, Home, EnteredUsers, Users, OptionCards, Register, ResetPassword, ResetPasswordRequest:** one per screen or widget.
- **Offices, Config, Size, Spinner, Avatar:** one per utility.

## Model

| member | source | states |
|---|---|---|
| TokenStorage.Get | src/storage/tokenStorage.ts:6-17 | `get()` yields the value under the token key, or null when the backend read fails; it never throws |
| TokenStorage.Set | src/storage/tokenStorage.ts:18-27 | `set` writes `String(token ?? "")` under the token key only; a backend failure is swallowed and changes nothing |
| TokenStorage.Remove | src/storage/tokenStorage.ts:28-34 | `remove` deletes only the token key; a backend failure is swallowed |
| TokenStorage.AfterSet | src/storage/tokenStorage.ts:18-27 | after `set`, `get` yields the written text, and every other key is unchanged |
| TokenStorage.AfterRemove | src/storage/tokenStorage.ts:28-34 | after `remove`, `get` yields null, and every other key is unchanged |
| TokenStorage.SetThenGet | src/storage/tokenStorage.ts:6-27 | on a working backend, `set(t)` then `get()` returns `t` |
| TokenStorage.RemoveThenGet | src/storage/tokenStorage.ts:28-34 | `remove()` then `get()` returns null, even on a failing backend |
| CredentialStorage.Sanitize | src/storage/credentialStorage.ts:8-32 | null unless both fields are present and non-empty once converted to text; otherwise the pair of those texts |
| CredentialStorage.SanitizePair | src/storage/credentialStorage.ts:20-31 | a pair of strings survives sanitising unchanged exactly when neither string is empty |
| CredentialStorage.SanitizeIdempotent | src/storage/credentialStorage.ts:8-32 | sanitising what sanitising let through gives the same pair |
| CredentialStorage.GetResult | src/storage/credentialStorage.ts:35-55 | `get` yields null with nothing stored, on a backend failure, or for an unparseable or unsanitisable value; otherwise it yields the sanitised pair |
| CredentialStorage.AfterGet | src/storage/credentialStorage.ts:41-54 | `get` deletes a stored value that parses but fails sanitising; it keeps unparseable text, because the parse error skips the delete; nothing else changes |
| CredentialStorage.AfterSet | src/storage/credentialStorage.ts:56-76 | `set` of a pair that fails sanitising deletes the entry, otherwise it writes the pair; `get` then yields the sanitised pair |
| CredentialStorage.AfterRemove | src/storage/credentialStorage.ts:77-83 | after `remove`, `get` yields null; other keys are unchanged |
| CredentialStorage.Get | src/storage/credentialStorage.ts:35-55 | the method returns `GetResult` of the old backend and leaves `AfterGet` of it |
| CredentialStorage.Set | src/storage/credentialStorage.ts:56-76 | the method leaves `AfterSet` of the old backend and never throws |
| CredentialStorage.Remove | src/storage/credentialStorage.ts:77-83 | the method leaves `AfterRemove` of the old backend and never throws |
| CredentialStorage.SetThenGet | src/storage/credentialStorage.ts:35-55 | on a working backend, `set` of a non-empty pair followed by `get` returns that pair |
| Session.Restore | src/context/AuthContext.tsx:39-84 | restore ends with no token iff nothing truthy is stored; rejected iff hardware and enrolment are present and the challenge says no; restored iff the gate passes or is bypassed and the profile fetch succeeds |
| Session.RestoreOutcomes | src/context/AuthContext.tsx:39-84 | restore always settles consistently. Signed in means the stored token, the fetched user and both stores untouched. A refused challenge removes token and credentials; any throw removes only the token |
| Session.SignInSpec | src/context/AuthContext.tsx:90-109 | a rejected login changes nothing. A successful one ends signed in with the returned token and user. On a working backend the token store then holds the token, and the credential store holds the pair when both fields are non-empty |
| Session.SignOutSpec | src/context/AuthContext.tsx:111-123 | always ends signed out with no token or user, and the stored token gone; credentials are removed only with `forgetCredentials` |
| Session.RefreshSpec | src/context/AuthContext.tsx:125-136 | no-op without a token; a fetched profile replaces the user and sets signed in; a failure signs out keeping the credentials |
| Session.SetUserStateSpec | src/context/AuthContext.tsx:138-141 | sets the user and makes status signed in iff the user is present; token and stores are untouched |
| Session.TransitionsKeepConsistency | src/context/AuthContext.tsx:39-136 | restore, sign-in, sign-out and refresh all keep "signed in iff token and user are held" |
| Session.SetUserStateWhileSignedIn | src/context/AuthContext.tsx:138-141 | replacing the user of a live session keeps the invariant |
| Session.SetUserStateCanBreakConsistency | src/context/AuthContext.tsx:138-141 | from any consistent state, `setUserState` can break the invariant: a user while signed out, or null while signed in |
| Session.SignOutIdempotent | src/context/AuthContext.tsx:111-123 | signing out twice equals signing out once |
| Session.SignOutWhenSignedOut | src/context/AuthContext.tsx:111-123 | signing out when already signed out leaves the in-memory session as it was |
| Session.CredentialSurvival | src/context/AuthContext.tsx:111-123 | a routine sign-out keeps what `get` would read from the credential store, and `forgetCredentials` makes it null |
| Session.RestoreWithoutTokenConsultsNothing | src/context/AuthContext.tsx:39-47 | without a truthy stored token, no biometric or profile outcome matters; the result is signed out with both stores untouched |
| Session.RestoreWithoutHardwareSkipsChallenge | src/context/AuthContext.tsx:49-62 | without hardware, neither enrolment nor the challenge matters |
| Session.RestoreWithoutEnrolmentSkipsChallenge | src/context/AuthContext.tsx:51-62 | when not enrolled, the challenge does not matter |
| Session.SessionManager.LoadSession | src/context/AuthContext.tsx:39-84 | the handler leaves exactly `RestoreSpec` of the old provider and stores |
| Session.SessionManager.SignIn | src/context/AuthContext.tsx:90-109 | leaves exactly `SignInSpec`, and propagates the login's error |
| Session.SessionManager.SignOut | src/context/AuthContext.tsx:111-123 | leaves exactly `SignOutSpec` |
| Session.SessionManager.RefreshUser | src/context/AuthContext.tsx:125-136 | leaves exactly `RefreshSpec` |
| Session.SessionManager.SetUserState | src/context/AuthContext.tsx:138-141 | leaves exactly `SetUserStateSpec` |
| Login.ChallengeGate | src/screens/LoginScreen.tsx:114-152 | approval requires hardware, enrolment, a successful challenge and no usage-description warning. Refusal shows an error only for a present code other than `user_cancel` |
| Login.BiometricDecision | src/screens/LoginScreen.tsx:102-176 | ignored iff no saved pair or an attempt is running; the Expo Go error iff the app cannot require biometrics; sign-in is attempted iff the gate approves |
| Login.BiometricLoginEffects | src/screens/LoginScreen.tsx:102-176 | an ignored attempt changes nothing, and `biometricLoading` is false afterwards. `loading` stays set only after a successful sign-in; the typed email and password are kept |
| Login.BiometricLoginMessages | src/screens/LoginScreen.tsx:102-176 | the message each outcome leaves. In Expo Go it is the unsupported text, and the sheet closes. Missing hardware and missing enrolment each get their own text. A refused challenge gets the failure text only when its error is present and not `user_cancel`, else no message. The usage-description warning gets its own text, and a throw gets the manual-login text. Success clears both messages and closes the sheet. For the hardware, enrolment and refusal outcomes the sheet stays as it was |
| Login.BiometricLoginSessionEffects | src/screens/LoginScreen.tsx:133-176 | the usage-description warning or any throw purges the stored and in-memory pair and hides the sheet; other outcomes keep them. Only an approved challenge signs in, with the saved pair |
| Login.LoginSpec | src/screens/LoginScreen.tsx:179-191 | no-op while loading; otherwise signs in with the trimmed inputs, shows the fixed message iff sign-in threw, and clears `loading` |
| Login.LoadCredentialsSpec | src/screens/LoginScreen.tsx:49-82 | when signed out, a saved pair pre-fills the email and the sheet is shown iff biometrics can be required; a missing pair hides it; any other status clears both |
| Login.LoginScreen.LoadCredentials | src/screens/LoginScreen.tsx:49-82 | the effect leaves exactly `LoadCredentialsSpec` |
| Login.LoginScreen.HandleBiometricDismiss | src/screens/LoginScreen.tsx:84-87 | hides the sheet unless an attempt is running; nothing else changes |
| Login.LoginScreen.HandleBiometricOpen | src/screens/LoginScreen.tsx:89-100 | no-op without a saved pair; shows the Expo Go error and hides the sheet when biometrics cannot be required, otherwise clears the error and shows it |
| Login.LoginScreen.Purge | src/screens/LoginScreen.tsx:138-143 | sets the message, removes the stored pair, forgets the in-memory one and hides the sheet |
| Login.LoginScreen.TryBiometricLogin | src/screens/LoginScreen.tsx:114-161 | the try block leaves exactly `TrySpec` and reports whether it threw and whether sign-in succeeded |
| Login.LoginScreen.HandleBiometricLogin | src/screens/LoginScreen.tsx:102-176 | the handler leaves exactly `BiometricLoginSpec` |
| Login.LoginScreen.HandleLogin | src/screens/LoginScreen.tsx:179-191 | the handler leaves exactly `LoginSpec` |
| Navigation.Navigator | src/navigation/AppNavigator.tsx:44-68 | the loading screen alone iff checking; every stack ends with Users |
| Navigation.RoutesPerStatus | src/navigation/AppNavigator.tsx:44-67 | checking registers nothing; signed out exactly Login, Register, ResetPasswordRequest, ResetPassword and Users; signed in exactly Home, Placeholder and Users |
| Navigation.Gating | src/navigation/AppNavigator.tsx:48-67 | Home iff signed in, Login and ResetPassword iff signed out, Users iff not checking |
| Navigation.SignedInAndOutShareOnlyUsers | src/navigation/AppNavigator.tsx:48-67 | Users is the only screen registered both signed in and signed out |
| Home.ActionPath | src/screens/HomeScreen.tsx:104-132 | the action's path lies under `/users/` |
| Home.ActionPathNamesAction | src/screens/HomeScreen.tsx:104-132 | the action's path ends in `/enter` for entering and `/exit` for leaving, and ends in `/enter` only when entering |
| Home.ActionPathInjective | src/screens/HomeScreen.tsx:104-132 | the path identifies both the user id and the action: two equal paths come from the same user and the same action |
| Home.NotifyRequest | src/screens/HomeScreen.tsx:66-84 | a notification is sent iff a token and a user are held; it carries the user's name, the status, the office code or null, and the note |
| Home.PerformSpec | src/screens/HomeScreen.tsx:86-102 | without a token or user, it resolves false and sends nothing. Otherwise it posts with the bearer token to the API path, and resolves true iff the response is ok. A non-ok response throws its text, or the fixed text when that is empty |
| Home.FetchEffects | src/screens/HomeScreen.tsx:39-58 | no-op without a token. Success sets the entered users (empty when absent) and the user, and signs in; failure keeps both and offers sign-out. The loading flags end cleared |
| Home.SingleFlight | src/screens/HomeScreen.tsx:104-132 | a press while an action is pending, or without a user, does nothing |
| Home.PendingClearedAfterwards | src/screens/HomeScreen.tsx:104-132 | a press that runs marks its action pending during the call and clears it afterwards |
| Home.FailedActionSkipsTheRest | src/screens/HomeScreen.tsx:104-132 | a failed action sends no notification, leaves the state as before and shows the failure alert |
| Home.SucceededActionNotifiesThenRefreshes | src/screens/HomeScreen.tsx:104-132 | a successful action posts, then notifies with its status word, then refreshes |
| Home.SaveNoteRules | src/screens/HomeScreen.tsx:134-154 | no-op without a token. The patch carries the note; the trimmed note is notified iff it is the user's own and not blank; only the user's own note is updated in memory |
| Home.HomeScreen.FetchData | src/screens/HomeScreen.tsx:39-58 | the method leaves exactly `FetchSpec` |
| Home.HomeScreen.NotifyStatus | src/screens/HomeScreen.tsx:66-84 | sends exactly `NotifyRequest` |
| Home.HomeScreen.PerformAction | src/screens/HomeScreen.tsx:86-102 | returns exactly `PerformSpec` |
| Home.HomeScreen.HandleAction | src/screens/HomeScreen.tsx:104-132 | the handler leaves exactly `ActionSpec` |
| Home.HomeScreen.HandleSaveNote | src/screens/HomeScreen.tsx:134-154 | the handler leaves exactly `SaveNoteSpec` |
| EnteredUsers.NormalizeNoteValue | src/components/home/EnteredUsersList.tsx:28-36 | strings are unchanged, null and undefined give `""`, anything else gives `String(v)`, which is non-empty |
| EnteredUsers.NormalizeNoteValueIsTextOf | src/components/home/EnteredUsersList.tsx:28-36 | it is the same conversion `sanitizeCredentials` applies to its fields |
| EnteredUsers.NotesForContents | src/components/home/EnteredUsersList.tsx:122-127 | the note map has exactly the users' ids as keys, and each maps to the normalised note of the last user with that id |
| EnteredUsers.FreshNotesShowNotes | src/components/home/EnteredUsersList.tsx:122-161 | for a user whose id is unique, the row shows that user's normalised note |
| Js.NatToStringValue | src/components/home/EnteredUsersList.tsx:35 | `String(n)` of a non-negative integer is a decimal numeral that denotes `n` |
| Js.NatToStringInjective | src/components/home/EnteredUsersList.tsx:35 | different numbers convert to different text |
| EnteredUsers.NoteOf | src/components/home/EnteredUsersList.tsx:160 | `notes[id] ?? ""` |
| EnteredUsers.SortedUsers | src/components/home/EnteredUsersList.tsx:131-137 | the sorted copy is a permutation of the users |
| EnteredUsers.SortedUsersByEntryTime | src/components/home/EnteredUsersList.tsx:131-137 | rows are in non-decreasing entry time, a missing time counting as 0 |
| EnteredUsers.EntryTimeChain | src/components/home/EnteredUsersList.tsx:131-137 | in a list with no neighbouring pair out of order, every earlier row has an entry time no later than every later row |
| EnteredUsers.EnteredUsersList.ReceiveUsers | src/components/home/EnteredUsersList.tsx:122-129 | a new user list resets the notes to each user's normalised note and ends editing |
| EnteredUsers.EnteredUsersList.ChangeNote | src/components/home/EnteredUsersList.tsx:162-163 | only that user's note changes |
| EnteredUsers.EnteredUsersList.HandleEdit | src/components/home/EnteredUsersList.tsx:139-142 | editing starts only on one's own row, and never without a signed-in user |
| EnteredUsers.EnteredUsersList.HandleCancel | src/components/home/EnteredUsersList.tsx:144 | editing ends |
| EnteredUsers.EnteredUsersList.HandleSave | src/components/home/EnteredUsersList.tsx:146-150 | passes `notes[id]`, or `""`, to the save callback, then ends editing once that call resolves |
| EnteredUsers.EnteredUsersList.ViewOf | src/components/home/EnteredUsersList.tsx:157-161 | a row is "me" iff its id is the user's, shows `notes[id] ?? ""`, and is in editing iff it is the edited row |
| EnteredUsers.EditingRowIsMine | src/components/home/EnteredUsersList.tsx:139-161 | in a valid list, the row being edited is one's own; every method but `ReceiveMe` keeps the list valid, and `ReceiveMe` says when a new `me` breaks it |
| EnteredUsers.EnteredUsersList.ReceiveMe | src/components/home/EnteredUsersList.tsx:111-161 | a new `me` prop keeps the notes and the edited row; the edited row stays one's own exactly when nothing was being edited or the new `me` has the old id |
| Offices.FindKeyword | src/utils/offices.ts:16 | the index of the first keyword the name contains, or -1 when none does |
| Offices.ResolvePriority | src/utils/offices.ts:11-18 | the first matching keyword's index (missing name counts as `""`), or `MAX_SAFE_INTEGER`; no earlier keyword matches |
| Offices.CompareOffices | src/utils/offices.ts:24-43 | a lower priority comes first. On equal priority a named office precedes an unnamed one, two named ones follow the locale comparison, and two unnamed ones are equal |
| Offices.SortOfficesByPriority | src/utils/offices.ts:20-44 | the result is a permutation of the input |
| Offices.ComparatorAntisymmetric | src/utils/offices.ts:24-43 | the comparator is sign-antisymmetric whenever the locale comparison is |
| Offices.RankOfOrderedPair | src/utils/offices.ts:25-40 | two offices in comparator order are in (priority, unnamed) order |
| Offices.SortedByRank | src/utils/offices.ts:20-44 | the sorted list is ordered by priority, then named before unnamed, for all positions |
| Offices.RankChain | src/utils/offices.ts:20-44 | in a list with no neighbouring pair out of comparator order, every earlier office ranks no later than every later one |
| Offices.PriorityThenNamed | src/utils/offices.ts:25-40 | in the result, priorities never decrease, and within one priority named offices precede unnamed ones |
| Offices.DefaultKeywordOrder | src/utils/offices.ts:3-30 | with the default keywords, 東京 offices precede 岡山 offices, which precede all others |
| Users.FilterByOffice | src/screens/UsersScreen.tsx:43 | keeps exactly the users whose office code is the selection, each as many times as it occurs in the input; users without an office are dropped |
| Users.FilteredUsers | src/screens/UsersScreen.tsx:41-44 | all users for `"ALL"`, otherwise exactly the users of the selected office, with their multiplicities |
| Users.FilterKeepsOrder | src/screens/UsersScreen.tsx:41-44 | the filtered list is a subsequence of the users, so their order is kept |
| Users.FilterByOfficeKeepsOrder | src/screens/UsersScreen.tsx:43 | the office filter keeps the users' order |
| Users.SubsequenceOfItself | src/screens/UsersScreen.tsx:42 | the unfiltered list is trivially in order |
| Users.OfficeFilterOptions | src/screens/UsersScreen.tsx:46-56 | `"ALL"`/`全ユーザー` first, then one option per office in priority order (value the code, label the name or else the code); one more option than offices |
| Users.ChoosingAnOfficeFilters | src/screens/UsersScreen.tsx:41-56 | pressing an office's option filters the list to that office |
| OptionCards.HandlePress | src/components/ui/OptionCardGroup.tsx:29-37 | without `allowClear` the pressed value is selected. With it, pressing the selected option clears the selection and any other option selects it |
| OptionCards.Cards | src/components/ui/OptionCardGroup.tsx:44-45 | one card per option, in the given order, marked selected iff its value is the selected one |
| OptionCards.PressIdempotent | src/components/ui/OptionCardGroup.tsx:29-37 | without `allowClear`, pressing twice equals pressing once |
| OptionCards.PressToggles | src/components/ui/OptionCardGroup.tsx:31-37 | with `allowClear`, pressing a non-empty value twice toggles it off and back on |
| OptionCards.PressSelectsOnlyThatCard | src/components/ui/OptionCardGroup.tsx:31-45 | with distinct values, after pressing an option exactly its card is marked selected |
| Register.RequestFor | src/screens/RegisterScreen.tsx:90-104 | posts to `/users` with the trimmed fields and the office. The icon name defaults to `avatar.jpg` and its type to `image/jpeg` |
| Register.ErrorBody | src/screens/RegisterScreen.tsx:121-127 | an empty or unparseable body reads as undefined |
| Register.ErrorMessageOf | src/screens/RegisterScreen.tsx:129 | `body.error`, or the default text when it is null or undefined |
| Register.ErrorDetailOf | src/screens/RegisterScreen.tsx:130-132 | `body.detail`, or the raw response text when it is null or undefined |
| Register.RegisterRules | src/screens/RegisterScreen.tsx:73-140 | nothing is sent while loading or unless the form is complete, and a sent request is `RequestFor` the form. `loading` ends false, and an ok response empties the form |
| Register.UnreadableErrorBody | src/screens/RegisterScreen.tsx:121-132 | an error response without a usable body shows the default message and the raw text as detail |
| Register.ErrorBodyShown | src/screens/RegisterScreen.tsx:129-132 | an error body's own `error` and `detail` are shown |
| Register.RegisterScreen.Settle | src/screens/RegisterScreen.tsx:101-136 | the request and its catch leave exactly `SettleSpec` |
| Register.RegisterScreen.HandleRegister | src/screens/RegisterScreen.tsx:73-140 | the handler leaves exactly `RegisterSpec` |
| ResetPassword.SuccessTextMarked | src/screens/ResetPasswordScreen.tsx:41-75 | the success text contains `リセットされました` |
| ResetPassword.FailureTextUnmarked | src/screens/ResetPasswordScreen.tsx:46-75 | the failure text does not |
| ResetPassword.SubmitRules | src/screens/ResetPasswordScreen.tsx:19-75 | no request while loading, without a route token, or for a blank password. The request carries the token and the trimmed password; `loading` ends false; the success style is shown iff the request succeeded |
| ResetPassword.ResetPasswordScreen.HandleSubmit | src/screens/ResetPasswordScreen.tsx:19-50 | the handler leaves exactly `SubmitSpec` |
| ResetPasswordRequest.FailureStyledAsSuccessAsWritten | src/screens/ResetPasswordRequestScreen.tsx:28-62 | the written style test `includes("送信")` holds for the success text and for the failure text |
| ResetPasswordRequest.FailedRequestLooksSuccessfulAsWritten | src/screens/ResetPasswordRequestScreen.tsx:23-63 | so a failed request is shown in the success style |
| ResetPasswordRequest.StyleMatchesOutcome | src/screens/ResetPasswordRequestScreen.tsx:28-33 | the test for `送信しました` holds for the success text and fails for the failure text |
| ResetPasswordRequest.SubmitRules | src/screens/ResetPasswordRequestScreen.tsx:14-37 | no request while loading or for a blank address. The request carries the trimmed address; `loading` ends false; with the corrected test the style follows the outcome |
| ResetPasswordRequest.ResetPasswordRequestScreen.ShowsSuccess | src/screens/ResetPasswordRequestScreen.tsx:56-63 | the success style: a non-empty message passing the corrected test |
| ResetPasswordRequest.ResetPasswordRequestScreen.HandleSubmit | src/screens/ResetPasswordRequestScreen.tsx:14-37 | the handler leaves exactly `SubmitSpec` |
| Config.Normalize | src/constants/config.ts:3-4 | removes exactly one trailing `/` when present, otherwise keeps the value; absent stays absent |
| Config.ResolveEnvBaseUrl | src/constants/config.ts:6-19 | the normalised environment variable if non-empty, else the normalised `extra.apiBaseUrl` if truthy, else the normalised legacy string, else absent |
| Config.ApiBaseUrl | src/constants/config.ts:24-28 | the resolved URL when present, otherwise the development URL iff `NODE_ENV` is `development`, else the production URL |
| Config.WithApiPath | src/constants/config.ts:30-31 | the base, then `/`, then the path without its own leading `/` |
| Config.WithApiPathSlashOptional | src/constants/config.ts:30-31 | `withApiPath("x")` equals `withApiPath("/x")` |
| Config.EnvironmentWins | src/constants/config.ts:6-28 | an environment variable that is still non-empty after dropping one trailing `/` decides the base URL |
| Config.EmptyBaseIsKept | src/constants/config.ts:13-28 | an empty resolved base, such as `"/"` from `extra`, is kept instead of falling back to a default |
| Config.DefaultsFollowNodeEnv | src/constants/config.ts:18-28 | with nothing configured, the default follows `NODE_ENV` |
| Size.NamedSize | src/utils/size.ts:5-26 | small is 20, medium 28, large 48, and no other name maps |
| Size.NormalizeSize | src/utils/size.ts:13-27 | a finite number is kept; a known name gives its size; undefined, empty, non-finite or unknown input gives the fallback, by default 28 |
| Spinner.NormalizeSize | src/components/ui/Spinner.tsx:23-37 | the spinner's own `normalizeSize` equals the shared one for every input and fallback |
| Spinner.Fallback | src/components/ui/Spinner.tsx:11-15 | the spinner's fallback is medium (28) |
| Spinner.Dimension | src/components/ui/Spinner.tsx:13-18 | the rendered dimension, normalised twice, equals one normalisation with the medium fallback and is always finite |
| Spinner.NormalizeTwice | src/components/ui/Spinner.tsx:16-18 | with a finite fallback, normalising twice equals normalising once |
| Spinner.NormalizeTwiceNeedsFiniteFallback | src/components/ui/Spinner.tsx:23-37 | with a non-finite fallback, normalising twice can differ from normalising once |
| Spinner.DefaultIsMedium | src/components/ui/Spinner.tsx:11-18 | no size, an unknown name or a non-finite number gives 28; `large` gives 48 |
| Avatar.GetInitial | src/components/ui/Avatar.tsx:15-20 | at most one character; empty iff the name is missing or all whitespace |
| Avatar.InitialIsFirstVisibleCharacter | src/components/ui/Avatar.tsx:17-19 | the initial is the upper-cased first non-whitespace character |
| Avatar.InitialIgnoresSurroundingWhitespace | src/components/ui/Avatar.tsx:17-19 | whitespace around the name does not change the initial |
| Avatar.AvatarImage.constructor | src/components/ui/Avatar.tsx:30 | `isError` starts false |
| Avatar.AvatarImage.ShowsPlaceholder | src/components/ui/Avatar.tsx:34 | placeholder iff the URI is empty or missing, or loading failed |
| Avatar.AvatarImage.OnError | src/components/ui/Avatar.tsx:52 | a load error latches `isError` |
| Avatar.PlaceholderLatches | src/components/ui/Avatar.tsx:30-52 | once latched, the placeholder is shown for every URI |

## Left out

- **Remote calls.** The API client, `fetch` and the notification and profile requests are not modelled as a client. Each is an input outcome, and a request appears only as a record of what would be sent.
- **Storage and OS services.** AsyncStorage, SecureStore, its `keychainAccessible` option and `expo-local-authentication` are modelled only through the outcomes they return. A backend's failure is all-or-nothing per backend, not per call.
- **JSON encoding.** `JSON.stringify`/`JSON.parse` are not modelled. A SecureStore entry is held as the JavaScript value it parses to, or as unparseable text, so the stored pair reads back as written. Register's error body is an input: what `JSON.parse` returned, or that it threw.
- **Concurrency.** `Promise.all` in `signIn` and `loadSession` is sequential here (token first, then credentials). Interleavings of handlers, the effect-cleanup `active` flag of the login screen, and stale closures are not modelled; each handler runs to completion.
- **UI side channels.** React rendering, styles, focus effects, memoisation, `Alert.alert`, navigation calls and `console` logging are left out. Alerts appear as the returned alert title. The sign-out offered by the home screen's error alert appears as a flag, and pressing it would be a `SignOut` call.
- **`localeCompare(…, "ja")`.** It is a parameter, a function whose sign is assumed antisymmetric in the ordering lemmas.
- **`Array.prototype.sort`.** It is a stable insertion sort. ECMAScript 2019 and later require `sort` to be stable, so for a consistent comparator this is exactly the engine's order. Only when `localeCompare` is not a consistent comparison is the engine's order implementation-defined; the proved properties (permutation, order by priority, order by entry time) hold either way.
- **Unicode.** Trimming uses the ECMAScript whitespace set. Upper-casing in `getInitial` maps ASCII letters only, and `slice(0, 1)` is taken as one character, not one UTF-16 code unit.
- **Numbers.** They are integers, and sizes are `Finite(int) | NonFinite`. Floating point and the Avatar's `size / 2` radius are not modelled.
- **Entry times.** `new Date(enteredAt).getTime()` is an already-parsed integer (`None` for a missing time). Date parsing, `NaN` and the time zone are not modelled. The `src/utils/date.ts` formatter is not part of this model.
- **Non-string errors.** An error thrown by a call is its message string, and the `error instanceof Error` distinction in the register screen is not kept.
- **Screens not in this model.** The home screen's `handleDeleteAccount` and `handleLogout`, the register screen's image picker, permission flow and office fetch, and the user list's `load` are network or OS dialogs only.
- **Option display fields.** The `span: "full"` display hint of the user list's first filter option is left out.
- **Other files.** `scripts/setup-private-deps.js`, `app.config.js`, `src/App.tsx` and the presentational components (Button, LinkButton, Input, PageContainer, CardLayout, UserSidebar, StatusTitle, EnterExitButtons) are not part of this model.
- Offices.ResolvePriority: `MAX_SAFE_INTEGER` is an ordinary integer here, so a keyword list that long would collide with "no match"; the contract states the index property only for shorter lists.
- EnteredUsers.EnteredUsersList.HandleSave: when the save callback rejects, the rejection is not propagated, and editing simply stays on; the model does not say what the caller sees.

## Findings

| source | as written | input that shows it | evidently intended | confidence | as-written member | corrected member |
|---|---|---|---|---|---|---|
| src/screens/ResetPasswordRequestScreen.tsx:28-62 | the message is success-styled when it contains `送信` | a failed request: its message `送信に失敗しました` contains `送信` | success style only for the success text, e.g. a test for `送信しました` | not executed | ResetPasswordRequest.FailedRequestLooksSuccessfulAsWritten | ResetPasswordRequest.StyleMatchesOutcome |
