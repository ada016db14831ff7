# Firebase user management, modelled in Dafny

This project models the decision logic of a small Firebase user-management
application. The application has two parts.

- **Cloud Functions backend.** An HTTP `login` endpoint exchanges a Firebase ID
  token for a 24-hour session token. Callable functions read and update the
  caller's profile, delete the account, set custom claims (admins only) and
  relay e-mail.
- **Two web clients.** One is a plain-JavaScript page: sign-in and registration,
  a dashboard with a recent-activity list, and a profile page with password
  change and avatar upload. The other is a React app: sign-in, profile and
  e-mail composer screens.

Firebase Admin, Firebase Auth, `jsonwebtoken` and `nodemailer` are not modelled
as code. Each call into them is replaced by the outcome it settles with: a
success or an error with its message, or an abstract provider holding the
accepted ID tokens and the user records. Where it matters whether such a call
happened, the model records the calls made. This is how "never called on a
rejected path" is stated.

Files and modules:

| file | module | models |
|---|---|---|
| `wrappers.dfy` | `Wrappers` | `Option` and `Result` |
| `js_values.dfy` | `JsValues` | JavaScript values in request payloads: truthiness and object destructuring |
| `text.dfy` | `Text` | The string operations used: `split` on one character, `join`, `replace(/c/g, …)`, `trim`, `toUpperCase`, ASCII `\s` |
| `functions.dfy` | `Functions` | `functions/src/index.ts`. Login, getProfile and sendEmail are pure functions. The user table is a class `UserStore`, which updateProfile, deleteAccount and setCustomClaims change. |
| `dashboard.dfy` | `Dashboard` | `public/js/dashboard.js`. Class `Workspace`: the activity list (a sequence trimmed by a loop) and the view switch. |
| `auth_page.dfy` | `AuthPage` | `public/js/auth.js`. Class `AuthPage`: section visibility, form fields, status line. |
| `profile_page.dfy` | `ProfilePage` | `public/js/profile.js`. Class `ProfilePage`: inputs and password checklist as arrays, edit controls, password form. |
| `profile_view.dfy` | `ProfileView` | `react-app/src/components/Profile.jsx`. Name split, initials, edit flags and form as a state value. |
| `email_composer.dfy` | `EmailComposer` | `react-app/src/components/EmailComposer.jsx`. Form validity, counters, send state. |
| `auth_view.dfy` | `AuthView` | `react-app/src/components/Auth.jsx`. Submit paths, display name, messages. |

The plain-JavaScript pages change the DOM in place, so they are classes whose
fields stand for the element properties. The React components replace their
state with updated copies, so their state is a datatype and each handler is a
function from the old state to the new one.

## Model

| member | source | states |
|---|---|---|
| JsValues.Property | functions/src/index.ts:65 | Destructuring `undefined` or `null` throws. For the payload's own data properties, a missing key reads as `undefined`, and so does every key of another primitive. Inherited properties are not represented. |
| Text.Join | react-app/src/components/Profile.jsx:62 | `join` starts with the first part. |
| Text.Split | react-app/src/components/Profile.jsx:20-21 | `split` on one character gives at least one piece. No piece contains the separator. Joining the pieces with the separator gives back the input. |
| Text.SplitJoin | react-app/src/components/Profile.jsx:20-21 | Splitting a join of separator-free pieces gives back exactly those pieces. |
| Text.SplitHead | react-app/src/components/Profile.jsx:20 | The first piece of a split is the longest separator-free prefix. |
| Text.JoinOnlySeparators | react-app/src/components/Profile.jsx:62 | A join of separator-free pieces is all separators exactly when every piece is empty. |
| Text.ReplaceAll | functions/src/index.ts:325 | `replace(/c/g, w)` is the split on `c` joined with `w`. When `w` does not contain `c`, `c` no longer occurs. |
| Text.Trim | react-app/src/components/Auth.jsx:52 | `trim` gives a slice of the input. That slice neither starts nor ends with whitespace, and only whitespace is cut on either side. |
| Text.TrimUnique | react-app/src/components/Auth.jsx:52 | Trimming whitespace placed around a tidy core gives back that core. |
| Text.UpperChar | react-app/src/components/Profile.jsx:62-64 | ASCII `toUpperCase` maps a–z to A–Z, leaves every other character alone, and never yields a lower-case letter. |
| Text.Upper | react-app/src/components/Profile.jsx:62-64 | Upper-casing keeps the length and upper-cases each character. |
| Functions.Profile | functions/src/index.ts:95-110 | The returned user copies every field unchanged, except that a falsy `lastSignInTime` becomes `creationTime`. |
| Functions.ProfileIdempotent | functions/src/index.ts:145-160 | Projecting an already projected record changes nothing. |
| Functions.ProfileUnchangedIff | functions/src/index.ts:196-211 | The projection changes a record exactly when its `lastSignInTime` is falsy and differs from `creationTime`. |
| Functions.Verify | functions/src/index.ts:31-39 | A token verifies exactly when it is a string the provider accepts, and it yields that token's uid. |
| Functions.Lookup | functions/src/index.ts:42-50 | A record is found exactly for an existing uid, and it is that uid's record. |
| Functions.Login | functions/src/index.ts:53-134 | Any method except POST gives 405 `METHOD_NOT_ALLOWED` with no provider call. A falsy token gives 400 `MISSING_TOKEN` with no provider call. 401 `AUTHENTICATION_FAILED` occurs exactly when verification or lookup fails. 200 occurs exactly when both succeed, and `success` and `data` are present exactly then. The 200 payload has `expiresIn` 86400, a token whose claims are exactly uid, email and phone of the fetched record, and the projected user. Lookup is only attempted after verification. |
| Functions.TokenOnlyAfterVerification | functions/src/index.ts:78-93 | A session token is issued only for a string token the provider accepts. It names the user that token belongs to. |
| Functions.GetProfile | functions/src/index.ts:137-171 | Success exactly for an authenticated caller whose record exists, and it returns that record projected. Every failure is "Failed to retrieve profile". |
| Functions.UpdateData | functions/src/index.ts:180-189 | The update map has `displayName` exactly when it was provided, and `photoURL` exactly when it was provided, each with its given value. It has no other key. |
| Functions.UserStore.Get | functions/src/index.ts:42-50 | Logs one `getUser` call and answers from the table without changing it. |
| Functions.UserStore.Update | functions/src/index.ts:191-194 | Logs one `updateUser` call. All or nothing: it succeeds exactly for an existing user and settable values. On success only that record changes, as given. |
| Functions.UserStore.Delete | functions/src/index.ts:232 | Logs one `deleteUser` call and removes the user. It reports whether the user existed. |
| Functions.UserStore.SetClaims | functions/src/index.ts:263 | Logs one `setCustomUserClaims` call. It succeeds exactly for an existing uid and object claims, and then replaces only that user's claims. |
| Functions.UpdateProfile | functions/src/index.ts:174-222 | Unauthenticated or undestructurable requests fail before any provider call. Otherwise exactly one `updateUser` call is made with the update map. On success the caller's record is updated and returned projected. On failure the table is unchanged and the error is "Failed to update profile". |
| Functions.DeleteAccount | functions/src/index.ts:225-242 | Unauthenticated requests fail with no provider call. Otherwise one `deleteUser` call is made for the caller. Success exactly when the caller existed. Failure is "Failed to delete account". |
| Functions.IsAdmin | functions/src/index.ts:253 | The caller is an admin exactly when its record exists and `customClaims?.admin` is truthy, read as a JavaScript property. |
| Functions.AdminClaimIsTruthiness | functions/src/index.ts:253 | `admin: "yes"` and `admin: 1` grant admin rights as `true` does. `false`, `null` and a missing claim do not. |
| Functions.SetCustomClaims | functions/src/index.ts:245-273 | Checks run in order: authenticated, then the caller's own `admin` claim is truthy, then `uid` and `customClaims` are truthy. `setCustomUserClaims` is called only after all three pass. Every failure is "Failed to set custom claims" and leaves the table unchanged. The table changes only on the fully authorised path. |
| Functions.HtmlBody | functions/src/index.ts:325 | The HTML is `<p>`, then the lines of the text joined by `<br>`, then `</p>`. It contains no line feed. |
| Functions.HtmlOfLines | functions/src/index.ts:325 | Text made of newline-free lines becomes those lines joined by `<br>` in one paragraph. |
| Functions.HtmlExample | functions/src/index.ts:325 | "line1\nline2" becomes `<p>line1<br>line2</p>`. |
| Functions.SendEmail | functions/src/index.ts:297-346 | The transport receives a message exactly when the caller is authenticated, `to`, `subject` and `text` are truthy, and `text` is a string, and then exactly one message. A truthy non-string `text` throws at `replace` (line 325) before anything is sent. That message carries the given fields and the derived HTML. Success exactly when the transport delivers, returning its `messageId`. Every error starts with "Failed to send email: ", including the missing-field and unauthenticated cases. |
| Dashboard.Recent | public/js/dashboard.js:29-31 | The kept list is a prefix of the list, of length min(length, 5). |
| Dashboard.RecentAfterAdd | public/js/dashboard.js:26-31 | After prepending, the new item is first and the length is min(old+1, 5). The remaining items are a prefix of the old list in the old order, so only the tail is dropped. |
| Dashboard.Workspace.AddActivity | public/js/dashboard.js:13-32 | After the prepend and the trimming loop, the list is the first five entries of the new item followed by the old list. |
| Dashboard.Workspace.UpdateDashboardInfo | public/js/dashboard.js:3-11 | Shows the sign-in time and adds exactly one sign-in activity. |
| Dashboard.Workspace.ShowDashboard | public/js/dashboard.js:34-45 | Dashboard shown, composer hidden, dashboard tab active, compose tab inactive. This holds whatever the state was before, so a second call changes nothing. |
| Dashboard.Workspace.ShowEmailComposer | public/js/dashboard.js:47-58 | The exact mirror of ShowDashboard, and idempotent for the same reason. |
| AuthPage.SetupError | public/js/auth.js:60-67 | No error exactly when every accessor returns an instance. A TypeError exactly when some accessor is not a function. Otherwise "Firebase not initialized properly". |
| AuthPage.AuthPage.UpdateUI | public/js/auth.js:3-36 | Writes only the four sections, the user-email text, and the dashboard's last-login and activity list. If a required section is missing, none of them changes. With a user: both forms hidden, user and dashboard sections shown, chat hidden, the sign-in time shown and one sign-in activity added. Without a user: only the login form is shown, and the last-login text and the activity list are kept. |
| AuthPage.AuthPage.ShowRegister | public/js/auth.js:38-42 | Only the registration form is visible, and the status is cleared. |
| AuthPage.AuthPage.ShowLogin | public/js/auth.js:44-48 | Only the login form is visible, and the status is cleared. |
| AuthPage.AuthPage.SignInWithGoogle | public/js/auth.js:59-77 | The redirect is attempted exactly when both `window.firebaseAuth()` and `window.googleAuthProvider()` return an instance. Otherwise the TypeError or "Firebase not initialized properly" is reported after "Google sign-in failed: ". A failed redirect reports its own message after the same prefix. |
| AuthPage.AuthPage.LoginUser | public/js/auth.js:79-101 | An empty email or password is reported and sign-in is not attempted. Next, a missing or non-callable `window.firebaseAuth` is reported after "Login failed: ". Only a successful sign-in clears both fields. The status is an error exactly when the sign-in did not succeed. |
| AuthPage.AuthPage.RegisterUser | public/js/auth.js:103-149 | Checks run in order: all five fields filled, then the passwords equal, then the password at least 6 characters. Any failure comes before account creation. Next, a missing or non-callable `window.firebaseAuth` is reported. Creation and naming failures each report their own message. The display name is name + " " + surname. The five fields are cleared only when creation and naming both succeed. |
| AuthPage.AuthPage.Logout | public/js/auth.js:151-172 | Sign-out is attempted exactly when `window.firebaseAuth()` returns an instance; otherwise the set-up error is reported. After a successful sign-out all seven form fields are empty. Otherwise they are untouched and the failure is reported. |
| ProfilePage.ContainsInRange | public/js/profile.js:134-154 | A character-class test is true exactly when some character of the password lies in the range. |
| ProfilePage.RequirementFlags | public/js/profile.js:121-155 | The length entry holds exactly when the password has at least 8 characters. The upper, lower and digit entries each hold exactly when some A–Z, a–z or 0–9 character occurs, independently of each other. |
| ProfilePage.AllRequirementsIffStrong | public/js/profile.js:121-155 | All four entries are ticked exactly for a password meeting all four requirements. |
| ProfilePage.PasswordError | public/js/profile.js:201-207 | The wrong-password text is shown exactly for `auth/wrong-password`, and no other error can produce it. Other errors show the generic prefix followed by their message. |
| ProfilePage.ProviderLabel | public/js/profile.js:32-35 | A label is shown exactly when there is a provider entry. The label is "Google" exactly when the first provider id is "google.com", otherwise "Email/Password". |
| ProfilePage.Toggled | public/js/profile.js:45-68 | A toggle flips edit mode and always leaves a consistent view. Entering edit mode enables every input and shows save and cancel. Leaving it disables every input and shows edit. |
| ProfilePage.ToggledTwice | public/js/profile.js:45-68 | Toggling twice from a consistent view restores it. |
| ProfilePage.LoadedFields | public/js/profile.js:3-37 | With a user: the name, email and phone inputs get the user's values, or "" when absent. The avatar gets the photo URL when there is one. The verification text is "Verified" or "Not Verified". The provider line gets its label when there is one. Without a user nothing changes. |
| ProfilePage.LoadedFieldsStable | public/js/profile.js:3-37 | Loading twice is loading once. With a photo and a provider entry, the result does not depend on the previous contents. |
| ProfilePage.ProfilePage.LoadProfileData | public/js/profile.js:3-37 | The six profile fields become `LoadedFields` of the current user and their previous contents. |
| ProfilePage.ProfilePage.ToggleEditMode | public/js/profile.js:39-69 | The edit controls and every input's `disabled` flag become the toggled view. Leaving edit mode reloads all six profile fields as `LoadedFields` does. Entering edit mode leaves them as they were. |
| ProfilePage.ProfilePage.SaveProfile | public/js/profile.js:71-88 | With a user, sends the name input as the display name. On success the signed-in user carries that display name, it confirms and toggles edit mode, the profile fields are as `ToggleEditMode` leaves them for the updated user, and the name field shows the saved name. On failure it reports the error and keeps the view and all six fields. Without a user nothing happens. |
| ProfilePage.ProfilePage.ValidatePassword | public/js/profile.js:121-155 | The checklist becomes the requirement flags of the new password. |
| ProfilePage.ProfilePage.InputNewPassword | public/js/profile.js:107 | Typing re-evaluates the checklist only while the listener is attached. |
| ProfilePage.ProfilePage.ResetPasswordRequirements | public/js/profile.js:157-160 | No checklist entry remains ticked. |
| ProfilePage.ProfilePage.AllRequirementsValid | public/js/profile.js:179-180 | True exactly when every checklist entry is ticked. |
| ProfilePage.ProfilePage.TickedIffStrong | public/js/profile.js:179-185 | While the checklist follows the new password, it is all ticked exactly when that password is strong. |
| ProfilePage.ProfilePage.ShowPasswordForm | public/js/profile.js:91-108 | The form opens with empty fields and an unticked checklist, and the listener is attached. The checklist then equals the requirement flags of the (empty) new password. |
| ProfilePage.ProfilePage.CancelPasswordChange | public/js/profile.js:110-119 | The form closes, the button shows and the listener is detached. |
| ProfilePage.ProfilePage.UpdatePassword | public/js/profile.js:162-208 | Checks run in order: any empty field, then new ≠ confirm, then an unticked requirement. Each has its own message and no call is made. Reauthentication with the current password always comes before the password update. `auth/wrong-password` maps to "Current password is incorrect", and other errors get the generic prefix. Only full success closes the form. When the checklist reflects the new password, as `ShowPasswordForm` and `InputNewPassword` keep it, a call is made only for a strong password, and a weak one gets "Password does not meet requirements". When every check passes but no user is signed in, the TypeError is reported with the generic prefix. |
| ProfilePage.ProfilePage.HandleAvatarUpload | public/js/profile.js:254-276 | No file means nothing happens. More than 2·1024·1024 bytes is refused first, so exactly 2 MiB is accepted. A type not starting with "image/" is refused next. An accepted file becomes the avatar. |
| ProfileView.FirstName | react-app/src/components/Profile.jsx:20 | The first name is the longest space-free prefix of the display name, or "" when there is no display name. |
| ProfileView.LastName | react-app/src/components/Profile.jsx:21 | The last name is "" without a space. Otherwise it is the first token after the first space. |
| ProfileView.NamesOfWords | react-app/src/components/Profile.jsx:20-21 | For space-separated words, the first and last names are the first two words. Later words are dropped. |
| ProfileView.Heads | react-app/src/components/Profile.jsx:62 | `map(n => n[0]).join('')` gives at most one character per token. |
| ProfileView.HeadsOfSplit | react-app/src/components/Profile.jsx:62 | For every string, the heads of its `split(' ')` pieces are the first characters of its words, in order. Empty pieces from leading, trailing or repeated spaces contribute nothing. |
| ProfileView.Initials | react-app/src/components/Profile.jsx:60-65 | The result has no lower-case letter. With any display name, it is the upper-cased first character of each space-separated word, in order, whatever the spacing. It is empty exactly when the name is all spaces. Without one, it is the upper-cased first character of a non-empty email, otherwise "U". |
| ProfileView.InitialsOfWords | react-app/src/components/Profile.jsx:62 | For non-empty words separated by single spaces, the initials are the upper-cased first letters of the words. |
| ProfileView.HeadsOfWords | react-app/src/components/Profile.jsx:62 | `map(n => n[0]).join('')` of non-empty tokens is their first characters in order. |
| ProfileView.UserData | react-app/src/components/Profile.jsx:19-25 | The form filled from a user has exactly the five fields, each taken from the user or "" when absent. |
| ProfileView.Restored | react-app/src/components/Profile.jsx:47-51 | The cancel value exists exactly for the five known fields, and it equals the value the form was filled with. |
| ProfileView.Initial | react-app/src/components/Profile.jsx:8-15 | Nothing is being edited and all five fields are empty. |
| ProfileView.Loaded | react-app/src/components/Profile.jsx:17-27 | With a user, the form is refilled from it. Without one it is kept. The edit flags are always kept. |
| ProfileView.HandleEdit | react-app/src/components/Profile.jsx:29-31 | Only the named field's flag changes, and it becomes true. The form is unchanged. |
| ProfileView.HandleSave | react-app/src/components/Profile.jsx:33-39 | Only the named field's flag changes, and it becomes false. The whole form is handed on exactly when an update function exists. |
| ProfileView.HandleCancel | react-app/src/components/Profile.jsx:41-54 | Only the named field's flag changes, and it becomes false. With a user, a known field gets the user's value back and no other value changes. An unknown field, or no user, leaves the form unchanged. |
| ProfileView.HandleInputChange | react-app/src/components/Profile.jsx:56-58 | Exactly one form value changes. |
| ProfileView.CancelAfterLoad | react-app/src/components/Profile.jsx:41-54 | Cancelling right after the form was filled changes no value. |
| ProfileView.EditTypeCancel | react-app/src/components/Profile.jsx:29-58 | Edit, type, cancel: the field leaves edit mode with the user's value back, and the rest of the form is as before. |
| EmailComposer.IsFormValid | react-app/src/components/EmailComposer.jsx:46 | The form is valid exactly when every input holds a non-empty value. |
| EmailComposer.SubmitDisabled | react-app/src/components/EmailComposer.jsx:46 | Submit is disabled exactly when a field is empty or a send is in progress (line 140). |
| EmailComposer.SplitWhitespace | react-app/src/components/EmailComposer.jsx:168 | `split(/\s+/)` gives whitespace-free pieces. Only the first and last piece can be empty, and a leading run gives an empty first piece. |
| EmailComposer.SplitWhitespaceJoin | react-app/src/components/EmailComposer.jsx:168 | Joining the pieces with single spaces gives the message with each whitespace run collapsed to one space, so no other character is lost, added or moved. |
| EmailComposer.SplitWhitespaceOfCollapse | react-app/src/components/EmailComposer.jsx:168 | The pieces are exactly the space-separated pieces of the collapsed message, which determines them for every input. |
| EmailComposer.Collapse | react-app/src/components/EmailComposer.jsx:168 | The reference for `split(/\s+/)`: a left-to-right scan writing one space per whitespace run. It is never longer than the message. |
| EmailComposer.NonEmpty | react-app/src/components/EmailComposer.jsx:168 | `filter(word => word.length > 0)` keeps exactly the non-empty pieces: every kept piece is non-empty and given, every non-empty piece is kept, and pieces that are all non-empty are kept unchanged. |
| EmailComposer.NonEmptyAppend | react-app/src/components/EmailComposer.jsx:168 | The filter keeps the pieces' order: filtering a concatenation concatenates the filtered halves. |
| EmailComposer.SplitCountsWords | react-app/src/components/EmailComposer.jsx:168 | Split-and-filter counts the same words as a left-to-right scan of word starts. |
| EmailComposer.WordCount | react-app/src/components/EmailComposer.jsx:168 | The word count is the number of maximal non-whitespace runs, and it is at most the length. |
| EmailComposer.WordCountOfWords | react-app/src/components/EmailComposer.jsx:168 | Non-empty words separated by single spaces count one each. |
| EmailComposer.Counters | react-app/src/components/EmailComposer.jsx:167-168 | The character count is the message length. The word count is the number of maximal non-whitespace runs. |
| EmailComposer.HandleInputChange | react-app/src/components/EmailComposer.jsx:16-21 | Only the named field changes. |
| EmailComposer.Clear | react-app/src/components/EmailComposer.jsx:159 | All three fields become empty, so the form is invalid. Nothing else changes. |
| EmailComposer.BeginSend | react-app/src/components/EmailComposer.jsx:25-26 | Sending starts, the status is cleared, the fields are kept, and submit is disabled. |
| EmailComposer.FinishSend | react-app/src/components/EmailComposer.jsx:28-43 | Sending ends with a status either way. Success (always when the send is simulated) empties the fields and reports success. Failure keeps them and reports the error. |
| EmailComposer.HandleSubmit | react-app/src/components/EmailComposer.jsx:23-44 | While pending, sending is on and the status is cleared. The data goes to `sendEmail` exactly when it exists. Success leaves an invalid, empty form. Failure keeps the fields. |
| AuthView.ErrorText | react-app/src/components/Auth.jsx:58 | The shown error is the thrown message when non-empty, otherwise the fallback. It is never empty. |
| AuthView.DisplayName | react-app/src/components/Auth.jsx:52 | For every input, the display name is the slice of "first last" left after cutting only whitespace at both ends, and it has no whitespace at either end. With `TrimUnique` this fixes the value, so ("John ", "Smith") gives "John  Smith". |
| AuthView.DisplayNameOfNames | react-app/src/components/Auth.jsx:52 | Two tidy, non-empty names give exactly "first last". |
| AuthView.DisplayNameOfFirstOnly | react-app/src/components/Auth.jsx:52 | An empty last name gives just the first name. |
| AuthView.DisplayNameOfLastOnly | react-app/src/components/Auth.jsx:52 | An empty first name gives just the last name. |
| AuthView.HandleInputChange | react-app/src/components/Auth.jsx:21-26 | Only the named field changes. |
| AuthView.ToggleMode | react-app/src/components/Auth.jsx:29-33 | Switching mode (line 255) clears both messages and keeps the form. |
| AuthView.HandleSubmit | react-app/src/components/Auth.jsx:35-62 | Messages are cleared and loading starts. Login mode calls `login` with no confirmation check. Register mode reports "Passwords do not match" without calling `signup` when the passwords differ. Otherwise `signup` gets the trimmed display name. On success the mode's message is shown and the app navigates to /dashboard. On failure the error text is shown. Loading ends either way, and exactly one of error and success is set. |
| AuthView.HandleGoogle | react-app/src/components/Auth.jsx:220-233 | One Google sign-in call. Success shows "Google sign-in successful!" and navigates. Failure shows the message or the Google fallback. Loading ends either way. |

## Left out

- `healthCheck` (functions/src/index.ts:276-294) is left out. It is a constant response with a clock timestamp.
- JWT signing and its secret are left out. The session token is represented by its claims and its "24h" lifetime.
- The environment-variable fallbacks for the JWT secret and the mail account are left out. The sender address is a parameter of `Functions.SendEmail`.
- Logging is left out.
- Everything the Firebase Admin SDK, Firebase Auth and nodemailer do internally is left out. They appear only as outcomes, and the identity provider as maps.
- Functions.UserStore.Update: `updateUser` is modelled only for `displayName` and `photoURL` set to a string or `null`. The provider's validation of URL formats is not modelled.
- A TypeError's wording is not modelled. It is represented by the constant `TypeErrorText`.
- Functions.Login: an undestructurable body gives 401, because the throw is caught by the same handler. The code is followed here.
- Timers are left out: `showProfileStatus` clearing, the verification-button re-enable, and the simulated send delay in EmailComposer.jsx.
- `FileReader` is left out. The data URL it produces is a parameter of `HandleAvatarUpload`.
- `toLocaleDateString` and `toLocaleTimeString` are left out. `LoadProfileData` does not set the account-created and last-sign-in lines, and `UpdateDashboardInfo` takes the formatted time as a parameter.
- `sendVerificationEmail` and `updateEmailVerificationStatus` (public/js/profile.js:211-252) are left out. They are outside the modelled core.
- Notification styling and animation are left out.
- `clearAuthStatus` of the React auth context is left out. It is a context call.
- Asynchrony is not modelled. Each handler is one sequential step from the state before its awaited call to the state after it settles. React's batching of state updates is not modelled.
- The `logout` button of react-app/src/components/Auth.jsx:81-85 is not modelled. It calls a `logout` that the component never obtains from the context, so the branch throws.
- Unicode is not modelled. Strings are sequences of characters restricted to ASCII behaviour: `\s`, `trim` and `toUpperCase` cover only ASCII characters, and lengths count characters, not UTF-16 code units.
- JavaScript numbers are modelled as integers. NaN, -0 and fractions are absent.
- ProfileView.HandleCancel: for an unrecognised field not yet in the form, the code adds that key with value `undefined`. The model leaves the form unchanged. Reading the key gives `undefined` in both cases.
- The following files are not part of this model: react-app/src/App.jsx, Dashboard.jsx, Header.jsx, AuthContext.jsx, firebase/config.js, and public/js/email.js, notifications.js, popup-helper.js. They are routing, presentation, SDK set-up and DOM glue.
- Of public/js/firebase-config.js, only what the two `window` accessors that auth.js calls can do is modelled, as `AuthPage.Accessor`.
  - Line 41 assigns `window.firebaseAuth = auth` when the script loads, before the `DOMContentLoaded` handler creates `auth`.
  - `window.googleAuthProvider` is never assigned.
  - As the files stand, both accessors are therefore `NotCallable`, and the four auth.js handlers report a TypeError.
- AuthView.HandleSubmit: the browser's form validation is not modelled. The `required` attributes (react-app/src/components/Auth.jsx:133, 147, 164, 179, 195) and the `type="email"` field (Auth.jsx:159) block submission before the handler runs when a shown field is empty or the email is malformed. The model runs the handler on any form.
- EmailComposer.HandleSubmit: the browser's form validation is not modelled. The `required` attributes (react-app/src/components/EmailComposer.jsx:82, 98, 113) and the `type="email"` recipient field (EmailComposer.jsx:77) block submission, for example by the Enter key, when a field is empty or the recipient is malformed. The model runs the handler on any form; the disabled submit button is modelled by `SubmitDisabled`.
- `setCustomClaims` accepts any truthy `admin` claim, not only `true` (functions/src/index.ts:253).
- Every one of `setCustomClaims`' failures, including insufficient permissions, surfaces as "Failed to set custom claims" (functions/src/index.ts:269-271).
