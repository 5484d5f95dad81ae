# StoryApps decision rules, modelled and verified in Dafny

StoryApps is an Android client for a photo-story service. Users sign up, log
in, list stories and upload a photo with a description. Most of the app is
Android glue. This project models the small sequential decision rules inside
that glue and proves what they promise:

- **The repository** (`UserRepository`) maps each way a service call can end
  onto `ResultState` (`Loading | Success(data) | Error(text)`). A call can
  return a response, fail with an HTTP status (with the raw error body, if
  any), or fail otherwise (with the exception's message, if any). The JSON
  decoder is a parameter: a function from an optional body to a decoded value
  or a failure with a message. `uploadStory` is a stream that receives
  `Loading` and then one terminal value. `getInstance` keeps one repository
  per process.
- **The three custom text fields** (name, email, password). Each one checks
  its trimmed text on every change and stores the verdict in the widget's
  `error`.
  - The email pattern `[a-zA-Z0-9._-]+@[a-z]+\.+[a-z]+` is recognised by
    a hand-written automaton. It is proved equivalent to a reference
    description of the accepted texts.
  - The host EditText's own error handling is modelled too. At the start of
    a change it resets an "error was changed" flag. At the end it takes down
    an error that no listener set during that change. This is why a name
    that becomes non-blank loses its error, although the name listener never
    clears it.
- **The login and signup screens.** `setButton` enables the button when each
  field is non-empty and shows no error. The email and password listeners
  recompute the button. On signup the name field has no such listener, so
  editing the name never recomputes the button. The result observers
  decide what to save, show and open.
- **The "last uploaded story" record.** The upload screen writes
  `description|uri|timestamp` under `last_uploaded_story` in a
  string-to-string preference store. The story list screen splits it on
  `|`, throws on a malformed record, and keeps or removes it by a one-hour
  freshness window. The window uses 64-bit wrap-around subtraction.
- **The upload screen's guards**, in order:
  1. an image is present and the trimmed description is not empty;
  2. the session has a token;
  3. the image could be copied;
  4. the file is at most 1 048 576 bytes.

  It then reacts to each value of the upload stream.

Kotlin library behaviour the rules depend on is written out in
`kotlin_text.dfy`:

- `trim()` uses the JVM's whitespace set.
- `split` keeps empty parts.
- `toLong()` accepts an optional sign and ASCII digits within the range of
  a `Long`.
- `toString()` of a missing message gives the text `null`.

Points where the code and its documentation differ, or where the code does
something easy to miss (the code is followed everywhere):

- `login` and `signup` report an HTTP failure as `Error` carrying the raw
  error body, not a message decoded from it: a 401 with a JSON body yields
  that JSON text (`Repository.HttpErrorPolicyDiffers`). `getStories`
  instead decodes such a body into a `Success`.
- A non-HTTP failure yields `Error(message.toString())`. That text is
  `null` for a missing message, but it is empty for a present empty
  message, so the error text can be empty.
- The story list that `onCreate` builds is a local list that never reaches
  the adapter. It is modelled as the value `OnCreateStoryList` returns.
- A description containing `|` does not survive the record. Its second half
  is read back as the uri and the uri as the timestamp. Unless the uri is a
  number, reading it throws before the freshness test, so the record is
  never removed: the list screen throws on every start until the record is
  overwritten by the next upload or the store is cleared.
- An upload rejected over HTTP with an absent or empty error body is
  decoded by Gson to null and reported as `Success(null)`. The camera
  screen's observer then throws when it reads the message, after the
  "Uploading..." toast: nothing is saved and the screen does not finish
  (`Repository.EmptyUploadBodyIsNullSuccess`, `CameraScreen.CameraMain.UploadStory`).
  (`MainScreen.PipeInDescriptionMisread`, and the `Threw` case of
  `MainScreen.MainActivity.GetUploadedStory`, which leaves the store as it
  was).
- The upload screen passes the session token to `uploadStory`, which takes
  only the file and the description. The token is modelled as a guard only.

Files:

- `wrappers.dfy`, `results.dfy`, `api.dfy`: shared types.
- `kotlin_text.dfy`: the Kotlin text and Long operations.
- `user_repository.dfy`, `custom_edit_text.dfy`, `preferences.dfy`,
  `camera_main.dfy`, `main_activity.dfy`, `login_activity.dfy`,
  `signup_activity.dfy`: one per part of the app above.

## Model

| member | source | states |
|---|---|---|
| Wrappers.OrEmpty | app/src/main/java/com/example/storyapp/data/UserRepository.kt:30 | `orEmpty()`: a present text is kept, a missing one becomes "" |
| Repository.ExceptionText | app/src/main/java/com/example/storyapp/data/UserRepository.kt:43-45 | `message.toString()`: "null" for a missing message, the message otherwise; empty exactly for a present empty message |
| Repository.AccountCall | app/src/main/java/com/example/storyapp/data/UserRepository.kt:26-70 | the rule login and signup share: always terminal; Success exactly for a returned response that is not flagged, and then the response unchanged; a flagged one gives its message or ""; an HTTP failure gives the raw body or ""; other failures give the message text |
| Repository.Login | app/src/main/java/com/example/storyapp/data/UserRepository.kt:26-47 | always terminal; Success exactly for a returned response whose `error` is not true, and then the response unchanged; `error == true` gives its message or ""; an HTTP failure gives the raw body or ""; other failures give the message text |
| Repository.Signup | app/src/main/java/com/example/storyapp/data/UserRepository.kt:49-70 | the same classification as login, for the registration response's flag and message |
| Repository.GetStories | app/src/main/java/com/example/storyapp/data/UserRepository.kt:80-106 | every returned response is Success whatever its flag; an HTTP body is answered with the fixed HTML message exactly when it starts with "<html>"; any other body is Success exactly when it decodes, with the decoded payload (null when Gson gives null); the HTTP-error texts are only the two fixed messages; other failures give the message text |
| Repository.HtmlBodyNeverDecoded | app/src/main/java/com/example/storyapp/data/UserRepository.kt:87-89 | for an HTML error page the decoder cannot influence the result |
| Repository.HttpErrorPolicyDiffers | app/src/main/java/com/example/storyapp/data/UserRepository.kt:84-100 | a decodable non-HTML error body is a Success for the story list but Error(raw body) for login |
| Repository.UploadTerminal | app/src/main/java/com/example/storyapp/data/UserRepository.kt:120-137 | Success exactly for a returned response or a decodable HTTP body (with that value, which may be null); an undecodable body gives "Error: " + the decoder's message text; other failures give the message text |
| Repository.EmptyUploadBodyIsNullSuccess | app/src/main/java/com/example/storyapp/data/UserRepository.kt:124-128 | with Gson's null for an absent or empty body, an HTTP failure with such a body ends in a Success whose payload is null |
| Repository.LiveData.Emit | app/src/main/java/com/example/storyapp/data/UserRepository.kt:111-112 | an emitted value is appended to the stream |
| Repository.UploadStory | app/src/main/java/com/example/storyapp/data/UserRepository.kt:108-138 | a fresh stream holding exactly Loading, then the one terminal value of the outcome |
| Repository.UserRepository.constructor | app/src/main/java/com/example/storyapp/data/UserRepository.kt:21-24 | the repository keeps the service and the preference store it was given |
| Repository.UserRepositoryCompanion.constructor | app/src/main/java/com/example/storyapp/data/UserRepository.kt:146 | no instance exists at first |
| Repository.UserRepositoryCompanion.GetInstance | app/src/main/java/com/example/storyapp/data/UserRepository.kt:147-153 | the first call builds and remembers a repository from its arguments; later calls return the remembered one and ignore their arguments |
| Repository.GetInstanceTwice | app/src/main/java/com/example/storyapp/data/UserRepository.kt:147-153 | two calls return the same instance, built from the first call's arguments when none existed |
| KotlinText.TrimStartSpec | app/src/main/java/com/example/storyapp/view/login/CustomEditTextName.kt:98 | removes exactly the longest all-whitespace prefix |
| KotlinText.TrimEndSpec | app/src/main/java/com/example/storyapp/view/login/CustomEditTextName.kt:98 | removes exactly the longest all-whitespace suffix |
| KotlinText.TrimIsMiddle | app/src/main/java/com/example/storyapp/view/camera/CameraMain.kt:109 | the trimmed text is a contiguous middle part with whitespace on both sides of it, beginning and ending with non-whitespace |
| KotlinText.TrimIgnoresPadding | app/src/main/java/com/example/storyapp/view/login/CustomEditTextName.kt:135 | whitespace added around a text does not change its trimmed form |
| KotlinText.Split | app/src/main/java/com/example/storyapp/view/main/MainActivity.kt:160 | at least one part, no part holds the separator, and the parts joined with the separator give back the text |
| KotlinText.SplitJoin | app/src/main/java/com/example/storyapp/view/main/MainActivity.kt:160 | splitting parts joined by a separator none of them contains gives back the parts |
| KotlinText.WrapLong | app/src/main/java/com/example/storyapp/view/main/MainActivity.kt:163 | the result is a Long, equal to the exact value when that is a Long and congruent to it modulo 2^64 |
| KotlinText.LongToString | app/src/main/java/com/example/storyapp/view/camera/CameraMain.kt:176 | non-empty; digits after an optional leading '-' |
| KotlinText.ParseLong | app/src/main/java/com/example/storyapp/view/main/MainActivity.kt:161 | a parsed value is a Long and the text holds a digit |
| KotlinText.ParseLongRejectsNonDigit | app/src/main/java/com/example/storyapp/view/main/MainActivity.kt:161 | a character that is not a digit, other than a leading '+' or '-', makes `toLong()` throw |
| KotlinText.ParseLongRejectsNoDigit | app/src/main/java/com/example/storyapp/view/main/MainActivity.kt:161 | a text without a digit (empty, or a lone sign) makes `toLong()` throw |
| KotlinText.ParseLongOfDigits | app/src/main/java/com/example/storyapp/view/main/MainActivity.kt:161 | on a digit string `toLong()` gives its value, also after '+', and its negation after '-'; a value outside the Long range throws |
| KotlinText.LeadingZeroIgnored | app/src/main/java/com/example/storyapp/view/main/MainActivity.kt:161 | leading zeros do not change the value read |
| KotlinText.ParseLongOutOfRange | app/src/main/java/com/example/storyapp/view/main/MainActivity.kt:161 | the decimal text of any number outside the Long range, either sign, makes `toLong()` throw |
| KotlinText.ParseLongAcceptedExamples | app/src/main/java/com/example/storyapp/view/main/MainActivity.kt:161 | "+5" gives 5, "-0" gives 0, "007" gives 7 |
| KotlinText.ParseLongRejectedExamples | app/src/main/java/com/example/storyapp/view/main/MainActivity.kt:161 | "", "-", "1a", " 1" and "--1" throw |
| KotlinText.Utf16Length | app/src/main/java/com/example/storyapp/view/login/CustomEditTextName.kt:136 | `length` counts UTF-16 units: between one and two per character, and exactly one per character when none is above U+FFFF |
| KotlinText.LongRoundTrip | app/src/main/java/com/example/storyapp/view/main/MainActivity.kt:161 | `toLong()` of a Long's decimal text gives back that Long |
| EditTexts.EmailMatchesIff | app/src/main/java/com/example/storyapp/view/login/CustomEditTextName.kt:91 | the recogniser accepts a text exactly when it is a non-empty local part over [a-zA-Z0-9._-], '@', a lowercase label, a run of dots and a lowercase label |
| EditTexts.AcceptedEmailHasOneAt | app/src/main/java/com/example/storyapp/view/login/CustomEditTextName.kt:91 | an accepted text holds exactly one '@' |
| EditTexts.NonLowerAfterAtRejected | app/src/main/java/com/example/storyapp/view/login/CustomEditTextName.kt:91 | any character after the '@' other than a lowercase letter or a dot (upper case, a digit) makes the text rejected |
| EditTexts.SecondDotRunRejected | app/src/main/java/com/example/storyapp/view/login/CustomEditTextName.kt:91 | a domain with a second run of dots (three labels, as in "co.id") is rejected |
| EditTexts.PlainEmailAccepted | app/src/main/java/com/example/storyapp/view/login/CustomEditTextName.kt:91 | "user@mail.com" matches |
| EditTexts.DotRunEmailAccepted | app/src/main/java/com/example/storyapp/view/login/CustomEditTextName.kt:91 | "a.b_c-9@x...y" matches: '.', '_', '-' and digits before the '@', several dots between the labels |
| EditTexts.RejectedEmailExamples | app/src/main/java/com/example/storyapp/view/login/CustomEditTextName.kt:91 | "user@mail.co.id", "user@mAil.com" and "user@mail2.com" do not match |
| EditTexts.EmailError | app/src/main/java/com/example/storyapp/view/login/CustomEditTextName.kt:97-103 | no error exactly when the trimmed text has the accepted form; otherwise "Email salah" |
| EditTexts.PasswordError | app/src/main/java/com/example/storyapp/view/login/CustomEditTextName.kt:134-141 | no error exactly when the trimmed text has at least 8 UTF-16 units; otherwise the length message |
| EditTexts.PasswordLengthInUtf16Units | app/src/main/java/com/example/storyapp/view/login/CustomEditTextName.kt:136 | four characters above U+FFFF (eight units) pass; seven ordinary characters are refused, eight pass |
| EditTexts.NameError | app/src/main/java/com/example/storyapp/view/login/CustomEditTextName.kt:41-49 | after a change the name shows an error exactly when its trimmed text is empty, the `name` string resource |
| EditTexts.VerdictsIgnorePadding | app/src/main/java/com/example/storyapp/view/login/CustomEditTextName.kt:41-145 | whitespace around the text changes none of the three verdicts |
| EditTexts.ErrorAfterChange | app/src/main/java/com/example/storyapp/view/login/CustomEditTextName.kt:43-48 | an error set during the change stays; one not set during it is taken down |
| EditTexts.NameEditText.constructor | app/src/main/java/com/example/storyapp/view/login/CustomEditTextName.kt:16 | empty text, no error, `validatedName` false |
| EditTexts.NameEditText.BeginTextChange | app/src/main/java/com/example/storyapp/view/login/CustomEditTextName.kt:41 | the text is replaced and the change flag reset; error and `validatedName` unchanged |
| EditTexts.NameEditText.OnTextChanged | app/src/main/java/com/example/storyapp/view/login/CustomEditTextName.kt:41-49 | `validatedName` is whether the trimmed name is non-empty; a blank name sets the error, a non-blank one leaves it alone |
| EditTexts.NameEditText.EndTextChange | app/src/main/java/com/example/storyapp/view/login/CustomEditTextName.kt:41 | an error not set during the change is taken down |
| EditTexts.NameEditText.ChangeText | app/src/main/java/com/example/storyapp/view/login/CustomEditTextName.kt:41-49 | after a whole change the error is NameError and `validatedName` the non-blankness of the new text, whatever came before |
| EditTexts.EmailEditText.constructor | app/src/main/java/com/example/storyapp/view/login/CustomEditTextName.kt:72-82 | empty text, no error |
| EditTexts.EmailEditText.BeginTextChange | app/src/main/java/com/example/storyapp/view/login/CustomEditTextName.kt:94 | the text is replaced and the change flag reset |
| EditTexts.EmailEditText.OnTextChanged | app/src/main/java/com/example/storyapp/view/login/CustomEditTextName.kt:97-104 | the error becomes EmailError of the current text, whatever it was before |
| EditTexts.EmailEditText.EndTextChange | app/src/main/java/com/example/storyapp/view/login/CustomEditTextName.kt:94 | an error not set during the change is taken down |
| EditTexts.PasswordEditText.constructor | app/src/main/java/com/example/storyapp/view/login/CustomEditTextName.kt:112-122 | empty text, no error |
| EditTexts.PasswordEditText.BeginTextChange | app/src/main/java/com/example/storyapp/view/login/CustomEditTextName.kt:131 | the text is replaced and the change flag reset |
| EditTexts.PasswordEditText.OnTextChanged | app/src/main/java/com/example/storyapp/view/login/CustomEditTextName.kt:134-141 | the error becomes PasswordError of the current text, whatever it was before |
| EditTexts.PasswordEditText.EndTextChange | app/src/main/java/com/example/storyapp/view/login/CustomEditTextName.kt:131 | an error not set during the change is taken down |
| Preferences.SharedPreferences.constructor | app/src/main/java/com/example/storyapp/view/camera/CameraMain.kt:173 | the store opens with the given entries |
| Preferences.SharedPreferences.GetString | app/src/main/java/com/example/storyapp/view/main/MainActivity.kt:159 | the stored value, or none exactly when the key is absent |
| Preferences.SharedPreferences.PutString | app/src/main/java/com/example/storyapp/view/camera/CameraMain.kt:177 | the key maps to the value and nothing else changes |
| Preferences.SharedPreferences.Remove | app/src/main/java/com/example/storyapp/view/main/MainActivity.kt:167 | only that key is gone |
| CameraScreen.StoryRecordFields | app/src/main/java/com/example/storyapp/view/camera/CameraMain.kt:176 | the record (description, uri and timestamp joined by pipe characters) splits back into exactly its three fields when neither text holds a pipe character |
| CameraScreen.UploadPrecondition | app/src/main/java/com/example/storyapp/view/camera/CameraMain.kt:108-149 | no image or a blank trimmed description gives the invalid-input message; then no token gives the token message; then a failed copy gives the copy message; then a size above 1 048 576 gives the size message; accepted exactly when every guard passes, carrying the trimmed description and the size |
| CameraScreen.FirstFailingGuardDecides | app/src/main/java/com/example/storyapp/view/camera/CameraMain.kt:110-149 | once a guard fails the later inputs do not change the decision; every refusal carries one of the four messages |
| CameraScreen.SizeLimitInclusive | app/src/main/java/com/example/storyapp/view/camera/CameraMain.kt:146-149 | with the earlier guards passed, a size is accepted exactly when it is at most 1 048 576, and every larger size is refused with the size message |
| CameraScreen.UploadToast | app/src/main/java/com/example/storyapp/view/camera/CameraMain.kt:152-168 | "Uploading..." exactly for Loading; the success and failure messages carry the response message and the error text; no message exactly for a Success with a null payload, where reading its message throws |
| CameraScreen.CameraMain.constructor | app/src/main/java/com/example/storyapp/view/camera/CameraMain.kt:37 | no image, no messages, no uploads, not finished |
| CameraScreen.CameraMain.OnGalleryResult | app/src/main/java/com/example/storyapp/view/camera/CameraMain.kt:51-60 | a picked image replaces the current one; cancelling keeps it |
| CameraScreen.CameraMain.StartCamera | app/src/main/java/com/example/storyapp/view/camera/CameraMain.kt:91-98 | with permissions the current image becomes the new media entry (possibly none); without them nothing changes |
| CameraScreen.CameraMain.SaveUploadedStory | app/src/main/java/com/example/storyapp/view/camera/CameraMain.kt:172-179 | "last_uploaded_story" now holds the record for description, uri and time, replacing any earlier one; no other key changes |
| CameraScreen.CameraMain.OnUploadResult | app/src/main/java/com/example/storyapp/view/camera/CameraMain.kt:152-169 | every value shows its message; only a Success saves the record (with the current image) and finishes the screen; a Success with a null payload throws, exactly then, and shows, saves and finishes nothing |
| CameraScreen.CameraMain.UploadStory | app/src/main/java/com/example/storyapp/view/camera/CameraMain.kt:108-170 | a refusal shows exactly its message and starts nothing; otherwise one upload of the trimmed description and size starts, "Uploading..." and the terminal value's message are shown, and only a Success with a payload saves and finishes; a Success with a null payload throws after "Uploading..." without saving or finishing; the repository is obtained once the first guard passes |
| MainScreen.DecodeRecord | app/src/main/java/com/example/storyapp/view/main/MainActivity.kt:160-161 | fewer than three fields throw IndexOutOfBounds; a third field that is not a Long throws NumberFormat; otherwise the first two fields and the parsed timestamp |
| MainScreen.FreshnessBoundary | app/src/main/java/com/example/storyapp/view/main/MainActivity.kt:163 | without overflow fresh means at most one hour old: exactly one hour is fresh, one millisecond more is stale, a future time is fresh |
| MainScreen.LeastTimestampNeverStale | app/src/main/java/com/example/storyapp/view/main/MainActivity.kt:163 | the subtraction wraps: a record stamped with the least Long is fresh at every non-negative time |
| MainScreen.RecordRoundTrip | app/src/main/java/com/example/storyapp/view/main/MainActivity.kt:160-164 | a record written for texts without a pipe character decodes to exactly what was written |
| MainScreen.ExtraFieldsIgnored | app/src/main/java/com/example/storyapp/view/main/MainActivity.kt:160 | fields after the third do not change what a record decodes to |
| MainScreen.PipeInDescriptionMisread | app/src/main/java/com/example/storyapp/view/main/MainActivity.kt:160-161 | a description holding a pipe character is split: its second half becomes the uri, and the record throws unless the uri is a number; it never reads back as written |
| MainScreen.TempStory | app/src/main/java/com/example/storyapp/view/main/MainActivity.kt:63-66 | the list item carries the description and the uri as its photo url; every other field is empty |
| MainScreen.MainActivity.constructor | app/src/main/java/com/example/storyapp/view/main/MainActivity.kt:158 | the screen reads the given store |
| MainScreen.MainActivity.GetUploadedStory | app/src/main/java/com/example/storyapp/view/main/MainActivity.kt:157-169 | no record gives none with the store unchanged; a malformed record throws; a fresh record gives its description and uri and stays; a stale one gives none and only its key is removed |
| MainScreen.MainActivity.OnCreateStoryList | app/src/main/java/com/example/storyapp/view/main/MainActivity.kt:59-68 | the list is empty, or holds the fresh uploaded story at index 0; a malformed record makes it throw; the store changes only by the removal of a stale record |
| MainScreen.SaveThenRead | app/src/main/java/com/example/storyapp/view/main/MainActivity.kt:157-169 | saving a story without a pipe character and reading it within the hour gives back exactly its description and uri, and the record stays |
| LoginScreen.LoginButtonAfterEdits | app/src/main/java/com/example/storyapp/view/login/LoginActivity.kt:111-115 | with the validators' errors the button is enabled exactly when the trimmed email has the accepted form and the trimmed password has at least 8 UTF-16 units |
| LoginScreen.LoginToken | app/src/main/java/com/example/storyapp/view/login/LoginActivity.kt:83 | the token exactly when the response has a login result with a token |
| LoginScreen.LoginDispatch | app/src/main/java/com/example/storyapp/view/login/LoginActivity.kt:77-101 | Loading shows progress; a Success with a token saves UserModel(email, token, password, true) from the submitted inputs and opens the main screen; a Success without one shows the failure message; an Error shows its text verbatim |
| LoginScreen.LoginSavesSessionIff | app/src/main/java/com/example/storyapp/view/login/LoginActivity.kt:71-86 | a session is saved exactly when the service returned a response not flagged as an error that carries a token; a login result never shows progress |
| LoginScreen.LoginActivity.constructor | app/src/main/java/com/example/storyapp/view/login/LoginActivity.kt:36-38 | empty fields without errors, no messages, no session, progress hidden |
| LoginScreen.LoginActivity.SetButton | app/src/main/java/com/example/storyapp/view/login/LoginActivity.kt:111-115 | the button is enabled exactly when both fields are non-empty and show no error |
| LoginScreen.LoginActivity.OnEmailTextChanged | app/src/main/java/com/example/storyapp/view/login/LoginActivity.kt:40-46 | after an email edit the field holds its verdict and the button is recomputed from it |
| LoginScreen.LoginActivity.OnPasswordTextChanged | app/src/main/java/com/example/storyapp/view/login/LoginActivity.kt:48-54 | after a password edit the field holds its verdict and the button is recomputed from it |
| LoginScreen.LoginActivity.OnLoginResult | app/src/main/java/com/example/storyapp/view/login/LoginActivity.kt:77-101 | progress, sessions, title, messages and navigation change as LoginDispatch says and in no other way |
| LoginScreen.LoginActivity.Login | app/src/main/java/com/example/storyapp/view/login/LoginActivity.kt:71-109 | the session list grows by the submitted user exactly when the service returned an unflagged response with a token, and then the success title and message are shown and the main screen opens; otherwise the failure message or the verbatim error text is shown and title and navigation are unchanged; progress ends hidden |
| SignupScreen.SignupButtonAfterEdits | app/src/main/java/com/example/storyapp/view/signup/SignupActivity.kt:103-108 | with the validators' errors the button is enabled exactly when the trimmed name is non-empty, the trimmed email has the accepted form and the trimmed password has at least 8 UTF-16 units |
| SignupScreen.SignupSuccessMessage | app/src/main/java/com/example/storyapp/view/signup/SignupActivity.kt:80 | the success text starts with "Akun dengan " followed by the submitted email |
| SignupScreen.SignupDispatch | app/src/main/java/com/example/storyapp/view/signup/SignupActivity.kt:73-91 | Loading shows loading; every Success greets the submitted email and opens the welcome screen; an Error shows its text |
| SignupScreen.SignupActivity.constructor | app/src/main/java/com/example/storyapp/view/signup/SignupActivity.kt:39-42 | empty fields without errors, no messages, loading hidden |
| SignupScreen.SignupActivity.SetButton | app/src/main/java/com/example/storyapp/view/signup/SignupActivity.kt:103-108 | the button is enabled exactly when all three fields are non-empty and show no error |
| SignupScreen.SignupActivity.OnNameTextChanged | app/src/main/java/com/example/storyapp/view/signup/SignupActivity.kt:44-58 | a name edit updates the name's verdict and leaves the button as it was |
| SignupScreen.SignupActivity.OnEmailTextChanged | app/src/main/java/com/example/storyapp/view/signup/SignupActivity.kt:44-50 | after an email edit the field holds its verdict and the button is recomputed |
| SignupScreen.SignupActivity.OnPasswordTextChanged | app/src/main/java/com/example/storyapp/view/signup/SignupActivity.kt:52-58 | after a password edit the field holds its verdict and the button is recomputed |
| SignupScreen.SignupActivity.OnRegisterResult | app/src/main/java/com/example/storyapp/view/signup/SignupActivity.kt:73-91 | loading, title, messages and navigation change as SignupDispatch says and in no other way |
| SignupScreen.SignupActivity.Register | app/src/main/java/com/example/storyapp/view/signup/SignupActivity.kt:66-92 | the welcome screen opens exactly when the service returned a response not flagged as an error, and then the title is set and "Akun dengan <email> sudah jadi nih…" is shown; otherwise the verbatim error text is shown and the title is unchanged; loading ends hidden |
| SignupScreen.NameEnteredLastKeepsButtonDisabled | app/src/main/java/com/example/storyapp/view/signup/SignupActivity.kt:44-58 | typing email, then password, then the name into a form whose name was empty leaves the button disabled, whatever the texts |

## Left out

- Android framework behaviour is not modelled: the activity lifecycle, view binding, window insets, menus, animations, the permission request and the camera/gallery launchers. The launchers' results are parameters (`OnGalleryResult`, `StartCamera`).
- The capture callback (`CameraMain.kt:40-48`) and `showImage` only show the image or a message. They are I/O.
- Copying the image through the `ContentResolver` is I/O. It is the parameter `copiedFileSize`: none when the copy failed, otherwise the size in bytes.
- Retrofit/OkHttp calls and the multipart request are not modelled. Their outcome is the parameter `CallOutcome`. Gson decoding is the parameter `Decoder`.
- Reading the HTTP error body is taken to succeed. An I/O failure while reading it (the inner catch of `login`/`signup`) is not modelled.
- What Gson decodes from a given body is the parameter `Decoder`, whose value may be null (`Decoded(None)`). `Repository.NullForEmptyBody` states Gson's null answer to an absent or empty body as an assumption on that parameter.
- `UploadResponse.message` is taken to be present in every decoded response. Gson would leave it null for a body without that field, and the toast would then read "Upload successful: null".
- The session store (DataStore/Flow), the `runBlocking` token read, LiveData delivery, coroutines and the view-models' forwarding are not modelled. The token is the parameter `sessionToken`. The stream's values reach the observer in order.
- LoginScreen.LoginActivity.Login and SignupScreen.SignupActivity.Register model one click with one observer. The source adds a new observer on every click (`LoginActivity.kt:77`, `SignupActivity.kt:73`), and LiveData replays its last value to it, while every earlier observer also handles the next result with its own captured email and password; a second click can therefore save two sessions or open two screens, which the model does not show.
- The `@Volatile`/`synchronized` part of `getInstance` (concurrency) is not modelled. Only its sequential rule is kept.
- The clock is the parameter `now`.
- `Uri.parse(s).toString()` is taken to give back `s`.
- `toLong()` is modelled on ASCII digits. The non-ASCII Unicode digits that `Long.parseLong` also accepts are left out.
- `trim()` is modelled on characters rather than UTF-16 units. The result is the same, because every whitespace character lies below U+FFFF.
- The `else` branch of the login observer (`LoginActivity.kt:103-106`) is not modelled. It exists only because two identical ResultState types are mixed, and it cannot run for the one type modelled here.
- `ListStoryItem`'s `lat`/`lon` (floating point) are not modelled. The response records keep only the fields the app reads. LoginResponse.kt and the story response record are not part of this model, so their shapes are taken from what the code reads.
- The login screen's `Log.d` of the token and the repository's logging are not modelled. They are output only.
- The story adapter, DiffUtil, Glide image loading, `CustomButton` drawing, the detail screen and `MainActivity`'s story-list observer are not modelled. They are display only.
