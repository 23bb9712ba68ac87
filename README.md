# Credential input layer of the CitrusCounter sign-up and login screens

The model covers the input handling that the sign-up screen and the login screen of the
CitrusCounter app share. Phone keystrokes are normalised into one of two stored shapes:
digits only, or `+92` followed by digits. Stored numbers are validated against the local
(`03` and nine digits) and international (`+923` and nine digits) Pakistani mobile formats.
The main password field is cut to six characters and carries a validity indicator. The
confirmation field also filters out anything outside `[A-Za-z0-9]` and raises two separate
alerts. The sign-up and login buttons each run their checks in a fixed order, and the
login button is disabled by a `loading` flag while its request is outstanding. The model
also covers what the login screen does with the server's reply.

Layout:

- `chars.dfy` (module `Chars`): character classes (`\d`, `[A-Za-z0-9]`, ECMAScript `\s`),
  `slice(0, n)`, and one generic character filter. The two character-class deletions of
  the source (`\s` and `[^A-Za-z0-9]`) are instances of that filter, and so is the digit
  filter that the lookahead regex of the phone handler reduces to from position 1 on.
- `phone.dfy` (module `Phone`): the phone normaliser and validator.
  - `Sanitize` models the lookahead regex of the first step position by position.
  - `StripLeadingDigits` models `replace(/^\d*/, '')`.
  - `FormatPhoneInput` runs the handler's steps one after another.
  - `Normalize` states the stored value directly. The two are proved equal.
- `password.dfy` (module `Password`): the six-character code rule and the indicator.
- `signup.dfy` (module `Signup`): class `SignupScreen`, whose fields are the screen's state
  hooks, and the sign-up checks.
- `login.dfy` (module `Login`): class `LoginScreen`, the login checks, the `loading`
  protocol, and the handling of the reply.

Both screens define the phone and password functions separately. The phone functions
match line for line: `validatePhoneNumber` (`app/screens/LoginScreen.js:36-47` and
`app/screens/SignupScreen.js:33-44`) and `handlePhoneNumberChange`
(`app/screens/LoginScreen.js:50-71` and `app/screens/SignupScreen.js:47-68`). The password
functions `validatePassword` and `handlePasswordChange` have the same code but differ in
placement and comments (`app/screens/LoginScreen.js:27` and `73-82`,
`app/screens/SignupScreen.js:72-85`). The model defines each function once, and both
classes call the shared definitions. So for every input the login handlers compute the
same results as the sign-up handlers.

A quirk of the normaliser is modelled as written. When the sanitised input starts with `+`
but not with `+92`, the code removes the leading run of digits from a remainder that is
already all digits (`app/screens/SignupScreen.js:52`). Such input is therefore stored as
exactly `+92`, and the digits typed after the `+` are discarded. One might expect those
digits to be kept; the code discards them, and the model follows the code (`Phone.Normalize`,
`Phone.NormalizeExamples`).

## Model

| member | source | states |
|---|---|---|
| `Chars.Keep` | app/screens/SignupScreen.js:90 | a global character-deleting `replace` keeps only characters of the class and never lengthens the text |
| `Chars.KeepAppend` | app/screens/SignupScreen.js:48 | deleting characters of a class works piecewise over concatenation, so the kept characters stay in input order |
| `Chars.KeepUnchangedIff` | app/screens/SignupScreen.js:96 | a deleting `replace` returns its input unchanged exactly when every character already belongs to the class |
| `Chars.Digits` | app/screens/SignupScreen.js:48 | deleting non-digits leaves only ASCII digits |
| `Chars.DigitsOfDigits` | app/screens/SignupScreen.js:48 | deleting non-digits from an all-digit text changes nothing |
| `Chars.FilterAlnum` | app/screens/SignupScreen.js:90 | the confirmation filter leaves only `[A-Za-z0-9]` characters |
| `Chars.FilterAlnumChangesIff` | app/screens/SignupScreen.js:90-98 | the filtered confirmation differs from the raw input exactly when the input holds a character outside `[A-Za-z0-9]` |
| `Chars.RemoveWhitespace` | app/screens/SignupScreen.js:35 | removing `\s` leaves no whitespace character |
| `Chars.RemoveWhitespaceOfClean` | app/screens/SignupScreen.js:35 | removing whitespace from a whitespace-free text changes nothing |
| `Chars.Take` | app/screens/SignupScreen.js:58 | `slice(0, n)` (also at :76 and :100) yields exactly `n` characters when the text is longer, the whole text otherwise, and always a prefix of it |
| `Phone.SanitizeFrom` | app/screens/SignupScreen.js:48 | what the lookahead regex keeps from position `i` on, deciding each position as the regex does: never longer than that part of the text, and only digits, except for a `+` kept at position 0 |
| `Phone.Sanitize` | app/screens/SignupScreen.js:48 | the first step of the handler is never longer than its input, starts with `+` exactly when the raw input does, and holds only digits after that; `SanitizeSplit` states its exact content |
| `Phone.SanitizeFromDigits` | app/screens/SignupScreen.js:48 | from position 1 on, the lookahead regex removes exactly the non-digits |
| `Phone.SanitizeSplit` | app/screens/SignupScreen.js:48 | the first step keeps a `+` only when it is the first raw character, then every digit in order, and nothing else |
| `Phone.StripLeadingDigits` | app/screens/SignupScreen.js:52 | `replace(/^\d*/, '')` removes a leading all-digit prefix and leaves a suffix that does not start with a digit |
| `Phone.StripLeadingDigitsOfDigits` | app/screens/SignupScreen.js:51-53 | on the all-digit remainder after a `+` the strip removes everything, so the rewrite yields exactly `+92` |
| `Phone.Normalize` | app/screens/SignupScreen.js:47-59 | the stored value is all digits with at most 11 characters, or `+92` and then digits only with at most 13; it starts with `+` exactly when the raw input does; `+` appears nowhere else |
| `Phone.FormatPhoneInput` | app/screens/SignupScreen.js:48-59 | the handler's steps (sanitise, rewrite a foreign `+`, compute `maxLength`, truncate) store exactly `Normalize(input)`, and its `maxLength` is that of the stored value |
| `Phone.MaxLength` | app/screens/SignupScreen.js:56 | the `maxLength` rule: 13 for text starting with `+92`, otherwise 11. `ValidPhoneLength` and `ValidStoredPhoneIsFull` prove that an accepted number has exactly this length |
| `Phone.ValidPhone` | app/screens/SignupScreen.js:33-44 | `validatePhoneNumber`: after deleting whitespace, `03` and nine digits, or `+923` and nine digits. Its properties are proved by `ValidPhoneLength`, `ValidPhoneIsFixedPoint`, `ValidStoredPhoneIsFull` and the two worked examples |
| `Phone.ValidPhoneLength` | app/screens/SignupScreen.js:33-44 | an accepted number is 11 or 13 characters long after whitespace removal, that length is its `maxLength`, and the empty string is rejected |
| `Phone.NormalizeIdempotent` | app/screens/SignupScreen.js:47-59 | normalising a stored value again leaves it unchanged |
| `Phone.ValidPhoneIsFixedPoint` | app/screens/SignupScreen.js:33-59 | every whitespace-free number the validator accepts is stored exactly as typed |
| `Phone.ValidStoredPhoneIsFull` | app/screens/SignupScreen.js:56-67 | a stored number the validator accepts always has length equal to its `maxLength` |
| `Phone.LocalPhoneExample` | app/screens/SignupScreen.js:37-38 | `03001234567` is accepted, and rejected with its last digit missing |
| `Phone.IntlPhoneExample` | app/screens/SignupScreen.js:40-41 | `+923001234567` is accepted, and rejected with its last digit missing |
| `Phone.NormalizeExamples` | app/screens/SignupScreen.js:51-53 | `+921234` is stored as typed; `+3001234567` is stored as `+92` |
| `Password.ValidPassword` | app/screens/SignupScreen.js:72 | `validatePassword`: exactly six characters, all in `[A-Za-z0-9]`. `PasswordIndicator`, `SignupGate` and `LoginGate` state their outcomes in terms of it |
| `Password.PasswordIndicator` | app/screens/SignupScreen.js:72-85 | the indicator is false exactly when six characters are stored and one lies outside `[A-Za-z0-9]`; it is true below six characters |
| `Signup.SignupGate` | app/screens/SignupScreen.js:103-120 | each outcome occurs under exactly its condition in the fixed order (fields, phone, password format, match); the request is sent only when all pass, and then the confirmation is a valid code |
| `Signup.SignupScreen.constructor` | app/screens/SignupScreen.js:9-16 | the form starts empty with a neutral indicator and satisfies the screen invariant |
| `Signup.SignupScreen.SetName` | app/screens/SignupScreen.js:169 | the name field stores its input unchanged |
| `Signup.SignupScreen.HandlePhoneNumberChange` | app/screens/SignupScreen.js:47-68 | stores `Normalize(input)`; the error is set exactly when the stored number has reached `maxLength` and is rejected, otherwise it is cleared |
| `Signup.SignupScreen.BlurPhone` | app/screens/SignupScreen.js:183-187 | blur sets the error for every rejected number, the empty one included, and never clears it |
| `Signup.SignupScreen.HandlePasswordChange` | app/screens/SignupScreen.js:74-85 | stores the first six characters typed and recomputes the indicator from them |
| `Password.ConfirmAlerts` | app/screens/SignupScreen.js:90-98 | the alerts are exactly, in this order: the too-long alert when the raw input is longer than six, then the invalid-character alert when the raw input holds a character outside `[A-Za-z0-9]`; each fires at most once and no other alert fires |
| `Signup.SignupScreen.HandleConfirmPasswordChange` | app/screens/SignupScreen.js:89-101 | stores the first six alphanumeric characters and returns the alerts of `ConfirmAlerts`, in firing order |
| `Signup.SignupScreen.HandleSignup` | app/screens/SignupScreen.js:103-121 | returns the `SignupGate` outcome of the current fields; only a rejected phone number touches state, by setting the inline error |
| `Login.Or` | app/screens/LoginScreen.js:113-114 | `a \|\| b` is truthy exactly when one operand is, and is `a` when `a` is truthy, else `b` |
| `Login.LoginGate` | app/screens/LoginScreen.js:84-97 | each alert occurs under exactly its condition in the fixed order (fields, phone, password format); the request is sent exactly when the phone and password are valid |
| `Login.StoredUser` | app/screens/LoginScreen.js:110-118 | nothing is stored without `user`; the name is `fullname` if truthy else `name`, and the phone is `phonenumber` if truthy else `phone`; each stored field is truthy exactly when one of its sources is |
| `Login.ReplyResult` | app/screens/LoginScreen.js:110-132 | an ok reply leads home storing `StoredUser`; a failed reply shows the server's message or the fixed fallback; a thrown error shows its message after the fixed prefix; every alert text is non-empty |
| `Login.LoginScreen.constructor` | app/screens/LoginScreen.js:17-22 | the form starts empty, the indicator neutral, and `loading` false |
| `Login.LoginScreen.HandlePhoneNumberChange` | app/screens/LoginScreen.js:50-71 | the same normalisation and keystroke error as the sign-up screen, through the shared definitions |
| `Login.LoginScreen.BlurPhone` | app/screens/LoginScreen.js:155-159 | blur sets the error for every rejected number, the empty one included, and never clears it; only a keystroke clears it |
| `Login.LoginScreen.HandlePasswordChange` | app/screens/LoginScreen.js:73-82 | stores the first six characters typed; the indicator is true whenever fewer than six are stored |
| `Login.LoginScreen.PressLogin` | app/screens/LoginScreen.js:84-99 | a press while `loading` does nothing (the button is disabled); otherwise the checks run, a failure changes no state, and `loading` becomes true exactly when the request is sent |
| `Login.LoginScreen.CompleteLogin` | app/screens/LoginScreen.js:98-135 | when the attempt ends, whatever its outcome, `loading` is false again, and the reply is handled as `ReplyResult` states |

## Left out

- The HTTP requests, `response.json()`, AsyncStorage writes and navigation are not modelled. Reaching the sign-up request is the `Proceed` outcome carrying the request body. The login reply, or the error its request or parsing throws, is a parameter of `CompleteLogin`.
- The handling of the sign-up reply (`app/screens/SignupScreen.js:122-151`) is not modelled. It consists only of network, storage and navigation calls.
- A failure of the AsyncStorage write after a successful login is not modelled. In the source it would be caught and shown as a network error.
- Alert titles are not modelled, and neither is the 100 ms `setTimeout` before the confirmation alerts. The alerts are returned as values: their texts, and for the confirmation field their firing order.
- `console.log` and `console.error` calls are not modelled, because they are diagnostics only.
- `getPhoneMaxLength` is not modelled. It is never called, and its rule disagrees with the handler's `maxLength`.
- JavaScript strings are UTF-16 code units, and `.length` and `.slice` count those units. The model counts characters instead, so the two differ only for characters outside the Basic Multilingual Plane.
- JSON fields of the login reply are modelled as optional strings. Values of other types (numbers, objects) in `fullname`, `name`, `phonenumber`, `phone` or `message` are not modelled.
- React's asynchronous state batching is not modelled: each handler is an atomic step on the current field values.
- The missing double-submit guard on sign-up is therefore not modelled either.
- The password-visibility toggles, focus chaining, styles and JSX are not modelled, because they are presentation only.
- `app/screens/SummaryScreen.js` is not part of this model. It does image upload, report requests and formatting of remote data.
- `Login.StoredUser`: its last two clauses repeat the mapping itself, because the mapping is exactly what the source specifies. The truthiness equivalences are the properties that go beyond the mapping.
- `Login.ReplyResult`: its clauses for a failed response and a thrown error repeat the case split of the source, because that split is what the source specifies. The properties that go beyond it are that every alert text is non-empty and that the screen leads home exactly when the response is ok.
