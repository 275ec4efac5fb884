# fullAuth user router — a Dafny model

This project models the account and one-time-code (OTP) core of the fullAuth
Express service. It covers these parts:

- the user router's handlers: `register`, `login`, `resetPassword`, `addEmail`,
  `sendCode`, `sendEmailCode`, `verifyCode` and `verifyEmailCode`;
- the two Mongoose schemas: `user`, with its setters, phone validator, defaults
  and `toJSON` transform, and `alert`, the stored OTP with a four-character code,
  a `revision` counter that defaults to 1 and a five-minute TTL on `createdAt`;
- the Express error middleware, which turns whatever a handler passes to `next`
  into a status and a `{message}` body.

Layout, one module per file:

| file | module | models |
|---|---|---|
| `wrappers.dfy` | `Wrappers` | `Option` |
| `json.dfy` | `Json` | JSON values, opaque bcrypt/JWT secrets, `delete ret.k` |
| `text.dfy` | `Text` | decimal text of numbers, `String.prototype.trim`, the lowercase setter |
| `error_handler.dfy` | `ErrorHandler` | `middleware/error.js` |
| `user_model.dfy` | `UserModel` | `model/user.model.js` |
| `alert_model.dfy` | `AlertModel` | `model/alert.model.js` and the store operations on it |
| `user_store.dfy` | `UserStore` | the invariant kept on the user collection |
| `user_routes.dfy` | `UserRoutes` | `routes/user.routes.js`: class `Service` holds both collections |
| `walkthrough.dfy` | `Walkthrough` | request sequences on a fresh service, for every valid phone and acceptable password, and the responses they must get |

`UserRoutes.Service` has these fields:

- `users`: the user collection, keyed by the trimmed phone, which is its unique index;
- `alerts`: the alert collection, keyed by `Phone(p)` or `Email(e)`. These keys are the raw request strings, because the alert schema has no setters;
- `now`: the clock, as the milliseconds of `Date.now()`;
- `nextId`: the next ObjectId, as a number;
- `sends`: a ghost count of successful sends in the life of each record;
- `ids` and `emails`: ghost indexes from each id, and each email, to the key of the document holding it;
- `isEmail`: stands in for the email validator's regular expression. Like that expression, it refuses the empty string.

`Valid()` is the invariant every handler keeps. It says:

- every record has a four-digit code, `1 <= revision <= 5`, and has not expired;
- at most three sends have succeeded in a record's lifetime;
- every user is stored under its own valid, trimmed phone;
- every stored email is normalised and accepted by the validator;
- each document is the one the indexes name for its id and its email, so no two users share an id or an email (`UserStore.IndexedIsDistinct`).

Each handler is a method. It takes the request fields as strings. In `register`,
`login`, `resetPassword` and `addEmail`, whose guards test the fields for
falsiness, `""` stands for a missing or empty field. The submitted code is a JSON value, so that
`===` can be modelled. The handler returns an `Outcome`:

- `Ok(body)`: status 200. The body is text or a user document; `res.json` sends a document through the schema's `toJSON`, which `Serialised` models;
- `Rejected(status, text)`: the early `res.status(..).send(..)`;
- `Failed(err)`: `next(err)`. Express hands a truthy `err` other than the routing signals `'route'` and `'router'` to the error middleware. A falsy one, such as `false`, it reads as no error, and it reads the two signals as routing. In each of those cases the request ends in Express's 404 for a request no route answers (`Status`).

Its contract gives the outcome of every guard, in the source's order, and the
new contents of both collections. The send and verify policies are shared by
the phone and email handlers:

- `SendDecision`, `SendEffect` and `SendOutcome` cover a send;
- `VerifyDecision`, `VerifyEffect` and `VerifyRejection` cover a verify;
- `SendOn` and `VerifyOn` are the state-changing halves.

Behaviours of the code worth knowing, each checked against what the code's own
comments, messages or settings suggest:

- `revision` counts sends and wrong guesses together, and starts at 1 (its default in `model/alert.model.js:20-23`). A fresh record therefore allows four wrong guesses, not five, before even the right code is refused (`Walkthrough.GuessesThenLimited`). Each wrong guess also uses up one of the three sends (`Walkthrough.WrongGuessesUseUpSends`).
- A mail that cannot be sent makes `sendMail` reject with `false`. The handler's `catch` calls `next(false)`, which Express reads as no error: the error middleware is skipped and the client gets a 404. The handler never reaches its 500 branch, whose message promises a delivery problem (`Walkthrough.EmailFlow`).
- The error middleware's default branch answers 400, although the comment at `middleware/error.js:22` calls it the 500 server error.
- A record expires when `now - createdAt >= 300000`. That is MongoDB's TTL rule for `expires: '5m'`, so the record is gone at five minutes and not only once it is older.
- On a successful phone verify, the response is the user document as read before `phoneVerified` was set, so it shows `phoneVerified` as it was before the update (false on a first verification) together with the new token (`Walkthrough.SignUpAndVerify`).
- A number submitted as the code never matches, because the stored code is a string.
- A user is found by the trimmed and lowercased email, but the alert is found by the raw string submitted.

## Model

| member | source | states |
|---|---|---|
| ErrorHandler.Handle | middleware/error.js:3-26 | every branch answers 400; a string is its own message; a `ValidationError` keeps its own message; `UnautorizedError` gives `Invalid Token`; in the default branch the message passes through unless it is `Unexpected field` |
| ErrorHandler.MessageOrigin | middleware/error.js:5-25 | the reply's message is the string itself, the error's message, `Invalid Token` or the file-count message, and nothing else |
| ErrorHandler.UnexpectedFieldOnlyByDefault | middleware/error.js:10-25 | `Unexpected field` becomes the file-count message only in the default branch; a `ValidationError` keeps it |
| ErrorHandler.TokenMessageNeedsMisspelling | middleware/error.js:15-19 | only the name spelled `UnautorizedError` gives `Invalid Token`; the correct spelling falls through to the default branch |
| ErrorHandler.StringCheckedFirst | middleware/error.js:5-9 | a string error is reported verbatim, whatever it spells |
| ErrorHandler.FalseHasNoMessage | middleware/error.js:22-25 | `false` has no name and no message: the handler would answer 400 with `{}` |
| Json.Without | model/user.model.js:40-43 | the deleted keys are gone; every other key keeps its value |
| Text.DecimalText | model/alert.model.js:10-11 | `String(n)` is a non-empty string of digits without a leading zero |
| Text.ParseDecimalText | model/alert.model.js:10-11 | reading the text of a number back gives the number |
| Text.DecimalTextLength | model/alert.model.js:12-13 | a number with k digits has a text of length k |
| Text.TrimStart | model/user.model.js:16 | the result is no longer than the input and does not start with whitespace |
| Text.TrimStartDrops | model/user.model.js:16 | what is dropped is all whitespace, and what is kept is a suffix of the input |
| Text.TrimEnd | model/user.model.js:16 | the result is no longer than the input and does not end with whitespace |
| Text.TrimEndDrops | model/user.model.js:16 | what is dropped is all whitespace, and what is kept is a prefix of the input |
| Text.Trim | model/user.model.js:16 | the result neither starts nor ends with whitespace |
| Text.TrimIsInfix | model/user.model.js:16 | the input is whitespace, then the trimmed string, then whitespace |
| Text.TrimIdempotent | model/user.model.js:16 | trimming twice is trimming once |
| Text.Lower | model/user.model.js:6 | every character is lowercased, and the length is kept |
| Text.LowerIdempotent | model/user.model.js:6 | no upper-case letter is left, and lowercasing again changes nothing |
| Text.LowerTrimCommute | model/user.model.js:6-7 | the lowercase and trim setters commute |
| UserModel.NormalizePhone | model/user.model.js:16 | the stored phone is the trimmed submission, trimming it again changes nothing, and a valid phone is stored as submitted |
| UserModel.NormalizeEmail | model/user.model.js:6-7 | lowercasing and trimming in either order give the same result, which has no upper-case letter and no surrounding whitespace |
| UserModel.NewUser | model/user.model.js:26-33 | a new user has both flags false, no email and no token |
| UserModel.NormalizeEmailIdempotent | model/user.model.js:6-7 | normalising an email twice is normalising it once |
| UserModel.NormalizedEmailIsNormal | model/user.model.js:4-7 | the setters always produce a normal email |
| UserModel.NormalEmailIsFixed | model/user.model.js:4-7 | an email is normal exactly when the setters leave it unchanged |
| UserModel.FiveZerosAt | model/user.model.js:18 | the recursive `/0{5,}/` search holds exactly when five zeros start at some index |
| UserModel.MatchesPhonePattern | model/user.model.js:18 | a match is 10 to 15 characters ending in a digit: ten digits alone, or a `+` first |
| UserModel.HasFiveZeros | model/user.model.js:18 | a `/0{5,}/` match needs at least five zeros in the string |
| UserModel.StartsOneToFive | model/user.model.js:18 | `'12345'.includes(number[0])` holds exactly for a non-empty number whose first character is 1 to 5 |
| UserModel.Refusal | model/user.model.js:10-19 | a validator's message starts with the refused value and ends with the kind it should have been (`email`, `phone number`) |
| UserModel.PhoneValid | model/user.model.js:18 | a phone is valid exactly when it matches the pattern and any run of five zeros is in a ten-digit number starting with 1 to 5 |
| UserModel.PlusWithZeroRunRejected | model/user.model.js:18 | every `+`-prefixed number with five zeros in a row is rejected |
| UserModel.SplitPhone | model/user.model.js:18 | every string the pattern accepts is the rendering of a well-formed country code and ten-digit number |
| UserModel.RenderSplit | model/user.model.js:18 | every well-formed rendering is accepted, and splitting it gives the same parts back |
| UserModel.ValidPhoneIsTrimmed | model/user.model.js:13-18 | any valid phone is unchanged by the trim setter |
| UserModel.Document | model/user.model.js:3-39 | the serialised document holds each field with its value, `email` and `token` only when set, and the string `id`, and nothing else |
| UserModel.ToJson | model/user.model.js:37-44 | `_id` and `password` are removed; id, phone and both flags are kept; `email` and `token` are present exactly when set; no other key is sent |
| AlertModel.DrawCode | routes/user.routes.js:153 | `Math.floor(1000 + Math.random() * 9000)` lies in 1000..9999 |
| AlertModel.FreshCodeFits | model/alert.model.js:10-14 | a drawn code, as a string, passes the length-4 validators, is all digits and reads back as the number drawn |
| AlertModel.CodeLengthOk | model/alert.model.js:10-14 | a code passes the schema exactly when it has four characters |
| AlertModel.Live | model/alert.model.js:15-19 | a record is live exactly while `now` is before `createdAt` plus five minutes |
| AlertModel.Create | model/alert.model.js:15-23 | the new record has the given code, `createdAt = now` and `revision = 1`; other records are unchanged |
| AlertModel.Increment | routes/user.routes.js:165 | `$inc` moves only the counter of the matched record; with no match nothing changes |
| AlertModel.Delete | routes/user.routes.js:184 | exactly the channel's record is removed |
| AlertModel.Expire | model/alert.model.js:15-19 | exactly the records younger than five minutes remain, unchanged |
| AlertModel.ExpiryIsAbsolute | model/alert.model.js:15-19 | however often a record is incremented, it keeps its code and creation time and expires exactly when the original would |
| AlertModel.Document | model/alert.model.js:3-30 | the serialised record holds code, createdAt, revision, its address and the string `id`, and nothing else |
| AlertModel.ToJson | model/alert.model.js:26-32 | `_id` is removed, every other field is kept, and no other key is sent |
| UserStore.IndexedIsDistinct | routes/user.routes.js:113-117 | in a sound collection no two documents share an id or an email |
| UserStore.HasEmailOwner | routes/user.routes.js:113 | when `User.findOne({email})` finds nothing, no document holds that email |
| UserStore.EmailOwnerIsIndexed | routes/user.routes.js:219-224 | `User.findOne({email})` in a sound collection can find only one document: every holder of the email is the one found |
| UserStore.SetEmail | routes/user.routes.js:117 | the email is set on exactly the document with that id; the phones are unchanged |
| UserStore.UpdateKeepsUsersSound | routes/user.routes.js:183 | changing a user's flags or password keeps the collection sound |
| UserStore.CreateKeepsUsersSound | routes/user.routes.js:28-31 | creating a new phone with a fresh id keeps phones, ids and emails unique |
| UserStore.SetEmailKeepsUsersSound | routes/user.routes.js:113-117 | attaching an email that nobody has and the validator accepts keeps emails unique |
| UserRoutes.Serialised | routes/user.routes.js:34 | a document response never carries the hash or `_id`; it carries the phone, `phoneVerified` and any token set on the document |
| UserRoutes.Status | middleware/error.js:3-26 | a 200 response is `Ok`; an early reply keeps its status; a truthy error passed to `next` answers 400; `false`, `''`, `'route'` and `'router'` end in Express's 404 |
| UserRoutes.PasswordRejection | routes/user.routes.js:17-18 | a password is accepted exactly when its length is 7..16; the too-long message takes priority |
| UserRoutes.ValidationError | routes/user.routes.js:28-31 | a value refused by the phone validator in `User.create`, or by the email validator in the validated `updateOne` at line 117, becomes a `ValidationError`. The error middleware answers it with 400 and Mongoose's message: the operation's prefix, the path, then the schema's message for the value |
| UserRoutes.PasswordMatches | routes/user.routes.js:53 | `bcrypt.compare` succeeds exactly for a hash made from this password, never for a token |
| UserRoutes.CompareAcceptsOnlyTheHashedPassword | routes/user.routes.js:53-54 | a stored hash matches exactly the password it was made from |
| UserRoutes.Lookup | routes/user.routes.js:152 | `Alert.findOne` finds the channel's record exactly when one exists |
| UserRoutes.SendDecision | routes/user.routes.js:152-156 | no account: refused; an account with `revision >= 3`: limited; otherwise the stored code is reused, or the fresh draw is used with a new record |
| UserRoutes.SendEffect | routes/user.routes.js:160-166 | the collection is unchanged unless the gateway delivered; then the record is created with the sent code or its counter goes up by one |
| UserRoutes.SendOutcome | routes/user.routes.js:155-168 | the reply is `OTP sent` exactly when the gateway was called and delivered; a missing account gets the handler's own reply, the send limit a 400 `Limit exhausted`, and an undelivered code the handler's failure reply |
| UserRoutes.StrictEquals | routes/user.routes.js:182 | `===` holds only for a string submission, and for one exactly when its characters are the stored code's |
| UserRoutes.NumberNeverMatches | routes/user.routes.js:182 | a number, or no code at all, never `===` the stored string |
| UserRoutes.VerifyDecision | routes/user.routes.js:179-182 | the code is correct exactly when the account and record exist, revision < 5 and the strings are equal; incorrect when they differ |
| UserRoutes.VerifyCheckOrder | routes/user.routes.js:179-181 | the checks run in order account, record, limit; the limit refuses any code, even the right one |
| UserRoutes.VerifyEffect | routes/user.routes.js:182-209 | on a match the record is deleted; on a mismatch only its counter goes up; otherwise nothing changes |
| UserRoutes.VerifyRejection | routes/user.routes.js:178-210 | a failed verify is a rejection, and it is a 404 exactly for a missing account or an expired code; the verify limit is a 400 `Limit exhausted` and a wrong code a 400 `OTP incorrect` |
| UserRoutes.SendKeepsAlertsSound | routes/user.routes.js:156-166 | after a send every record is sound, and at most three sends succeed in its lifetime |
| UserRoutes.VerifyKeepsAlertsSound | routes/user.routes.js:181-209 | after a verify every record is sound; the counter never exceeds 5 |
| UserRoutes.ExpireKeepsAlertsSound | model/alert.model.js:15-19 | the TTL index leaves only sound records |
| UserRoutes.Service.Tick | model/alert.model.js:15-19 | time advances and exactly the expired records disappear; users are untouched |
| UserRoutes.Service.Register | routes/user.routes.js:11-38 | every guard's reply in order: missing field, password length, existing phone (409), validation error; on success the trimmed phone is stored with the hash and defaults, and the new document is the response |
| UserRoutes.Service.Login | routes/user.routes.js:40-80 | missing field, unknown phone, wrong password, unverified phone; on success the user's document with a fresh access token, and the refresh cookie; nothing is stored |
| UserRoutes.Service.ResetPassword | routes/user.routes.js:236-255 | missing field, password length, unknown phone, wrong old password; on success only that user's hash changes |
| UserRoutes.Service.AddEmail | routes/user.routes.js:108-122 | missing email, email taken, validation error; on success the normalised email is set on the caller's document |
| UserRoutes.Service.SendOn | routes/user.routes.js:150-167 | the verdict is the send policy; the collection changes as the send effect says; one more send is counted after a delivery |
| UserRoutes.Service.SendCode | routes/user.routes.js:149-172 | the reply, the code handed to the SMS gateway, and the new alert collection; users are untouched |
| UserRoutes.Service.SendEmailCode | routes/user.routes.js:124-147 | as for the phone, with the account found by normalised email; an undelivered mail ends in `next(false)` |
| UserRoutes.Service.VerifyOn | routes/user.routes.js:177-209 | the verdict is the verify policy; the record is deleted or incremented as the verify effect says |
| UserRoutes.Service.VerifyCode | routes/user.routes.js:174-213 | a failed verify is rejected and users are unchanged; a correct code sets `phoneVerified`, deletes the code and returns the pre-update user with a new token and refresh cookie |
| UserRoutes.Service.VerifyEmailCode | routes/user.routes.js:215-234 | a failed verify is rejected; a correct code sets `emailVerified` on the email's owner and deletes the code |
| Walkthrough.SamplePhoneAccepted | model/user.model.js:18 | `1000001234` passes the validator despite its five zeros, because it starts with 1, and is unchanged by the trim setter |
| Walkthrough.SampleZeroRunRejected | model/user.model.js:18 | `9000001234` matches the pattern but is refused for its five zeros |
| Walkthrough.SampleEmailNormal | model/user.model.js:4-7 | `me@example.com` is left unchanged by the setters and passes the stand-in validator |
| Walkthrough.LoginNeedsVerifiedPhone | routes/user.routes.js:57 | a registered but unverified user cannot log in |
| Walkthrough.SignUpAndVerify | routes/user.routes.js:174-213 | wrong guess, right guess, then the code is reported expired; the response shows the stale flag; the next login succeeds |
| Walkthrough.ThreeSendsThenLimited | routes/user.routes.js:153-156 | three sends deliver the same code; the fourth is refused and the gateway is not called |
| Walkthrough.GuessesThenLimited | routes/user.routes.js:181 | after four wrong guesses even the right code is refused |
| Walkthrough.WrongGuessesUseUpSends | routes/user.routes.js:156 | two wrong guesses after one send leave no resend |
| Walkthrough.CodeExpires | model/alert.model.js:15-19 | five minutes after creation the right code is reported expired |
| Walkthrough.CodeLivesUntilExpiry | model/alert.model.js:15-19 | a millisecond before that it is still accepted |
| Walkthrough.EmailFlow | routes/user.routes.js:108-147 | for every normalised address the validator accepts: add it, fail a mail (`next(false)`, which the client sees as 404), send, then verify the email |

## Left out

- The SMS and mail gateways in `sms/index.js` (HTTP and SMTP). They become the `delivered` parameter of the send methods, which also return the code that would be handed over.
- `Math.random()`: it is the `random` parameter, a real in [0, 1). Floating-point rounding of `1000 + r * 9000` is not modelled.
- `Date.now()` and the TTL monitor: the clock is the `now` field and `Tick` applies the TTL rule. MongoDB's monitor runs only about once a minute, so a record can stay visible somewhat longer; that delay is not modelled.
- bcrypt and JWT: hashes and tokens are opaque values (`BcryptHash(p)`, `AccessToken(id, phone)`, `RefreshToken(t)`). Salts and signing secrets are not modelled. `bcrypt.compare` holds exactly for the hashed password.
- The email validator's regular expression is the abstract `isEmail`. Failing validation is modelled, the expression itself is not.
- The lowercase setter lowercases ASCII letters only. Full Unicode case mapping is not modelled. Lengths count code points, not UTF-16 units.
- Request fields that are not strings (numbers, arrays, objects) are not modelled, except for the verify `code`. The `req.query.email` fallback is folded into the one `email` parameter.
- ObjectIds are numbers, and the `id` virtual is their decimal text. `createdAt` is serialised as milliseconds, not as an ISO date.
- UserRoutes.ValidationError: the message prefixes are taken as `user validation failed`, after the model name `user`, and `Validation failed` for an update. How Mongoose words and joins the messages of several failing paths is not modelled, because only one path is validated at a time here.
- The password setter's `trim` is not applied to the stored hash. bcrypt hashes contain no whitespace, so it would change nothing.
- Concurrency: each handler runs atomically. The races between concurrent sends or verifies on one channel are not modelled.
- `refresh`, `getUser` and the router wiring in `routes/user.routes.js`, the authentication middleware, `server.js` and `routes/ping.routes.js` are not part of this model. `addEmail` takes the id the authentication middleware would supply.
- UserRoutes.Status: the 404 for `next(false)` is Express's own fall-through. Its body, the `Cannot POST` page, is not modelled, and neither is how Express decides that no later route matches.
- UserRoutes.Service.SendEmailCode: a request with no `email` is not modelled. The `""` parameter is a submitted empty string, which no user holds. A missing field makes both `findOne` filters `{email: undefined}`, which MongoDB reads as `null`: they then match a user without an email and a phone record, and the response depends on which records those are.
- UserRoutes.Service.VerifyEmailCode: a request with no `email` is not modelled, for the same reason. In the code such a request can compare the code with a phone record's, count a wrong guess on that record, or set `emailVerified` on a user without an email and delete the phone record.
- Walkthrough.EmailFlow: the 404 it states for the failed mail is the status only; the body Express sends with it is not modelled.
- `UserRoutes.Service.SendCode`, `UserRoutes.Service.SendEmailCode`, `UserRoutes.Service.VerifyCode` and `UserRoutes.Service.VerifyEmailCode`: their contracts leave the ghost send count to `SendOn` and `VerifyOn`, and state only `Valid()` about it.
