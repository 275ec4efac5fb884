/**
  The user router: registration, login, password reset, attaching an email,
  and the one-time-code protocol that verifies a phone number or an email
  address. The two MongoDB collections it works on are the fields of
  `Service`; each handler is a method that reads them, returns early on a
  failed check, and otherwise updates them in place.
 */
module UserRoutes {
  import opened Wrappers
  import opened Text
  import opened Json
  import ErrorHandler
  import opened UserModel
  import opened AlertModel
  import opened UserStore

  const SEND_LIMIT := 3       // a send is refused once revision >= 3
  const VERIFY_LIMIT := 5     // a verify is refused once revision >= 5
  const MIN_PASSWORD := 7
  const MAX_PASSWORD := 16

  const ALL_FIELDS := "All fields are required. (phone and password)"
  const PASSWORD_TOO_LONG := "Password string should be at most 16 characters long."
  const PASSWORD_TOO_SHORT := "Password string should be at least 7 characters long."
  const ALREADY_REGISTERED := "Seems like you are already registered, please login to continue."
  const NO_ACCOUNT_BY_PHONE := "No account found by that phone"
  const INVALID_PASSWORD := "Invalid password"
  const VERIFY_PHONE_FIRST := "Please verify your phone number to login."
  const NO_EMAIL_GIVEN := "Please enter a valid email id to add."
  const EMAIL_TAKEN := "This email address is already associated with another user."
  const EMAIL_UPDATED := "Email updated successfully"
  const NO_EMAIL_USER := "Cannot find any user matching that email. Please add email to your account first."
  const NO_PHONE_USER := "Cannot find any user matching the phone number. Please create an account first."
  const LIMIT_EXHAUSTED := "You have exausted your limit. Please wait and try after some time."
  const DELIVERY_TROUBLE := "We are having difficulties in sending OTP, please try after some time"
  const OTP_SENT := "OTP sent successufully."
  const OTP_EXPIRED := "Your requested otp has expired. Please request for another otp."
  const OTP_INCORRECT := "The otp you entered is incorrect, please try again."
  const EMAIL_VERIFIED := "You have successfully verified your email."
  const RESET_FIELDS := "All fields are required. (phone, old and new passwords)"
  const NO_USER_BY_PHONE := "No user exist by that phone number."
  const OLD_PASSWORD_WRONG := "The password you enetered is incorrect."
  const PASSWORD_CHANGED := "You have successfully modified your password"

  /** What a 200 response carries: text, a user document, or a user document
      together with the `refresh` cookie. Documents are sent through `res.json`,
      which serialises them with the schema's toJSON (`Serialised`). */
  datatype Body =
    | Plain(text: string)
    | UserDoc(user: User)
    | SignedIn(user: User, refreshCookie: Secret)

  /** The JSON object `res.json` sends for a document body. However the
      handler reached it, the hash and `_id` are never sent, and a token set
      on the document is. */
  function Serialised(b: Body): (r: Option<JsonObject>)
    ensures r.None? <==> b.Plain?
    ensures r.Some? ==> "password" !in r.value && "_id" !in r.value
    ensures r.Some? ==> "phone" in r.value && r.value["phone"] == JString(b.user.phone)
    ensures r.Some? ==> "phoneVerified" in r.value && r.value["phoneVerified"] == JBool(b.user.phoneVerified)
    ensures r.Some? && b.user.token.Some? ==> "token" in r.value && r.value["token"] == JSecret(b.user.token.value)
  {
    match b
    case Plain(_) => None
    case UserDoc(u) => Some(UserModel.ToJson(u))
    case SignedIn(u, _) => Some(UserModel.ToJson(u))
  }

  /** How a handler ends: `res.status(200)`, an early `res.status(s).send(text)`,
      or `next(err)`. */
  datatype Outcome =
    | Ok(body: Body)
    | Rejected(status: int, text: string)
    | Failed(error: ErrorHandler.ErrorValue)

  /** Express hands `next(err)` to the error middleware only when `err` is
      truthy and is not one of the routing signals `'route'` and `'router'`.
      Otherwise the error middleware is skipped and, with no later route for
      the request, Express answers 404. */
  predicate ReachesErrorMiddleware(err: ErrorHandler.ErrorValue) {
    && !err.FalseError?
    && err != ErrorHandler.StringError("")
    && err != ErrorHandler.StringError("route")
    && err != ErrorHandler.StringError("router")
  }

  const NO_ROUTE_STATUS := 404

  /** The status the client sees. */
  function Status(o: Outcome): (s: int)
    ensures o.Ok? ==> s == 200
    ensures o.Rejected? ==> s == o.status
    ensures o.Failed? && ReachesErrorMiddleware(o.error) ==> s == 400
    ensures o.Failed? && !ReachesErrorMiddleware(o.error) ==> s == NO_ROUTE_STATUS
  {
    match o
    case Ok(_) => 200
    case Rejected(s, _) => s
    case Failed(e) => if ReachesErrorMiddleware(e) then ErrorHandler.Handle(e).status else NO_ROUTE_STATUS
  }

  /** `sendMail` rejects with `false` when the mail cannot be sent. */
  const MAIL_REJECTION := ErrorHandler.FalseError

  /** How Mongoose's ValidationError message begins: after `User.create`, and
      after a validated `updateOne`. */
  const CREATE_FAILED := "user validation failed"
  const UPDATE_FAILED := "Validation failed"

  /** The ValidationError Mongoose raises when the validator at `path` refuses
      a value, with the schema's own `message` for it. The error middleware
      answers it with 400 and the whole message. */
  function ValidationError(prefix: string, path: string, message: string): (err: ErrorHandler.ErrorValue)
    ensures ReachesErrorMiddleware(err) && ErrorHandler.Name(err) == Some(ErrorHandler.VALIDATION_ERROR)
    ensures ErrorHandler.Handle(err) == ErrorHandler.Reply(400, Some(prefix + ": " + path + ": " + message))
  {
    ErrorHandler.ObjectError(Some(ErrorHandler.VALIDATION_ERROR), Some(prefix + ": " + path + ": " + message))
  }

  // ---------------------------------------------------------------------
  // Checks made inline by the handlers

  /** The length checks of `register` and `resetPassword`, in their order. */
  function PasswordRejection(password: string): (r: Option<string>)
    ensures r.None? <==> MIN_PASSWORD <= |password| <= MAX_PASSWORD
    ensures r.Some? ==> r.value == (if |password| > MAX_PASSWORD then PASSWORD_TOO_LONG else PASSWORD_TOO_SHORT)
  {
    if |password| > MAX_PASSWORD then Some(PASSWORD_TOO_LONG)
    else if |password| < MIN_PASSWORD then Some(PASSWORD_TOO_SHORT)
    else None
  }

  /** bcrypt.compare: does the hash come from this password? A token never matches. */
  predicate PasswordMatches(password: string, hash: Secret): (r: bool)
    ensures r ==> hash.BcryptHash? && hash.password == password
    ensures hash.BcryptHash? && hash.password == password ==> r
  {
    hash == BcryptHash(password)
  }

  lemma CompareAcceptsOnlyTheHashedPassword(password: string, other: string)
    ensures PasswordMatches(password, BcryptHash(other)) <==> password == other
  {
  }

  function Lookup(alerts: Store, ch: Channel): (r: Option<Alert>)
    ensures r.Some? <==> ch in alerts
    ensures r.Some? ==> r.value == alerts[ch]
  {
    if ch in alerts then Some(alerts[ch]) else None
  }

  /** What a send decides before calling the gateway. */
  datatype SendVerdict =
    | SendNoAccount
    | SendLimited
    | Dispatch(code: string, create: bool)

  /** The send policy, shared by `sendCode` and `sendEmailCode`: the account
      check comes first, then the send limit; the code is the stored one when
      a record exists (`existingAlert?.code || fresh`), else the fresh draw,
      and only then is a new record to be created. */
  function SendDecision(hasAccount: bool, existing: Option<Alert>, drawn: string): (v: SendVerdict)
    ensures !hasAccount ==> v == SendNoAccount
    ensures hasAccount && existing.Some? && existing.value.revision >= SEND_LIMIT ==> v == SendLimited
    ensures v.Dispatch? <==> hasAccount && !(existing.Some? && existing.value.revision >= SEND_LIMIT)
    ensures v.Dispatch? && existing.Some? && existing.value.code != "" ==>
      v.code == existing.value.code && !v.create
    ensures v.Dispatch? && existing.None? ==> v.code == drawn && v.create
  {
    if !hasAccount then SendNoAccount
    else if existing.Some? && existing.value.revision >= SEND_LIMIT then SendLimited
    else
      var reuse := existing.Some? && existing.value.code != "";
      Dispatch(if reuse then existing.value.code else drawn, !reuse)
  }

  /** `code === existingAlert.code`: only a string submission with the same characters. */
  predicate StrictEquals(submitted: Option<JsonValue>, stored: string): (r: bool)
    ensures r ==> submitted.Some? && submitted.value.JString?
    ensures submitted.Some? && submitted.value.JString? ==> (r <==> submitted.value.s == stored)
  {
    submitted == Some(JString(stored))
  }

  /** A number typed for the code never matches, even with the same digits:
      the code is stored as a string. */
  lemma NumberNeverMatches(n: int, stored: string)
    ensures !StrictEquals(Some(JNumber(n)), stored) && !StrictEquals(None, stored)
  {
  }

  datatype VerifyVerdict = VerifyNoAccount | VerifyExpired | VerifyLimited | Correct | Incorrect

  /** The verify policy, shared by `verifyCode` and `verifyEmailCode`. */
  function VerifyDecision(hasAccount: bool, existing: Option<Alert>, submitted: Option<JsonValue>): (v: VerifyVerdict)
    ensures v == Correct <==>
      hasAccount && existing.Some? && existing.value.revision < VERIFY_LIMIT && StrictEquals(submitted, existing.value.code)
    ensures v == Incorrect <==>
      hasAccount && existing.Some? && existing.value.revision < VERIFY_LIMIT && !StrictEquals(submitted, existing.value.code)
  {
    if !hasAccount then VerifyNoAccount
    else if existing.None? then VerifyExpired
    else if existing.value.revision >= VERIFY_LIMIT then VerifyLimited
    else if StrictEquals(submitted, existing.value.code) then Correct
    else Incorrect
  }

  /** The checks run in order: account, then record, then limit; the limit
      applies even to the correct code. */
  lemma VerifyCheckOrder(existing: Option<Alert>, submitted: Option<JsonValue>)
    ensures VerifyDecision(false, existing, submitted) == VerifyNoAccount
    ensures VerifyDecision(true, None, submitted) == VerifyExpired
    ensures existing.Some? && existing.value.revision >= VERIFY_LIMIT ==>
      VerifyDecision(true, existing, submitted) == VerifyLimited
  {
  }

  /** What the send leaves in the alert collection: a record is created or its
      counter incremented only when the gateway reported delivery. */
  function SendEffect(alerts: Store, ch: Channel, v: SendVerdict, delivered: bool, now: int): (r: Store)
    ensures !(v.Dispatch? && delivered) ==> r == alerts
    ensures r.Keys == alerts.Keys + (if v.Dispatch? && delivered && v.create then {ch} else {})
    ensures v.Dispatch? && delivered && v.create ==> r[ch] == Alert(v.code, now, DEFAULT_REVISION)
    ensures (v.Dispatch? && delivered && !v.create && ch in alerts ==>
               r[ch] == alerts[ch].(revision := alerts[ch].revision + 1))
    ensures forall c :: c in alerts && c != ch ==> r[c] == alerts[c]
  {
    if v.Dispatch? && delivered then
      (if v.create then Create(alerts, ch, v.code, now) else Increment(alerts, ch))
    else alerts
  }

  /** The response of a send, given the channel's own not-found and undelivered outcomes. */
  function SendOutcome(v: SendVerdict, delivered: bool, noAccount: Outcome, undelivered: Outcome): (o: Outcome)
    requires !noAccount.Ok? && !undelivered.Ok?
    ensures o == Ok(Plain(OTP_SENT)) <==> v.Dispatch? && delivered
    ensures v == SendNoAccount ==> o == noAccount
    ensures v == SendLimited ==> o == Rejected(400, LIMIT_EXHAUSTED)
    ensures v.Dispatch? && !delivered ==> o == undelivered
  {
    match v
    case SendNoAccount => noAccount
    case SendLimited => Rejected(400, LIMIT_EXHAUSTED)
    case Dispatch(_, _) => if delivered then Ok(Plain(OTP_SENT)) else undelivered
  }

  /** What the verify leaves in the alert collection: the record is deleted on
      a match and its counter incremented on a mismatch; otherwise nothing changes. */
  function VerifyEffect(alerts: Store, ch: Channel, v: VerifyVerdict): (r: Store)
    ensures v == Correct ==> r.Keys == alerts.Keys - {ch}
    ensures v != Correct ==> r.Keys == alerts.Keys
    ensures (v == Incorrect && ch in alerts ==>
               r[ch].code == alerts[ch].code && r[ch].createdAt == alerts[ch].createdAt
               && r[ch].revision == alerts[ch].revision + 1)
    ensures v != Correct && v != Incorrect ==> r == alerts
    ensures forall c :: c in r && c != ch ==> r[c] == alerts[c]
  {
    match v
    case Correct => Delete(alerts, ch)
    case Incorrect => Increment(alerts, ch)
    case _ => alerts
  }

  /** The response of a verify that did not match, given the channel's not-found message. */
  function VerifyRejection(v: VerifyVerdict, noAccount: string): (o: Outcome)
    requires v != Correct
    ensures o.Rejected? && (o.status == 404 <==> v == VerifyNoAccount || v == VerifyExpired)
    ensures v == VerifyNoAccount ==> o.text == noAccount
    ensures v == VerifyExpired ==> o.text == OTP_EXPIRED
    ensures v == VerifyLimited ==> o == Rejected(400, LIMIT_EXHAUSTED)
    ensures v == Incorrect ==> o == Rejected(400, OTP_INCORRECT)
  {
    match v
    case VerifyNoAccount => Rejected(404, noAccount)
    case VerifyExpired => Rejected(404, OTP_EXPIRED)
    case VerifyLimited => Rejected(400, LIMIT_EXHAUSTED)
    case Incorrect => Rejected(400, OTP_INCORRECT)
  }

  // ---------------------------------------------------------------------
  // Invariants of the two collections

  /** A record as the handlers can leave it: a four-digit code, a counter
      between its default and the verify limit, and not yet expired. */
  ghost predicate AlertSound(a: Alert, now: int) {
    && CodeLengthOk(a.code) && AllDigits(a.code)
    && DEFAULT_REVISION <= a.revision <= VERIFY_LIMIT
    && a.createdAt <= now && Live(a, now)
  }

  ghost predicate AlertsSound(alerts: Store, now: int) {
    forall ch :: ch in alerts ==> AlertSound(alerts[ch], now)
  }

  /** `sends[ch]` counts the successful sends in the lifetime of ch's record. */
  ghost predicate SendsSound(sends: map<Channel, nat>, alerts: Store) {
    && sends.Keys == alerts.Keys
    && forall ch :: ch in sends ==> sends[ch] <= alerts[ch].revision && sends[ch] <= SEND_LIMIT
  }

  /** The ghost send count after a send: one more on a delivery, as for the record's `revision`. */
  ghost function Counted(sends: map<Channel, nat>, ch: Channel, v: SendVerdict, delivered: bool): map<Channel, nat> {
    if v.Dispatch? && delivered then sends[ch := if ch in sends then sends[ch] + 1 else 1] else sends
  }

  /** A send keeps every record sound, and never lets more than three sends
      succeed in one record's lifetime. */
  lemma SendKeepsAlertsSound(alerts: Store, sends: map<Channel, nat>, now: int, ch: Channel,
                             hasAccount: bool, drawn: string, delivered: bool)
    requires AlertsSound(alerts, now) && SendsSound(sends, alerts)
    requires CodeLengthOk(drawn) && AllDigits(drawn)
    ensures var v := SendDecision(hasAccount, Lookup(alerts, ch), drawn);
      var after := SendEffect(alerts, ch, v, delivered, now);
      AlertsSound(after, now) && SendsSound(Counted(sends, ch, v, delivered), after)
  {
    var v := SendDecision(hasAccount, Lookup(alerts, ch), drawn);
    if v.Dispatch? && delivered {
      var after := SendEffect(alerts, ch, v, delivered, now);
      var counted := Counted(sends, ch, v, delivered);
      assert forall c :: c in after && c != ch ==> after[c] == alerts[c];
      if ch in alerts {
        assert alerts[ch].revision < SEND_LIMIT;
        assert after[ch] == alerts[ch].(revision := alerts[ch].revision + 1);
      }
      assert AlertSound(after[ch], now);
      assert SendsSound(counted, after);
    }
  }

  /** The ghost send count after a verify: a matched code's record, and its count, are gone. */
  ghost function Discarded(sends: map<Channel, nat>, ch: Channel, v: VerifyVerdict): map<Channel, nat> {
    if v == Correct then map c | c in sends && c != ch :: sends[c] else sends
  }

  /** A verify keeps every record sound: a wrong guess is counted only below the verify limit. */
  lemma VerifyKeepsAlertsSound(alerts: Store, sends: map<Channel, nat>, now: int, ch: Channel,
                               hasAccount: bool, code: Option<JsonValue>)
    requires AlertsSound(alerts, now) && SendsSound(sends, alerts)
    ensures var v := VerifyDecision(hasAccount, Lookup(alerts, ch), code);
      var after := VerifyEffect(alerts, ch, v);
      AlertsSound(after, now) && SendsSound(Discarded(sends, ch, v), after)
  {
    var v := VerifyDecision(hasAccount, Lookup(alerts, ch), code);
    var after := VerifyEffect(alerts, ch, v);
    if v == Incorrect {
      assert alerts[ch].revision < VERIFY_LIMIT;
      assert after[ch] == alerts[ch].(revision := alerts[ch].revision + 1);
      assert forall c :: c in after && c != ch ==> after[c] == alerts[c];
    }
  }

  /** The TTL monitor leaves only sound records behind. */
  lemma ExpireKeepsAlertsSound(alerts: Store, sends: map<Channel, nat>, now: int, t: int)
    requires AlertsSound(alerts, now) && SendsSound(sends, alerts) && now <= t
    ensures var after := Expire(alerts, t);
      AlertsSound(after, t) && SendsSound(map ch | ch in sends && ch in after :: sends[ch], after)
  {
  }

  class Service {
    var users: map<string, User>     // the user collection, keyed by its unique (trimmed) phone
    var alerts: Store                // the alert collection
    var now: int                     // Date.now(), in milliseconds
    var nextId: nat                  // the next ObjectId handed out, as a number
    /** Successful sends of the code in the lifetime of each channel's record. */
    ghost var sends: map<Channel, nat>
    /** The key of the document holding each id, and each email. */
    ghost var ids: map<nat, string>
    ghost var emails: map<string, string>
    /** The email validator's regular expression, left abstract. */
    const isEmail: string -> bool

    ghost predicate Valid()
      reads this
    {
      AlertsSound(alerts, now) && UsersSound(users, ids, emails, nextId, isEmail) && SendsSound(sends, alerts)
    }

    /** The email validator's expression refuses the empty string. */
    constructor (isEmail: string -> bool, start: int)
      requires !isEmail("")
      ensures Valid()
      ensures users == map[] && alerts == map[] && now == start && nextId == 0
      ensures this.isEmail == isEmail
    {
      this.isEmail := isEmail;
      users, alerts, now, nextId := map[], map[], start, 0;
      sends, ids, emails := map[], map[], map[];
    }

    /** Time passes; the TTL index removes every record five minutes old or more. */
    method Tick(t: int)
      requires Valid() && now <= t
      modifies this
      ensures Valid()
      ensures now == t && alerts == Expire(old(alerts), t)
      ensures users == old(users) && nextId == old(nextId)
    {
      ExpireKeepsAlertsSound(alerts, sends, now, t);
      now := t;
      alerts := Expire(alerts, t);
      sends := map ch | ch in sends && ch in alerts :: sends[ch];
    }

    // -------------------------------------------------------------------
    // register, login, resetPassword, addEmail

    method Register(phone: string, password: string) returns (o: Outcome)
      requires Valid()
      modifies this
      ensures Valid()
      ensures alerts == old(alerts) && now == old(now)
      ensures phone == "" || password == "" ==> o == Rejected(400, ALL_FIELDS)
      ensures (phone != "" && password != "" && PasswordRejection(password).Some? ==>
                 o == Rejected(400, PasswordRejection(password).value))
      ensures (phone != "" && password != "" && PasswordRejection(password).None?
               && NormalizePhone(phone) in old(users)) ==> o == Rejected(409, ALREADY_REGISTERED)
      ensures (phone != "" && password != "" && PasswordRejection(password).None?
               && NormalizePhone(phone) !in old(users) && !PhoneValid(NormalizePhone(phone))) ==>
                 o == Failed(ValidationError(CREATE_FAILED, "phone", Refusal(NormalizePhone(phone), PHONE_KIND)))
      ensures o.Ok? <==> (phone != "" && password != "" && PasswordRejection(password).None?
                          && NormalizePhone(phone) !in old(users) && PhoneValid(NormalizePhone(phone)))
      ensures (o.Ok? ==>
                 var u := NewUser(old(nextId), NormalizePhone(phone), BcryptHash(password));
                 && users == old(users)[NormalizePhone(phone) := u] && nextId == old(nextId) + 1
                 && o == Ok(UserDoc(u)))
      ensures !o.Ok? ==> users == old(users) && nextId == old(nextId)
    {
      if phone == "" || password == "" {
        return Rejected(400, ALL_FIELDS);
      }
      var rejection := PasswordRejection(password);
      if rejection.Some? {
        return Rejected(400, rejection.value);
      }
      var key := NormalizePhone(phone);
      if key in users {
        return Rejected(409, ALREADY_REGISTERED);
      }
      var hash := BcryptHash(password);
      if !PhoneValid(key) {
        return Failed(ValidationError(CREATE_FAILED, "phone", Refusal(key, PHONE_KIND)));
      }
      var u := NewUser(nextId, key, hash);
      CreateKeepsUsersSound(users, ids, emails, nextId, isEmail, key, u);
      users := users[key := u];
      ids := ids[nextId := key];
      nextId := nextId + 1;
      o := Ok(UserDoc(u));
    }

    /** Reads only: the token set on the loaded document is not saved. */
    method Login(phone: string, password: string) returns (o: Outcome)
      ensures phone == "" || password == "" ==> o == Rejected(400, ALL_FIELDS)
      ensures phone != "" && password != "" && NormalizePhone(phone) !in users ==> o == Rejected(400, NO_ACCOUNT_BY_PHONE)
      ensures var key := NormalizePhone(phone);
        (phone != "" && password != "" && key in users && !PasswordMatches(password, users[key].password)) ==>
          o == Rejected(400, INVALID_PASSWORD)
      ensures var key := NormalizePhone(phone);
        (phone != "" && password != "" && key in users && PasswordMatches(password, users[key].password)
         && !users[key].phoneVerified) ==> o == Rejected(400, VERIFY_PHONE_FIRST)
      ensures var key := NormalizePhone(phone);
        o.Ok? <==> (phone != "" && password != "" && key in users
                    && PasswordMatches(password, users[key].password) && users[key].phoneVerified)
      ensures var key := NormalizePhone(phone);
        (o.Ok? ==>
           var token := AccessToken(users[key].id, phone);
           o == Ok(SignedIn(users[key].(token := Some(token)), RefreshToken(token))))
    {
      if phone == "" || password == "" {
        return Rejected(400, ALL_FIELDS);
      }
      var key := NormalizePhone(phone);
      if key !in users {
        return Rejected(400, NO_ACCOUNT_BY_PHONE);
      }
      var existing := users[key];
      if !PasswordMatches(password, existing.password) {
        return Rejected(400, INVALID_PASSWORD);
      }
      if !existing.phoneVerified {
        return Rejected(400, VERIFY_PHONE_FIRST);
      }
      var token := AccessToken(existing.id, phone);
      o := Ok(SignedIn(existing.(token := Some(token)), RefreshToken(token)));
    }

    method ResetPassword(phone: string, oldPass: string, newPass: string) returns (o: Outcome)
      requires Valid()
      modifies this
      ensures Valid()
      ensures alerts == old(alerts) && now == old(now) && nextId == old(nextId)
      ensures phone == "" || oldPass == "" || newPass == "" ==> o == Rejected(400, RESET_FIELDS)
      ensures (phone != "" && oldPass != "" && newPass != "" && PasswordRejection(newPass).Some? ==>
                 o == Rejected(400, PasswordRejection(newPass).value))
      ensures (phone != "" && oldPass != "" && newPass != "" && PasswordRejection(newPass).None?
               && NormalizePhone(phone) !in old(users)) ==> o == Rejected(400, NO_USER_BY_PHONE)
      ensures var key := NormalizePhone(phone);
        (phone != "" && oldPass != "" && newPass != "" && PasswordRejection(newPass).None? && key in old(users)
         && !PasswordMatches(oldPass, old(users)[key].password)) ==> o == Rejected(400, OLD_PASSWORD_WRONG)
      ensures var key := NormalizePhone(phone);
        o.Ok? <==> (phone != "" && oldPass != "" && newPass != "" && PasswordRejection(newPass).None?
                    && key in old(users) && PasswordMatches(oldPass, old(users)[key].password))
      ensures var key := NormalizePhone(phone);
        (o.Ok? ==> o == Ok(Plain(PASSWORD_CHANGED))
                   && users == old(users)[key := old(users)[key].(password := BcryptHash(newPass))])
      ensures !o.Ok? ==> users == old(users)
    {
      if phone == "" || oldPass == "" || newPass == "" {
        return Rejected(400, RESET_FIELDS);
      }
      var rejection := PasswordRejection(newPass);
      if rejection.Some? {
        return Rejected(400, rejection.value);
      }
      var key := NormalizePhone(phone);
      if key !in users {
        return Rejected(400, NO_USER_BY_PHONE);
      }
      if !PasswordMatches(oldPass, users[key].password) {
        return Rejected(400, OLD_PASSWORD_WRONG);
      }
      UpdateKeepsUsersSound(users, ids, emails, nextId, isEmail, key, users[key].(password := BcryptHash(newPass)));
      users := users[key := users[key].(password := BcryptHash(newPass))];
      o := Ok(Plain(PASSWORD_CHANGED));
    }

    /** `userId` is the id the authentication middleware read from the access token. */
    method AddEmail(userId: nat, email: string) returns (o: Outcome)
      requires Valid()
      modifies this
      ensures Valid()
      ensures alerts == old(alerts) && now == old(now) && nextId == old(nextId)
      ensures email == "" ==> o == Rejected(400, NO_EMAIL_GIVEN)
      ensures email != "" && HasEmailOwner(old(users), NormalizeEmail(email)) ==> o == Rejected(400, EMAIL_TAKEN)
      ensures var e := NormalizeEmail(email);
        (email != "" && !HasEmailOwner(old(users), e) && !isEmail(e)) ==> o == Failed(ValidationError(UPDATE_FAILED, "email", Refusal(e, EMAIL_KIND)))
      ensures var e := NormalizeEmail(email);
        o.Ok? <==> (email != "" && !HasEmailOwner(old(users), e) && isEmail(e))
      ensures o.Ok? ==> o == Ok(Plain(EMAIL_UPDATED)) && users == SetEmail(old(users), userId, NormalizeEmail(email))
      ensures !o.Ok? ==> users == old(users)
    {
      if email == "" {
        return Rejected(400, NO_EMAIL_GIVEN);
      }
      var e := NormalizeEmail(email);
      if HasEmailOwner(users, e) {
        return Rejected(400, EMAIL_TAKEN);
      }
      if !isEmail(e) {
        return Failed(ValidationError(UPDATE_FAILED, "email", Refusal(e, EMAIL_KIND)));
      }
      NormalizedEmailIsNormal(email);
      SetEmailKeepsUsersSound(users, ids, emails, nextId, isEmail, userId, e);
      emails := EmailIndex(users, ids, emails, userId, e);
      users := SetEmail(users, userId, e);
      o := Ok(Plain(EMAIL_UPDATED));
    }

    // -------------------------------------------------------------------
    // The one-time-code protocol

    /** The part of a send common to both handlers: look up the record, settle
        the code, check the account and the limit, call the gateway (whose
        answer is `delivered`) and only after a delivery record it. */
    method SendOn(ch: Channel, hasAccount: bool, random: real, delivered: bool) returns (v: SendVerdict)
      requires Valid() && 0.0 <= random < 1.0
      modifies this
      ensures Valid()
      ensures users == old(users) && now == old(now) && nextId == old(nextId)
      ensures v == SendDecision(hasAccount, Lookup(old(alerts), ch), DecimalText(DrawCode(random)))
      ensures alerts == SendEffect(old(alerts), ch, v, delivered, now)
      ensures sends == Counted(old(sends), ch, v, delivered)
    {
      var existing := Lookup(alerts, ch);
      var drawn := DecimalText(DrawCode(random));
      FreshCodeFits(random);
      SendKeepsAlertsSound(alerts, sends, now, ch, hasAccount, drawn, delivered);
      // the account check, then the limit; the code is settled before either
      v := SendDecision(hasAccount, existing, drawn);
      sends := Counted(sends, ch, v, delivered);
      if v.Dispatch? && delivered {
        // a new record, or `$inc` on the one found
        if v.create {
          alerts := Create(alerts, ch, v.code, now);
        } else {
          alerts := Increment(alerts, ch);
        }
      }
    }

    /** `sendCode`: the gateway's answer is `delivered`; `random` is Math.random();
        `dispatched` is the code handed to the gateway, if it was called. */
    method SendCode(phone: string, random: real, delivered: bool) returns (o: Outcome, dispatched: Option<string>)
      requires Valid() && 0.0 <= random < 1.0
      modifies this
      ensures Valid()
      ensures users == old(users) && now == old(now) && nextId == old(nextId)
      ensures var v := SendDecision(NormalizePhone(phone) in old(users), Lookup(old(alerts), Phone(phone)),
                                    DecimalText(DrawCode(random)));
        && o == SendOutcome(v, delivered, Rejected(404, NO_PHONE_USER), Rejected(500, DELIVERY_TROUBLE))
        && dispatched == (if v.Dispatch? then Some(v.code) else None)
        && alerts == SendEffect(old(alerts), Phone(phone), v, delivered, now)
    {
      var v := SendOn(Phone(phone), NormalizePhone(phone) in users, random, delivered);
      dispatched := if v.Dispatch? then Some(v.code) else None;
      o := SendOutcome(v, delivered, Rejected(404, NO_PHONE_USER), Rejected(500, DELIVERY_TROUBLE));
    }

    /** `sendEmailCode`: a failed mail rejects, so the handler's `catch` calls
        `next(false)` instead of answering 500. */
    method SendEmailCode(email: string, random: real, delivered: bool) returns (o: Outcome, dispatched: Option<string>)
      requires Valid() && 0.0 <= random < 1.0
      modifies this
      ensures Valid()
      ensures users == old(users) && now == old(now) && nextId == old(nextId)
      ensures var v := SendDecision(HasEmailOwner(old(users), NormalizeEmail(email)), Lookup(old(alerts), Email(email)),
                                    DecimalText(DrawCode(random)));
        && o == SendOutcome(v, delivered, Rejected(404, NO_EMAIL_USER), Failed(MAIL_REJECTION))
        && dispatched == (if v.Dispatch? then Some(v.code) else None)
        && alerts == SendEffect(old(alerts), Email(email), v, delivered, now)
    {
      var v := SendOn(Email(email), HasEmailOwner(users, NormalizeEmail(email)), random, delivered);
      dispatched := if v.Dispatch? then Some(v.code) else None;
      o := SendOutcome(v, delivered, Rejected(404, NO_EMAIL_USER), Failed(MAIL_REJECTION));
    }

    /** The part of a verify common to both handlers: the checks in order, then
        the record is deleted on a match or its counter incremented on a mismatch. */
    method VerifyOn(ch: Channel, hasAccount: bool, code: Option<JsonValue>) returns (v: VerifyVerdict)
      requires Valid()
      modifies this
      ensures Valid()
      ensures users == old(users) && now == old(now) && nextId == old(nextId)
      ensures v == VerifyDecision(hasAccount, Lookup(old(alerts), ch), code)
      ensures alerts == VerifyEffect(old(alerts), ch, v)
      ensures sends == Discarded(old(sends), ch, v)
    {
      var existing := Lookup(alerts, ch);
      VerifyKeepsAlertsSound(alerts, sends, now, ch, hasAccount, code);
      v := VerifyDecision(hasAccount, existing, code);
      if v == Correct {
        alerts := Delete(alerts, ch);
        sends := Discarded(sends, ch, v);
      } else if v == Incorrect {
        alerts := Increment(alerts, ch);
      }
    }

    /** `verifyCode`. On success the response shows the user as read before
        the flag was set, with the new access token, and sets the refresh cookie. */
    method VerifyCode(phone: string, code: Option<JsonValue>) returns (o: Outcome)
      requires Valid()
      modifies this
      ensures Valid()
      ensures now == old(now) && nextId == old(nextId)
      ensures var ch := Phone(phone);
        var key := NormalizePhone(phone);
        var v := VerifyDecision(key in old(users), Lookup(old(alerts), ch), code);
        && alerts == VerifyEffect(old(alerts), ch, v)
        && (v != Correct ==> o == VerifyRejection(v, NO_PHONE_USER) && users == old(users))
        && (v == Correct ==>
              var u := old(users)[key];
              var token := AccessToken(u.id, phone);
              && o == Ok(SignedIn(u.(token := Some(token)), RefreshToken(token)))
              && users == old(users)[key := u.(phoneVerified := true)])
    {
      var key := NormalizePhone(phone);
      var hasAccount := key in users;
      var v := VerifyOn(Phone(phone), hasAccount, code);
      if v != Correct {
        return VerifyRejection(v, NO_PHONE_USER);
      }
      var user := users[key];
      UpdateKeepsUsersSound(users, ids, emails, nextId, isEmail, key, user.(phoneVerified := true));
      users := users[key := user.(phoneVerified := true)];
      var token := AccessToken(user.id, phone);
      o := Ok(SignedIn(user.(token := Some(token)), RefreshToken(token)));
    }

    method VerifyEmailCode(email: string, code: Option<JsonValue>) returns (o: Outcome)
      requires Valid()
      modifies this
      ensures Valid()
      ensures now == old(now) && nextId == old(nextId)
      ensures var ch := Email(email);
        var e := NormalizeEmail(email);
        var v := VerifyDecision(HasEmailOwner(old(users), e), Lookup(old(alerts), ch), code);
        && alerts == VerifyEffect(old(alerts), ch, v)
        && (v != Correct ==> o == VerifyRejection(v, NO_EMAIL_USER) && users == old(users))
        && (v == Correct ==>
              && o == Ok(Plain(EMAIL_VERIFIED))
              && (forall p :: EmailOwner(old(users), e, p) ==>
                    users == old(users)[p := old(users)[p].(emailVerified := true)]))
    {
      var e := NormalizeEmail(email);
      var v := VerifyOn(Email(email), HasEmailOwner(users, e), code);
      if v != Correct {
        return VerifyRejection(v, NO_EMAIL_USER);
      }
      var key :| key in users && EmailOwner(users, e, key);
      EmailOwnerIsIndexed(users, ids, emails, nextId, isEmail, e, key);
      UpdateKeepsUsersSound(users, ids, emails, nextId, isEmail, key, users[key].(emailVerified := true));
      users := users[key := users[key].(emailVerified := true)];
      o := Ok(Plain(EMAIL_VERIFIED));
    }
  }
}
