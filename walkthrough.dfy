/**
  Runs of the user router: a fresh service, a sequence of requests, and the
  responses each one must get. The runs hold for every phone number the
  validator accepts, every password of acceptable length and, where an
  email is attached, every address already in the form the setters leave;
  Math.random() returns 0.5, which draws the code CODE.
 */
module Walkthrough {
  import opened Wrappers
  import opened Text
  import opened Json
  import ErrorHandler
  import opened UserModel
  import opened AlertModel
  import opened UserStore
  import opened UserRoutes

  const PHONE := "1000001234"
  const EMAIL := "me@example.com"
  const CODE := "5500"           // the code drawn when Math.random() returns 0.5

  /** Stands for the email validator's regular expression. */
  function HasAt(e: string): bool {
    '@' in e
  }

  /** A sample number with a run of five zeros passes the validator, because
      it starts with a digit from 1 to 5, and the trim setter leaves it unchanged. */
  lemma SamplePhoneAccepted()
    ensures PhoneValid(PHONE) && NormalizePhone(PHONE) == PHONE
  {
    assert StartsOneToFive(PHONE);
    ValidPhoneIsTrimmed(PHONE);
  }

  /** The same national number starting with 9 is refused. */
  lemma SampleZeroRunRejected()
    ensures MatchesPhonePattern("9000001234") && !PhoneValid("9000001234")
  {
    var s := "9000001234";
    assert AllDigits(s);
    assert s[1..][..5] == "00000";
    assert HasFiveZeros(s[1..]);
    assert !StartsOneToFive(s);
  }

  /** A sample address is already in the form the setters leave. */
  lemma SampleEmailNormal()
    ensures NormalizeEmail(EMAIL) == EMAIL && HasAt(EMAIL)
  {
    assert NoUpper(EMAIL) && EMAIL[0] == 'm' && EMAIL[|EMAIL| - 1] == 'm';
    NormalEmailIsFixed(EMAIL);
    assert EMAIL[2] == '@';
  }

  lemma HalfDrawsCode()
    ensures DecimalText(DrawCode(0.5)) == CODE
  {
  }

  /** The document `phone`'s registration creates, with `phoneVerified == verified`. */
  function SampleUser(phone: string, password: string, verified: bool): User {
    NewUser(0, phone, BcryptHash(password)).(phoneVerified := verified)
  }

  /** The only user registered `phone` with `password` and has `phoneVerified == verified`. */
  ghost predicate Registered(s: Service, phone: string, password: string, verified: bool)
    reads s
  {
    s.users == map[phone := SampleUser(phone, password, verified)]
  }

  /** The only alert is `phone`'s, with the code CODE. */
  ghost predicate Pending(s: Service, phone: string, createdAt: int, revision: int)
    reads s
  {
    s.alerts == map[Phone(phone) := Alert(CODE, createdAt, revision)]
  }

  /** A service whose only user registered `phone` at time 0. */
  method Account(phone: string, password: string) returns (s: Service, registered: Outcome, early: Outcome)
    requires PhoneValid(phone) && PasswordRejection(password).None?
    ensures fresh(s) && s.Valid() && s.isEmail == HasAt
    ensures Registered(s, phone, password, false) && s.alerts == map[] && s.now == 0
    ensures registered.Ok? && early == Rejected(400, VERIFY_PHONE_FIRST)
  {
    ValidPhoneIsTrimmed(phone);
    s := new Service(HasAt, 0);
    registered := s.Register(phone, password);
    early := s.Login(phone, password);
  }

  /** A code request for `phone`, delivered, while no code is outstanding. */
  method FirstCode(s: Service, phone: string, password: string) returns (sent: Outcome, code: Option<string>)
    requires PhoneValid(phone)
    requires s.Valid() && Registered(s, phone, password, false) && s.alerts == map[]
    modifies s
    ensures s.Valid() && Registered(s, phone, password, false) && s.now == old(s.now)
    ensures Pending(s, phone, s.now, 1)
    ensures sent == Ok(Plain(OTP_SENT)) && code == Some(CODE)
  {
    ValidPhoneIsTrimmed(phone);
    HalfDrawsCode();
    sent, code := s.SendCode(phone, 0.5, true);
  }

  /** Another code request while the code is outstanding: it resends the same code. */
  method Resend(s: Service, phone: string, password: string, createdAt: int, revision: int)
    returns (sent: Outcome, code: Option<string>)
    requires PhoneValid(phone)
    requires s.Valid() && Registered(s, phone, password, false) && Pending(s, phone, createdAt, revision)
    modifies s
    ensures s.Valid() && Registered(s, phone, password, false) && s.now == old(s.now)
    ensures (revision < SEND_LIMIT ==>
               Pending(s, phone, createdAt, revision + 1) && sent == Ok(Plain(OTP_SENT)) && code == Some(CODE))
    ensures (revision >= SEND_LIMIT ==>
               Pending(s, phone, createdAt, revision) && sent == Rejected(400, LIMIT_EXHAUSTED) && code == None)
  {
    ValidPhoneIsTrimmed(phone);
    ghost var before := s.alerts;
    assert Lookup(before, Phone(phone)) == Some(Alert(CODE, createdAt, revision));
    sent, code := s.SendCode(phone, 0.5, true);
    if revision < SEND_LIMIT {
      assert s.alerts.Keys == {Phone(phone)};
      assert s.alerts[Phone(phone)] == Alert(CODE, createdAt, revision + 1);
    } else {
      assert s.alerts == before;
    }
  }

  /** A verify with a wrong guess while guesses remain. */
  method WrongGuess(s: Service, phone: string, password: string, createdAt: int, revision: int, guess: string)
    returns (o: Outcome)
    requires PhoneValid(phone)
    requires s.Valid() && Registered(s, phone, password, false) && Pending(s, phone, createdAt, revision)
    requires revision < VERIFY_LIMIT && guess != CODE
    modifies s
    ensures s.Valid() && s.now == old(s.now)
    ensures Registered(s, phone, password, false) && Pending(s, phone, createdAt, revision + 1)
    ensures o == Rejected(400, OTP_INCORRECT)
  {
    ValidPhoneIsTrimmed(phone);
    ghost var before := s.alerts;
    assert Lookup(before, Phone(phone)) == Some(Alert(CODE, createdAt, revision));
    assert !StrictEquals(Some(JString(guess)), CODE);
    o := s.VerifyCode(phone, Some(JString(guess)));
    assert s.alerts.Keys == {Phone(phone)};
    assert s.alerts[Phone(phone)] == Alert(CODE, createdAt, revision + 1);
  }

  /** A verify with the right code while guesses remain. */
  method RightGuess(s: Service, phone: string, password: string, createdAt: int, revision: int) returns (o: Outcome)
    requires PhoneValid(phone)
    requires s.Valid() && Registered(s, phone, password, false) && Pending(s, phone, createdAt, revision)
    requires revision < VERIFY_LIMIT
    modifies s
    ensures s.Valid() && s.now == old(s.now)
    ensures Registered(s, phone, password, true) && s.alerts == map[]
    // the document as read before the update, with the new access token
    ensures var token := AccessToken(0, phone);
      o == Ok(SignedIn(SampleUser(phone, password, false).(token := Some(token)), RefreshToken(token)))
  {
    ValidPhoneIsTrimmed(phone);
    ghost var before := s.alerts;
    assert Lookup(before, Phone(phone)) == Some(Alert(CODE, createdAt, revision));
    o := s.VerifyCode(phone, Some(JString(CODE)));
    assert s.alerts.Keys == {};
    assert s.users.Keys == {phone};
    assert s.users[phone] == SampleUser(phone, password, true);
  }

  /** A verify, right or wrong, once the limit is reached. */
  method LateGuess(s: Service, phone: string, password: string, createdAt: int, revision: int, guess: string)
    returns (o: Outcome)
    requires PhoneValid(phone)
    requires s.Valid() && Registered(s, phone, password, false) && Pending(s, phone, createdAt, revision)
    requires revision >= VERIFY_LIMIT
    modifies s
    ensures s.Valid() && s.now == old(s.now)
    ensures Registered(s, phone, password, false) && Pending(s, phone, createdAt, revision)
    ensures o == Rejected(400, LIMIT_EXHAUSTED)
  {
    ValidPhoneIsTrimmed(phone);
    o := s.VerifyCode(phone, Some(JString(guess)));
  }

  /** Registering and logging in before verifying: the login is refused. */
  method LoginNeedsVerifiedPhone(phone: string, password: string) returns (registered: Outcome, early: Outcome)
    requires PhoneValid(phone) && PasswordRejection(password).None?
    ensures registered.Ok? && early == Rejected(400, VERIFY_PHONE_FIRST)
  {
    var s;
    s, registered, early := Account(phone, password);
  }

  /** A wrong guess, then the right one, which also consumes the code; after
      that the code is reported expired and the login succeeds. */
  method SignUpAndVerify(phone: string, password: string)
    returns (code: Option<string>, wrong: Outcome, right: Outcome, again: Outcome, late: Outcome)
    requires PhoneValid(phone) && PasswordRejection(password).None?
    ensures code == Some(CODE)
    ensures wrong == Rejected(400, OTP_INCORRECT) && right.Ok? && again == Rejected(404, OTP_EXPIRED)
    ensures right.body.SignedIn? && !right.body.user.phoneVerified && right.body.user.token.Some?
    ensures late.Ok? && late.body.SignedIn? && late.body.user.phoneVerified
  {
    var s, _, _ := Account(phone, password);
    var _, c := FirstCode(s, phone, password);
    code := c;
    wrong := WrongGuess(s, phone, password, 0, 1, "1234");
    right := RightGuess(s, phone, password, 0, 2);
    ValidPhoneIsTrimmed(phone);
    again := s.VerifyCode(phone, Some(JString(CODE)));
    late := s.Login(phone, password);
  }

  /** Three deliveries of the same code; the fourth request is refused. */
  method ThreeSendsThenLimited(phone: string, password: string)
    returns (first: Outcome, second: Outcome, third: Outcome, fourth: Outcome, codes: seq<Option<string>>)
    requires PhoneValid(phone) && PasswordRejection(password).None?
    ensures first == second == third == Ok(Plain(OTP_SENT))
    ensures fourth == Rejected(400, LIMIT_EXHAUSTED)
    ensures codes == [Some(CODE), Some(CODE), Some(CODE), None]
  {
    var s, _, _ := Account(phone, password);
    var c1, c2, c3, c4;
    first, c1 := FirstCode(s, phone, password);
    second, c2 := Resend(s, phone, password, 0, 1);
    third, c3 := Resend(s, phone, password, 0, 2);
    fourth, c4 := Resend(s, phone, password, 0, 3);
    codes := [c1, c2, c3, c4];
  }

  /** Four wrong guesses use up the verify limit: the right code is then refused too. */
  method GuessesThenLimited(phone: string, password: string) returns (wrong: seq<Outcome>, right: Outcome)
    requires PhoneValid(phone) && PasswordRejection(password).None?
    ensures wrong == [Rejected(400, OTP_INCORRECT), Rejected(400, OTP_INCORRECT),
                      Rejected(400, OTP_INCORRECT), Rejected(400, OTP_INCORRECT)]
    ensures right == Rejected(400, LIMIT_EXHAUSTED)
  {
    var s, _, _ := Account(phone, password);
    var _, _ := FirstCode(s, phone, password);
    var w1 := WrongGuess(s, phone, password, 0, 1, "0000");
    var w2 := WrongGuess(s, phone, password, 0, 2, "1111");
    var w3 := WrongGuess(s, phone, password, 0, 3, "2222");
    var w4 := WrongGuess(s, phone, password, 0, 4, "3333");
    wrong := [w1, w2, w3, w4];
    right := LateGuess(s, phone, password, 0, 5, CODE);
  }

  /** Sends and wrong guesses share one counter: after two wrong guesses a
      resend is refused although only one code was sent. */
  method WrongGuessesUseUpSends(phone: string, password: string) returns (w1: Outcome, w2: Outcome, resend: Outcome)
    requires PhoneValid(phone) && PasswordRejection(password).None?
    ensures w1 == w2 == Rejected(400, OTP_INCORRECT)
    ensures resend == Rejected(400, LIMIT_EXHAUSTED)
  {
    var s, _, _ := Account(phone, password);
    var _, _ := FirstCode(s, phone, password);
    w1 := WrongGuess(s, phone, password, 0, 1, "0000");
    w2 := WrongGuess(s, phone, password, 0, 2, "1111");
    var code;
    resend, code := Resend(s, phone, password, 0, 3);
  }

  /** Five minutes after it was created the record is gone, so the right code is refused. */
  method CodeExpires(phone: string, password: string) returns (late: Outcome)
    requires PhoneValid(phone) && PasswordRejection(password).None?
    ensures late == Rejected(404, OTP_EXPIRED)
  {
    var s, _, _ := Account(phone, password);
    var _, _ := FirstCode(s, phone, password);
    s.Tick(TTL_MS);
    assert s.alerts == map[];
    ValidPhoneIsTrimmed(phone);
    late := s.VerifyCode(phone, Some(JString(CODE)));
  }

  /** A millisecond earlier the same code is still accepted. */
  method CodeLivesUntilExpiry(phone: string, password: string) returns (right: Outcome)
    requires PhoneValid(phone) && PasswordRejection(password).None?
    ensures right.Ok?
  {
    var s, _, _ := Account(phone, password);
    var _, _ := FirstCode(s, phone, password);
    s.Tick(TTL_MS - 1);
    assert Pending(s, phone, 0, 1);
    right := RightGuess(s, phone, password, 0, 1);
  }

  /** A service whose only user has attached `email`. */
  method WithEmail(phone: string, password: string, email: string) returns (s: Service, added: Outcome)
    requires PhoneValid(phone) && PasswordRejection(password).None?
    requires HasAt(email) && NormalizeEmail(email) == email
    ensures fresh(s) && s.Valid() && s.alerts == map[] && s.now == 0
    ensures s.users == map[phone := SampleUser(phone, password, false).(email := Some(email))]
    ensures added == Ok(Plain(EMAIL_UPDATED))
  {
    var registered, early;
    s, registered, early := Account(phone, password);
    added := s.AddEmail(0, email);
    assert s.users.Keys == {phone};
    assert s.users[phone] == SampleUser(phone, password, false).(email := Some(email));
  }

  /** One email code request while no code is outstanding. */
  method MailCode(s: Service, phone: string, password: string, email: string, delivered: bool) returns (o: Outcome)
    requires NormalizeEmail(email) == email
    requires s.Valid() && s.alerts == map[]
    requires s.users == map[phone := SampleUser(phone, password, false).(email := Some(email))]
    modifies s
    ensures s.Valid() && s.users == old(s.users) && s.now == old(s.now)
    ensures delivered ==> s.alerts == map[Email(email) := Alert(CODE, s.now, 1)] && o == Ok(Plain(OTP_SENT))
    ensures !delivered ==> s.alerts == map[] && o == Failed(ErrorHandler.FalseError)
  {
    assert EmailOwner(s.users, email, phone);
    HalfDrawsCode();
    var code;
    o, code := s.SendEmailCode(email, 0.5, delivered);
  }

  /** The right email code while it is outstanding: the email is marked verified. */
  method MailGuess(s: Service, phone: string, password: string, email: string) returns (o: Outcome)
    requires NormalizeEmail(email) == email
    requires s.Valid() && s.alerts == map[Email(email) := Alert(CODE, s.now, 1)]
    requires s.users == map[phone := SampleUser(phone, password, false).(email := Some(email))]
    modifies s
    ensures s.Valid() && s.alerts == map[]
    ensures s.users == map[phone := SampleUser(phone, password, false).(email := Some(email), emailVerified := true)]
    ensures o == Ok(Plain(EMAIL_VERIFIED))
  {
    assert EmailOwner(s.users, email, phone);
    assert Lookup(s.alerts, Email(email)) == Some(Alert(CODE, s.now, 1));
    o := s.VerifyEmailCode(email, Some(JString(CODE)));
    assert s.alerts.Keys == {};
    assert s.users.Keys == {phone};
  }

  /** An undelivered mail is not answered with 500: `sendMail` rejects with
      `false`, the handler calls `next(false)`, Express skips the error
      middleware and the request ends in 404. The next request delivers the
      code and the verify marks the email. */
  method EmailFlow(phone: string, password: string, email: string)
    returns (added: Outcome, failed: Outcome, sent: Outcome, verified: Outcome)
    requires PhoneValid(phone) && PasswordRejection(password).None?
    requires HasAt(email) && NormalizeEmail(email) == email
    ensures added == Ok(Plain(EMAIL_UPDATED))
    ensures failed == Failed(ErrorHandler.FalseError) && Status(failed) == NO_ROUTE_STATUS
    ensures sent == Ok(Plain(OTP_SENT)) && verified == Ok(Plain(EMAIL_VERIFIED))
  {
    var s;
    s, added := WithEmail(phone, password, email);
    failed := MailCode(s, phone, password, email, false);
    sent := MailCode(s, phone, password, email, true);
    verified := MailGuess(s, phone, password, email);
  }
}
