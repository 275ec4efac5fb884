/**
  The user schema: its fields and defaults, the setters that normalise
  `phone` and `email`, the phone validator, and the `toJSON` transform.
 */
module UserModel {
  import opened Wrappers
  import opened Text
  import opened Json

  /** A stored user document. `password` is the bcrypt hash; `token` is set
      on a loaded document before it is sent and is never saved. */
  datatype User = User(
    id: nat,
    phone: string,
    email: Option<string>,
    password: Secret,
    phoneVerified: bool,
    emailVerified: bool,
    token: Option<Secret>)

  /** A document made by `User.create({phone, password})`: both flags take
      their default `false`, and there is no email and no token. */
  function NewUser(id: nat, phone: string, password: Secret): (u: User)
    ensures !u.phoneVerified && !u.emailVerified
    ensures u.email == None && u.token == None
    ensures u.id == id && u.phone == phone && u.password == password
  {
    User(id, phone, None, password, false, false, None)
  }

  // ---------------------------------------------------------------------
  // Setters: `trim: true` on phone, `lowercase: true, trim: true` on email.
  // Mongoose runs them on stored values and on query filters alike.

  /** The phone setter: what it stores is trimmed already, and a valid phone
      is stored as submitted. */
  function NormalizePhone(phone: string): (r: string)
    ensures r == Trim(phone) && Trim(r) == r
    ensures PhoneValid(phone) ==> r == phone
  {
    TrimIdempotent(phone);
    ValidPhoneIsTrimmed(phone);
    Trim(phone)
  }

  /** The email setters, lowercase then trim. Their order does not matter, and
      the result has no upper-case letter and no surrounding whitespace. */
  function NormalizeEmail(email: string): (r: string)
    ensures r == Lower(Trim(email))
    ensures NoUpper(r) && Trim(r) == r
  {
    LowerTrimCommute(email);
    LowerIdempotent(Trim(email));
    TrimIdempotent(Lower(email));
    Trim(Lower(email))
  }

  /** Normalising an email twice is normalising it once. */
  lemma NormalizeEmailIdempotent(email: string)
    ensures NormalizeEmail(NormalizeEmail(email)) == NormalizeEmail(email)
  {
    LowerIdempotent(Trim(email));
  }

  /** What the email setters leave: no upper-case letter and no whitespace at either end. */
  predicate IsNormalEmail(e: string) {
    NoUpper(e) && (e == [] || (!IsJsSpace(e[0]) && !IsJsSpace(e[|e| - 1])))
  }

  /** The setters always produce a normal email... */
  lemma NormalizedEmailIsNormal(email: string)
    ensures IsNormalEmail(NormalizeEmail(email))
  {
  }

  /** ...and a normal email is exactly one the setters leave unchanged. */
  lemma NormalEmailIsFixed(e: string)
    ensures IsNormalEmail(e) <==> NormalizeEmail(e) == e
  {
    if IsNormalEmail(e) {
      assert Lower(e) == e;
      TrimStartOfTrimmed(e);
      TrimEndOfTrimmed(e);
    } else if NormalizeEmail(e) == e {
      NormalizedEmailIsNormal(e);
    }
  }

  // ---------------------------------------------------------------------
  // The validators' `message` functions.

  const PHONE_KIND := "phone number"
  const EMAIL_KIND := "email"

  /** A validator's message: the refused value first, the kind of value it should have been last. */
  function Refusal(value: string, kind: string): (m: string)
    ensures |m| > |value| + |kind| && m[..|value|] == value && m[|m| - |kind|..] == kind
  {
    value + " is not a valid " + kind
  }

  // ---------------------------------------------------------------------
  // The phone validator: the pattern ^(\+\d{1,3}[- ]?)?\d{10}$, and no run
  // of five zeros unless the first character is one of 1 to 5.

  predicate IsSeparator(c: char) {
    c == '-' || c == ' '
  }

  /** What may stand between the `+` and the last ten digits: \d{1,3}[- ]? */
  predicate CountryPrefix(p: string) {
    || (1 <= |p| <= 3 && AllDigits(p))
    || (2 <= |p| <= 4 && AllDigits(p[..|p| - 1]) && IsSeparator(p[|p| - 1]))
  }

  /** The regular expression: the pattern is anchored at the end, so the
      last ten characters are the \d{10}. */
  predicate MatchesPhonePattern(s: string): (r: bool)
    ensures r ==> 10 <= |s| <= 15 && IsDigit(s[|s| - 1])
    ensures r && |s| == 10 ==> IsDigit(s[0])
    ensures r && |s| > 10 ==> s[0] == '+'
  {
    || (|s| == 10 && AllDigits(s))
    || (|s| > 10 && s[0] == '+' && CountryPrefix(s[1..|s| - 10]) && AllDigits(s[|s| - 10..]))
  }

  /** /0{5,}/ finds a match, which takes at least five zeros. */
  predicate HasFiveZeros(s: string): (r: bool)
    ensures r ==> |s| >= 5 && multiset(s)['0'] >= 5
    decreases |s|
  {
    |s| >= 5 &&
      assert s == s[..5] + s[5..] && s == [s[0]] + s[1..];
      (s[..5] == "00000" || HasFiveZeros(s[1..]))
  }

  /** Five zeros start at index i. */
  predicate ZerosAt(s: string, i: int) {
    0 <= i <= |s| - 5 && s[i..i + 5] == "00000"
  }

  /** The same search stated directly: five zeros start at some index. */
  lemma {:induction false} FiveZerosAt(s: string)
    ensures HasFiveZeros(s) <==> exists i :: ZerosAt(s, i)
    decreases |s|
  {
    if |s| >= 5 && s[..5] != "00000" {
      FiveZerosAt(s[1..]);
      if HasFiveZeros(s) {
        var j :| ZerosAt(s[1..], j);
        assert s[j + 1..j + 6] == s[1..][j..j + 5];
        assert ZerosAt(s, j + 1);
      } else if i :| ZerosAt(s, i) {
        assert i != 0 by { assert s[0..5] == s[..5]; }
        assert s[1..][i - 1..i + 4] == s[i..i + 5];
        assert ZerosAt(s[1..], i - 1);
      }
    } else if |s| >= 5 {
      assert s[0..5] == s[..5];
      assert ZerosAt(s, 0);
    }
  }

  /** '12345'.includes(number[0]); for an empty string number[0] is
      undefined, which is not found. */
  function StartsOneToFive(s: string): (r: bool)
    ensures r <==> |s| > 0 && '1' <= s[0] <= '5'
  {
    |s| > 0 && s[0] in "12345"
  }

  /** The validator: the pattern, and a run of five zeros only in a ten-digit
      number beginning with 1 to 5 (a `+` never is one of them). */
  predicate PhoneValid(s: string): (r: bool)
    ensures r <==> MatchesPhonePattern(s) && (HasFiveZeros(s) ==> |s| == 10 && s[0] in "12345")
  {
    MatchesPhonePattern(s) && !(HasFiveZeros(s) && !StartsOneToFive(s))
  }

  /** In particular every `+`-prefixed number with five zeros in a row is rejected. */
  lemma PlusWithZeroRunRejected(s: string)
    requires |s| > 0 && s[0] == '+' && HasFiveZeros(s)
    ensures !PhoneValid(s)
  {
  }

  /** The validator accepts exactly these shapes, independently stated. */
  datatype CountryCode = CountryCode(digits: string, separator: Option<char>)

  datatype PhoneParts = PhoneParts(country: Option<CountryCode>, national: string) {
    predicate WellFormed() {
      && |national| == 10 && AllDigits(national)
      && (country.Some? ==>
            && 1 <= |country.value.digits| <= 3 && AllDigits(country.value.digits)
            && (country.value.separator.Some? ==> IsSeparator(country.value.separator.value)))
    }
  }

  function Render(p: PhoneParts): string {
    match p.country
    case None => p.national
    case Some(cc) =>
      "+" + cc.digits + (if cc.separator.Some? then [cc.separator.value] else []) + p.national
  }

  /** Every string the pattern accepts is the rendering of well-formed parts. */
  function SplitPhone(s: string): (p: PhoneParts)
    requires MatchesPhonePattern(s)
    ensures p.WellFormed() && Render(p) == s
  {
    if |s| == 10 && AllDigits(s) then PhoneParts(None, s)
    else
      var prefix := s[1..|s| - 10];
      var national := s[|s| - 10..];
      assert s == [s[0]] + prefix + national;
      var last := prefix[|prefix| - 1];
      var cc := if IsSeparator(last) then CountryCode(prefix[..|prefix| - 1], Some(last)) else CountryCode(prefix, None);
      var sep: string := if cc.separator.Some? then [cc.separator.value] else [];
      assert cc.digits + sep == prefix;
      assert Render(PhoneParts(Some(cc), national)) == [s[0]] + (cc.digits + sep) + national;
      PhoneParts(Some(cc), national)
  }

  /** Every rendering of well-formed parts is accepted, and splitting it gives the parts back. */
  lemma RenderSplit(p: PhoneParts)
    requires p.WellFormed()
    ensures MatchesPhonePattern(Render(p)) && SplitPhone(Render(p)) == p
  {
    var s := Render(p);
    if p.country.Some? {
      var cc := p.country.value;
      var sep: string := if cc.separator.Some? then [cc.separator.value] else [];
      assert s == "+" + cc.digits + sep + p.national;
      assert s[|s| - 10..] == p.national;
      assert s[1..|s| - 10] == cc.digits + sep;
      if cc.separator.None? {
        assert s[1..|s| - 10] == cc.digits;
        assert !IsSeparator(cc.digits[|cc.digits| - 1]);
      } else {
        assert s[1..|s| - 10][..|cc.digits|] == cc.digits;
      }
    }
  }

  /** A valid phone has no surrounding whitespace, so trimming it is the identity. */
  lemma ValidPhoneIsTrimmed(s: string)
    ensures PhoneValid(s) ==> Trim(s) == s
  {
    if PhoneValid(s) {
      TrimStartOfTrimmed(s);
      TrimEndOfTrimmed(s);
    }
  }

  // ---------------------------------------------------------------------
  // toJSON: `virtuals: true` adds the string `id`, `versionKey: false` leaves
  // out `__v`, and the transform deletes `_id` and `password` from `ret`.

  /** The object `ret` that the transform receives. */
  function Document(u: User): (ret: JsonObject)
    ensures "_id" in ret && "password" in ret && ret["password"] == JSecret(u.password)
    ensures "id" in ret && ret["id"] == JString(DecimalText(u.id))
    ensures "phone" in ret && ret["phone"] == JString(u.phone)
    ensures "phoneVerified" in ret && ret["phoneVerified"] == JBool(u.phoneVerified)
    ensures "emailVerified" in ret && ret["emailVerified"] == JBool(u.emailVerified)
    ensures ("email" in ret <==> u.email.Some?) && (u.email.Some? ==> ret["email"] == JString(u.email.value))
    ensures ("token" in ret <==> u.token.Some?) && (u.token.Some? ==> ret["token"] == JSecret(u.token.value))
    ensures ret.Keys <= {"_id", "id", "phone", "password", "phoneVerified", "emailVerified", "email", "token"}
  {
    var base := map["_id" := JNumber(u.id), "id" := JString(DecimalText(u.id)), "phone" := JString(u.phone),
                    "password" := JSecret(u.password), "phoneVerified" := JBool(u.phoneVerified),
                    "emailVerified" := JBool(u.emailVerified)];
    var withEmail := if u.email.Some? then base["email" := JString(u.email.value)] else base;
    if u.token.Some? then withEmail["token" := JSecret(u.token.value)] else withEmail
  }

  function ToJson(u: User): (r: JsonObject)
    ensures "password" !in r && "_id" !in r
    ensures "email" in r <==> u.email.Some?
    ensures "token" in r <==> u.token.Some?
    ensures {"id", "phone", "phoneVerified", "emailVerified"} <= r.Keys
    ensures r.Keys <= {"id", "phone", "phoneVerified", "emailVerified", "email", "token"}
    ensures r["id"] == JString(DecimalText(u.id)) && r["phone"] == JString(u.phone)
    ensures r["phoneVerified"] == JBool(u.phoneVerified) && r["emailVerified"] == JBool(u.emailVerified)
    ensures u.email.Some? ==> r["email"] == JString(u.email.value)
    ensures u.token.Some? ==> r["token"] == JSecret(u.token.value)
  {
    var removed := {"_id", "password"};
    assert "id" !in removed && "phone" !in removed && "email" !in removed && "token" !in removed;
    assert "phoneVerified" !in removed && "emailVerified" !in removed;
    Without(Document(u), removed)
  }
}
