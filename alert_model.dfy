/**
  The alert schema: one outstanding one-time code per phone number or
  email address, with its attempt counter `revision` and a creation time
  after which MongoDB's TTL index removes the record.
 */
module AlertModel {
  import opened Text
  import opened Json

  /** Alerts are looked up by `{phone}` or by `{email}`, and a record holds
      one of the two. A lookup by a submitted address finds only records of
      its own kind; a lookup with the address missing, which MongoDB reads as
      `null` and matches against records lacking the field, is not modelled. */
  datatype Channel = Phone(number: string) | Email(address: string)

  datatype Alert = Alert(code: string, createdAt: int, revision: int)

  type Store = map<Channel, Alert>

  const CODE_LENGTH := 4              // minLength and maxLength of `code`
  const DEFAULT_REVISION := 1
  const TTL_MS := 5 * 60 * 1000       // expires: '5m', in the milliseconds of Date.now()

  /** The `code` validators: minLength 4 and maxLength 4. */
  predicate CodeLengthOk(code: string): (r: bool)
    ensures r <==> |code| == CODE_LENGTH
  {
    CODE_LENGTH <= |code| && |code| <= CODE_LENGTH
  }

  /** The record is still visible: fewer than five minutes have passed since `createdAt`. */
  function Live(alert: Alert, now: int): (r: bool)
    ensures r <==> now < alert.createdAt + TTL_MS
  {
    now - alert.createdAt < TTL_MS
  }

  // ---------------------------------------------------------------------
  // Code generation: Math.floor(1000 + Math.random() * 9000), with
  // Math.random() at least 0 and below 1, then cast to String on the schema.

  function DrawCode(random: real): (n: int)
    requires 0.0 <= random < 1.0
    ensures 1000 <= n <= 9999
  {
    (1000.0 + random * 9000.0).Floor
  }

  /** A freshly drawn code, once cast to a string, always passes the schema's
      length validators, is all digits and reads back as the number drawn. */
  lemma FreshCodeFits(random: real)
    requires 0.0 <= random < 1.0
    ensures var t := DecimalText(DrawCode(random));
      CodeLengthOk(t) && AllDigits(t) && ParseDecimal(t) == DrawCode(random)
  {
    var n := DrawCode(random);
    assert Pow10(3) == 1000 && Pow10(4) == 10000;
    DecimalTextLength(n, 4);
    ParseDecimalText(n);
  }

  // ---------------------------------------------------------------------
  // The store operations the handlers use.

  /** `Alert.create({phone or email, code})`: revision and createdAt take their defaults. */
  function Create(store: Store, ch: Channel, code: string, now: int): (r: Store)
    ensures r.Keys == store.Keys + {ch}
    ensures r[ch].code == code && r[ch].createdAt == now && r[ch].revision == DEFAULT_REVISION
    ensures forall c :: c in store && c != ch ==> r[c] == store[c]
  {
    store[ch := Alert(code, now, DEFAULT_REVISION)]
  }

  /** `Alert.updateOne(filter, {$inc: {revision: 1}})`: only the counter
      moves; code and createdAt (hence the expiry) stay as they were. With no
      matching record nothing happens. */
  function Increment(store: Store, ch: Channel): (r: Store)
    ensures r.Keys == store.Keys
    ensures ch in store ==> r[ch] == store[ch].(revision := store[ch].revision + 1)
    ensures forall c :: c in store && c != ch ==> r[c] == store[c]
  {
    if ch in store then store[ch := store[ch].(revision := store[ch].revision + 1)] else store
  }

  /** `Alert.deleteOne(filter)`. */
  function Delete(store: Store, ch: Channel): (r: Store)
    ensures r.Keys == store.Keys - {ch}
    ensures forall c :: c in r ==> r[c] == store[c]
  {
    map c | c in store && c != ch :: store[c]
  }

  /** What the TTL index leaves at time `now`: exactly the live records, unchanged. */
  function Expire(store: Store, now: int): (r: Store)
    ensures forall c :: c in r <==> c in store && Live(store[c], now)
    ensures forall c :: c in r ==> r[c] == store[c]
  {
    map c | c in store && Live(store[c], now) :: store[c]
  }

  /** k resends or wrong guesses in a row on one channel. */
  function IncrementTimes(store: Store, ch: Channel, k: nat): Store
    decreases k
  {
    if k == 0 then store else Increment(IncrementTimes(store, ch, k - 1), ch)
  }

  /** Expiry is absolute: however many times the counter was incremented,
      the record is visible exactly while the original one would be, and
      it keeps its code and creation time. */
  lemma {:induction false} ExpiryIsAbsolute(store: Store, ch: Channel, k: nat, now: int)
    requires ch in store
    ensures var s := IncrementTimes(store, ch, k);
      && ch in s
      && s[ch] == store[ch].(revision := store[ch].revision + k)
      && (ch in Expire(s, now) <==> Live(store[ch], now))
    decreases k
  {
    if k > 0 {
      ExpiryIsAbsolute(store, ch, k - 1, now);
    }
  }

  // ---------------------------------------------------------------------
  // toJSON: `virtuals: true` adds the string `id`, `versionKey: false`
  // leaves out `__v`, and the transform deletes `_id`.

  /** The object `ret` the transform receives; `createdAt` is modelled by its milliseconds. */
  function Document(ch: Channel, a: Alert, objectId: nat): (ret: JsonObject)
    ensures "_id" in ret && "id" in ret && ret["id"] == JString(DecimalText(objectId))
    ensures "code" in ret && ret["code"] == JString(a.code)
    ensures "createdAt" in ret && ret["createdAt"] == JNumber(a.createdAt)
    ensures "revision" in ret && ret["revision"] == JNumber(a.revision)
    ensures ch.Phone? ==> "phone" in ret && ret["phone"] == JString(ch.number) && "email" !in ret
    ensures ch.Email? ==> "email" in ret && ret["email"] == JString(ch.address) && "phone" !in ret
    ensures ret.Keys <= {"_id", "id", "phone", "email", "code", "createdAt", "revision"}
  {
    var address := match ch
      case Phone(p) => map["phone" := JString(p)]
      case Email(e) => map["email" := JString(e)];
    address + map["_id" := JNumber(objectId), "id" := JString(DecimalText(objectId)),
                  "code" := JString(a.code), "createdAt" := JNumber(a.createdAt),
                  "revision" := JNumber(a.revision)]
  }

  function ToJson(ch: Channel, a: Alert, objectId: nat): (r: JsonObject)
    ensures "_id" !in r
    ensures "id" in r && r["id"] == JString(DecimalText(objectId))
    ensures "code" in r && r["code"] == JString(a.code)
    ensures "createdAt" in r && r["createdAt"] == JNumber(a.createdAt)
    ensures "revision" in r && r["revision"] == JNumber(a.revision)
    ensures ch.Phone? ==> "phone" in r && r["phone"] == JString(ch.number) && "email" !in r
    ensures ch.Email? ==> "email" in r && r["email"] == JString(ch.address) && "phone" !in r
    ensures r.Keys <= {"id", "phone", "email", "code", "createdAt", "revision"}
  {
    var removed := {"_id"};
    assert "id" !in removed && "code" !in removed && "createdAt" !in removed && "revision" !in removed;
    assert "phone" !in removed && "email" !in removed;
    Without(Document(ch, a, objectId), removed)
  }
}
