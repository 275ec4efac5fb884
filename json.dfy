/**
  JSON documents as Mongoose hands them to `toJSON` transforms and as Express
  sends them: an object is a map from property names to values.
 */
module Json {

  /** What bcrypt and jsonwebtoken produce. The model keeps only what each
      string was made from; salts, secrets and encodings are not modelled. */
  datatype Secret =
    | BcryptHash(password: string)
    | AccessToken(userId: nat, phone: string)
    | RefreshToken(access: Secret)

  datatype JsonValue =
    | JString(s: string)
    | JNumber(n: int)
    | JBool(b: bool)
    | JSecret(secret: Secret)   // a string made by bcrypt or jsonwebtoken

  type JsonObject = map<string, JsonValue>

  /** `delete ret[k]` for every k in `keys`, applied to the object `ret`. */
  function Without(ret: JsonObject, keys: set<string>): (r: JsonObject)
    ensures forall k :: k in keys ==> k !in r
    ensures forall k :: k in ret && k !in keys ==> k in r && r[k] == ret[k]
    ensures r.Keys <= ret.Keys
  {
    map k | k in ret && k !in keys :: ret[k]
  }
}
