/** The part of `github.com/golang-jwt/jwt` (v3.2.2) the user service relies on:
    the registered signing methods, the standard claims it issues, and
    `jwt.Parse` with the default parser, which checks the signing method,
    the time claims and the signature. The cryptography and the compact
    encoding are an oracle (`Codec`); what the library decides from their
    answers is modelled. */
module Jwt {
  import opened GoBase

  /** The families of the signing methods the library registers. */
  datatype Family = HMAC | RSA | RSAPSS | ECDSA | EdDSA | NoneMethod

  /** `jwt.GetSigningMethod(alg)`: the family of a registered `alg` header
      value, or nothing for an algorithm the library does not know. */
  function MethodFamily(alg: string): Option<Family>
  {
    if alg in {"HS256", "HS384", "HS512"} then Some(HMAC)
    else if alg in {"RS256", "RS384", "RS512"} then Some(RSA)
    else if alg in {"PS256", "PS384", "PS512"} then Some(RSAPSS)
    else if alg in {"ES256", "ES384", "ES512"} then Some(ECDSA)
    else if alg == "EdDSA" then Some(EdDSA)
    else if alg == "none" then Some(NoneMethod)
    else None
  }

  /** A claim value as `encoding/json` decodes it into a `MapClaims`: a
      string, an (integral) number, or anything else. */
  datatype ClaimValue = Str(s: string) | Num(n: int) | OtherValue

  /** A token's `alg` header and its claims object. */
  datatype Decoded = Decoded(alg: string, claims: map<string, ClaimValue>)

  /** The signing, decoding and signature checking the library does with
      `encoding/base64`, `encoding/json` and `crypto/hmac`.
      `decode` covers `ParseUnverified`: three segments, a decodable header
      with a string `alg`, and a claims object; its error is the library's.
      `verify(text, alg, key)` is the signing method's `Verify`: `Nil` when
      the signature checks out, otherwise the method's own error (for HMAC,
      the base64url decoder's error for a malformed signature segment, or
      "signature is invalid" for a mismatch). */
  datatype Codec = Codec(
    sign: (Decoded, seq<byte>) -> Ret<string>,
    decode: string -> Ret<Decoded>,
    verify: (string, string, seq<byte>) -> Error)

  /** `Token.SignedString` returns the empty string with its error: a codec
      that signs the way the library does. */
  ghost predicate SignsEmptyOnError(codec: Codec)
  {
    forall d, key :: !codec.sign(d, key).Ok() ==> codec.sign(d, key).val == ""
  }

  /** What a correct codec does with one token it signs: the text is a
      non-empty run of base64url segments and dots (so it has no space),
      decodes to what was signed, and its signature checks out under the
      same key. */
  predicate SoundFor(codec: Codec, d: Decoded, key: seq<byte>)
  {
    codec.sign(d, key).Ok()
    && var text := codec.sign(d, key).val;
    && |text| > 0 && ' ' !in text
    && codec.decode(text) == Ret(d, Nil)
    && codec.verify(text, d.alg, key) == Nil
  }

  /** `jwt.StandardClaims` with the three fields the service fills in. */
  datatype StandardClaims = StandardClaims(subject: string, issuedAt: int, expiresAt: int)

  /** The claims object a `StandardClaims` is serialised to: every field is
      `omitempty`, so an empty subject or a zero time is left out. */
  function ClaimsMap(c: StandardClaims): (m: map<string, ClaimValue>)
    ensures "sub" in m <==> c.subject != ""
    ensures "sub" in m ==> m["sub"] == Str(c.subject)
    ensures "iat" in m <==> c.issuedAt != 0
    ensures "iat" in m ==> m["iat"] == Num(c.issuedAt)
    ensures "exp" in m <==> c.expiresAt != 0
    ensures "exp" in m ==> m["exp"] == Num(c.expiresAt)
    ensures "nbf" !in m
  {
    var withSub: map<string, ClaimValue> := if c.subject == "" then map[] else map["sub" := Str(c.subject)];
    var withIat := if c.issuedAt == 0 then withSub else withSub["iat" := Num(c.issuedAt)];
    if c.expiresAt == 0 then withIat else withIat["exp" := Num(c.expiresAt)]
  }

  /** `MapClaims.VerifyExpiresAt(now, false)`: an absent or zero `exp`
      passes; a number passes while `now <= exp`; any other value fails. */
  predicate ExpOk(m: map<string, ClaimValue>, now: int)
  {
    "exp" !in m || (m["exp"].Num? && (m["exp"].n == 0 || now <= m["exp"].n))
  }

  /** `MapClaims.VerifyIssuedAt(now, false)`: passes once `now >= iat`. */
  predicate IatOk(m: map<string, ClaimValue>, now: int)
  {
    "iat" !in m || (m["iat"].Num? && (m["iat"].n == 0 || now >= m["iat"].n))
  }

  /** `MapClaims.VerifyNotBefore(now, false)`: passes once `now >= nbf`. */
  predicate NbfOk(m: map<string, ClaimValue>, now: int)
  {
    "nbf" !in m || (m["nbf"].Num? && (m["nbf"].n == 0 || now >= m["nbf"].n))
  }

  /** `MapClaims.Valid()` at Unix time `now`: the message of the last check
      that fails, or nothing when all three pass. */
  function ClaimsError(m: map<string, ClaimValue>, now: int): (e: Option<string>)
    ensures e.None? <==> ExpOk(m, now) && IatOk(m, now) && NbfOk(m, now)
  {
    if !NbfOk(m, now) then Some("Token is not valid yet")
    else if !IatOk(m, now) then Some("Token used before issued")
    else if !ExpOk(m, now) then Some("Token is expired")
    else None
  }

  /** The claims of a parsed token: `jwt.Parse` always decodes them into a
      `MapClaims`; other claim types come from `ParseWithClaims` only. */
  datatype Claims = MapClaims(m: map<string, ClaimValue>) | OtherClaims

  datatype Token = Token(alg: string, claims: Claims, valid: bool)

  const NoToken := Token("", MapClaims(map[]), false)

  /** `time.Time.Unix()` of a reading in nanoseconds: whole seconds, rounded
      down. */
  function UnixSeconds(ns: int): int
  {
    ns / 1_000_000_000
  }

  /** `jwt.Parse(text, keyFunc)` with the clock reading `now` (nanoseconds).
      The steps: decode; look up the signing method; ask `keyFunc` for the
      key (it sees the `alg`); check the claims; check the signature. The
      token is valid exactly when the call succeeds; when both the claims
      and the signature fail, the signature's error is the one reported
      (`Verify`'s error replaces the claims error as the inner error). */
  function Parse(codec: Codec, text: string, keyFunc: string -> Ret<seq<byte>>, now: int): (t: Ret<Token>)
    ensures t.Ok() <==>
      && codec.decode(text).Ok()
      && MethodFamily(codec.decode(text).val.alg).Some?
      && keyFunc(codec.decode(text).val.alg).Ok()
      && ClaimsError(codec.decode(text).val.claims, UnixSeconds(now)).None?
      && codec.verify(text, codec.decode(text).val.alg, keyFunc(codec.decode(text).val.alg).val).Nil?
  {
    var d := codec.decode(text);
    if !d.Ok() then Ret(NoToken, d.err)
    else
      var unverified := Token(d.val.alg, MapClaims(d.val.claims), false);
      if MethodFamily(d.val.alg).None? then Ret(unverified, Failed("signing method (alg) is unavailable."))
      else
        var key := keyFunc(d.val.alg);
        if !key.Ok() then Ret(unverified, key.err)
        else
          var claimsError := ClaimsError(d.val.claims, UnixSeconds(now));
          var signature := codec.verify(text, d.val.alg, key.val);
          if !signature.Nil? then Ret(unverified, signature)
          else if claimsError.Some? then Ret(unverified, Failed(claimsError.value))
          else Ret(unverified.(valid := true), Nil)
  }

  /** Every token `Parse` returns is marked valid exactly when the call
      succeeds, and carries the decoded claims as map claims. */
  lemma ParsedTokenShape(codec: Codec, text: string, keyFunc: string -> Ret<seq<byte>>, now: int)
    ensures Parse(codec, text, keyFunc, now).val.valid <==> Parse(codec, text, keyFunc, now).Ok()
    ensures Parse(codec, text, keyFunc, now).val.claims.MapClaims?
    ensures codec.decode(text).Ok() ==>
      Parse(codec, text, keyFunc, now).val.alg == codec.decode(text).val.alg
      && Parse(codec, text, keyFunc, now).val.claims == MapClaims(codec.decode(text).val.claims)
  {
  }
}
