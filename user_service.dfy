/** internal/service/userService.go: registration, login with token issue,
    and token verification, over a password hasher, a users repository and
    the JWT library. The hasher and the repository are oracles; the clock
    is passed in as readings in nanoseconds since the Unix epoch. */
module UserService {
  import opened GoBase
  import opened Strconv
  import opened Entity
  import opened Jwt

  /** `PasswordHasher`. */
  datatype Hasher = Hasher(hash: string -> Ret<string>)

  /** `UsersRepository`: each operation's answer. */
  datatype UsersRepository = UsersRepository(
    create: User -> Error,
    getByCredentials: (string, string) -> Ret<User>)

  /** A call the service made into the repository. */
  datatype RepoCall = Create(user: User) | GetByCredentials(email: string, password: string)

  /** A service result together with the repository calls made for it. */
  datatype Traced<T> = Traced(result: T, calls: seq<RepoCall>)

  /** The service's `User` struct, built once by `NewUser`. `tokenTtl` is a
      duration in nanoseconds. */
  datatype Service = Service(repo: UsersRepository, hasher: Hasher, hmacSecret: seq<byte>, tokenTtl: int)

  /** The fixed validity window of an issued token: 15 minutes. */
  const TokenWindow: int := 15 * 60 * 1_000_000_000

  /** `SignUp` at clock reading `now`: the hasher's error is returned and
      nothing is stored; otherwise exactly one user is created, with the
      name and email as given, the hash in place of the password, and the
      registration time, and the repository's answer is returned. */
  function SignUp(s: Service, input: SignUpInput, now: int): (r: Traced<Error>)
    ensures !s.hasher.hash(input.password).Ok() ==> r == Traced(s.hasher.hash(input.password).err, [])
    ensures s.hasher.hash(input.password).Ok() ==>
      |r.calls| == 1 && r.calls[0].Create?
      && r.calls[0].user.name == input.name && r.calls[0].user.email == input.email
      && r.calls[0].user.password == s.hasher.hash(input.password).val
      && r.calls[0].user.registeredAt == now
      && r.result == s.repo.create(r.calls[0].user)
  {
    var password := s.hasher.hash(input.password);
    if !password.Ok() then Traced(password.err, [])
    else
      var user := User(0, input.name, input.email, password.val, now);
      Traced(s.repo.create(user), [Create(user)])
  }

  /** The plaintext password never reaches the repository, whenever the
      hasher does not return its input unchanged. */
  lemma PlaintextNeverStored(s: Service, input: SignUpInput, now: int)
    requires s.hasher.hash(input.password).val != input.password
    ensures forall call | call in SignUp(s, input, now).calls :: call.Create? && call.user.password != input.password
  {
  }

  /** The claims `SignIn` puts in a token for user `id`, from the two clock
      readings it takes: issued at the first, expiring 15 minutes after the
      second. The configured TTL plays no part. */
  function IssuedClaims(id: int64, t1: int, t2: int): (c: StandardClaims)
    ensures c.subject == FormatInt(id as int)
    ensures c.issuedAt == UnixSeconds(t1)
    ensures c.expiresAt == UnixSeconds(t2) + 15 * 60
    ensures t1 == t2 ==> c.expiresAt == c.issuedAt + 15 * 60
    ensures t1 <= t2 ==> c.expiresAt >= c.issuedAt + 15 * 60
  {
    assert (t2 + TokenWindow) / 1_000_000_000 == t2 / 1_000_000_000 + 15 * 60;
    StandardClaims(FormatInt(id as int), UnixSeconds(t1), UnixSeconds(t2 + TokenWindow))
  }

  /** The header and claims of the token issued to user `id`. */
  function IssuedToken(id: int64, t1: int, t2: int): Decoded
  {
    Decoded("HS256", ClaimsMap(IssuedClaims(id, t1, t2)))
  }

  /** `SignIn`, reading the clock at `t1` for `iat` and at `t2` for `exp`.
      A hasher or lookup error gives the error and the token " " (one
      space). The lookup uses the hash, never the plaintext. Once the user
      is found the call succeeds whatever signing does: its error is
      dropped, and the token is whatever the signer returned. */
  function SignIn(s: Service, codec: Codec, input: SignInInput, t1: int, t2: int): (r: Traced<Ret<string>>)
    ensures !s.hasher.hash(input.password).Ok() ==> r == Traced(Ret(" ", s.hasher.hash(input.password).err), [])
    ensures s.hasher.hash(input.password).Ok() ==>
      r.calls == [GetByCredentials(input.email, s.hasher.hash(input.password).val)]
    ensures s.hasher.hash(input.password).Ok() ==>
      var user := s.repo.getByCredentials(input.email, s.hasher.hash(input.password).val);
      && (!user.Ok() ==> r.result == Ret(" ", user.err))
      && (user.Ok() ==> r.result == Ret(codec.sign(IssuedToken(user.val.id, t1, t2), s.hmacSecret).val, Nil))
  {
    var password := s.hasher.hash(input.password);
    if !password.Ok() then Traced(Ret(" ", password.err), [])
    else
      var calls := [GetByCredentials(input.email, password.val)];
      var user := s.repo.getByCredentials(input.email, password.val);
      if !user.Ok() then Traced(Ret(" ", user.err), calls)
      else
        var claims := IssuedClaims(user.val.id, t1, t2);
        var sig := codec.sign(Decoded("HS256", ClaimsMap(claims)), s.hmacSecret);
        Traced(Ret(sig.val, Nil), calls)
  }

  /** Once the user is found, a signing failure still answers without
      error, with the empty token `SignedString` returns on failure. */
  lemma SignFailureGivesEmptyToken(s: Service, codec: Codec, input: SignInInput, t1: int, t2: int)
    requires SignsEmptyOnError(codec)
    requires s.hasher.hash(input.password).Ok()
    requires var user := s.repo.getByCredentials(input.email, s.hasher.hash(input.password).val);
      user.Ok() && !codec.sign(IssuedToken(user.val.id, t1, t2), s.hmacSecret).Ok()
    ensures SignIn(s, codec, input, t1, t2).result == Ret("", Nil)
  {
  }

  /** The configured TTL has no effect on sign-in. */
  lemma TokenTtlIgnored(s: Service, codec: Codec, input: SignInInput, t1: int, t2: int, ttl: int)
    ensures SignIn(s.(tokenTtl := ttl), codec, input, t1, t2) == SignIn(s, codec, input, t1, t2)
  {
  }

  /** The key function `ParseToken` hands to `jwt.Parse`: the HMAC secret
      for an HMAC algorithm, an error naming the algorithm otherwise. */
  function KeyFunc(s: Service): (f: string -> Ret<seq<byte>>)
    ensures forall alg :: f(alg).Ok() <==> MethodFamily(alg) == Some(HMAC)
    ensures forall alg :: f(alg).Ok() ==> f(alg).val == s.hmacSecret
  {
    alg =>
      if MethodFamily(alg) != Some(HMAC) then Ret([], Failed("Unexpected signing method: " + alg))
      else Ret(s.hmacSecret, Nil)
  }

  /** `ParseToken` at clock reading `now`. An accepted token has an HMAC
      algorithm, a signature that checks under the secret, time claims that
      hold at `now`, and a string `sub` that is a decimal `int64`, which is
      the id returned. A refused token gives id 0. */
  function ParseToken(s: Service, codec: Codec, token: string, now: int): (id: Ret<int64>)
    ensures id.Ok() ==>
      && codec.decode(token).Ok()
      && var d := codec.decode(token).val;
      && MethodFamily(d.alg) == Some(HMAC)
      && codec.verify(token, d.alg, s.hmacSecret).Nil?
      && ClaimsError(d.claims, UnixSeconds(now)).None?
      && "sub" in d.claims && d.claims["sub"].Str?
      && Atoi(d.claims["sub"].s) == id
    ensures !id.Ok() ==> id.val == 0
  {
    var t := Parse(codec, token, KeyFunc(s), now);
    if !t.Ok() then Ret(0, t.err)
    else if !t.val.valid then Ret(0, Failed("invalid token"))
    else if !t.val.claims.MapClaims? then Ret(0, Failed("invalid claims"))
    else
      var claims := t.val.claims.m;
      if "sub" !in claims || !claims["sub"].Str? then Ret(0, Failed("invalid subject"))
      else
        var id := Atoi(claims["sub"].s);
        if !id.Ok() then Ret(0, Failed("invalid subject"))
        else
          ParsedTokenShape(codec, token, KeyFunc(s), now);
          Ret(id.val, Nil)
  }

  /** `ParseToken` without its "invalid token" and "invalid claims" checks:
      `jwt.Parse` marks every token it returns without error as valid, and
      always with map claims, so those two checks never fire. */
  function SubjectOf(s: Service, codec: Codec, token: string, now: int): Ret<int64>
  {
    var t := Parse(codec, token, KeyFunc(s), now);
    if !t.Ok() then Ret(0, t.err)
    else
      var claims := t.val.claims.m;
      if "sub" in claims && claims["sub"].Str? && Atoi(claims["sub"].s).Ok() then Atoi(claims["sub"].s)
      else Ret(0, Failed("invalid subject"))
  }

  lemma ValidityChecksNeverFire(s: Service, codec: Codec, token: string, now: int)
    ensures ParseToken(s, codec, token, now) == SubjectOf(s, codec, token, now)
  {
    var t := Parse(codec, token, KeyFunc(s), now);
    ParsedTokenShape(codec, token, KeyFunc(s), now);
    if t.Ok() {
      var claims := t.val.claims.m;
      if "sub" in claims && claims["sub"].Str? {
        var id := Atoi(claims["sub"].s);
        assert id.Ok() ==> id == Ret(id.val, Nil);
      }
    }
  }

  /** The converse of `ParseToken`'s contract: a token that decodes, has an
      HMAC algorithm, a signature that checks out under the secret, time
      claims that hold at `now` and a string `sub` that `Atoi` accepts is
      accepted, with that value as the id. */
  lemma ParseTokenAccepts(s: Service, codec: Codec, token: string, now: int)
    requires codec.decode(token).Ok()
    requires var d := codec.decode(token).val;
      && MethodFamily(d.alg) == Some(HMAC)
      && codec.verify(token, d.alg, s.hmacSecret).Nil?
      && ClaimsError(d.claims, UnixSeconds(now)).None?
      && "sub" in d.claims && d.claims["sub"].Str? && Atoi(d.claims["sub"].s).Ok()
    ensures ParseToken(s, codec, token, now) == Atoi(codec.decode(token).val.claims["sub"].s)
  {
    ParsedTokenShape(codec, token, KeyFunc(s), now);
    var sub := Atoi(codec.decode(token).val.claims["sub"].s);
    assert sub == Ret(sub.val, Nil);
  }

  /** The rejection chain, step by step: an undecodable token gives the
      decoder's error; an unknown algorithm the library's; a known but
      non-HMAC one (RSA, ECDSA, EdDSA, "none", ...) the key function's; a
      signature that does not check out the verifier's error; then the time
      claims; then a missing,
      non-string or non-decimal subject "invalid subject". */
  lemma ParseTokenRejections(s: Service, codec: Codec, token: string, now: int)
    ensures !codec.decode(token).Ok() ==> ParseToken(s, codec, token, now) == Ret(0, codec.decode(token).err)
    ensures codec.decode(token).Ok() ==>
      var d := codec.decode(token).val;
      && (MethodFamily(d.alg).None? ==>
            ParseToken(s, codec, token, now) == Ret(0, Failed("signing method (alg) is unavailable.")))
      && (MethodFamily(d.alg).Some? && MethodFamily(d.alg) != Some(HMAC) ==>
            ParseToken(s, codec, token, now) == Ret(0, Failed("Unexpected signing method: " + d.alg)))
      && (MethodFamily(d.alg) == Some(HMAC) && !codec.verify(token, d.alg, s.hmacSecret).Nil? ==>
            ParseToken(s, codec, token, now) == Ret(0, codec.verify(token, d.alg, s.hmacSecret)))
      && (MethodFamily(d.alg) == Some(HMAC) && codec.verify(token, d.alg, s.hmacSecret).Nil?
          && ClaimsError(d.claims, UnixSeconds(now)).Some? ==>
            ParseToken(s, codec, token, now) == Ret(0, Failed(ClaimsError(d.claims, UnixSeconds(now)).value)))
      && (MethodFamily(d.alg) == Some(HMAC) && codec.verify(token, d.alg, s.hmacSecret).Nil?
          && ClaimsError(d.claims, UnixSeconds(now)).None?
          && !("sub" in d.claims && d.claims["sub"].Str? && Atoi(d.claims["sub"].s).Ok()) ==>
            ParseToken(s, codec, token, now) == Ret(0, Failed("invalid subject")))
  {
  }

  /** Round trip: with a codec that is sound for the token it signs, the
      token `SignIn` issues to user u is read back by `ParseToken` as u's id
      at any moment from its issue time to its expiry. */
  lemma IssuedTokenAccepted(s: Service, codec: Codec, input: SignInInput, t1: int, t2: int, now: int)
    requires s.hasher.hash(input.password).Ok()
    requires var user := s.repo.getByCredentials(input.email, s.hasher.hash(input.password).val);
      user.Ok() && SoundFor(codec, IssuedToken(user.val.id, t1, t2), s.hmacSecret)
    requires UnixSeconds(t1) <= UnixSeconds(now) <= UnixSeconds(t2) + 15 * 60
    ensures var user := s.repo.getByCredentials(input.email, s.hasher.hash(input.password).val);
      SignIn(s, codec, input, t1, t2).result == Ret(codec.sign(IssuedToken(user.val.id, t1, t2), s.hmacSecret).val, Nil)
      && ParseToken(s, codec, SignIn(s, codec, input, t1, t2).result.val, now) == Ret(user.val.id, Nil)
  {
    var user := s.repo.getByCredentials(input.email, s.hasher.hash(input.password).val).val;
    var d := IssuedToken(user.id, t1, t2);
    var token := codec.sign(d, s.hmacSecret).val;
    var claims := IssuedClaims(user.id, t1, t2);
    assert MethodFamily("HS256") == Some(HMAC);
    assert ClaimsError(d.claims, UnixSeconds(now)).None?;
    ParseFormatRoundTrip(user.id);
    assert d.claims["sub"] == Str(FormatInt(user.id as int));
    assert ParseToken(s, codec, token, now) == Atoi(FormatInt(user.id as int));
  }

  /** The same token is refused once its expiry has passed, with the
      library's "Token is expired". */
  lemma IssuedTokenExpires(s: Service, codec: Codec, input: SignInInput, t1: int, t2: int, now: int)
    requires s.hasher.hash(input.password).Ok()
    requires var user := s.repo.getByCredentials(input.email, s.hasher.hash(input.password).val);
      user.Ok() && SoundFor(codec, IssuedToken(user.val.id, t1, t2), s.hmacSecret)
    requires 0 <= t1 <= t2 && UnixSeconds(now) > UnixSeconds(t2) + 15 * 60
    ensures ParseToken(s, codec, SignIn(s, codec, input, t1, t2).result.val, now) == Ret(0, Failed("Token is expired"))
  {
    var user := s.repo.getByCredentials(input.email, s.hasher.hash(input.password).val).val;
    var d := IssuedToken(user.id, t1, t2);
    assert MethodFamily("HS256") == Some(HMAC);
    var claims := IssuedClaims(user.id, t1, t2);
    assert UnixSeconds(t1) <= UnixSeconds(t2);
    assert d.claims["exp"] == Num(UnixSeconds(t2) + 15 * 60);
    assert "iat" in d.claims ==> d.claims["iat"] == Num(UnixSeconds(t1));
    assert !ExpOk(d.claims, UnixSeconds(now)) && IatOk(d.claims, UnixSeconds(now)) && NbfOk(d.claims, UnixSeconds(now));
  }
}
