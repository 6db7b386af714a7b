/** How the pieces meet when cmd/main.go hands the user service to the
    controller: a token issued at sign-in, sent back as a bearer header,
    opens the /api/phones routes for its user until it expires. */
module AuthFlow {
  import opened GoBase
  import opened Http
  import opened Mux
  import opened Jwt
  import opened Entity
  import opened RestController
  import opened RestMiddleware
  import opened UserService

  /** The `UsersService` the controller sees: the user service with the JWT
      codec, signing up at clock reading `t0`, signing in at `t1`/`t2`, and
      verifying tokens at `now`. */
  function Wired(s: Service, codec: Codec, t0: int, t1: int, t2: int, now: int): UsersService
  {
    UsersService(
      input => UserService.SignUp(s, input, t0).result,
      input => UserService.SignIn(s, codec, input, t1, t2).result,
      token => ParseToken(s, codec, token, now))
  }

  /** The request `r` carrying the token signed in with `input` as its
      bearer credential. */
  function WithIssuedToken(s: Service, codec: Codec, input: SignInInput, t1: int, t2: int, r: Request): Request
  {
    WithAuthorization(r, "Bearer " + UserService.SignIn(s, codec, input, t1, t2).result.val)
  }

  /** Before expiry, a request bearing the issued token passes every
      /api/phones route's middlewares and reaches the handler with the
      signed-in user's id in its context. */
  lemma IssuedTokenOpensPhonesRoutes(s: Service, codec: Codec, input: SignInInput, t0: int, t1: int, t2: int, now: int,
                                     r: Request, e: Entry)
    requires s.hasher.hash(input.password).Ok()
    requires var user := s.repo.getByCredentials(input.email, s.hasher.hash(input.password).val);
      user.Ok() && SoundFor(codec, IssuedToken(user.val.id, t1, t2), s.hmacSecret)
    requires UnixSeconds(t1) <= UnixSeconds(now) <= UnixSeconds(t2) + 15 * 60
    requires e in ControllerRoutes() && "/api/phones" <= e.path
    ensures var user := s.repo.getByCredentials(input.email, s.hasher.hash(input.password).val);
      var signed := WithIssuedToken(s, codec, input, t1, t2, r);
      ApplyChain(e.chain, Wired(s, codec, t0, t1, t2, now), signed)
        == Next(signed.(ctx := signed.ctx[CtxUserID := user.val.id]))
  {
    var users := Wired(s, codec, t0, t1, t2, now);
    var token := UserService.SignIn(s, codec, input, t1, t2).result.val;
    var signed := WithIssuedToken(s, codec, input, t1, t2, r);
    IssuedTokenAccepted(s, codec, input, t1, t2, now);
    BearerRoundTrip(r, token);
    TokenAcceptedIff(signed);
    PhonesRoutesGated(users, signed, e);
  }

  /** After expiry the same request is answered 401 on every /api/phones
      route, and the handler never runs. */
  lemma ExpiredTokenLocksPhonesRoutes(s: Service, codec: Codec, input: SignInInput, t0: int, t1: int, t2: int, now: int,
                                      r: Request, e: Entry)
    requires s.hasher.hash(input.password).Ok()
    requires var user := s.repo.getByCredentials(input.email, s.hasher.hash(input.password).val);
      user.Ok() && SoundFor(codec, IssuedToken(user.val.id, t1, t2), s.hmacSecret)
    requires 0 <= t1 <= t2 && UnixSeconds(now) > UnixSeconds(t2) + 15 * 60
    requires e in ControllerRoutes() && "/api/phones" <= e.path
    ensures ApplyChain(e.chain, Wired(s, codec, t0, t1, t2, now), WithIssuedToken(s, codec, input, t1, t2, r))
      == Answered(StatusUnauthorized)
  {
    var users := Wired(s, codec, t0, t1, t2, now);
    var token := UserService.SignIn(s, codec, input, t1, t2).result.val;
    var signed := WithIssuedToken(s, codec, input, t1, t2, r);
    IssuedTokenExpires(s, codec, input, t1, t2, now);
    BearerRoundTrip(r, token);
    TokenAcceptedIff(signed);
    PhonesRoutesGated(users, signed, e);
  }
}
