/** internal/transport/rest/middleware.go: the bearer-header parser, the
    authentication gate and the logging middleware, and how the router's
    middleware chains combine them. */
module RestMiddleware {
  import opened GoBase
  import opened Strings
  import opened Http
  import opened Mux
  import opened RestController

  function AuthHeader(r: Request): string
  {
    HeaderGet(r.header, "Authorization")
  }

  function WithAuthorization(r: Request, value: string): Request
  {
    r.(header := r.header["Authorization" := [value]])
  }

  /** The only header form the parser accepts: the exact, case-sensitive
      scheme "Bearer", one space, and a non-empty token without spaces. */
  predicate IsBearer(h: string)
  {
    |h| > 7 && h[..7] == "Bearer " && ' ' !in h[7..]
  }

  /** `getTokenFromRequest`. On every error the token returned is "". */
  function GetTokenFromRequest(r: Request): (t: Ret<string>)
    ensures t.Ok() ==> |t.val| > 0 && ' ' !in t.val
    ensures !t.Ok() ==> t.val == ""
  {
    var header := AuthHeader(r);
    if header == "" then Ret("", Failed("empty auth header"))
    else
      var headerParts := Split(header, ' ');
      if |headerParts| != 2 || headerParts[0] != "Bearer" then Ret("", Failed("invalid auth header"))
      else if |headerParts[1]| == 0 then Ret("", Failed("token is empty"))
      else Ret(headerParts[1], Nil)
  }

  /** A header that splits into "Bearer" and one more piece is "Bearer "
      followed by that piece. */
  lemma BearerPieces(h: string)
    requires var parts := Split(h, ' '); |parts| == 2 && parts[0] == "Bearer"
    ensures h == "Bearer " + Split(h, ' ')[1]
  {
    var parts := Split(h, ' ');
    assert parts[1..] == [parts[1]];
    assert Join(parts, ' ') == parts[0] + [' '] + parts[1];
    assert "Bearer" + [' '] == "Bearer ";
  }

  /** The parser accepts exactly the `IsBearer` headers, and what it returns
      is the text after "Bearer ". */
  lemma TokenAcceptedIff(r: Request)
    ensures GetTokenFromRequest(r).Ok() <==> IsBearer(AuthHeader(r))
    ensures GetTokenFromRequest(r).Ok() ==> GetTokenFromRequest(r).val == AuthHeader(r)[7..]
  {
    var h := AuthHeader(r);
    if GetTokenFromRequest(r).Ok() {
      BearerPieces(h);
    }
    if IsBearer(h) {
      assert h == "Bearer" + [' '] + h[7..];
      SplitOnce("Bearer", h[7..], ' ');
    }
  }

  /** Round trip: the header built from a token gives the token back. */
  lemma BearerRoundTrip(r: Request, token: string)
    requires |token| > 0 && ' ' !in token
    ensures GetTokenFromRequest(WithAuthorization(r, "Bearer " + token)) == Ret(token, Nil)
  {
    var h := "Bearer " + token;
    assert AuthHeader(WithAuthorization(r, h)) == h;
    assert h[..7] == "Bearer " && h[7..] == token;
    TokenAcceptedIff(WithAuthorization(r, h));
  }

  /** Which error each refused header gets: a missing or empty header, the
      bare "Bearer " with nothing after it, and everything else (another or
      differently cased scheme, two spaces, a space inside the token). */
  lemma TokenErrors(r: Request)
    ensures AuthHeader(r) == "" ==> GetTokenFromRequest(r) == Ret("", Failed("empty auth header"))
    ensures AuthHeader(r) == "Bearer " ==> GetTokenFromRequest(r) == Ret("", Failed("token is empty"))
    ensures AuthHeader(r) != "" && AuthHeader(r) != "Bearer " && !IsBearer(AuthHeader(r)) ==>
      GetTokenFromRequest(r) == Ret("", Failed("invalid auth header"))
  {
    var h := AuthHeader(r);
    if h == "Bearer " {
      assert h == "Bearer" + [' '] + "";
      SplitOnce("Bearer", "", ' ');
    }
    var parts := Split(h, ' ');
    if h != "" && |parts| == 2 && parts[0] == "Bearer" {
      BearerPieces(h);
      if parts[1] != "" {
        assert h[7..] == parts[1];
      }
    }
  }

  /** What a middleware does with a request: answer it itself, or pass it
      (possibly changed) to the next handler, exactly once. */
  datatype Decision = Answered(status: int) | Next(request: Request)

  /** `loggingMiddleware`: logs method and URI, then forwards unchanged. */
  function LoggingMiddleware(r: Request): (d: Decision)
    ensures d.Next? && d.request == r
  {
    Next(r)
  }

  /** `authMiddleware`: 401 unless the header is a bearer header whose token
      the users service accepts; then the request goes on carrying the user
      id in its context. */
  function AuthMiddleware(users: UsersService, r: Request): (d: Decision)
    ensures d.Answered? ==> d.status == StatusUnauthorized
    ensures d.Next? <==> IsBearer(AuthHeader(r)) && users.parseToken(AuthHeader(r)[7..]).Ok()
    ensures d.Next? ==> d.request == r.(ctx := r.ctx[CtxUserID := users.parseToken(AuthHeader(r)[7..]).val])
  {
    TokenAcceptedIff(r);
    var token := GetTokenFromRequest(r);
    if !token.Ok() then Answered(StatusUnauthorized)
    else
      var userId := users.parseToken(token.val);
      if !userId.Ok() then Answered(StatusUnauthorized)
      else Next(r.(ctx := r.ctx[CtxUserID := userId.val]))
  }

  function RunMiddleware(m: MiddlewareName, users: UsersService, r: Request): Decision
  {
    match m
    case Logging => LoggingMiddleware(r)
    case Auth => AuthMiddleware(users, r)
  }

  /** A chain of middlewares, outermost first, around a handler: the first
      one that answers stops the request. Only the auth middleware ever
      answers, and then with 401; a request that gets through differs from
      the original at most in its context. */
  function ApplyChain(chain: seq<MiddlewareName>, users: UsersService, r: Request): (d: Decision)
    decreases |chain|
    ensures d.Answered? ==> Auth in chain && d.status == StatusUnauthorized
    ensures d.Next? ==> d.request == r.(ctx := d.request.ctx)
  {
    if chain == [] then Next(r)
    else
      match RunMiddleware(chain[0], users, r)
      case Answered(status) => Answered(status)
      case Next(r') => ApplyChain(chain[1..], users, r')
  }

  /** Logging in front of a chain changes nothing about where the request
      ends up. */
  lemma LoggingTransparent(chain: seq<MiddlewareName>, users: UsersService, r: Request)
    ensures ApplyChain([Logging] + chain, users, r) == ApplyChain(chain, users, r)
  {
    assert ([Logging] + chain)[1..] == chain;
  }

  /** A chain without the authentication middleware always reaches the
      handler with the request unchanged. */
  lemma {:induction false} UngatedChainForwards(chain: seq<MiddlewareName>, users: UsersService, r: Request)
    requires Auth !in chain
    ensures ApplyChain(chain, users, r) == Next(r)
    decreases |chain|
  {
    if chain != [] {
      assert chain[0] == Logging;
      assert Auth !in chain[1..] by {
        forall i | 0 <= i < |chain[1..]| ensures chain[1..][i] != Auth {
          assert chain[1..][i] == chain[i + 1];
        }
      }
      UngatedChainForwards(chain[1..], users, r);
    }
  }

  /** A request the authentication middleware refuses is answered 401 by
      any chain that contains it, whatever comes before it: nothing in front
      of it changes the Authorization header. The handler never runs. */
  lemma {:induction false} GatedChainRejects(chain: seq<MiddlewareName>, users: UsersService, r: Request)
    requires Auth in chain
    requires AuthMiddleware(users, r).Answered?
    ensures ApplyChain(chain, users, r) == Answered(StatusUnauthorized)
    decreases |chain|
  {
    if chain[0] == Logging {
      assert Auth in chain[1..] by {
        var i :| 0 <= i < |chain| && chain[i] == Auth;
        assert chain[1..][i - 1] == Auth;
      }
      GatedChainRejects(chain[1..], users, r);
    }
  }

  /** On every /api/phones route a request without a valid bearer token
      (no header, another scheme, a malformed header, or a token the users
      service refuses) is answered 401 and never reaches the handler; one
      with a valid token reaches it exactly once, with the user id in its
      context. */
  lemma PhonesRoutesGated(users: UsersService, r: Request, e: Entry)
    requires e in ControllerRoutes() && "/api/phones" <= e.path
    ensures !IsBearer(AuthHeader(r)) ==> ApplyChain(e.chain, users, r) == Answered(StatusUnauthorized)
    ensures ApplyChain(e.chain, users, r) == AuthMiddleware(users, r)
  {
    OnlyPhonesRoutesAuthenticated();
    assert e.chain == [Logging, Auth];
    assert [Logging, Auth][1..] == [Auth] && [Auth][1..] == [];
  }

  /** Sign-up, sign-in and the documentation route are never gated: the
      handler always runs with the request as it came. */
  lemma OtherRoutesUngated(users: UsersService, r: Request, e: Entry)
    requires e in ControllerRoutes() && !("/api/phones" <= e.path)
    ensures ApplyChain(e.chain, users, r) == Next(r)
  {
    OnlyPhonesRoutesAuthenticated();
    UngatedChainForwards(e.chain, users, r);
  }
}
