/** internal/transport/rest/controller.go: the services the handlers depend
    on, the path-id validator, and the route table with its middlewares. */
module RestController {
  import opened GoBase
  import opened Strconv
  import opened Entity
  import opened Http
  import opened Mux

  /** The `PhonesService` interface: each operation's answer, as a function
      of its arguments. */
  datatype PhonesService = PhonesService(
    getPhoneById: int64 -> Ret<Phone>,
    getAllPhones: Ret<seq<Phone>>,
    createPhone: PhoneInput -> Error,
    updatePhoneById: (int64, PhoneInput) -> Error,
    deletePhoneById: int64 -> Error)

  /** A call a handler made into the `PhonesService`. */
  datatype PhoneCall =
    | ServiceGetPhoneById(id: int64)
    | ServiceGetAllPhones
    | ServiceCreatePhone(input: PhoneInput)
    | ServiceUpdatePhoneById(id: int64, input: PhoneInput)
    | ServiceDeletePhoneById(id: int64)

  /** The `UsersService` interface. */
  datatype UsersService = UsersService(
    signUp: SignUpInput -> Error,
    signIn: SignInInput -> Ret<string>,
    parseToken: string -> Ret<int64>)

  /** A call a handler made into the `UsersService`. */
  datatype UserCall = ServiceSignUp(signUpInput: SignUpInput) | ServiceSignIn(signInInput: SignInInput)

  datatype Controller = Controller(phonesService: PhonesService, usersService: UsersService)

  /** `getIdFromReq`: the `id` path variable as a base-10 `int64`; 0 is
      refused. Negative ids pass. On error the id returned is 0. */
  function GetIdFromReq(r: Request): (id: Ret<int64>)
    ensures id.Ok() <==>
      var text := Var(r, "id");
      IsDecimal(text) && MinInt64 <= DecimalValue(text) <= MaxInt64 && DecimalValue(text) != 0
    ensures id.Ok() ==> id.val != 0 && id.val as int == DecimalValue(Var(r, "id"))
    ensures !id.Ok() ==> id.val == 0
  {
    var parsed := ParseInt(Var(r, "id"));
    if !parsed.Ok() then Ret(0, parsed.err)
    else if parsed.val == 0 then Ret(0, Failed("id can't be 0"))
    else Ret(parsed.val, Nil)
  }

  function WithId(r: Request, text: string): Request
  {
    r.(vars := r.vars["id" := text])
  }

  /** Every nonzero `int64`, spelled as `strconv` spells it, is read back. */
  lemma IdRoundTrip(r: Request, n: int64)
    requires n != 0
    ensures GetIdFromReq(WithId(r, FormatInt(n as int))) == Ret(n, Nil)
  {
    ParseFormatRoundTrip(n);
  }

  /** Text that parses to zero ("0", "-0", "+000", ...) is refused with the
      validator's own message rather than a parse error. */
  lemma ZeroIdRefused(r: Request)
    requires ParseInt(Var(r, "id")) == Ret(0, Nil)
    ensures GetIdFromReq(r) == Ret(0, Failed("id can't be 0"))
  {
  }

  /** Text that is not an `int64` is refused with the parser's error. */
  lemma MalformedIdRefused(r: Request)
    requires !ParseInt(Var(r, "id")).Ok()
    ensures GetIdFromReq(r) == Ret(0, ParseInt(Var(r, "id")).err)
  {
  }

  const IdPattern := "/{id:[0-9]+"

  /** What `InitRouter` registers on the /api/users subrouter. */
  function UsersRoutes(): seq<Route>
  {
    [Route("/sign-up", "POST", SignUp), Route("/sign-in", "POST", SignIn)]
  }

  /** What `InitRouter` registers on the /api/phones subrouter. */
  function PhonesRoutes(): seq<Route>
  {
    [ Route("", "POST", CreatePhone),
      Route("", "GET", GetAllPhones),
      Route(IdPattern, "GET", GetPhoneById),
      Route(IdPattern, "DELETE", DeletePhoneById),
      Route(IdPattern, "PUT", UpdatePhoneById) ]
  }

  /** The two path-prefix subrouters `InitRouter` creates; only the second
      installs the authentication middleware. */
  function ControllerSubrouters(): seq<Subrouter>
  {
    [Subrouter("/api/users", [], UsersRoutes()), Subrouter("/api/phones", [Auth], PhonesRoutes())]
  }

  /** Every route the router built by `InitRouter` registers. (The id
      pattern `{id:[0-9]+` has no closing brace, so mux records an error on
      those three routes and never matches them; matching is not modelled.) */
  function ControllerRoutes(): seq<Entry>
  {
    Table([Logging], ControllerSubrouters(), [Route("/swagger/", "", Swagger)])
  }

  lemma ControllerRoutesShape()
    ensures ControllerRoutes() ==
      RouteEntries("/api/users", [Logging], UsersRoutes())
      + RouteEntries("/api/phones", [Logging, Auth], PhonesRoutes())
      + RouteEntries("", [Logging], [Route("/swagger/", "", Swagger)])
  {
    var subs := ControllerSubrouters();
    var rest := subs[1..];
    assert rest == [subs[1]] && rest[1..] == [];
    assert [Logging] + [Auth] == [Logging, Auth] && [Logging] + [] == [Logging];
    assert SubrouterEntries([Logging], rest[1..]) == [];
    assert SubrouterEntries([Logging], rest) == RouteEntries("/api/phones", [Logging, Auth], PhonesRoutes()) + [];
    assert SubrouterEntries([Logging], subs) == RouteEntries("/api/users", [Logging], UsersRoutes()) + SubrouterEntries([Logging], rest);
  }

  /** Two prefixes that differ at some position cannot both start a path. */
  lemma PrefixesExclusive(p: string, q: string, path: string, k: nat)
    requires k < |p| && k < |q| && p[k] != q[k] && p <= path
    ensures !(q <= path)
  {
    assert path[k] == p[k];
  }

  /** Every route is logged first; exactly the routes under /api/phones are
      behind the authentication middleware, so sign-up and sign-in are
      reachable without a token. */
  lemma OnlyPhonesRoutesAuthenticated()
    ensures forall e | e in ControllerRoutes() :: e.chain == [Logging] || e.chain == [Logging, Auth]
    ensures forall e | e in ControllerRoutes() :: Auth in e.chain <==> "/api/phones" <= e.path
    ensures ControllerRoutes()[0].handler == SignUp && ControllerRoutes()[0].chain == [Logging]
    ensures ControllerRoutes()[1].handler == SignIn && ControllerRoutes()[1].chain == [Logging]
  {
    ControllerRoutesShape();
    var users := RouteEntries("/api/users", [Logging], UsersRoutes());
    var guarded := RouteEntries("/api/phones", [Logging, Auth], PhonesRoutes());
    var docs := RouteEntries("", [Logging], [Route("/swagger/", "", Swagger)]);
    forall e | e in users ensures !("/api/phones" <= e.path) {
      PrefixesExclusive("/api/users", "/api/phones", e.path, 5);
    }
    forall e | e in docs ensures !("/api/phones" <= e.path) {
      assert e == docs[0];
      PrefixesExclusive("/swagger/", "/api/phones", e.path, 1);
    }
  }

  /** `InitRouter`: builds the router step by step. */
  method InitRouter() returns (router: Router)
    ensures fresh(router)
    ensures router.middlewares == [Logging]
    ensures router.subrouters == ControllerSubrouters()
    ensures router.routes == [Route("/swagger/", "", Swagger)]
    ensures router.Entries() == ControllerRoutes()
  {
    router := new Router();
    router.Use(Logging);

    var auth := router.PathPrefixSubrouter("/api/users");
    router.SubrouterHandleFunc(auth, "/sign-up", SignUp, "POST");
    router.SubrouterHandleFunc(auth, "/sign-in", SignIn, "POST");
    assert router.subrouters[0] == ControllerSubrouters()[0];

    var phones := router.PathPrefixSubrouter("/api/phones");
    router.SubrouterUse(phones, Auth);
    router.SubrouterHandleFunc(phones, "", CreatePhone, "POST");
    router.SubrouterHandleFunc(phones, "", GetAllPhones, "GET");
    router.SubrouterHandleFunc(phones, IdPattern, GetPhoneById, "GET");
    router.SubrouterHandleFunc(phones, IdPattern, DeletePhoneById, "DELETE");
    router.SubrouterHandleFunc(phones, IdPattern, UpdatePhoneById, "PUT");
    assert router.subrouters[1] == ControllerSubrouters()[1];

    router.PathPrefixHandler("/swagger/", Swagger);
  }
}
