/** internal/transport/rest/phoneController.go: an older revision of the
    phone handlers, on a `Phones` value that holds only a phones service,
    with its own copies of the `PhonesService` interface and of
    `getIdFromReq`, and its own router without authentication. */
module RestPhoneController {
  import opened GoBase
  import opened Strconv
  import opened Entity
  import opened Http
  import opened Mux
  import RestController
  import RestPhone
  import RestMiddleware

  /** This file's own `PhonesService` interface (the same operations). */
  datatype PhonesService = PhonesService(
    getPhoneById: int64 -> Ret<Phone>,
    getAllPhones: Ret<seq<Phone>>,
    createPhone: PhoneInput -> Error,
    updatePhoneById: (int64, PhoneInput) -> Error,
    deletePhoneById: int64 -> Error)

  datatype PhoneCall =
    | ServiceGetPhoneById(id: int64)
    | ServiceGetAllPhones
    | ServiceCreatePhone(input: PhoneInput)
    | ServiceUpdatePhoneById(id: int64, input: PhoneInput)
    | ServiceDeletePhoneById(id: int64)

  /** `Phones`, built by `NewPhonesHandler`. */
  datatype Phones = Phones(phonesService: PhonesService)

  /** The `Controller` that serves the same phones service (the users
      service plays no part in the phone handlers). */
  function AsController(p: Phones, users: RestController.UsersService): RestController.Controller
  {
    var s := p.phonesService;
    RestController.Controller(
      RestController.PhonesService(s.getPhoneById, s.getAllPhones, s.createPhone, s.updatePhoneById, s.deletePhoneById),
      users)
  }

  function AsControllerCall(call: PhoneCall): RestController.PhoneCall
  {
    match call
    case ServiceGetPhoneById(id) => RestController.ServiceGetPhoneById(id)
    case ServiceGetAllPhones => RestController.ServiceGetAllPhones
    case ServiceCreatePhone(input) => RestController.ServiceCreatePhone(input)
    case ServiceUpdatePhoneById(id, input) => RestController.ServiceUpdatePhoneById(id, input)
    case ServiceDeletePhoneById(id) => RestController.ServiceDeletePhoneById(id)
  }

  function AsControllerCalls(calls: seq<PhoneCall>): seq<RestController.PhoneCall>
  {
    seq(|calls|, i requires 0 <= i < |calls| => AsControllerCall(calls[i]))
  }

  /** Same steps as a `Controller` handler: the same writer calls, and the
      same service calls once renamed. */
  predicate SameSteps(s: Steps<PhoneCall>, t: Steps<RestController.PhoneCall>)
  {
    s.writes == t.writes && AsControllerCalls(s.calls) == t.calls
  }

  /** This file's `getIdFromReq`: the `id` path variable as a base-10
      `int64`, with 0 refused and 0 returned on error. */
  function GetIdFromReq(r: Request): (id: Ret<int64>)
    ensures id.Ok() <==>
      var text := Var(r, "id");
      IsDecimal(text) && MinInt64 <= DecimalValue(text) <= MaxInt64 && DecimalValue(text) != 0
    ensures id.Ok() ==> id.val != 0 && id.val as int == DecimalValue(Var(r, "id"))
    ensures !id.Ok() ==> id.val == 0
    ensures id == RestController.GetIdFromReq(r)
  {
    var parsed := ParseInt(Var(r, "id"));
    if !parsed.Ok() then Ret(0, parsed.err)
    else if parsed.val == 0 then Ret(0, Failed("id can't be 0"))
    else Ret(parsed.val, Nil)
  }

  /** The routes `InitRouter` registers on its /api/phones subrouter: the
      same five as the `Controller`'s. */
  function PhonesSubrouters(): seq<Subrouter>
  {
    [Subrouter("/api/phones", [], RestController.PhonesRoutes())]
  }

  function PhonesHandlerRoutes(): seq<Entry>
  {
    Table([Logging], PhonesSubrouters(), [])
  }

  /** `(*Phones).InitRouter`. */
  method InitRouter() returns (router: Router)
    ensures fresh(router)
    ensures router.middlewares == [Logging]
    ensures router.subrouters == PhonesSubrouters()
    ensures router.routes == []
    ensures router.Entries() == PhonesHandlerRoutes()
  {
    router := new Router();
    router.Use(Logging);

    var phones := router.PathPrefixSubrouter("/api/phones");
    router.SubrouterHandleFunc(phones, "", HandlerName.CreatePhone, "POST");
    router.SubrouterHandleFunc(phones, "", HandlerName.GetAllPhones, "GET");
    router.SubrouterHandleFunc(phones, RestController.IdPattern, HandlerName.GetPhoneById, "GET");
    router.SubrouterHandleFunc(phones, RestController.IdPattern, HandlerName.DeletePhoneById, "DELETE");
    router.SubrouterHandleFunc(phones, RestController.IdPattern, HandlerName.UpdatePhoneById, "PUT");
    assert router.subrouters[0] == PhonesSubrouters()[0];
  }

  /** The older router puts no authentication in front of the phone routes:
      every one of them is only logged, and any request reaches its handler
      unchanged, with or without a token. */
  lemma PhonesHandlerRoutesUngated(users: RestController.UsersService, r: Request)
    ensures |PhonesHandlerRoutes()| == 5
    ensures forall e | e in PhonesHandlerRoutes() :: "/api/phones" <= e.path && e.chain == [Logging]
    ensures forall e | e in PhonesHandlerRoutes() :: RestMiddleware.ApplyChain(e.chain, users, r) == RestMiddleware.Next(r)
  {
    var subs := PhonesSubrouters();
    assert subs[1..] == [];
    assert [Logging] + [] == [Logging];
    assert PhonesHandlerRoutes() == RouteEntries("/api/phones", [Logging], RestController.PhonesRoutes()) + [] + [];
    RestMiddleware.LoggingTransparent([], users, r);
    assert [Logging] + [] == [Logging];
  }

  function GetPhoneByIdSteps(p: Phones, json: JsonCodec, r: Request): (s: Steps<PhoneCall>)
    ensures forall users :: SameSteps(s, RestPhone.GetPhoneByIdSteps(AsController(p, users), json, r))
    ensures SentStatus(Outcome(s.writes)) in {StatusOK, StatusBadRequest}
    ensures !GetIdFromReq(r).Ok() ==> s.calls == []
  {
    var id := GetIdFromReq(r);
    if !id.Ok() then Steps(RestPhone.Fail(StatusBadRequest), [])
    else
      var calls := [ServiceGetPhoneById(id.val)];
      var book := p.phonesService.getPhoneById(id.val);
      if !book.Ok() then Steps(RestPhone.Fail(StatusBadRequest), calls)
      else
        var response := json.marshalPhone(book.val);
        if !response.Ok() then Steps(RestPhone.Fail(StatusBadRequest), calls)
        else Steps(RestPhone.JsonBody(response.val), calls)
  }

  method GetPhoneById(p: Phones, json: JsonCodec, w: ResponseWriter, r: Request) returns (calls: seq<PhoneCall>)
    modifies w
    ensures w.State() == Replay(old(w.State()), GetPhoneByIdSteps(p, json, r).writes)
    ensures calls == GetPhoneByIdSteps(p, json, r).calls
  {
    calls := [];
    var id := GetIdFromReq(r);
    if !id.Ok() {
      w.WriteHeader(StatusBadRequest);
      return;
    }

    calls := calls + [ServiceGetPhoneById(id.val)];
    var book := p.phonesService.getPhoneById(id.val);
    if !book.Ok() {
      w.WriteHeader(StatusBadRequest);
      return;
    }

    var response := json.marshalPhone(book.val);
    if !response.Ok() {
      w.WriteHeader(StatusBadRequest);
      return;
    }

    w.AddHeader("Content-Type", "application/json");
    w.Write(response.val);
    ReplayTwo(old(w.State()), WriterCall.AddHeader("Content-Type", "application/json"), WriterCall.Write(response.val));
  }

  function GetAllPhonesSteps(p: Phones, json: JsonCodec, r: Request): (s: Steps<PhoneCall>)
    ensures forall users :: SameSteps(s, RestPhone.GetAllPhonesSteps(AsController(p, users), json, r))
    ensures SentStatus(Outcome(s.writes)) in {StatusOK, StatusInternalServerError}
  {
    var calls := [ServiceGetAllPhones];
    var phones := p.phonesService.getAllPhones;
    if !phones.Ok() then Steps(RestPhone.Fail(StatusInternalServerError), calls)
    else
      var response := json.marshalPhones(phones.val);
      if !response.Ok() then Steps(RestPhone.Fail(StatusInternalServerError), calls)
      else Steps(RestPhone.JsonBody(response.val), calls)
  }

  method GetAllPhones(p: Phones, json: JsonCodec, w: ResponseWriter, r: Request) returns (calls: seq<PhoneCall>)
    modifies w
    ensures w.State() == Replay(old(w.State()), GetAllPhonesSteps(p, json, r).writes)
    ensures calls == GetAllPhonesSteps(p, json, r).calls
  {
    calls := [ServiceGetAllPhones];
    var phones := p.phonesService.getAllPhones;
    if !phones.Ok() {
      w.WriteHeader(StatusInternalServerError);
      return;
    }

    var response := json.marshalPhones(phones.val);
    if !response.Ok() {
      w.WriteHeader(StatusInternalServerError);
      return;
    }

    w.AddHeader("Content-Type", "application/json");
    w.Write(response.val);
    ReplayTwo(old(w.State()), WriterCall.AddHeader("Content-Type", "application/json"), WriterCall.Write(response.val));
  }

  function CreatePhoneSteps(p: Phones, json: JsonCodec, r: Request): (s: Steps<PhoneCall>)
    ensures forall users :: SameSteps(s, RestPhone.CreatePhoneSteps(AsController(p, users), json, r))
    ensures SentStatus(Outcome(s.writes)) == StatusBadRequest <==> s.calls == []
  {
    var reqBytes := r.body;
    if !reqBytes.Ok() then Steps(RestPhone.Fail(StatusBadRequest), [])
    else
      var phone := json.decodePhoneInput(reqBytes.val);
      if !phone.Ok() then Steps(RestPhone.Fail(StatusBadRequest), [])
      else
        var calls := [ServiceCreatePhone(phone.val)];
        if !p.phonesService.createPhone(phone.val).Nil? then Steps(RestPhone.Fail(StatusInternalServerError), calls)
        else Steps(RestPhone.Fail(StatusCreated), calls)
  }

  method CreatePhone(p: Phones, json: JsonCodec, w: ResponseWriter, r: Request) returns (calls: seq<PhoneCall>)
    modifies w
    ensures w.State() == Replay(old(w.State()), CreatePhoneSteps(p, json, r).writes)
    ensures calls == CreatePhoneSteps(p, json, r).calls
  {
    calls := [];
    var reqBytes := r.body;
    if !reqBytes.Ok() {
      w.WriteHeader(StatusBadRequest);
      return;
    }

    var phone := json.decodePhoneInput(reqBytes.val);
    if !phone.Ok() {
      w.WriteHeader(StatusBadRequest);
      return;
    }

    calls := calls + [ServiceCreatePhone(phone.val)];
    var err := p.phonesService.createPhone(phone.val);
    if !err.Nil? {
      w.WriteHeader(StatusInternalServerError);
      return;
    }

    w.WriteHeader(StatusCreated);
  }

  function UpdatePhoneByIdSteps(p: Phones, json: JsonCodec, r: Request): (s: Steps<PhoneCall>)
    ensures forall users :: SameSteps(s, RestPhone.UpdatePhoneByIdSteps(AsController(p, users), json, r))
    ensures SentStatus(Outcome(s.writes)) == StatusOK <==> |s.calls| == 1
  {
    var id := GetIdFromReq(r);
    if !id.Ok() then Steps(RestPhone.Fail(StatusBadRequest), [])
    else
      var reqBytes := r.body;
      if !reqBytes.Ok() then Steps(RestPhone.Fail(StatusBadRequest), [])
      else
        var phone := json.decodePhoneInput(reqBytes.val);
        if !phone.Ok() then Steps(RestPhone.Fail(StatusBadRequest), [])
        else Steps(RestPhone.Fail(StatusOK), [ServiceUpdatePhoneById(id.val, phone.val)])
  }

  method UpdatePhoneById(p: Phones, json: JsonCodec, w: ResponseWriter, r: Request) returns (calls: seq<PhoneCall>)
    modifies w
    ensures w.State() == Replay(old(w.State()), UpdatePhoneByIdSteps(p, json, r).writes)
    ensures calls == UpdatePhoneByIdSteps(p, json, r).calls
  {
    calls := [];
    var id := GetIdFromReq(r);
    if !id.Ok() {
      w.WriteHeader(StatusBadRequest);
      return;
    }

    var reqBytes := r.body;
    if !reqBytes.Ok() {
      w.WriteHeader(StatusBadRequest);
      return;
    }

    var phone := json.decodePhoneInput(reqBytes.val);
    if !phone.Ok() {
      w.WriteHeader(StatusBadRequest);
      return;
    }

    calls := calls + [ServiceUpdatePhoneById(id.val, phone.val)];
    var _ := p.phonesService.updatePhoneById(id.val, phone.val);
    w.WriteHeader(StatusOK);
  }

  function DeletePhoneByIdSteps(p: Phones, json: JsonCodec, r: Request): (s: Steps<PhoneCall>)
    ensures forall users :: SameSteps(s, RestPhone.DeletePhoneByIdSteps(AsController(p, users), json, r))
    ensures SentStatus(Outcome(s.writes)) == StatusBadRequest <==> s.calls == []
  {
    var id := GetIdFromReq(r);
    if !id.Ok() then Steps(RestPhone.Fail(StatusBadRequest), [])
    else
      var calls := [ServiceDeletePhoneById(id.val)];
      if !p.phonesService.deletePhoneById(id.val).Nil? then Steps(RestPhone.Fail(StatusInternalServerError), calls)
      else Steps(RestPhone.Fail(StatusOK), calls)
  }

  method DeletePhoneById(p: Phones, json: JsonCodec, w: ResponseWriter, r: Request) returns (calls: seq<PhoneCall>)
    modifies w
    ensures w.State() == Replay(old(w.State()), DeletePhoneByIdSteps(p, json, r).writes)
    ensures calls == DeletePhoneByIdSteps(p, json, r).calls
  {
    calls := [];
    var id := GetIdFromReq(r);
    if !id.Ok() {
      w.WriteHeader(StatusBadRequest);
      return;
    }

    calls := calls + [ServiceDeletePhoneById(id.val)];
    var err := p.phonesService.deletePhoneById(id.val);
    if !err.Nil? {
      w.WriteHeader(StatusInternalServerError);
      return;
    }

    w.WriteHeader(StatusOK);
  }
}
