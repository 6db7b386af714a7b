/** internal/transport/rest/phone.go: the `Controller`'s phone handlers.
    Each handler is a chain of steps with early exits. `XSteps` says which
    writer calls and which service calls the handler makes for given step
    outcomes, and its contract states the status table and the response;
    the method `X` performs the steps on a `ResponseWriter`. */
module RestPhone {
  import opened GoBase
  import opened Strconv
  import opened Entity
  import opened Http
  import opened RestController

  /** The writer calls of an early exit: a status line only. */
  function Fail(code: int): (ws: seq<WriterCall>)
    ensures IsBareStatus(Outcome(ws), code)
  {
    OutcomeOfWriteHeader(code);
    [WriterCall.WriteHeader(code)]
  }

  /** The writer calls of a JSON answer: the Content-Type header, then the
      body, with the status left implicit. */
  function JsonBody(data: seq<byte>): (ws: seq<WriterCall>)
    ensures IsJsonResponse(Outcome(ws), data)
  {
    OutcomeOfJsonWrite(data);
    [WriterCall.AddHeader("Content-Type", "application/json"), WriterCall.Write(data)]
  }

  /** `getPhoneById`: 400 for a bad id, a service error (a missing phone
      included) or a marshal error, never 500; otherwise the phone as JSON.
      The service is asked only once the id is valid. */
  function GetPhoneByIdSteps(c: Controller, json: JsonCodec, r: Request): (s: Steps<PhoneCall>)
    ensures SentStatus(Outcome(s.writes)) in {StatusOK, StatusBadRequest}
    ensures SentStatus(Outcome(s.writes)) == StatusOK <==>
      GetIdFromReq(r).Ok() && c.phonesService.getPhoneById(GetIdFromReq(r).val).Ok()
      && json.marshalPhone(c.phonesService.getPhoneById(GetIdFromReq(r).val).val).Ok()
    ensures SentStatus(Outcome(s.writes)) == StatusOK ==>
      IsJsonResponse(Outcome(s.writes), json.marshalPhone(c.phonesService.getPhoneById(GetIdFromReq(r).val).val).val)
    ensures SentStatus(Outcome(s.writes)) != StatusOK ==> IsBareStatus(Outcome(s.writes), StatusBadRequest)
    ensures s.calls == if GetIdFromReq(r).Ok() then [ServiceGetPhoneById(GetIdFromReq(r).val)] else []
  {
    var id := GetIdFromReq(r);
    if !id.Ok() then Steps(Fail(StatusBadRequest), [])
    else
      var calls := [ServiceGetPhoneById(id.val)];
      var book := c.phonesService.getPhoneById(id.val);
      if !book.Ok() then Steps(Fail(StatusBadRequest), calls)
      else
        var response := json.marshalPhone(book.val);
        if !response.Ok() then Steps(Fail(StatusBadRequest), calls)
        else Steps(JsonBody(response.val), calls)
  }

  method GetPhoneById(c: Controller, json: JsonCodec, w: ResponseWriter, r: Request) returns (calls: seq<PhoneCall>)
    modifies w
    ensures w.State() == Replay(old(w.State()), GetPhoneByIdSteps(c, json, r).writes)
    ensures calls == GetPhoneByIdSteps(c, json, r).calls
  {
    calls := [];
    var id := GetIdFromReq(r);
    if !id.Ok() {
      w.WriteHeader(StatusBadRequest);
      return;
    }

    calls := calls + [ServiceGetPhoneById(id.val)];
    var book := c.phonesService.getPhoneById(id.val);
    if !book.Ok() {
      w.WriteHeader(StatusBadRequest);
      return;
    }

    var response := json.marshalPhone(book.val);
    if !response.Ok() {
      w.WriteHeader(StatusBadRequest);
      return;
    }

    w.AddHeader("Content-Type", "application/json");
    w.Write(response.val);
    ReplayTwo(old(w.State()), WriterCall.AddHeader("Content-Type", "application/json"), WriterCall.Write(response.val));
  }

  /** `getAllPhones`: 500 on a service or marshal error, otherwise the list
      as JSON. The service is always asked, exactly once. */
  function GetAllPhonesSteps(c: Controller, json: JsonCodec, r: Request): (s: Steps<PhoneCall>)
    ensures SentStatus(Outcome(s.writes)) in {StatusOK, StatusInternalServerError}
    ensures SentStatus(Outcome(s.writes)) == StatusOK <==>
      c.phonesService.getAllPhones.Ok() && json.marshalPhones(c.phonesService.getAllPhones.val).Ok()
    ensures SentStatus(Outcome(s.writes)) == StatusOK ==>
      IsJsonResponse(Outcome(s.writes), json.marshalPhones(c.phonesService.getAllPhones.val).val)
    ensures SentStatus(Outcome(s.writes)) != StatusOK ==> IsBareStatus(Outcome(s.writes), StatusInternalServerError)
    ensures s.calls == [ServiceGetAllPhones]
  {
    var calls := [ServiceGetAllPhones];
    var phones := c.phonesService.getAllPhones;
    if !phones.Ok() then Steps(Fail(StatusInternalServerError), calls)
    else
      var response := json.marshalPhones(phones.val);
      if !response.Ok() then Steps(Fail(StatusInternalServerError), calls)
      else Steps(JsonBody(response.val), calls)
  }

  method GetAllPhones(c: Controller, json: JsonCodec, w: ResponseWriter, r: Request) returns (calls: seq<PhoneCall>)
    modifies w
    ensures w.State() == Replay(old(w.State()), GetAllPhonesSteps(c, json, r).writes)
    ensures calls == GetAllPhonesSteps(c, json, r).calls
  {
    calls := [ServiceGetAllPhones];
    var phones := c.phonesService.getAllPhones;
    if !phones.Ok() {
      w.WriteHeader(StatusInternalServerError);
      return;
    }

    var response := json.marshalPhones(phones.val);
    if !response.Ok() {
      w.WriteHeader(StatusInternalServerError);
      return;
    }

    w.AddHeader("Content-Type", "application/json");
    w.Write(response.val);
    ReplayTwo(old(w.State()), WriterCall.AddHeader("Content-Type", "application/json"), WriterCall.Write(response.val));
  }

  /** The request body decoded as a phone payload: reading it and decoding
      it must both succeed. */
  predicate DecodesPhone(json: JsonCodec, r: Request)
  {
    r.body.Ok() && json.decodePhoneInput(r.body.val).Ok()
  }

  /** `createPhone`: 400 when the body cannot be read or decoded, and then
      the service is not asked; 500 on a service error; 201 on success.
      Nothing but the status line is ever written. */
  function CreatePhoneSteps(c: Controller, json: JsonCodec, r: Request): (s: Steps<PhoneCall>)
    ensures IsBareStatus(Outcome(s.writes), SentStatus(Outcome(s.writes)))
    ensures SentStatus(Outcome(s.writes)) == StatusBadRequest <==> !DecodesPhone(json, r)
    ensures SentStatus(Outcome(s.writes)) == StatusInternalServerError <==>
      DecodesPhone(json, r) && !c.phonesService.createPhone(json.decodePhoneInput(r.body.val).val).Nil?
    ensures SentStatus(Outcome(s.writes)) == StatusCreated <==>
      DecodesPhone(json, r) && c.phonesService.createPhone(json.decodePhoneInput(r.body.val).val).Nil?
    ensures s.calls == if DecodesPhone(json, r) then [ServiceCreatePhone(json.decodePhoneInput(r.body.val).val)] else []
  {
    var reqBytes := r.body;
    if !reqBytes.Ok() then Steps(Fail(StatusBadRequest), [])
    else
      var phone := json.decodePhoneInput(reqBytes.val);
      if !phone.Ok() then Steps(Fail(StatusBadRequest), [])
      else
        var calls := [ServiceCreatePhone(phone.val)];
        if !c.phonesService.createPhone(phone.val).Nil? then Steps(Fail(StatusInternalServerError), calls)
        else Steps(Fail(StatusCreated), calls)
  }

  method CreatePhone(c: Controller, json: JsonCodec, w: ResponseWriter, r: Request) returns (calls: seq<PhoneCall>)
    modifies w
    ensures w.State() == Replay(old(w.State()), CreatePhoneSteps(c, json, r).writes)
    ensures calls == CreatePhoneSteps(c, json, r).calls
  {
    calls := [];
    var reqBytes := r.body;
    if !reqBytes.Ok() {
      w.WriteHeader(StatusBadRequest);
      return;
    }

    var phone := json.decodePhoneInput(reqBytes.val);
    if !phone.Ok() {
      w.WriteHeader(StatusBadRequest);
      return;
    }

    calls := calls + [ServiceCreatePhone(phone.val)];
    var err := c.phonesService.createPhone(phone.val);
    if !err.Nil? {
      w.WriteHeader(StatusInternalServerError);
      return;
    }

    w.WriteHeader(StatusCreated);
  }

  /** `updatePhoneById`: 400 for a bad id or an unreadable or undecodable
      body, otherwise 200. The service is asked only then, and what it
      answers does not enter the status: the conditions for 200 do not
      mention it. */
  function UpdatePhoneByIdSteps(c: Controller, json: JsonCodec, r: Request): (s: Steps<PhoneCall>)
    ensures IsBareStatus(Outcome(s.writes), SentStatus(Outcome(s.writes)))
    ensures SentStatus(Outcome(s.writes)) in {StatusOK, StatusBadRequest}
    ensures SentStatus(Outcome(s.writes)) == StatusOK <==> GetIdFromReq(r).Ok() && DecodesPhone(json, r)
    ensures s.calls ==
      if GetIdFromReq(r).Ok() && DecodesPhone(json, r)
      then [ServiceUpdatePhoneById(GetIdFromReq(r).val, json.decodePhoneInput(r.body.val).val)]
      else []
  {
    var id := GetIdFromReq(r);
    if !id.Ok() then Steps(Fail(StatusBadRequest), [])
    else
      var reqBytes := r.body;
      if !reqBytes.Ok() then Steps(Fail(StatusBadRequest), [])
      else
        var phone := json.decodePhoneInput(reqBytes.val);
        if !phone.Ok() then Steps(Fail(StatusBadRequest), [])
        else Steps(Fail(StatusOK), [ServiceUpdatePhoneById(id.val, phone.val)])
  }

  method UpdatePhoneById(c: Controller, json: JsonCodec, w: ResponseWriter, r: Request) returns (calls: seq<PhoneCall>)
    modifies w
    ensures w.State() == Replay(old(w.State()), UpdatePhoneByIdSteps(c, json, r).writes)
    ensures calls == UpdatePhoneByIdSteps(c, json, r).calls
  {
    calls := [];
    var id := GetIdFromReq(r);
    if !id.Ok() {
      w.WriteHeader(StatusBadRequest);
      return;
    }

    var reqBytes := r.body;
    if !reqBytes.Ok() {
      w.WriteHeader(StatusBadRequest);
      return;
    }

    var phone := json.decodePhoneInput(reqBytes.val);
    if !phone.Ok() {
      w.WriteHeader(StatusBadRequest);
      return;
    }

    calls := calls + [ServiceUpdatePhoneById(id.val, phone.val)];
    var _ := c.phonesService.updatePhoneById(id.val, phone.val);
    w.WriteHeader(StatusOK);
  }

  /** A failed update is reported as a success: whatever the service's
      update answers, the client sees the same response. */
  lemma UpdateIgnoresServiceResult(c: Controller, json: JsonCodec, r: Request, update: (int64, PhoneInput) -> Error)
    ensures UpdatePhoneByIdSteps(c.(phonesService := c.phonesService.(updatePhoneById := update)), json, r)
         == UpdatePhoneByIdSteps(c, json, r)
  {
  }

  /** `deletePhoneById`: 400 for a bad id, and then the service is not
      asked; 500 on a service error; 200 on success. */
  function DeletePhoneByIdSteps(c: Controller, json: JsonCodec, r: Request): (s: Steps<PhoneCall>)
    ensures IsBareStatus(Outcome(s.writes), SentStatus(Outcome(s.writes)))
    ensures SentStatus(Outcome(s.writes)) == StatusBadRequest <==> !GetIdFromReq(r).Ok()
    ensures SentStatus(Outcome(s.writes)) == StatusInternalServerError <==>
      GetIdFromReq(r).Ok() && !c.phonesService.deletePhoneById(GetIdFromReq(r).val).Nil?
    ensures SentStatus(Outcome(s.writes)) == StatusOK <==>
      GetIdFromReq(r).Ok() && c.phonesService.deletePhoneById(GetIdFromReq(r).val).Nil?
    ensures s.calls == if GetIdFromReq(r).Ok() then [ServiceDeletePhoneById(GetIdFromReq(r).val)] else []
  {
    var id := GetIdFromReq(r);
    if !id.Ok() then Steps(Fail(StatusBadRequest), [])
    else
      var calls := [ServiceDeletePhoneById(id.val)];
      if !c.phonesService.deletePhoneById(id.val).Nil? then Steps(Fail(StatusInternalServerError), calls)
      else Steps(Fail(StatusOK), calls)
  }

  method DeletePhoneById(c: Controller, json: JsonCodec, w: ResponseWriter, r: Request) returns (calls: seq<PhoneCall>)
    modifies w
    ensures w.State() == Replay(old(w.State()), DeletePhoneByIdSteps(c, json, r).writes)
    ensures calls == DeletePhoneByIdSteps(c, json, r).calls
  {
    calls := [];
    var id := GetIdFromReq(r);
    if !id.Ok() {
      w.WriteHeader(StatusBadRequest);
      return;
    }

    calls := calls + [ServiceDeletePhoneById(id.val)];
    var err := c.phonesService.deletePhoneById(id.val);
    if !err.Nil? {
      w.WriteHeader(StatusInternalServerError);
      return;
    }

    w.WriteHeader(StatusOK);
  }

  /** The handlers that take an id never reach the service with an id the
      validator refused, and never with id 0. */
  lemma NoServiceCallWithoutValidId(c: Controller, json: JsonCodec, r: Request)
    ensures !GetIdFromReq(r).Ok() ==>
      GetPhoneByIdSteps(c, json, r).calls == [] && UpdatePhoneByIdSteps(c, json, r).calls == []
      && DeletePhoneByIdSteps(c, json, r).calls == []
    ensures forall call | call in GetPhoneByIdSteps(c, json, r).calls + UpdatePhoneByIdSteps(c, json, r).calls
                          + DeletePhoneByIdSteps(c, json, r).calls ::
      (call.ServiceGetPhoneById? || call.ServiceUpdatePhoneById? || call.ServiceDeletePhoneById?)
      && call.id != 0 && call.id as int == DecimalValue(Var(r, "id"))
  {
  }
}
