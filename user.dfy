/** internal/transport/rest/user.go: the sign-in and sign-up handlers.
    As for the phone handlers, `XSteps` gives the writer and service calls
    and states the status table; the method `X` performs them. */
module RestUser {
  import opened GoBase
  import opened Entity
  import opened Http
  import opened RestController
  import RestPhone

  /** Body read, decoded and validated: the conditions under which the
      sign-in handler goes on to the service. */
  predicate AcceptsSignIn(json: JsonCodec, v: Validators, r: Request)
  {
    r.body.Ok() && json.decodeSignIn(r.body.val).Ok() && v.signIn(json.decodeSignIn(r.body.val).val).Nil?
  }

  predicate AcceptsSignUp(json: JsonCodec, v: Validators, r: Request)
  {
    r.body.Ok() && json.decodeSignUp(r.body.val).Ok() && v.signUp(json.decodeSignUp(r.body.val).val).Nil?
  }

  /** The sign-in answer `{"token": ...}` as the JSON codec renders it. */
  function TokenResponse(json: JsonCodec, token: string): Ret<seq<byte>>
  {
    json.marshalStringMap(map["token" := token])
  }

  /** `signIn`. Read, decode or validation failure answers 400 and the
      service is not asked; a service error answers 500. When marshalling
      the token fails the handler writes 500 but does not return: it goes on
      to `WriteHeader(200)`, which only counts as superfluous, and writes
      whatever the marshaller returned, which `encoding/json` makes nothing
      (see `MarshalFailureIsBare500`). */
  function SignInSteps(c: Controller, json: JsonCodec, v: Validators, r: Request): (s: Steps<UserCall>)
    ensures SentStatus(Outcome(s.writes)) in {StatusOK, StatusBadRequest, StatusInternalServerError}
    ensures SentStatus(Outcome(s.writes)) == StatusBadRequest <==> !AcceptsSignIn(json, v, r)
    ensures s.calls == if AcceptsSignIn(json, v, r) then [ServiceSignIn(json.decodeSignIn(r.body.val).val)] else []
    ensures !AcceptsSignIn(json, v, r) ==> IsBareStatus(Outcome(s.writes), StatusBadRequest)
    ensures AcceptsSignIn(json, v, r) ==>
      var token := c.usersService.signIn(json.decodeSignIn(r.body.val).val);
      var response := TokenResponse(json, token.val);
      && (SentStatus(Outcome(s.writes)) == StatusOK <==> token.Ok() && response.Ok())
      && (!token.Ok() ==> IsBareStatus(Outcome(s.writes), StatusInternalServerError))
      && (token.Ok() && response.Ok() ==> Outcome(s.writes) == Response(true, StatusOK, map[], response.val, 0))
      && (token.Ok() && !response.Ok() ==> Outcome(s.writes) == Response(true, StatusInternalServerError, map[], response.val, 1))
  {
    var reqBytes := r.body;
    if !reqBytes.Ok() then Steps(RestPhone.Fail(StatusBadRequest), [])
    else
      var inp := json.decodeSignIn(reqBytes.val);
      if !inp.Ok() then Steps(RestPhone.Fail(StatusBadRequest), [])
      else if !v.signIn(inp.val).Nil? then Steps(RestPhone.Fail(StatusBadRequest), [])
      else
        var calls := [ServiceSignIn(inp.val)];
        var token := c.usersService.signIn(inp.val);
        if !token.Ok() then Steps(RestPhone.Fail(StatusInternalServerError), calls)
        else
          var response := TokenResponse(json, token.val);
          var marshalFailure := if response.Ok() then [] else [WriterCall.WriteHeader(StatusInternalServerError)];
          Steps(WriteAfter(marshalFailure, response.val), calls)
  }

  /** With a codec that, like `encoding/json`, returns no bytes when it
      fails, a marshalling failure reaches the client as a bare 500; the
      writer records the handler's second `WriteHeader` as superfluous. */
  lemma MarshalFailureIsBare500(c: Controller, json: JsonCodec, v: Validators, r: Request)
    requires MarshalsNothingOnError(json)
    requires AcceptsSignIn(json, v, r)
    requires var token := c.usersService.signIn(json.decodeSignIn(r.body.val).val);
      token.Ok() && !TokenResponse(json, token.val).Ok()
    ensures Outcome(SignInSteps(c, json, v, r).writes) == Response(true, StatusInternalServerError, map[], [], 1)
  {
  }

  /** `w.WriteHeader(http.StatusOK); w.Write(data)` after the calls `before`
      (none, or one stray `WriteHeader(500)`). */
  function WriteAfter(before: seq<WriterCall>, data: seq<byte>): (ws: seq<WriterCall>)
    requires before == [] || before == [WriterCall.WriteHeader(StatusInternalServerError)]
    ensures before == [] ==> Outcome(ws) == Response(true, StatusOK, map[], data, 0)
    ensures before != [] ==> Outcome(ws) == Response(true, StatusInternalServerError, map[], data, 1)
  {
    OutcomeOfWriteAfter(before, data);
    before + [WriterCall.WriteHeader(StatusOK), WriterCall.Write(data)]
  }

  lemma OutcomeOfWriteAfter(before: seq<WriterCall>, data: seq<byte>)
    requires before == [] || before == [WriterCall.WriteHeader(StatusInternalServerError)]
    ensures var ws := before + [WriterCall.WriteHeader(StatusOK), WriterCall.Write(data)];
      && (before == [] ==> Outcome(ws) == Response(true, StatusOK, map[], data, 0))
      && (before != [] ==> Outcome(ws) == Response(true, StatusInternalServerError, map[], data, 1))
  {
    var ws := before + [WriterCall.WriteHeader(StatusOK), WriterCall.Write(data)];
    ReplaySnoc(Unwritten, before, WriterCall.WriteHeader(StatusOK));
    ReplaySnoc(Unwritten, before + [WriterCall.WriteHeader(StatusOK)], WriterCall.Write(data));
    assert before + [WriterCall.WriteHeader(StatusOK)] + [WriterCall.Write(data)] == ws;
    if before != [] {
      assert before[1..] == [];
      assert Outcome(before) == Replay(Apply(Unwritten, before[0]), []);
    }
  }

  method SignIn(c: Controller, json: JsonCodec, v: Validators, w: ResponseWriter, r: Request) returns (calls: seq<UserCall>)
    modifies w
    ensures w.State() == Replay(old(w.State()), SignInSteps(c, json, v, r).writes)
    ensures calls == SignInSteps(c, json, v, r).calls
  {
    calls := [];
    ghost var written: seq<WriterCall> := [];
    var reqBytes := r.body;
    if !reqBytes.Ok() {
      w.WriteHeader(StatusBadRequest);
      return;
    }

    var inp := json.decodeSignIn(reqBytes.val);
    if !inp.Ok() {
      w.WriteHeader(StatusBadRequest);
      return;
    }

    if !v.signIn(inp.val).Nil? {
      w.WriteHeader(StatusBadRequest);
      return;
    }

    calls := calls + [ServiceSignIn(inp.val)];
    var token := c.usersService.signIn(inp.val);
    if !token.Ok() {
      w.WriteHeader(StatusInternalServerError);
      return;
    }

    var response := TokenResponse(json, token.val);
    if !response.Ok() {
      w.WriteHeader(StatusInternalServerError);
      written := written + [WriterCall.WriteHeader(StatusInternalServerError)];
    }
    assert w.State() == Replay(old(w.State()), written);

    ReplaySnoc(old(w.State()), written, WriterCall.WriteHeader(StatusOK));
    w.WriteHeader(StatusOK);
    written := written + [WriterCall.WriteHeader(StatusOK)];

    ReplaySnoc(old(w.State()), written, WriterCall.Write(response.val));
    w.Write(response.val);
    written := written + [WriterCall.Write(response.val)];
    ghost var marshalFailure := if response.Ok() then [] else [WriterCall.WriteHeader(StatusInternalServerError)];
    assert written == WriteAfter(marshalFailure, response.val);
  }

  /** `signUp`. Read, decode or validation failure answers 400 and the
      service is not asked; a service error answers 500; success answers
      200, not the 201 the route's documentation announces. Only a status
      line is ever written. */
  function SignUpSteps(c: Controller, json: JsonCodec, v: Validators, r: Request): (s: Steps<UserCall>)
    ensures IsBareStatus(Outcome(s.writes), SentStatus(Outcome(s.writes)))
    ensures SentStatus(Outcome(s.writes)) == StatusBadRequest <==> !AcceptsSignUp(json, v, r)
    ensures s.calls == if AcceptsSignUp(json, v, r) then [ServiceSignUp(json.decodeSignUp(r.body.val).val)] else []
    ensures SentStatus(Outcome(s.writes)) == StatusInternalServerError <==>
      AcceptsSignUp(json, v, r) && !c.usersService.signUp(json.decodeSignUp(r.body.val).val).Nil?
    ensures SentStatus(Outcome(s.writes)) == StatusOK <==>
      AcceptsSignUp(json, v, r) && c.usersService.signUp(json.decodeSignUp(r.body.val).val).Nil?
  {
    var reqBytes := r.body;
    if !reqBytes.Ok() then Steps(RestPhone.Fail(StatusBadRequest), [])
    else
      var inp := json.decodeSignUp(reqBytes.val);
      if !inp.Ok() then Steps(RestPhone.Fail(StatusBadRequest), [])
      else if !v.signUp(inp.val).Nil? then Steps(RestPhone.Fail(StatusBadRequest), [])
      else
        var calls := [ServiceSignUp(inp.val)];
        if !c.usersService.signUp(inp.val).Nil? then Steps(RestPhone.Fail(StatusInternalServerError), calls)
        else Steps(RestPhone.Fail(StatusOK), calls)
  }

  method SignUp(c: Controller, json: JsonCodec, v: Validators, w: ResponseWriter, r: Request) returns (calls: seq<UserCall>)
    modifies w
    ensures w.State() == Replay(old(w.State()), SignUpSteps(c, json, v, r).writes)
    ensures calls == SignUpSteps(c, json, v, r).calls
  {
    calls := [];
    var reqBytes := r.body;
    if !reqBytes.Ok() {
      w.WriteHeader(StatusBadRequest);
      return;
    }

    var inp := json.decodeSignUp(reqBytes.val);
    if !inp.Ok() {
      w.WriteHeader(StatusBadRequest);
      return;
    }

    if !v.signUp(inp.val).Nil? {
      w.WriteHeader(StatusBadRequest);
      return;
    }

    calls := calls + [ServiceSignUp(inp.val)];
    var err := c.usersService.signUp(inp.val);
    if !err.Nil? {
      w.WriteHeader(StatusInternalServerError);
      return;
    }

    w.WriteHeader(StatusOK);
  }
}
