/** The slice of `net/http` the handlers see: the incoming request, and the
    `ResponseWriter` they write the status line, headers and body to. */
module Http {
  import opened GoBase

  const StatusOK: int := 200
  const StatusCreated: int := 201
  const StatusBadRequest: int := 400
  const StatusUnauthorized: int := 401
  const StatusInternalServerError: int := 500

  /** Keys of values stored in a request's context. */
  datatype CtxKey = CtxUserID

  /** A request as the handlers use it: `header` holds every header value
      under its canonical name, `vars` the path variables the router
      extracted (`mux.Vars`), `body` the outcome of `io.ReadAll(r.Body)`,
      and `ctx` the request-scoped context values. */
  datatype Request = Request(
    httpMethod: string,
    uri: string,
    header: map<string, seq<string>>,
    vars: map<string, string>,
    body: Ret<seq<byte>>,
    ctx: map<CtxKey, int64>)

  /** `Header.Get`: the first value under the key, or "" when there is none. */
  function HeaderGet(h: map<string, seq<string>>, key: string): string
  {
    if key in h && |h[key]| > 0 then h[key][0] else ""
  }

  /** `mux.Vars(r)[name]`: a missing variable reads as "". */
  function Var(r: Request, name: string): string
  {
    if name in r.vars then r.vars[name] else ""
  }

  /** One call a handler makes on its `ResponseWriter`. */
  datatype WriterCall = WriteHeader(code: int) | AddHeader(key: string, value: string) | Write(data: seq<byte>)

  /** What a handler did: its writer calls in order, and the calls it made
      into a service (`C` names the service's operations). */
  datatype Steps<C> = Steps(writes: seq<WriterCall>, calls: seq<C>)

  /** The state of a response being written. Once the status line is out
      (`wroteHeader`), a further `WriteHeader` only counts as superfluous. */
  datatype Response = Response(wroteHeader: bool, status: int, header: map<string, seq<string>>, body: seq<byte>, superfluous: nat)

  const Unwritten := Response(false, 0, map[], [], 0)

  /** `net/http`'s rules for one writer call: the first status wins, and a
      body write without a status sends 200 first. */
  function Apply(r: Response, c: WriterCall): (r': Response)
    ensures !c.AddHeader? ==> r'.wroteHeader
    ensures r.wroteHeader ==> r'.status == r.status
    ensures c.WriteHeader? && !r.wroteHeader ==> r'.status == c.code
    ensures c.Write? && !r.wroteHeader ==> r'.status == StatusOK
    ensures r'.body == r.body + (if c.Write? then c.data else [])
    ensures r'.superfluous == r.superfluous + (if c.WriteHeader? && r.wroteHeader then 1 else 0)
    ensures !c.AddHeader? ==> r'.header == r.header
    ensures c.AddHeader? ==>
      && r'.wroteHeader == r.wroteHeader && r'.status == r.status
      && r'.header == r.header[c.key := (if c.key in r.header then r.header[c.key] else []) + [c.value]]
  {
    match c
    case WriteHeader(code) =>
      if r.wroteHeader then r.(superfluous := r.superfluous + 1) else r.(wroteHeader := true, status := code)
    case AddHeader(k, v) =>
      r.(header := r.header[k := (if k in r.header then r.header[k] else []) + [v]])
    case Write(data) =>
      if r.wroteHeader then r.(body := r.body + data) else r.(wroteHeader := true, status := StatusOK, body := r.body + data)
  }

  function Replay(r: Response, calls: seq<WriterCall>): Response
    decreases |calls|
  {
    if calls == [] then r else Replay(Apply(r, calls[0]), calls[1..])
  }

  /** The response a client receives from a handler that made `calls` on a
      fresh writer. */
  function Outcome(calls: seq<WriterCall>): Response
  {
    Replay(Unwritten, calls)
  }

  /** Replaying one more call is applying it to the replayed state, so a
      handler can account for its writes one at a time. */
  lemma {:induction false} ReplaySnoc(r: Response, calls: seq<WriterCall>, c: WriterCall)
    ensures Replay(r, calls + [c]) == Apply(Replay(r, calls), c)
    decreases |calls|
  {
    if calls == [] {
      assert calls + [c] == [c] && [c][1..] == [];
    } else {
      assert (calls + [c])[0] == calls[0];
      assert (calls + [c])[1..] == calls[1..] + [c];
      ReplaySnoc(Apply(r, calls[0]), calls[1..], c);
    }
  }

  lemma ReplayTwo(r: Response, a: WriterCall, b: WriterCall)
    ensures Replay(r, [a, b]) == Apply(Apply(r, a), b)
  {
    assert [a, b][1..] == [b] && [b][1..] == [];
    assert Replay(r, [a, b]) == Replay(Apply(r, a), [b]);
    assert Replay(Apply(r, a), [b]) == Replay(Apply(Apply(r, a), b), []);
  }

  /** The status line sent: a handler that returns without writing gets 200. */
  function SentStatus(r: Response): int
  {
    if r.wroteHeader then r.status else StatusOK
  }

  /** A response that is a status line and nothing else. */
  predicate IsBareStatus(r: Response, code: int)
  {
    r == Response(true, code, map[], [], 0)
  }

  /** A 200 response carrying a JSON body, announced by its Content-Type. */
  predicate IsJsonResponse(r: Response, data: seq<byte>)
  {
    r == Response(true, StatusOK, map["Content-Type" := ["application/json"]], data, 0)
  }

  lemma OutcomeOfWriteHeader(code: int)
    ensures IsBareStatus(Outcome([WriterCall.WriteHeader(code)]), code)
  {
    var calls := [WriterCall.WriteHeader(code)];
    assert calls[1..] == [];
    assert Outcome(calls) == Replay(Apply(Unwritten, calls[0]), []);
  }

  /** Setting the JSON Content-Type and then writing the body, with no
      explicit status, sends 200. */
  lemma OutcomeOfJsonWrite(data: seq<byte>)
    ensures IsJsonResponse(Outcome([WriterCall.AddHeader("Content-Type", "application/json"), WriterCall.Write(data)]), data)
  {
    var calls := [WriterCall.AddHeader("Content-Type", "application/json"), WriterCall.Write(data)];
    assert calls[1..] == [WriterCall.Write(data)] && calls[1..][1..] == [];
    var r1 := Apply(Unwritten, calls[0]);
    assert "Content-Type" !in Unwritten.header;
    assert [] + ["application/json"] == ["application/json"];
    assert r1.header == map["Content-Type" := ["application/json"]];
    assert Outcome(calls) == Replay(r1, calls[1..]);
    assert Replay(r1, calls[1..]) == Replay(Apply(r1, calls[1]), []);
  }

  /** The response writer a handler is given. */
  class ResponseWriter {
    var wroteHeader: bool
    var status: int
    var header: map<string, seq<string>>
    var body: seq<byte>
    var superfluous: nat

    function State(): Response
      reads this
    {
      Response(wroteHeader, status, header, body, superfluous)
    }

    constructor ()
      ensures State() == Unwritten
    {
      wroteHeader, status, header, body, superfluous := false, 0, map[], [], 0;
    }

    method WriteHeader(code: int)
      modifies this
      ensures State() == Apply(old(State()), WriterCall.WriteHeader(code))
      ensures old(wroteHeader) ==> status == old(status)
    {
      if wroteHeader {
        superfluous := superfluous + 1;
      } else {
        wroteHeader, status := true, code;
      }
    }

    /** `w.Header().Add(key, value)`. */
    method AddHeader(key: string, value: string)
      modifies this
      ensures State() == Apply(old(State()), WriterCall.AddHeader(key, value))
    {
      var values := if key in header then header[key] else [];
      header := header[key := values + [value]];
    }

    method Write(data: seq<byte>)
      modifies this
      ensures State() == Apply(old(State()), WriterCall.Write(data))
      ensures body == old(body) + data
    {
      if !wroteHeader {
        wroteHeader, status := true, StatusOK;
      }
      body := body + data;
    }
  }
}
