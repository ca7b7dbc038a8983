/**
 * The node's debug API (wsapi/debug.go): a credential gate, a JSON-RPC
 * envelope decoder, a dispatcher over nine read-only introspection methods,
 * and the handlers themselves, each a projection of the node state.
 */
module DebugApi {
  import opened Wrappers
  import opened MapBags

  newtype uint32 = x: int | 0 <= x < 0x1_0000_0000
  newtype uint64 = x: int | 0 <= x < 0x1_0000_0000_0000_0000

  // Values the node state owns and this API only passes through.
  type Server             // interfaces.IFctServer
  type Msg                // interfaces.IMsg
  type MsgHash(==)        // key of the holding map
  type Config             // what GetCfg returns
  type DropRateValue      // what GetDropRate returns; no numeric type is assumed
  type Params             // the untyped `params` of a request
  type RequestId          // the untyped `id` of a request, echoed verbatim

  /** A snapshot of the node state as the nine handlers see it. */
  datatype NodeState = NodeState(
    leaderHeight: uint32,
    auditServersAt: uint32 -> seq<Server>,
    fedServersAt: uint32 -> seq<Server>,
    config: Config,
    currentMinute: int,
    dropRate: DropRateValue,
    holdingMap: map<MsgHash, Msg>,
    networkNumber: int,
    networkName: string,
    networkId: uint32,
    status: seq<string>,
    predictiveFer: uint64)

  /** A decoded JSON-RPC 2.0 request envelope. */
  datatype Request = Request(id: RequestId, methodName: string, params: Params)

  /** The JSON-RPC errors this API raises; their codes and messages are defined elsewhere. */
  datatype JsonError = InvalidRequestError | MethodNotFoundError

  /** What a handler puts in the `result` field, one shape per method. */
  datatype HandlerValue =
    | AuditServers(servers: seq<Server>)
    | Configuration(config: Config)
    | Minute(minute: int)
    | Rate(rate: DropRateValue)
    | FederatedServers(servers: seq<Server>)
    | Messages(messages: seq<Msg>)
    | NetworkInfo(networkNumber: int, networkName: string, networkId: uint32)
    | Status(status: seq<string>)
    | Fer(predictiveFer: uint64)

  type HandlerResult = Result<HandlerValue, JsonError>

  /** A success envelope: the request's id and the handler's value. */
  datatype Response = Response(id: RequestId, result: HandlerValue)

  /** The nine handlers. */
  datatype Handler =
    | AuditServersHandler
    | ConfigHandler
    | CurrentMinuteHandler
    | DropRateHandler
    | FedServersHandler
    | HoldingQueueHandler
    | NetworkInfoHandler
    | NodeStatusHandler
    | PredictiveFerHandler

  /** Observable steps, in the order they happen; the two log lines are among them. */
  datatype Event =
    | LogUnauthorized                       // the "unauthorized client" console line
    | ReadBody
    | ParseBody
    | Dispatch(request: Request)
    | RunHandler(handler: Handler)
    | LogMethod(methodName: string, params: Params)  // the "API V2 method" console line

  /** What HandleDebugRequest returns: Go's (*JSON2Response, *JSONError) pair, and what it did. */
  datatype DispatchResult = DispatchResult(response: Option<Response>, error: Option<JsonError>, trace: seq<Event>)

  /** What HandleDebug writes back to the HTTP client. */
  datatype Reply =
    | Unauthorized(status: int, headerName: string, headerValue: string, text: string)
    | ErrorReply(request: Option<Request>, error: JsonError)
    | SuccessReply(response: Response)

  const StatusUnauthorized := 401
  const ChallengeHeader := "WWW-Authenticate"
  const Challenge := "Basic realm=\"factomd RPC\""
  const UnauthorizedText := "401 Unauthorized."

  // ---------------------------------------------------------------------------
  // The method table

  /** The method name each handler answers to. */
  function NameOf(h: Handler): string
  {
    match h
    case AuditServersHandler => "audit-servers"
    case ConfigHandler => "configuration"
    case CurrentMinuteHandler => "current-minute"
    case DropRateHandler => "drop-rate"
    case FedServersHandler => "federated-servers"
    case HoldingQueueHandler => "holding-queue"
    case NetworkInfoHandler => "network-info"
    case NodeStatusHandler => "node-status"
    case PredictiveFerHandler => "predictive-fer"
  }

  /** The `switch j.Method` of HandleDebugRequest: exact, case-sensitive matching. */
  function Route(methodName: string): (h: Option<Handler>)
    ensures h.Some? ==> NameOf(h.value) == methodName
    ensures h.None? ==> forall g: Handler :: NameOf(g) != methodName
  {
    if methodName == "audit-servers" then Some(AuditServersHandler)
    else if methodName == "configuration" then Some(ConfigHandler)
    else if methodName == "current-minute" then Some(CurrentMinuteHandler)
    else if methodName == "drop-rate" then Some(DropRateHandler)
    else if methodName == "federated-servers" then Some(FedServersHandler)
    else if methodName == "holding-queue" then Some(HoldingQueueHandler)
    else if methodName == "network-info" then Some(NetworkInfoHandler)
    else if methodName == "node-status" then Some(NodeStatusHandler)
    else if methodName == "predictive-fer" then Some(PredictiveFerHandler)
    else None
  }

  /** A method string selects a handler exactly when it is that handler's name. */
  lemma RouteExact(methodName: string, h: Handler)
    ensures Route(methodName) == Some(h) <==> methodName == NameOf(h)
  {
  }

  // ---------------------------------------------------------------------------
  // The handlers

  /** What handler `h` answers in state `state`: the reference table of the handlers. */
  ghost predicate Serves(h: Handler, state: NodeState, v: HandlerValue)
  {
    match h
    case AuditServersHandler => v == AuditServers(state.auditServersAt(state.leaderHeight))
    case ConfigHandler => v == Configuration(state.config)
    case CurrentMinuteHandler => v == Minute(state.currentMinute)
    case DropRateHandler => v == Rate(state.dropRate)
    case FedServersHandler => v == FederatedServers(state.fedServersAt(state.leaderHeight))
    case HoldingQueueHandler => v.Messages? && multiset(v.messages) == Bag(state.holdingMap)
    case NetworkInfoHandler => v == NetworkInfo(state.networkNumber, state.networkName, state.networkId)
    case NodeStatusHandler => v == Status(state.status)
    case PredictiveFerHandler => v == Fer(state.predictiveFer)
  }

  function HandleAuditServers(state: NodeState, params: Params): (r: HandlerResult)
    ensures r.Ok? && Serves(AuditServersHandler, state, r.value)
  {
    Ok(AuditServers(state.auditServersAt(state.leaderHeight)))
  }

  function HandleConfig(state: NodeState, params: Params): (r: HandlerResult)
    ensures r.Ok? && Serves(ConfigHandler, state, r.value)
  {
    Ok(Configuration(state.config))
  }

  function HandleCurrentMinute(state: NodeState, params: Params): (r: HandlerResult)
    ensures r.Ok? && Serves(CurrentMinuteHandler, state, r.value)
  {
    Ok(Minute(state.currentMinute))
  }

  function HandleDropRate(state: NodeState, params: Params): (r: HandlerResult)
    ensures r.Ok? && Serves(DropRateHandler, state, r.value)
  {
    Ok(Rate(state.dropRate))
  }

  function HandleFedServers(state: NodeState, params: Params): (r: HandlerResult)
    ensures r.Ok? && Serves(FedServersHandler, state, r.value)
  {
    Ok(FederatedServers(state.fedServersAt(state.leaderHeight)))
  }

  /** Collects every value of the holding map, in whatever order the map yields its keys. */
  method HandleHoldingQueue(state: NodeState, params: Params) returns (r: HandlerResult)
    ensures r.Ok? && r.value.Messages?
    ensures multiset(r.value.messages) == Bag(state.holdingMap)
    ensures |r.value.messages| == |state.holdingMap|
  {
    var messages: seq<Msg> := [];
    var rest := state.holdingMap;
    while rest.Keys != {}
      invariant multiset(messages) + Bag(rest) == Bag(state.holdingMap)
      invariant |messages| + |rest| == |state.holdingMap|
      decreases rest.Keys
    {
      var k :| k in rest.Keys;
      BagRemove(rest, k);
      assert (rest - {k}).Keys == rest.Keys - {k};
      messages := messages + [rest[k]];
      rest := rest - {k};
    }
    r := Ok(Messages(messages));
  }

  function HandleNetworkInfo(state: NodeState, params: Params): (r: HandlerResult)
    ensures r.Ok? && Serves(NetworkInfoHandler, state, r.value)
  {
    Ok(NetworkInfo(state.networkNumber, state.networkName, state.networkId))
  }

  function HandleNodeStatus(state: NodeState, params: Params): (r: HandlerResult)
    ensures r.Ok? && Serves(NodeStatusHandler, state, r.value)
  {
    Ok(Status(state.status))
  }

  function HandlePredictiveFer(state: NodeState, params: Params): (r: HandlerResult)
    ensures r.Ok? && Serves(PredictiveFerHandler, state, r.value)
  {
    Ok(Fer(state.predictiveFer))
  }

  /** Two answers of the same handler on the same state agree; the holding queue's up to order. */
  lemma ServesIsDeterministic(h: Handler, state: NodeState, v: HandlerValue, w: HandlerValue)
    requires Serves(h, state, v) && Serves(h, state, w)
    ensures h != HoldingQueueHandler ==> v == w
    ensures h == HoldingQueueHandler ==> multiset(v.messages) == multiset(w.messages)
  {
  }

  /** The holding queue lists one message per entry of the holding map. */
  lemma HoldingQueueSize(state: NodeState, v: HandlerValue)
    requires Serves(HoldingQueueHandler, state, v)
    ensures |v.messages| == |state.holdingMap|
  {
    BagSize(state.holdingMap);
    assert |v.messages| == |multiset(v.messages)|;
  }

  /** A message is in the holding queue exactly when it is a value of the holding map. */
  lemma HoldingQueueMembers(state: NodeState, v: HandlerValue, x: Msg)
    requires Serves(HoldingQueueHandler, state, v)
    ensures x in v.messages <==> x in state.holdingMap.Values
  {
    BagSupport(state.holdingMap, x);
    assert x in v.messages <==> x in multiset(v.messages);
  }

  // ---------------------------------------------------------------------------
  // The dispatcher

  /**
   * Lines 91-100 of HandleDebugRequest: an error is returned alone; otherwise the
   * method is logged and a response carrying the request's id is built.
   */
  function Finish(req: Request, o: HandlerResult): (r: DispatchResult)
    ensures r.response.Some? <==> r.error.None?
    ensures o.Err? ==> r.error == Some(o.error) && r.trace == []
    ensures o.Ok? ==> r.response.Some? && r.response.value.id == req.id && r.response.value.result == o.value
    ensures o.Ok? ==> r.trace == [LogMethod(req.methodName, req.params)]
  {
    match o
    case Err(e) => DispatchResult(None, Some(e), [])
    case Ok(v) => DispatchResult(Some(Response(req.id, v)), None, [LogMethod(req.methodName, req.params)])
  }

  /** Routes a decoded request to its handler and wraps the outcome. */
  method HandleDebugRequest(state: NodeState, req: Request) returns (out: DispatchResult)
    ensures out.response.Some? <==> out.error.None?
    ensures out.response.Some? <==> LogMethod(req.methodName, req.params) in out.trace
    ensures Route(req.methodName).None? ==>
      out.error == Some(MethodNotFoundError) && out.trace == []
    ensures Route(req.methodName).Some? ==>
      var h := Route(req.methodName).value;
      && out.response.Some?
      && out.response.value.id == req.id
      && Serves(h, state, out.response.value.result)
      && out.trace == [RunHandler(h), LogMethod(req.methodName, req.params)]
  {
    var o: HandlerResult;
    var ran: seq<Event> := [];
    var params := req.params;
    match Route(req.methodName) {
      case None =>
        o := Err(MethodNotFoundError);
      case Some(h) =>
        ran := [RunHandler(h)];
        match h {
          case AuditServersHandler => o := HandleAuditServers(state, params);
          case ConfigHandler => o := HandleConfig(state, params);
          case CurrentMinuteHandler => o := HandleCurrentMinute(state, params);
          case DropRateHandler => o := HandleDropRate(state, params);
          case FedServersHandler => o := HandleFedServers(state, params);
          case HoldingQueueHandler => o := HandleHoldingQueue(state, params);
          case NetworkInfoHandler => o := HandleNetworkInfo(state, params);
          case NodeStatusHandler => o := HandleNodeStatus(state, params);
          case PredictiveFerHandler => o := HandlePredictiveFer(state, params);
        }
    }
    var finished := Finish(req, o);
    out := finished.(trace := ran + finished.trace);
  }

  // ---------------------------------------------------------------------------
  // The HTTP entry point

  /** How far a request gets before dispatch. */
  datatype Admission =
    | Refused(reply: Reply, trace: seq<Event>)
    | Admitted(request: Request, trace: seq<Event>)

  /**
   * Lines 23-43 of HandleDebug: the credential check, then reading the body, then
   * decoding it. `authorized` is the verdict of the credential check, `body` the
   * outcome of reading the request body, and `parse` the JSON-RPC decoder.
   */
  function Admit(authorized: bool, body: Option<string>, parse: string -> Option<Request>): (a: Admission)
    ensures !authorized ==>
      a == Refused(Unauthorized(StatusUnauthorized, ChallengeHeader, Challenge, UnauthorizedText), [LogUnauthorized])
    ensures a.Admitted? <==> authorized && body.Some? && parse(body.value).Some?
    ensures a.Admitted? ==> parse(body.value) == Some(a.request) && a.trace == [ReadBody, ParseBody]
    ensures authorized && a.Refused? ==>
      a.reply == ErrorReply(None, InvalidRequestError)
      && a.trace == (if body.Some? then [ReadBody, ParseBody] else [ReadBody])
  {
    if !authorized then
      Refused(Unauthorized(StatusUnauthorized, ChallengeHeader, Challenge, UnauthorizedText), [LogUnauthorized])
    else if body.None? then
      Refused(ErrorReply(None, InvalidRequestError), [ReadBody])
    else
      match parse(body.value)
      case None => Refused(ErrorReply(None, InvalidRequestError), [ReadBody, ParseBody])
      case Some(req) => Admitted(req, [ReadBody, ParseBody])
  }

  /** Serves one HTTP request to the debug endpoint. */
  method HandleDebug(state: NodeState, authorized: bool, body: Option<string>, parse: string -> Option<Request>)
    returns (reply: Reply, trace: seq<Event>)
    ensures !authorized ==>
      reply == Unauthorized(StatusUnauthorized, ChallengeHeader, Challenge, UnauthorizedText)
      && trace == [LogUnauthorized]
    ensures authorized && body.None? ==>
      reply == ErrorReply(None, InvalidRequestError) && trace == [ReadBody]
    ensures authorized && body.Some? && parse(body.value).None? ==>
      reply == ErrorReply(None, InvalidRequestError) && trace == [ReadBody, ParseBody]
    ensures authorized && body.Some? && parse(body.value).Some? ==>
      var req := parse(body.value).value;
      match Route(req.methodName)
      case None =>
        reply == ErrorReply(Some(req), MethodNotFoundError)
        && trace == [ReadBody, ParseBody, Dispatch(req)]
      case Some(h) =>
        && reply.SuccessReply?
        && reply.response.id == req.id
        && Serves(h, state, reply.response.result)
        && trace == [ReadBody, ParseBody, Dispatch(req), RunHandler(h), LogMethod(req.methodName, req.params)]
  {
    match Admit(authorized, body, parse) {
      case Refused(r, t) =>
        reply, trace := r, t;
      case Admitted(req, t) =>
        var out := HandleDebugRequest(state, req);
        trace := t + [Dispatch(req)] + out.trace;
        if out.error.Some? {
          reply := ErrorReply(Some(req), out.error.value);
        } else {
          reply := SuccessReply(out.response.value);
        }
    }
  }
}
