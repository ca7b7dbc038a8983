# factomd debug API and signature-timeout guard, in Dafny

This project models two pieces of the factomd node.

**The debug API** (`wsapi/debug.go`) is an administrative JSON-RPC endpoint. `HandleDebug` works through these steps in order:
1. It checks the caller's credentials.
2. It reads the request body.
3. It decodes the body into a request `{id, method, params}`.
4. It hands the request to `HandleDebugRequest`.
5. It writes back the response or the error.

`HandleDebugRequest` picks one of nine read-only handlers by exact string match on the method name. The names are `audit-servers`, `configuration`, `current-minute`, `drop-rate`, `federated-servers`, `holding-queue`, `network-info`, `node-status` and `predictive-fer`. Any other name gets a method-not-found error. When a handler succeeds, the dispatcher logs the method and returns a response that carries the request's id.

Each handler is a projection of the node state. The holding-queue handler collects every value of the node's holding map, in whatever order the Go map yields them.

**The signature-timeout guard** (`blockchainState/messageProcessor/signatureTimeout.go`) accepts a message exactly when its type tag is `SIGNATURE_TIMEOUT_MSG`. Otherwise it returns an "invalid message type" error.

Files:
- `wrappers.dfy`: `Option`, `Result` and `Outcome`. These stand for Go's nil pointers and its `(value, error)` returns.
- `map_bags.dfy`: `Bag(m)`, the multiset of a map's values. It comes with lemmas showing that removing *any* key takes exactly that key's value out of the bag, that the bag has one element per key, and that its elements are the map's values. Ranging over a Go map is pinned down only up to this multiset.
- `debug_api.dfy`: the node state, the request and response envelopes, the method table, the nine handlers, the dispatcher and the HTTP entry point.
- `message_processor.dfy`: the type-tag guard.

Modelling choices:
- **Node state.** The node state is a record holding the values the handlers read. The audit and federated server lists are functions of the leader height.
- **Handlers.** Each handler's contract is stated through `Serves`, a reference table that says what each handler answers in a given state. `Serves` does not mention `params`, so the contracts show that every handler ignores its parameters.
- **Why some members are methods.** `HandleHoldingQueue` is a method. Its loop removes one arbitrarily chosen key per step, which models Go's unspecified map order. `HandleDebugRequest` and `HandleDebug` call it, so they are methods as well. The decision before dispatch (credentials, body read, decode) is the pure function `Admit`.
- **Traces.** Observable steps are returned as a trace of events: the two console log lines, the body read, the decode, the dispatch and the handler run. Contracts can then state what happens, in what order, and what never happens.

## Model

| member | source | states |
|---|---|---|
| `DebugApi.Route` | wsapi/debug.go:59-90 | A selected handler's table name is exactly the method string. When no handler is selected, the string is none of the nine names. |
| `DebugApi.RouteExact` | wsapi/debug.go:59-86 | A method string selects handler `h` if and only if it equals `h`'s name. Matching is exact and case-sensitive, in both directions. |
| `DebugApi.HandleAuditServers` | wsapi/debug.go:103-117 | Never fails. Returns the audit server list at the current leader height. |
| `DebugApi.HandleConfig` | wsapi/debug.go:119-127 | Never fails. Returns the node's configuration object. |
| `DebugApi.HandleCurrentMinute` | wsapi/debug.go:129-137 | Never fails. Returns the current minute. |
| `DebugApi.HandleDropRate` | wsapi/debug.go:139-147 | Never fails. Returns the drop rate unchanged, with no numeric type assumed. |
| `DebugApi.HandleFedServers` | wsapi/debug.go:149-163 | Never fails. Returns the federated server list at the current leader height. |
| `DebugApi.HandleHoldingQueue` | wsapi/debug.go:165-181 | Never fails. The returned messages are, as a multiset, exactly the values of the holding map, and there are as many as the map has entries. No order is promised. |
| `DebugApi.HandleNetworkInfo` | wsapi/debug.go:183-200 | Never fails. Returns the network number, name and id. |
| `DebugApi.HandleNodeStatus` | wsapi/debug.go:202-216 | Never fails. Returns the node's status strings. |
| `DebugApi.HandlePredictiveFer` | wsapi/debug.go:218-231 | Never fails. Returns the predictive factoid exchange rate. |
| `DebugApi.ServesIsDeterministic` | wsapi/debug.go:103-231 | Asking the same handler twice against the same state gives the same value. For the holding queue, only the same messages up to order. |
| `DebugApi.HoldingQueueSize` | wsapi/debug.go:177-180 | Any holding-queue answer lists exactly one message per holding-map entry. |
| `DebugApi.HoldingQueueMembers` | wsapi/debug.go:177-180 | A message is in a holding-queue answer if and only if it is a value of the holding map. |
| `DebugApi.Finish` | wsapi/debug.go:91-100 | Exactly one of response or error is produced. A handler error is passed on unchanged, with nothing logged. On success, the response carries the request's id and the handler's value, and the method log line is emitted. |
| `DebugApi.HandleDebugRequest` | wsapi/debug.go:55-101 | Exactly one of response or error is produced, and the method is logged if and only if a response is built. An unknown method yields method-not-found with no handler run and nothing logged. A known method runs its own handler, then logs. The response echoes the request id and carries what that handler serves in this state. |
| `DebugApi.Admit` | wsapi/debug.go:23-43 | A failed credential check yields the 401 reply with the `WWW-Authenticate: Basic realm="factomd RPC"` challenge, and the body is never read. Otherwise the body is read. If reading fails, it is not decoded. A read or decode failure yields an invalid-request error with no request attached. The request is admitted if and only if the credentials pass, the read succeeds and the decoding succeeds. |
| `DebugApi.HandleDebug` | wsapi/debug.go:18-53 | One HTTP request, end to end. There is no read, decode or dispatch after a failed credential check, and no dispatch after a failed read or decode. A dispatch error is reported with the decoded request attached. On success the reply is the dispatcher's response, with the id echoed and the handler's value for this state. The exact sequence of steps and log lines is stated in every case. |
| `MessageProcessor.ProcessSignatureTimeoutMessage` | blockchainState/messageProcessor/signatureTimeout.go:14-19 | Succeeds if and only if the message's type tag is the signature-timeout tag. Otherwise fails with "Invalid message type forwarded for processing". |
| `MessageProcessor.DecidedByTypeAlone` | blockchainState/messageProcessor/signatureTimeout.go:15 | Two messages with the same type tag get the same outcome, whatever their payloads and whatever the receiver. |

## Left out

- The `ServersMutex` lock around fetching the state handle is left out because it is concurrency plumbing. The state is a parameter.
- HTTP I/O is left out: reading the body, `http.Error`, the header write, `ctx.Write` and JSON serialisation of the response. The body read is modelled as an outcome parameter (`Option<string>`). The reply is a value of `Reply`, not wire bytes.
- `checkAuthHeader` is not part of this model. Its verdict is the boolean `authorized`.
- `primitives.ParseJSON2Request` is not part of this model. It is passed in as the partial function `parse`, so what it accepts or rejects (non-JSON bodies, a missing method) is not modelled.
- `HandleV2Error`, `NewInvalidRequestError`, `NewMethodNotFoundError` and `NewJSON2Response` are not part of this model. The errors are two distinct constructors without codes or messages. The response's `jsonrpc` version field and the wiring of the reply to the client are not modelled.
- The `IState` accessors are not part of this model. Their values are fields of `NodeState`. The leader height is taken as a 32-bit unsigned value. A plain Go `int` (current minute, network number) is taken as unbounded.
- The text of the two console log lines is left out. The remote address extracted with `strings.Split` is left out as well. Each line is an event in the returned trace.
- The numeric value of `SIGNATURE_TIMEOUT_MSG` is defined outside the two modelled files. The model leaves it as an unspecified byte constant.
- `DebugApi.HandleDebugRequest`: modelled as a method rather than a function, because it calls the holding-queue loop, whose order Go leaves unspecified.
- `DebugApi.HandleDebug`: modelled as a method for the same reason. Its decision skeleton before dispatch is the pure function `DebugApi.Admit`.
