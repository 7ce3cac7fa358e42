/** The messages of the Debug Adapter Protocol as the bridge sees them after go-dap has
    decoded them. Framing and JSON are not modelled: a message is a value whose variant
    is the Go type the decoder produced. A `Response` is any `dap.ResponseMessage`, an
    `Event` any `dap.EventMessage`, and a `ServerRequest` a request the adapter sends
    back to the client (neither of the two). */
module Protocol {
  import opened Wrappers

  /** `dap.Breakpoint`: `source` is the path of its `*dap.Source`, `None` when that is nil. */
  datatype Breakpoint = Breakpoint(
    id: int, verified: bool, message: string, source: Option<string>, line: int)

  /** `dap.StackFrame`: `source` is the path of its `*dap.Source`, `None` when that is nil. */
  datatype StackFrame = StackFrame(
    id: int, name: string, source: Option<string>, line: int, column: int,
    presentationHint: string)

  /** `dap.Scope`. */
  datatype Scope = Scope(name: string, variablesReference: int, expensive: bool)

  /** `dap.Variable`; `varType` is its `Type`. */
  datatype Variable = Variable(name: string, value: string, varType: string)

  /** The body of a response; the variant is the concrete go-dap response type. */
  datatype ResponseBody =
    | InitializeBody(capabilitiesJson: string)               // *dap.InitializeResponse
    | SetBreakpointsBody(breakpoints: seq<Breakpoint>)       // *dap.SetBreakpointsResponse
    | StackTraceBody(stackFrames: seq<StackFrame>, totalFrames: int) // *dap.StackTraceResponse
    | EvaluateBody(result: string, resultType: string)       // *dap.EvaluateResponse
    | ScopesBody(scopes: seq<Scope>)                         // *dap.ScopesResponse
    | VariablesBody(variables: seq<Variable>)                // *dap.VariablesResponse
    | ErrorBody                                              // *dap.ErrorResponse
    | OtherResponseBody(goType: string)                      // any other response type

  /** The body of an event; the variant is the concrete go-dap event type. */
  datatype EventBody =
    | Stopped(reason: string, threadId: int, hitBreakpointIds: seq<int>) // *dap.StoppedEvent
    | Terminated                                                         // *dap.TerminatedEvent
    | OtherEvent(goType: string)                                         // any other event type

  datatype Msg =
    | Response(success: bool, message: string, body: ResponseBody)
    | Event(event: EventBody)
    | ServerRequest(goType: string)

  /** What `fmt.Sprintf("%T", msg)` prints for a decoded message. */
  function TypeName(m: Msg): string
  {
    match m
    case Response(_, _, body) =>
      (match body
       case InitializeBody(_) => "*dap.InitializeResponse"
       case SetBreakpointsBody(_) => "*dap.SetBreakpointsResponse"
       case StackTraceBody(_, _) => "*dap.StackTraceResponse"
       case EvaluateBody(_, _) => "*dap.EvaluateResponse"
       case ScopesBody(_) => "*dap.ScopesResponse"
       case VariablesBody(_) => "*dap.VariablesResponse"
       case ErrorBody => "*dap.ErrorResponse"
       case OtherResponseBody(t) => t)
    case Event(event) =>
      (match event
       case Stopped(_, _, _) => "*dap.StoppedEvent"
       case Terminated => "*dap.TerminatedEvent"
       case OtherEvent(t) => t)
    case ServerRequest(t) => t
  }

  /** What the far end of one connection will do: the messages it sends, in order, the
      error a read returns once they are used up, and the error every write returns
      (`None`: writes succeed). */
  datatype Peer = Peer(incoming: seq<Msg>, readErr: string, writeErr: Option<string>)

  /** One `ReadMessage` on a stream at position `pos`: the next message and the position
      after it, or the read error with the position unchanged. */
  function ReadNext(p: Peer, pos: nat): (r: (Result<Msg>, nat))
    requires pos <= |p.incoming|
    ensures r.1 <= |p.incoming|
    ensures r.0.Ok? <==> pos < |p.incoming|
    ensures r.0.Ok? ==> r.0.value == p.incoming[pos] && r.1 == pos + 1
    ensures r.0.Err? ==> r.0.error == p.readErr && r.1 == pos
  {
    if pos < |p.incoming| then (Ok(p.incoming[pos]), pos + 1) else (Err(p.readErr), pos)
  }
}
