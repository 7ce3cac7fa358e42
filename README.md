# mcp-dap-server, modelled in Dafny

mcp-dap-server is an MCP server. Its tools let a client drive the Go debugger
(`dlv dap`) over the Debug Adapter Protocol (DAP). This project models two parts
of it:

- the DAP client of `dap.go`. It numbers requests with a sequence counter, writes
  them to one connection and reads decoded messages from it one at a time;
- the tool handlers of `tools.go`. They act on a `debuggerSession` that holds the
  debugger process and the client. Each handler sends a request, reads until some
  message decides its outcome, and formats a reply text or returns an error.

Nothing here is executed. The model is checked by the Dafny verifier alone.

## Modelling choices

- The connection is a `Protocol.Peer`. It holds the messages the debugger will
  send, in order, the error a read returns once they are used up, and whether
  writes fail.
- A write error is fixed per connection: either every write fails or none does.
  A request whose write fails still uses up its sequence number, as
  `newRequest` runs before `send`.
- The client (`Dap.DAPClient`) keeps its counter `nextSeq`. It also keeps every
  request built (`built`, ghost), everything written (`written`) and the read
  position `pos`. Its invariant numbers the built requests 1, 2, 3, … and ties
  what was written to them request by request, so the numbers on the wire are
  1, 2, 3, … too.
- The session (`Tools.DebuggerSession`) holds an optional process and a nullable
  client, as the Go struct does.
- A handler's outcome is a `Tools.ToolResult`:
  - `Reply(text)` is the text content;
  - `Failure(error)` is the returned `error`;
  - `Panic(reason)` is the run-time panic the Go code runs into.
- Panics occur in four places:
  - `debugProgram` and `execProgram` without a client;
  - `stopDebugger` after a `startDebugger` whose `StdoutPipe` or `Start` failed:
    the command is recorded, but its `Process` is nil, so `Kill` dereferences
    nil. `Tools.Process.started` records whether `Start` ran;
  - a breakpoint stop with no hit breakpoint ids;
  - a verified breakpoint whose `Source` is nil.
- Each handler that reads is specified by a pure function of the stream and the
  start position (`ValidatedCall`, `ExecutionCall`, `StackTraceCall`,
  `EvaluateCall`, `PlainCall`, `SetBreakpointsCall`, `ScopesCall`,
  `InitializeCall`). The method's postcondition ties its result, its new read
  position and its new client state to that function.
- The three wait loops are one method, `Correlate.ReadUntil`. A `Waiter` says
  which messages end the wait:
  - any response, for `readAndValidateResponse`;
  - a failed response, a stopped event or a terminated event, for
    continue/next/stepIn/stepOut;
  - anything but an event, for stackTrace and evaluate.

What the Go code does, and the model with it:

- Responses are matched by message type only. No handler compares `request_seq`
  with the request it sent, and nothing detects a stream that has fallen out of
  step. A `Protocol.Msg` therefore carries no `request_seq` at all.
- There are no session lifecycle states beyond "process present" and "client
  present".
- Events are drained only by `readAndValidateResponse` and by the stackTrace,
  evaluate and execution loops. The
  single-read handlers treat an event as an unexpected response, and it is
  consumed.
- `startDebugger` records the process before anything can fail. It keeps the old
  client when it fails before dialling, and replaces it without closing it
  otherwise.
- `stopDebugger` drops the client even when the kill fails and the process stays
  recorded.
- The success flag of an initialize or set-breakpoints response is not looked at.
- Breakpoint texts are joined with nothing between them.

## Model

| member | source | states |
|---|---|---|
| Protocol.ReadNext | dap.go:64-66 | a read returns the next message and advances by one; at the end of the stream it returns the read error and does not move |
| Dap.NumberedFromOneIncreasing | dap.go:80-87 | requests numbered from 1 carry strictly increasing, hence distinct, sequence numbers |
| Dap.WireNumbered | dap.go:80-91 | the requests written to one connection carry 1, 2, 3, … in write order, one per number used when writes succeed |
| Dap.NumberedFromOneAppend | dap.go:80-87 | appending keeps the 1, 2, 3 … numbering exactly when the new request carries the next number and type "request" |
| Dap.DAPClient.FromConn | dap.go:37-41 | a new client starts its counter at 1, has built and written nothing and has read nothing |
| Dap.DAPClient.Close | dap.go:44-46 | the connection is closed |
| Dap.DAPClient.NewRequest | dap.go:80-87 | the request carries the current counter, type "request" and the command; the counter goes up by one |
| Dap.DAPClient.Send | dap.go:89-91 | the message is written exactly when the connection accepts writes; the write error is returned |
| Dap.DAPClient.InitializeRequest | dap.go:49-62 | one "initialize" request numbered by the counter, with adapter "go", path format "path", lines and columns from 1, variable types, paging and run-in-terminal supported, locale "en-us" |
| Dap.DAPClient.LaunchRequest | dap.go:69-78 | one "launch" request with request "launch" and the given mode, program and stop-on-entry flag |
| Dap.DAPClient.Issue | tools.go:686 | a request builder not shown in dap.go: one numbered request with its arguments, written unless writes fail |
| Dap.DAPClient.ReadMessage | dap.go:64-66 | the result and the new position are those of `ReadNext` on the stream |
| Correlate.FirstEnd | tools.go:283-294 | the first position from `from` on whose message ends the wait, or the end of the stream; no earlier message ends it |
| Correlate.FirstEndIs | tools.go:283-294 | those three facts determine the first ending position uniquely |
| Correlate.Await | tools.go:283-294 | the wait returns an ending message and the position after it, or the read error at the end of the stream; everything skipped does not end the wait |
| Correlate.AwaitFirstEnding | tools.go:394-416 | the first ending message decides the wait, whatever precedes it |
| Correlate.AwaitNoEnding | tools.go:619-624 | with no ending message the whole stream is read and the read error comes back |
| Correlate.AwaitSkipsPrefix | tools.go:791-815 | any number of non-ending messages in front of the stream leave the outcome unchanged and only shift the position |
| Correlate.ReadUntil | tools.go:283-294 | the read loop returns exactly what `Await` specifies and leaves the reader where it says |
| Text.NatToString | tools.go:700 | a `%d` rendering of a natural number: at least one digit, only digits, no leading zero |
| Text.IntToString | tools.go:700 | a minus sign comes first exactly for negative numbers |
| Text.IntToStringRoundTrip | tools.go:700 | what follows the sign is the decimal rendering of the absolute value |
| Text.IntToStringInjective | tools.go:321 | different integers (ids, lines, threads) never print alike |
| Text.NatToStringRoundTrip | tools.go:700 | reading the digits back gives the number printed |
| Text.NatToStringInjective | tools.go:700 | different numbers never print alike |
| Text.ContainsIff | tools.go:224 | `strings.Contains` holds exactly when the substring starts at some position |
| Format.NormalizePort | tools.go:141-144 | the port starts with ':', is unchanged when it already did and otherwise gets ':' in front |
| Format.NormalizePortIdempotent | tools.go:141-144 | normalising twice is normalising once |
| Format.DefaultLevels | tools.go:609-612 | zero levels become 20, other values are kept |
| Format.DefaultContext | tools.go:780-783 | an empty context becomes "repl", others are kept |
| Format.DefaultsIdempotent | tools.go:609-612 | applying either default twice is applying it once |
| Format.ScanForReadiness | tools.go:154-164 | the readiness line is found exactly when some line starts with "DAP server listening at", and the index is the first such line |
| Format.FormatStoppedResponse | tools.go:419-426 | a breakpoint or function-breakpoint stop names the first hit breakpoint and the thread; any other reason gives the unknown-reason text |
| Format.StoppedUnknownIff | tools.go:419-426 | the unknown-reason text is given exactly for reasons that are not breakpoints |
| Format.SourcesPresentAppend | tools.go:319-320 | lists whose verified breakpoints all have a source stay that way when joined |
| Format.BreakpointsTextSnoc | tools.go:317-326 | one more breakpoint appends exactly its own text |
| Format.BreakpointsTextAppend | tools.go:317-326 | the text of joined lists is the texts of the parts, in order |
| Format.BreakpointTextShape | tools.go:318-325 | every entry starts with "Breakpoint "; it says "created at" exactly for verified breakpoints |
| Format.BuildBreakpointsText | tools.go:316-326 | the builder loop produces the breakpoints' text |
| Format.FrameTextParts | tools.go:634-645 | the location is shown exactly for frames whose source has a path; the column only when positive; " (runtime)" exactly for subtle frames; each entry starts with its index and frame id |
| Format.FramesTextPrefix | tools.go:633-646 | the entries of the first n frames are a prefix of the entries of all frames |
| Format.BuildStackTraceText | tools.go:631-648 | the builder loop produces the stack-trace text |
| Format.VariableTextTyped | tools.go:717-721 | a variable line shows its type in parentheses exactly when it has one |
| Format.BuildVariablesText | tools.go:716-722 | the builder loop produces the variables' lines in order |
| Format.EvaluateText | tools.go:802-805 | the result text starts with the evaluated result |
| Format.EvaluateTextPlainIff | tools.go:802-805 | the result is shown alone exactly when it has no type, otherwise followed by " (type: …)" |
| Tools.ScopeStep | tools.go:703-726 | a scope with a positive variables reference reads exactly one message (none once the stream is used up); any other scope reads none |
| Tools.ScopesWalk | tools.go:702-727 | the scopes loop never moves the reader back or past the end of the stream |
| Tools.FetchScope | tools.go:703-726 | one scope's text and read are those of `ScopeStep`; a positive reference costs exactly one numbered "variables" request |
| Tools.WalkScopes | tools.go:702-727 | the loop's text and reader are those of `ScopesWalk`; it makes exactly `Fetches` "variables" requests numbered after the scopes request |
| Tools.ReadAndValidateResponse | tools.go:279-295 | the result is the first response's verdict (nil for success, prefix and message for failure) or the read error |
| Tools.DebuggerSession.constructor | tools.go:17-25 | a session starts with no process and no client |
| Tools.DebuggerSession.StartDebugger | tools.go:140-198 | the process is recorded with the normalised port, as started exactly when neither `StdoutPipe` nor `Start` failed; pipe, start and stdout failures return their error and keep the old client; otherwise a fresh client for "localhost"+port has sent initialize as request 1 and the reply is that of the initialize response |
| Tools.DebuggerSession.StopDebugger | tools.go:208-236 | without a process: "No debugger currently executing." and nothing changes; otherwise the client is closed and dropped; a process that never started panics on `Kill`; a started one is cleared with "Debugger stopped." exactly when the kill is tolerated, and kept with the kill error otherwise |
| Tools.DebuggerSession.LaunchProgram | tools.go:248-274 | without a client the Go code panics; otherwise one launch request with stop-on-entry, and the outcome of `readAndValidateResponse` |
| Tools.DebuggerSession.DebugProgram | tools.go:248-260 | launch mode "debug" with its error prefix and "Started debugging: " reply |
| Tools.DebuggerSession.ExecProgram | tools.go:262-274 | launch mode "exec" with its error prefix and "Started debugging: " reply |
| Tools.DebuggerSession.CallValidated | tools.go:279-295 | a guarded handler: one request, then the first response decides between the fixed reply and the prefixed failure |
| Tools.DebuggerSession.SetFunctionBreakpoints | tools.go:344-358 | one request; the reply counts the functions |
| Tools.DebuggerSession.ConfigurationDone | tools.go:365-379 | one request; the fixed reply or the prefixed failure |
| Tools.DebuggerSession.PauseExecution | tools.go:548-562 | one request; the fixed reply or the prefixed failure |
| Tools.DebuggerSession.RestartDebugger | tools.go:856-877 | one restart request carrying request "launch", mode "exec", no stop on entry and the arguments |
| Tools.DebuggerSession.TerminateDebugger | tools.go:884-898 | one request; the fixed reply or the prefixed failure |
| Tools.DebuggerSession.AttachDebugger | tools.go:997-1011 | one request; the reply names the process id |
| Tools.DebuggerSession.Disconnect | tools.go:1019-1037 | one request; only after a successful response is the client closed and dropped; the process is left alone |
| Tools.DebuggerSession.Execute | tools.go:394-416 | one request, then the first failed response, stopped event or terminated event decides, as `ExecutionCall` says |
| Tools.DebuggerSession.ContinueExecution | tools.go:387-417 | the continue request and the execution wait with its texts |
| Tools.DebuggerSession.NextStep | tools.go:434-464 | the next request and the execution wait with its texts |
| Tools.DebuggerSession.StepIn | tools.go:472-502 | the stepIn request and the execution wait with its texts |
| Tools.DebuggerSession.StepOut | tools.go:510-540 | the stepOut request and the execution wait with its texts |
| Tools.DebuggerSession.SetBreakpoints | tools.go:304-336 | one request and one read: a breakpoints response gives their texts, an error response its message, anything else a fixed error |
| Tools.DebuggerSession.CallPlain | tools.go:569-594 | one request and one read: any response decides between the fixed reply and the prefixed failure, anything else is an unexpected type |
| Tools.DebuggerSession.ListThreads | tools.go:569-594 | the threads request and one plain read |
| Tools.DebuggerSession.GetVariables | tools.go:743-765 | the variables request and one plain read |
| Tools.DebuggerSession.SetVariable | tools.go:826-848 | the setVariable request and one plain read; the reply names variable and value |
| Tools.DebuggerSession.GetLoadedSources | tools.go:905-927 | the loadedSources request and one plain read |
| Tools.DebuggerSession.GetModules | tools.go:934-956 | the modules request and one plain read |
| Tools.DebuggerSession.DisassembleCode | tools.go:966-988 | the disassemble request and one plain read |
| Tools.DebuggerSession.GetExceptionInfo | tools.go:1045-1067 | the exceptionInfo request and one plain read |
| Tools.DebuggerSession.GetScopes | tools.go:682-735 | one scopes request and one read; a successful scopes response then costs one numbered variables request and one read per scope with a positive reference, and the text is that of `ScopesCall` |
| Tools.DebuggerSession.GetStackTrace | tools.go:604-668 | the request carries the defaulted levels; events are drained and the first other message decides, as `StackTraceCall` says |
| Tools.DebuggerSession.EvaluateExpression | tools.go:775-816 | the request carries the defaulted context; events are drained and the first other message decides, as `EvaluateCall` says |
| Properties.ValidateDecidedByFirstResponse | tools.go:283-294 | the first response decides, whatever its body type; it fails exactly when it reports failure |
| Properties.ValidateReadError | tools.go:284-287 | without any response the read error comes back unchanged |
| Properties.ValidateSkipsNonResponses | tools.go:283-294 | events and adapter requests before the response change nothing |
| Properties.ExecutionSkipsSuccess | tools.go:399-403 | a successful response does not end an execution wait |
| Properties.ExecutionDecidedByFirst | tools.go:394-416 | the first failed response, stopped or terminated event decides |
| Properties.ExecutionReports | tools.go:399-415 | the texts: header plus first hit breakpoint and thread, the unknown-reason text, the termination text, the prefixed failure |
| Properties.ExecutionSkipsNonDecisive | tools.go:394-416 | any number of successful responses, other events and adapter requests first leave the outcome unchanged |
| Properties.ExecutionReadError | tools.go:395-398 | when the stream ends before anything decisive, the read error comes back |
| Properties.StackTraceSkipsEvents | tools.go:653-655 | events before the stack-trace answer are drained |
| Properties.EvaluateSkipsEvents | tools.go:810-812 | events before the evaluate answer are drained |
| Properties.StackTraceOutcomes | tools.go:625-666 | failed response, stack trace, other successful response and adapter request each give their text |
| Properties.EvaluateOutcomes | tools.go:797-814 | the reply occurs exactly for a successful evaluate response and starts with its result |
| Properties.PlainCallEventFirst | tools.go:581-593 | the single-read handlers do not drain events: an event first is an unexpected response type |
| Properties.SetBreakpointsEventFirst | tools.go:314-335 | an event first makes set breakpoints fail with its fixed error |
| Properties.SetBreakpointsOutcomes | tools.go:314-333 | an error response gives its message; a breakpoints response gives the texts whatever its success flag |
| Properties.FetchesAtMostScopes | tools.go:710 | at most one variables request per scope |
| Properties.ScopesWalkAdvance | tools.go:710-713 | the scopes loop reads exactly one message per fetched scope, stopping at the end of the stream |
| Properties.ScopesWalkNoFetch | tools.go:702-710 | scopes without variables cost no read and show only their headers |
| Properties.ScopeStepSwallows | tools.go:712-714 | whatever arrives in place of a successful variables response is consumed and adds nothing but the header |
| Properties.ScopesSucceedOnScopesResponse | tools.go:694-731 | a successful scopes response always gives a reply with the frame header; nested failures never surface |
| Properties.ScopesEventFirst | tools.go:694-734 | an event where the scopes response should be is an unexpected response type |
| Properties.KillToleratedIff | tools.go:222-227 | a failed kill is tolerated exactly when "process already finished" occurs in its error |
| Properties.StartTwiceRenumbers | tools.go:166-167 | each start makes a new client whose numbering starts again at 1; the earlier client keeps its own count |
| Properties.StopTwice | tools.go:209-213 | after a stop of a started process a second stop replies "No debugger currently executing." |
| Properties.StopAfterFailedStart | tools.go:145-153 | a start whose `Start` fails returns that error, and the next stop drops the client and panics |
| Properties.OtherToolsKeepConnection | tools.go:248-274 | launching, setting breakpoints, continuing, listing threads, stack traces, evaluation and scopes neither close nor replace the client, nor touch the process |

## Left out

- Message framing, JSON encoding and decoding, and go-dap's choice of Go type for
  a message are not modelled. The messages are the decoded values. The model
  does not restrict which body comes with which success flag.
- The capabilities JSON of `startDebugger` (`json.MarshalIndent`) is taken as an
  opaque string in the initialize response. Its marshalling error cannot occur in
  the model.
- `toRawMessage` (dap.go:93-96) is not modelled, because it only converts to JSON.
- Dap.DAPClient.NewRequest: the counter is an unbounded integer. Go's `int`
  counter would wrap after 2^63 - 1 requests; that wrap-around is not modelled.
- The TCP dial in `newDAPClient` (dap.go:26-33) is assumed to succeed. Its
  `log.Fatal` path and its print are left out.
- Process spawning, `Kill` and `Wait` are given by their outcomes: the `Launch`
  and `KillOutcome` parameters. `cmd.Wait`'s result is ignored, as by the code.
  Stderr forwarding is left out.
- The request builders tools.go calls but dap.go does not show are taken to be
  one `newRequest` plus one `send` with the DAP command name. Their payloads are
  `Unshown`, except the inputs tools.go computes itself: stack-trace levels,
  evaluate context and restart arguments.
- `registerTools`, the MCP server and `main.go` are not part of this model.
  Neither is concurrency: each handler runs alone on the session.
- Tools.DebuggerSession.StartDebugger: it does not model stdout's bytes. The
  process output is a list of complete lines and the error that ends it.
- Tools.DebuggerSession.StopDebugger: the effect of killing on the debugger
  process itself is not modelled. Only the recorded process and the reply are.
