/** tools.go: the tool handlers of one debugger session. A handler sends one request
    (most of them only once a client exists), reads until a message decides its
    outcome, and answers with a text, an error, or, where the Go code would crash, a
    run-time panic. */
module Tools {
  import opened Wrappers
  import opened Text
  import opened Protocol
  import opened Dap
  import opened Correlate
  import opened Format

  /** A handler's outcome: the text of its `mcp.TextContent`, the `error` it returns,
      or the panic the Go code runs into. */
  datatype ToolResult = Reply(text: string) | Failure(error: string) | Panic(reason: string)

  const NotStarted := "debugger not started"
  const IndexOutOfRange := "index out of range [0] with length 0"
  const NilDereference := "invalid memory address or nil pointer dereference"

  // ---------------------------------------------------------------------------
  // What one message decides

  /** readAndValidateResponse (tools.go:286-290): a response ends the wait; it is an
      error exactly when it reports failure, and then it carries the remote message. */
  function ValidateVerdict(m: Msg, prefix: string): Option<string>
    requires m.Response?
  {
    if m.success then None else Some(prefix + ": " + m.message)
  }

  /** The four execution-control handlers differ only in their command and texts. */
  datatype StepKind = ContinueRun | StepOver | StepInto | StepOutOf

  function StepCommand(k: StepKind): string {
    match k
    case ContinueRun => "continue"
    case StepOver => "next"
    case StepInto => "stepIn"
    case StepOutOf => "stepOut"
  }

  function StepFailurePrefix(k: StepKind): string {
    match k
    case ContinueRun => "unable to continue"
    case StepOver => "unable to step to next line"
    case StepInto => "unable to step into function"
    case StepOutOf => "unable to step out of function"
  }

  function StoppedHeader(k: StepKind): string {
    match k
    case ContinueRun => "Continued execution...\n"
    case StepOver => "Stepped to next line...\n"
    case StepInto => "Stepped into function...\n"
    case StepOutOf => "Stepped out of function...\n"
  }

  function TerminationText(k: StepKind): string {
    match k
    case ContinueRun => "Continued execution to program termination"
    case _ => "Stepped to program termination"
  }

  /** tools.go:399-415: what ends an execution-control wait decides its result. */
  function ExecutionVerdict(k: StepKind, m: Msg): ToolResult
    requires Ends(Execution, m)
  {
    if m.Response? then Failure(StepFailurePrefix(k) + ": " + m.message)
    else if m.event.Stopped? then
      if IsBreakpointReason(m.event.reason) && |m.event.hitBreakpointIds| == 0 then Panic(IndexOutOfRange)
      else Reply(StoppedHeader(k) + FormatStoppedResponse(m.event.reason, m.event.threadId, m.event.hitBreakpointIds))
    else Reply(TerminationText(k))
  }

  /** tools.go:625-666: the first message of the stack-trace loop that is not an event. */
  function StackTraceVerdict(threadId: int, m: Msg): ToolResult
    requires !m.Event?
  {
    if m.ServerRequest? then Failure("unexpected response type: " + TypeName(m))
    else if !m.success then Failure("unable to get stack trace: " + m.message)
    else if m.body.StackTraceBody? then
      Reply(StackTraceText(threadId, m.body.stackFrames, m.body.totalFrames))
    else Failure("received generic response instead of StackTraceResponse")
  }

  /** tools.go:797-814: the first message of the evaluate loop that is not an event. */
  function EvaluateVerdict(m: Msg): ToolResult
    requires !m.Event?
  {
    if m.Response? && m.body.EvaluateBody? then
      if m.success then Reply(EvaluateText(m.body.result, m.body.resultType))
      else Failure("unable to evaluate expression: " + m.message)
    else Failure("unexpected response type: " + TypeName(m))
  }

  /** The handlers that read one message and only look at whether it is a response,
      e.g. listThreads (tools.go:581-593). */
  function PlainVerdict(m: Msg, failPrefix: string, okText: string): ToolResult {
    if m.Response? then
      if m.success then Reply(okText) else Failure(failPrefix + ": " + m.message)
    else Failure("unexpected response type")
  }

  /** tools.go:315-335. A verified breakpoint without a source makes the Go code
      dereference a nil pointer. */
  function SetBreakpointsVerdict(m: Msg): ToolResult {
    if m.Response? && m.body.SetBreakpointsBody? then
      if SourcesPresent(m.body.breakpoints) then Reply(BreakpointsText(m.body.breakpoints))
      else Panic(NilDereference)
    else if m.Response? && m.body.ErrorBody? then Failure(m.message)
    else Failure("unexpected DAP response from set breakpoints request")
  }

  /** tools.go:177-197, with the capabilities already rendered as JSON. */
  function InitializeVerdict(port: string, m: Msg): ToolResult {
    if m.Response? && m.body.InitializeBody? then
      Reply("Started debugger at: " + port + "\n\nServer Capabilities:\n" + m.body.capabilitiesJson)
    else Failure("unexpected response type: " + TypeName(m))
  }

  // ---------------------------------------------------------------------------
  // What one call decides: send the request, then read from `pos`.
  // Each gives the result and the reader's position afterwards.

  /** `readAndValidateResponse` on the stream from `pos`: `None` is Go's nil error. */
  function ValidateResponse(p: Peer, pos: nat, prefix: string): (Option<string>, nat)
    requires pos <= |p.incoming|
  {
    var (m, q) := Await(AnyResponse, p, pos);
    (if m.Err? then Some(m.error) else ValidateVerdict(m.value, prefix), q)
  }

  /** A handler that sends a request and calls `readAndValidateResponse`. */
  function ValidatedCall(p: Peer, pos: nat, prefix: string, okText: string): (ToolResult, nat)
    requires pos <= |p.incoming|
  {
    if p.writeErr.Some? then (Failure(p.writeErr.value), pos)
    else
      var (e, q) := ValidateResponse(p, pos, prefix);
      (if e.Some? then Failure(e.value) else Reply(okText), q)
  }

  function ExecutionCall(k: StepKind, p: Peer, pos: nat): (ToolResult, nat)
    requires pos <= |p.incoming|
  {
    if p.writeErr.Some? then (Failure(p.writeErr.value), pos)
    else
      var (m, q) := Await(Execution, p, pos);
      (if m.Err? then Failure(m.error) else ExecutionVerdict(k, m.value), q)
  }

  function StackTraceCall(threadId: int, p: Peer, pos: nat): (ToolResult, nat)
    requires pos <= |p.incoming|
  {
    if p.writeErr.Some? then (Failure(p.writeErr.value), pos)
    else
      var (m, q) := Await(NonEvent, p, pos);
      (if m.Err? then Failure(m.error) else StackTraceVerdict(threadId, m.value), q)
  }

  function EvaluateCall(p: Peer, pos: nat): (ToolResult, nat)
    requires pos <= |p.incoming|
  {
    if p.writeErr.Some? then (Failure(p.writeErr.value), pos)
    else
      var (m, q) := Await(NonEvent, p, pos);
      (if m.Err? then Failure(m.error) else EvaluateVerdict(m.value), q)
  }

  function PlainCall(p: Peer, pos: nat, failPrefix: string, okText: string): (ToolResult, nat)
    requires pos <= |p.incoming|
  {
    if p.writeErr.Some? then (Failure(p.writeErr.value), pos)
    else
      var (m, q) := ReadNext(p, pos);
      (if m.Err? then Failure(m.error) else PlainVerdict(m.value, failPrefix, okText), q)
  }

  function SetBreakpointsCall(p: Peer, pos: nat): (ToolResult, nat)
    requires pos <= |p.incoming|
  {
    if p.writeErr.Some? then (Failure(p.writeErr.value), pos)
    else
      var (m, q) := ReadNext(p, pos);
      (if m.Err? then Failure(m.error) else SetBreakpointsVerdict(m.value), q)
  }

  /** The initialize step of `startDebugger` on a fresh connection. */
  function InitializeCall(port: string, p: Peer): (ToolResult, nat) {
    if p.writeErr.Some? then (Failure(p.writeErr.value), 0)
    else
      var (m, q) := ReadNext(p, 0);
      (if m.Err? then Failure(m.error) else InitializeVerdict(port, m.value), q)
  }

  /** getScopes (tools.go:682-735). Each scope with a positive variables reference
      costs one variables request and one read; whatever that read returns, or
      fails with, is dropped unless it is a successful variables response. */
  function FetchedText(m: Result<Msg>): string {
    if m.Ok? && m.value.Response? && m.value.success && m.value.body.VariablesBody?
    then VariablesText(m.value.body.variables)
    else ""
  }

  function ScopeStep(s: Scope, p: Peer, pos: nat): (r: (string, nat))
    requires pos <= |p.incoming|
    ensures r.1 == (if s.variablesReference > 0 && pos < |p.incoming| then pos + 1 else pos)
  {
    if s.variablesReference > 0 then
      var (m, q) := ReadNext(p, pos);
      (ScopeHeader(s) + FetchedText(m), q)
    else (ScopeHeader(s), pos)
  }

  /** The scope lines (with their variables) for `scopes`, read from `pos` on. */
  function ScopesWalk(scopes: seq<Scope>, p: Peer, pos: nat): (r: (string, nat))
    requires pos <= |p.incoming|
    ensures pos <= r.1 <= |p.incoming|
    decreases |scopes|
  {
    if scopes == [] then ("", pos)
    else
      var (t, q) := ScopesWalk(scopes[..|scopes| - 1], p, pos);
      var (u, q') := ScopeStep(scopes[|scopes| - 1], p, q);
      (t + u, q')
  }

  /** How many scopes get a variables request. */
  function Fetches(scopes: seq<Scope>): nat
    decreases |scopes|
  {
    if scopes == [] then 0
    else Fetches(scopes[..|scopes| - 1]) + (if scopes[|scopes| - 1].variablesReference > 0 then 1 else 0)
  }

  /** The `n` variables requests numbered from `first`. */
  function VariablesRequests(first: int, n: nat): seq<Request> {
    seq(n, j => Request(first + j, "request", "variables"))
  }

  function VariablesWrites(first: int, n: nat): seq<Outgoing> {
    seq(n, j => Outgoing(Request(first + j, "request", "variables"), Unshown))
  }

  /** The result of getScopes, the reader's position after it, and the number of
      variables requests it made after the scopes request. */
  function ScopesCall(frameId: int, p: Peer, pos: nat): (ToolResult, nat, nat)
    requires pos <= |p.incoming|
  {
    if p.writeErr.Some? then (Failure(p.writeErr.value), pos, 0)
    else
      var (m, q) := ReadNext(p, pos);
      if m.Err? then (Failure(m.error), q, 0)
      else if !(m.value.Response? && m.value.body.ScopesBody?) then (Failure("unexpected response type"), q, 0)
      else if !m.value.success then (Failure("unable to get scopes: " + m.value.message), q, 0)
      else
        var scopes := m.value.body.scopes;
        var (t, q') := ScopesWalk(scopes, p, q);
        (Reply("Scopes for frame " + IntToString(frameId) + ":\n" + t), q', Fetches(scopes))
  }

  // ---------------------------------------------------------------------------
  // Process spawning and killing, as far as their outcomes go

  /** The debugger process `startDebugger` configures: its command line, and whether
      `Start` ran (until then Go's `cmd.Process` is nil). */
  datatype Process = Process(args: seq<string>, started: bool)

  function DlvCommand(port: string, started: bool): Process {
    Process(["dlv", "dap", "--listen", port, "--log", "--log-output", "dap"], started)
  }

  /** What happens when the process is spawned: the errors of `StdoutPipe` and
      `Start`, the complete lines it prints, and the error that ends its output. */
  datatype Launch = Launch(pipeErr: Option<string>, startErr: Option<string>,
                           stdout: seq<string>, stdoutErr: string)

  /** The error `startDebugger` returns before it creates a client, if any. */
  function LaunchFailure(l: Launch): Option<string> {
    if l.pipeErr.Some? then l.pipeErr
    else if l.startErr.Some? then l.startErr
    else if !HasReadyLine(l.stdout) then Some(l.stdoutErr)
    else None
  }

  /** What `cmd.Process.Kill()` returns. */
  datatype KillOutcome = Killed | KillFailed(error: string)

  /** tools.go:222-227: a kill error is ignored when the process had already exited. */
  predicate KillTolerated(k: KillOutcome) {
    k.Killed? || Contains(k.error, "process already finished")
  }

  const NoDebuggerText := "No debugger currently executing."

  // ---------------------------------------------------------------------------

  /** tools.go:703-726: one scope's lines, with a variables request and read when
      its reference is positive. */
  method FetchScope(client: DAPClient, s: Scope) returns (text: string)
    requires client.Valid() && client.peer.writeErr.None?
    modifies client`pos, client`nextSeq, client`built, client`written
    ensures client.Valid()
    ensures (text, client.pos) == ScopeStep(s, client.peer, old(client.pos))
    ensures var n := if s.variablesReference > 0 then 1 else 0;
      client.nextSeq == old(client.nextSeq) + n &&
      client.built == old(client.built) + VariablesRequests(old(client.nextSeq), n) &&
      client.written == old(client.written) + VariablesWrites(old(client.nextSeq), n)
  {
    text := ScopeHeader(s);
    if s.variablesReference > 0 {
      var e := client.Issue("variables", Unshown);
      assert VariablesRequests(old(client.nextSeq), 1) == [Request(old(client.nextSeq), "request", "variables")];
      assert VariablesWrites(old(client.nextSeq), 1) == [Outgoing(Request(old(client.nextSeq), "request", "variables"), Unshown)];
      if e.None? {
        var vm := client.ReadMessage();
        if vm.Ok? && vm.value.Response? && vm.value.success && vm.value.body.VariablesBody? {
          var vt := BuildVariablesText(vm.value.body.variables);
          text := text + vt;
        }
        assert text == ScopeHeader(s) + FetchedText(vm);
      }
    } else {
      assert VariablesRequests(old(client.nextSeq), 0) == [];
      assert VariablesWrites(old(client.nextSeq), 0) == [];
    }
  }

  /** tools.go:702-727: the loop over all scopes of a successful scopes response. */
  method WalkScopes(client: DAPClient, scopes: seq<Scope>) returns (text: string)
    requires client.Valid() && client.peer.writeErr.None?
    modifies client`pos, client`nextSeq, client`built, client`written
    ensures client.Valid()
    ensures (text, client.pos) == ScopesWalk(scopes, client.peer, old(client.pos))
    ensures client.nextSeq == old(client.nextSeq) + Fetches(scopes)
    ensures client.built == old(client.built) + VariablesRequests(old(client.nextSeq), Fetches(scopes))
    ensures client.written == old(client.written) + VariablesWrites(old(client.nextSeq), Fetches(scopes))
  {
    ghost var pos0, seq0, built0, written0 := client.pos, client.nextSeq, client.built, client.written;
    text := "";
    var i := 0;
    while i < |scopes|
      invariant i <= |scopes|
      invariant client.Valid()
      invariant WalkedSoFar(client, scopes[..i], text, pos0, seq0, built0, written0)
    {
      text := WalkOne(client, scopes, i, text, pos0, seq0, built0, written0);
      i := i + 1;
    }
    assert scopes[..i] == scopes;
  }

  /** The state of the client after the scopes `done` were walked from the given
      starting point, producing `text`. */
  ghost predicate WalkedSoFar(client: DAPClient, done: seq<Scope>, text: string,
                              pos0: nat, seq0: int, built0: seq<Request>, written0: seq<Outgoing>)
    reads client
  {
    Walked(client.peer, client.pos, client.nextSeq, client.built, client.written, done, text,
           pos0, seq0, built0, written0)
  }

  /** `WalkedSoFar` on the values of the client's fields. */
  ghost predicate Walked(p: Peer, pos: nat, nextSeq: int, built: seq<Request>, written: seq<Outgoing>,
                         done: seq<Scope>, text: string,
                         pos0: nat, seq0: int, built0: seq<Request>, written0: seq<Outgoing>)
  {
    pos0 <= |p.incoming| &&
    (text, pos) == ScopesWalk(done, p, pos0) &&
    nextSeq == seq0 + Fetches(done) &&
    built == built0 + VariablesRequests(seq0, Fetches(done)) &&
    written == written0 + VariablesWrites(seq0, Fetches(done))
  }

  /** One iteration of the scopes loop. */
  method WalkOne(client: DAPClient, scopes: seq<Scope>, i: nat, text: string,
                 ghost pos0: nat, ghost seq0: int, ghost built0: seq<Request>, ghost written0: seq<Outgoing>)
    returns (text': string)
    requires i < |scopes|
    requires client.Valid() && client.peer.writeErr.None?
    requires WalkedSoFar(client, scopes[..i], text, pos0, seq0, built0, written0)
    modifies client`pos, client`nextSeq, client`built, client`written
    ensures client.Valid()
    ensures WalkedSoFar(client, scopes[..i + 1], text', pos0, seq0, built0, written0)
  {
    ghost var pos, nextSeq, built, written := client.pos, client.nextSeq, client.built, client.written;
    var t := FetchScope(client, scopes[i]);
    text' := text + t;
    WalkedExtend(scopes, i, client.peer, text, t, pos, client.pos, nextSeq, built, written,
                 client.nextSeq, client.built, client.written, pos0, seq0, built0, written0);
  }

  /** Walking one more scope extends the walked state by that scope's step. */
  lemma WalkedExtend(scopes: seq<Scope>, i: nat, p: Peer, text: string, t: string,
                     pos: nat, pos': nat, nextSeq: int, built: seq<Request>, written: seq<Outgoing>,
                     nextSeq': int, built': seq<Request>, written': seq<Outgoing>,
                     pos0: nat, seq0: int, built0: seq<Request>, written0: seq<Outgoing>)
    requires i < |scopes| && pos <= |p.incoming|
    requires Walked(p, pos, nextSeq, built, written, scopes[..i], text, pos0, seq0, built0, written0)
    requires (t, pos') == ScopeStep(scopes[i], p, pos)
    requires var k := if scopes[i].variablesReference > 0 then 1 else 0;
      nextSeq' == nextSeq + k &&
      built' == built + VariablesRequests(nextSeq, k) &&
      written' == written + VariablesWrites(nextSeq, k)
    ensures Walked(p, pos', nextSeq', built', written', scopes[..i + 1], text + t,
                   pos0, seq0, built0, written0)
  {
    var n := Fetches(scopes[..i]);
    var k := if scopes[i].variablesReference > 0 then 1 else 0;
    ScopesWalkExtend(scopes, i, p, pos0, text, t, pos, pos');
    VariablesRunsExtend(built, written, built', written', built0, written0, seq0, nextSeq, n, k);
  }

  /** The text and position of the walk, one scope further. */
  lemma ScopesWalkExtend(scopes: seq<Scope>, i: nat, p: Peer, pos0: nat, text: string, t: string,
                         pos: nat, pos': nat)
    requires i < |scopes| && pos0 <= |p.incoming|
    requires (text, pos) == ScopesWalk(scopes[..i], p, pos0)
    requires (t, pos') == ScopeStep(scopes[i], p, pos)
    ensures (text + t, pos') == ScopesWalk(scopes[..i + 1], p, pos0)
    ensures Fetches(scopes[..i + 1]) == Fetches(scopes[..i]) + (if scopes[i].variablesReference > 0 then 1 else 0)
  {
    ScopesWalkStep(scopes, i, p, pos0);
  }

  /** One more scope extends the walk by one step. */
  lemma ScopesWalkStep(scopes: seq<Scope>, i: nat, p: Peer, pos: nat)
    requires i < |scopes| && pos <= |p.incoming|
    ensures var (t, q) := ScopesWalk(scopes[..i], p, pos);
      var (u, q') := ScopeStep(scopes[i], p, q);
      ScopesWalk(scopes[..i + 1], p, pos) == (t + u, q')
    ensures Fetches(scopes[..i + 1]) == Fetches(scopes[..i]) + (if scopes[i].variablesReference > 0 then 1 else 0)
  {
    assert scopes[..i + 1][..i] == scopes[..i];
  }

  /** A run of variables requests already made, extended by the next `k`. */
  lemma VariablesRunsExtend(built: seq<Request>, written: seq<Outgoing>,
                            built': seq<Request>, written': seq<Outgoing>,
                            built0: seq<Request>, written0: seq<Outgoing>,
                            first: int, next: int, n: nat, k: nat)
    requires next == first + n
    requires built == built0 + VariablesRequests(first, n)
    requires written == written0 + VariablesWrites(first, n)
    requires built' == built + VariablesRequests(next, k)
    requires written' == written + VariablesWrites(next, k)
    ensures built' == built0 + VariablesRequests(first, n + k)
    ensures written' == written0 + VariablesWrites(first, n + k)
  {
    VariablesRunsJoin(first, n, k);
    assert built + VariablesRequests(first + n, k)
        == built0 + (VariablesRequests(first, n) + VariablesRequests(first + n, k));
    assert written + VariablesWrites(first + n, k)
        == written0 + (VariablesWrites(first, n) + VariablesWrites(first + n, k));
  }

  /** Two runs of consecutively numbered variables requests make one. */
  lemma VariablesRunsJoin(first: int, n: nat, k: nat)
    ensures VariablesRequests(first, n) + VariablesRequests(first + n, k) == VariablesRequests(first, n + k)
    ensures VariablesWrites(first, n) + VariablesWrites(first + n, k) == VariablesWrites(first, n + k)
  {
    var rs := VariablesRequests(first, n) + VariablesRequests(first + n, k);
    assert forall j :: 0 <= j < n + k ==> rs[j] == VariablesRequests(first, n + k)[j];
    var ws := VariablesWrites(first, n) + VariablesWrites(first + n, k);
    assert forall j :: 0 <= j < n + k ==> ws[j] == VariablesWrites(first, n + k)[j];
  }

  /** tools.go:279-295. */
  method ReadAndValidateResponse(client: DAPClient, prefix: string) returns (err: Option<string>)
    requires client.Valid()
    modifies client`pos
    ensures client.Valid()
    ensures (err, client.pos) == ValidateResponse(client.peer, old(client.pos), prefix)
  {
    var m := ReadUntil(client, AnyResponse);
    if m.Err? {
      err := Some(m.error);
    } else {
      err := ValidateVerdict(m.value, prefix);
    }
  }

  /** `debuggerSession`: the debugger process and the client connected to it, each
      present or absent. */
  class DebuggerSession {
    var cmd: Option<Process>
    var client: DAPClient?

    /** A client only exists while a process does. */
    ghost predicate Valid()
      reads this, client
    {
      client != null ==> client.Valid() && cmd.Some?
    }

    constructor ()
      ensures Valid() && cmd == None && client == null
    {
      cmd := None;
      client := null;
    }

    /** tools.go:140-198. The process is recorded before anything can fail; the old
        client is kept when no new one is made, and replaced (not closed) otherwise. */
    method StartDebugger(port: string, launch: Launch, peer: Peer) returns (res: ToolResult)
      requires Valid()
      modifies this
      ensures Valid()
      ensures cmd == Some(DlvCommand(NormalizePort(port), launch.pipeErr.None? && launch.startErr.None?))
      ensures LaunchFailure(launch).Some? ==>
        res == Failure(LaunchFailure(launch).value) && client == old(client)
      ensures LaunchFailure(launch).None? ==>
        client != null && fresh(client) && !client.closed &&
        client.address == "localhost" + NormalizePort(port) && client.peer == peer &&
        client.nextSeq == 2 && client.built == [Request(1, "request", "initialize")] &&
        client.written == (if peer.writeErr.None?
                           then [Outgoing(Request(1, "request", "initialize"), InitializeArgs)]
                           else []) &&
        (res, client.pos) == InitializeCall(NormalizePort(port), peer)
    {
      var p := NormalizePort(port);
      cmd := Some(DlvCommand(p, false));
      if launch.pipeErr.Some? {
        return Failure(launch.pipeErr.value);
      }
      if launch.startErr.Some? {
        return Failure(launch.startErr.value);
      }
      cmd := Some(DlvCommand(p, true));
      var ready, _ := ScanForReadiness(launch.stdout);
      if !ready {
        return Failure(launch.stdoutErr);
      }
      var c := new DAPClient.FromConn("localhost" + p, peer);
      client := c;
      var err := c.InitializeRequest();
      if err.Some? {
        return Failure(err.value);
      }
      var m := c.ReadMessage();
      if m.Err? {
        return Failure(m.error);
      }
      res := InitializeVerdict(p, m.value);
    }

    /** tools.go:208-236. A process that was never started has a nil `Process`, so
        killing it panics (after the client has been dropped). */
    method StopDebugger(kill: KillOutcome) returns (res: ToolResult)
      requires Valid()
      modifies this, {client}`closed
      ensures Valid()
      ensures old(cmd).None? ==> res == Reply(NoDebuggerText) && cmd == old(cmd) && client == old(client)
      ensures old(cmd).Some? ==> client == null && (old(client) != null ==> old(client).closed)
      ensures old(cmd).Some? && !old(cmd).value.started ==> cmd == old(cmd) && res == Panic(NilDereference)
      ensures old(cmd).Some? && old(cmd).value.started && KillTolerated(kill) ==>
        cmd == None && res == Reply("Debugger stopped.")
      ensures old(cmd).Some? && old(cmd).value.started && !KillTolerated(kill) ==>
        cmd == old(cmd) && res == Failure(kill.error)
    {
      if cmd.None? {
        return Reply(NoDebuggerText);
      }
      if client != null {
        client.Close();
        client := null;
      }
      if !cmd.value.started {
        return Panic(NilDereference);
      }
      if kill.KillFailed? && !Contains(kill.error, "process already finished") {
        return Failure(kill.error);
      }
      cmd := None;
      res := Reply("Debugger stopped.");
    }

    /** `debugProgram` and `execProgram` (tools.go:248-274): no guard, so without a
        client the Go code dereferences a nil pointer. */
    method LaunchProgram(mode: string, path: string, prefix: string) returns (res: ToolResult)
      requires Valid()
      modifies {client}`pos, {client}`nextSeq, {client}`built, {client}`written
      ensures Valid() && client == old(client) && cmd == old(cmd)
      ensures old(client) == null ==> res == Panic(NilDereference)
      ensures old(client) != null ==>
        client.IssuedOne("launch", LaunchArguments("launch", mode, path, true)) &&
        (res, client.pos) == ValidatedCall(client.peer, old(client.pos), prefix, "Started debugging: " + path)
    {
      if client == null {
        return Panic(NilDereference);
      }
      var err := client.LaunchRequest(mode, path, true);
      if err.Some? {
        return Failure(err.value);
      }
      err := ReadAndValidateResponse(client, prefix);
      if err.Some? {
        return Failure(err.value);
      }
      res := Reply("Started debugging: " + path);
    }

    method DebugProgram(path: string) returns (res: ToolResult)
      requires Valid()
      modifies {client}`pos, {client}`nextSeq, {client}`built, {client}`written
      ensures Valid() && client == old(client) && cmd == old(cmd)
      ensures old(client) == null ==> res == Panic(NilDereference)
      ensures old(client) != null ==>
        client.IssuedOne("launch", LaunchArguments("launch", "debug", path, true)) &&
        (res, client.pos) == ValidatedCall(client.peer, old(client.pos),
          "unable to launch program to debug via DAP server", "Started debugging: " + path)
    {
      res := LaunchProgram("debug", path, "unable to launch program to debug via DAP server");
    }

    method ExecProgram(path: string) returns (res: ToolResult)
      requires Valid()
      modifies {client}`pos, {client}`nextSeq, {client}`built, {client}`written
      ensures Valid() && client == old(client) && cmd == old(cmd)
      ensures old(client) == null ==> res == Panic(NilDereference)
      ensures old(client) != null ==>
        client.IssuedOne("launch", LaunchArguments("launch", "exec", path, true)) &&
        (res, client.pos) == ValidatedCall(client.peer, old(client.pos),
          "unable to exec program to debug via DAP server", "Started debugging: " + path)
    {
      res := LaunchProgram("exec", path, "unable to exec program to debug via DAP server");
    }

    /** The guarded handlers that send one request and call `readAndValidateResponse`. */
    method CallValidated(command: string, args: Arguments, prefix: string, okText: string)
      returns (res: ToolResult)
      requires Valid()
      modifies {client}`pos, {client}`nextSeq, {client}`built, {client}`written
      ensures Valid() && client == old(client) && cmd == old(cmd)
      ensures old(client) == null ==> res == Failure(NotStarted)
      ensures old(client) != null ==>
        client.IssuedOne(command, args) &&
        (res, client.pos) == ValidatedCall(client.peer, old(client.pos), prefix, okText)
    {
      if client == null {
        return Failure(NotStarted);
      }
      var err := client.Issue(command, args);
      if err.Some? {
        return Failure(err.value);
      }
      err := ReadAndValidateResponse(client, prefix);
      if err.Some? {
        return Failure(err.value);
      }
      res := Reply(okText);
    }

    method SetFunctionBreakpoints(functions: seq<string>) returns (res: ToolResult)
      requires Valid()
      modifies {client}`pos, {client}`nextSeq, {client}`built, {client}`written
      ensures Valid() && client == old(client) && cmd == old(cmd)
      ensures old(client) == null ==> res == Failure(NotStarted)
      ensures old(client) != null ==>
        client.IssuedOne("setFunctionBreakpoints", Unshown) &&
        (res, client.pos) == ValidatedCall(client.peer, old(client.pos), "unable to set function breakpoints",
                                           "Set breakpoints on " + IntToString(|functions|) + " functions")
    {
      res := CallValidated("setFunctionBreakpoints", Unshown, "unable to set function breakpoints",
                           "Set breakpoints on " + IntToString(|functions|) + " functions");
    }

    method ConfigurationDone() returns (res: ToolResult)
      requires Valid()
      modifies {client}`pos, {client}`nextSeq, {client}`built, {client}`written
      ensures Valid() && client == old(client) && cmd == old(cmd)
      ensures old(client) == null ==> res == Failure(NotStarted)
      ensures old(client) != null ==>
        client.IssuedOne("configurationDone", Unshown) &&
        (res, client.pos) == ValidatedCall(client.peer, old(client.pos), "unable to complete configuration",
                                           "Configuration done, debugging can begin")
    {
      res := CallValidated("configurationDone", Unshown, "unable to complete configuration",
                           "Configuration done, debugging can begin");
    }

    method PauseExecution(threadId: int) returns (res: ToolResult)
      requires Valid()
      modifies {client}`pos, {client}`nextSeq, {client}`built, {client}`written
      ensures Valid() && client == old(client) && cmd == old(cmd)
      ensures old(client) == null ==> res == Failure(NotStarted)
      ensures old(client) != null ==>
        client.IssuedOne("pause", Unshown) &&
        (res, client.pos) == ValidatedCall(client.peer, old(client.pos), "unable to pause execution", "Paused execution")
    {
      res := CallValidated("pause", Unshown, "unable to pause execution", "Paused execution");
    }

    /** tools.go:856-877: the restart request carries the launch map built here. */
    method RestartDebugger(args: seq<string>) returns (res: ToolResult)
      requires Valid()
      modifies {client}`pos, {client}`nextSeq, {client}`built, {client}`written
      ensures Valid() && client == old(client) && cmd == old(cmd)
      ensures old(client) == null ==> res == Failure(NotStarted)
      ensures old(client) != null ==>
        client.IssuedOne("restart", RestartArguments("launch", "exec", false, args)) &&
        (res, client.pos) == ValidatedCall(client.peer, old(client.pos), "unable to restart debugger",
                                           "Restarted debugging session")
    {
      res := CallValidated("restart", RestartArguments("launch", "exec", false, args),
                           "unable to restart debugger", "Restarted debugging session");
    }

    method TerminateDebugger() returns (res: ToolResult)
      requires Valid()
      modifies {client}`pos, {client}`nextSeq, {client}`built, {client}`written
      ensures Valid() && client == old(client) && cmd == old(cmd)
      ensures old(client) == null ==> res == Failure(NotStarted)
      ensures old(client) != null ==>
        client.IssuedOne("terminate", Unshown) &&
        (res, client.pos) == ValidatedCall(client.peer, old(client.pos), "unable to terminate debugger",
                                           "Terminated debuggee process")
    {
      res := CallValidated("terminate", Unshown, "unable to terminate debugger", "Terminated debuggee process");
    }

    method AttachDebugger(mode: string, processId: int) returns (res: ToolResult)
      requires Valid()
      modifies {client}`pos, {client}`nextSeq, {client}`built, {client}`written
      ensures Valid() && client == old(client) && cmd == old(cmd)
      ensures old(client) == null ==> res == Failure(NotStarted)
      ensures old(client) != null ==>
        client.IssuedOne("attach", Unshown) &&
        (res, client.pos) == ValidatedCall(client.peer, old(client.pos), "unable to attach to process",
                                           "Attached to process " + IntToString(processId))
    {
      res := CallValidated("attach", Unshown, "unable to attach to process",
                           "Attached to process " + IntToString(processId));
    }

    /** tools.go:1019-1037: the client is closed and dropped only after a successful
        response; the process is left alone. */
    method Disconnect(terminateDebuggee: bool) returns (res: ToolResult)
      requires Valid()
      modifies this, {client}`pos, {client}`nextSeq, {client}`built, {client}`written, {client}`closed
      ensures Valid() && cmd == old(cmd)
      ensures old(client) == null ==> res == Failure(NotStarted) && client == null
      ensures old(client) != null ==>
        old(client).IssuedOne("disconnect", Unshown) &&
        (res, old(client).pos) == ValidatedCall(old(client).peer, old(client.pos), "unable to disconnect",
                                                "Disconnected from debugger") &&
        (res.Reply? ==> client == null && old(client).closed) &&
        (!res.Reply? ==> client == old(client) && old(client).closed == old(client.closed))
    {
      if client == null {
        return Failure(NotStarted);
      }
      var err := client.Issue("disconnect", Unshown);
      if err.Some? {
        return Failure(err.value);
      }
      err := ReadAndValidateResponse(client, "unable to disconnect");
      if err.Some? {
        return Failure(err.value);
      }
      client.Close();
      client := null;
      res := Reply("Disconnected from debugger");
    }

    /** The continue/next/step-in/step-out loops (tools.go:394-416, 441-463, 479-501,
        517-539). */
    method Execute(k: StepKind) returns (res: ToolResult)
      requires Valid()
      modifies {client}`pos, {client}`nextSeq, {client}`built, {client}`written
      ensures Valid() && client == old(client) && cmd == old(cmd)
      ensures old(client) == null ==> res == Failure(NotStarted)
      ensures old(client) != null ==>
        client.IssuedOne(StepCommand(k), Unshown) &&
        (res, client.pos) == ExecutionCall(k, client.peer, old(client.pos))
    {
      if client == null {
        return Failure(NotStarted);
      }
      var err := client.Issue(StepCommand(k), Unshown);
      if err.Some? {
        return Failure(err.value);
      }
      var m := ReadUntil(client, Execution);
      if m.Err? {
        return Failure(m.error);
      }
      res := ExecutionVerdict(k, m.value);
    }

    method ContinueExecution(threadId: int) returns (res: ToolResult)
      requires Valid()
      modifies {client}`pos, {client}`nextSeq, {client}`built, {client}`written
      ensures Valid() && client == old(client) && cmd == old(cmd)
      ensures old(client) == null ==> res == Failure(NotStarted)
      ensures old(client) != null ==>
        client.IssuedOne("continue", Unshown) &&
        (res, client.pos) == ExecutionCall(ContinueRun, client.peer, old(client.pos))
    {
      res := Execute(ContinueRun);
    }

    method NextStep(threadId: int) returns (res: ToolResult)
      requires Valid()
      modifies {client}`pos, {client}`nextSeq, {client}`built, {client}`written
      ensures Valid() && client == old(client) && cmd == old(cmd)
      ensures old(client) == null ==> res == Failure(NotStarted)
      ensures old(client) != null ==>
        client.IssuedOne("next", Unshown) &&
        (res, client.pos) == ExecutionCall(StepOver, client.peer, old(client.pos))
    {
      res := Execute(StepOver);
    }

    method StepIn(threadId: int) returns (res: ToolResult)
      requires Valid()
      modifies {client}`pos, {client}`nextSeq, {client}`built, {client}`written
      ensures Valid() && client == old(client) && cmd == old(cmd)
      ensures old(client) == null ==> res == Failure(NotStarted)
      ensures old(client) != null ==>
        client.IssuedOne("stepIn", Unshown) &&
        (res, client.pos) == ExecutionCall(StepInto, client.peer, old(client.pos))
    {
      res := Execute(StepInto);
    }

    method StepOut(threadId: int) returns (res: ToolResult)
      requires Valid()
      modifies {client}`pos, {client}`nextSeq, {client}`built, {client}`written
      ensures Valid() && client == old(client) && cmd == old(cmd)
      ensures old(client) == null ==> res == Failure(NotStarted)
      ensures old(client) != null ==>
        client.IssuedOne("stepOut", Unshown) &&
        (res, client.pos) == ExecutionCall(StepOutOf, client.peer, old(client.pos))
    {
      res := Execute(StepOutOf);
    }

    /** tools.go:304-336. */
    method SetBreakpoints(file: string, lines: seq<int>) returns (res: ToolResult)
      requires Valid()
      modifies {client}`pos, {client}`nextSeq, {client}`built, {client}`written
      ensures Valid() && client == old(client) && cmd == old(cmd)
      ensures old(client) == null ==> res == Failure(NotStarted)
      ensures old(client) != null ==>
        client.IssuedOne("setBreakpoints", Unshown) &&
        (res, client.pos) == SetBreakpointsCall(client.peer, old(client.pos))
    {
      if client == null {
        return Failure(NotStarted);
      }
      var err := client.Issue("setBreakpoints", Unshown);
      if err.Some? {
        return Failure(err.value);
      }
      var m := client.ReadMessage();
      if m.Err? {
        return Failure(m.error);
      }
      var msg := m.value;
      if msg.Response? && msg.body.SetBreakpointsBody? {
        if !SourcesPresent(msg.body.breakpoints) {
          return Panic(NilDereference);
        }
        var text := BuildBreakpointsText(msg.body.breakpoints);
        res := Reply(text);
      } else if msg.Response? && msg.body.ErrorBody? {
        res := Failure(msg.message);
      } else {
        res := Failure("unexpected DAP response from set breakpoints request");
      }
    }

    /** The single-read handlers that accept any response (tools.go:569-594 and the
        same shape in getVariables, setVariable, getLoadedSources, getModules,
        disassembleCode, getExceptionInfo). Events are not drained. */
    method CallPlain(command: string, failPrefix: string, okText: string) returns (res: ToolResult)
      requires Valid()
      modifies {client}`pos, {client}`nextSeq, {client}`built, {client}`written
      ensures Valid() && client == old(client) && cmd == old(cmd)
      ensures old(client) == null ==> res == Failure(NotStarted)
      ensures old(client) != null ==>
        client.IssuedOne(command, Unshown) &&
        (res, client.pos) == PlainCall(client.peer, old(client.pos), failPrefix, okText)
    {
      if client == null {
        return Failure(NotStarted);
      }
      var err := client.Issue(command, Unshown);
      if err.Some? {
        return Failure(err.value);
      }
      var m := client.ReadMessage();
      if m.Err? {
        return Failure(m.error);
      }
      res := PlainVerdict(m.value, failPrefix, okText);
    }

    method ListThreads() returns (res: ToolResult)
      requires Valid()
      modifies {client}`pos, {client}`nextSeq, {client}`built, {client}`written
      ensures Valid() && client == old(client) && cmd == old(cmd)
      ensures old(client) == null ==> res == Failure(NotStarted)
      ensures old(client) != null ==>
        client.IssuedOne("threads", Unshown) &&
        (res, client.pos) == PlainCall(client.peer, old(client.pos), "unable to get threads", "Retrieved thread list")
    {
      res := CallPlain("threads", "unable to get threads", "Retrieved thread list");
    }

    method GetVariables(variablesReference: int) returns (res: ToolResult)
      requires Valid()
      modifies {client}`pos, {client}`nextSeq, {client}`built, {client}`written
      ensures Valid() && client == old(client) && cmd == old(cmd)
      ensures old(client) == null ==> res == Failure(NotStarted)
      ensures old(client) != null ==>
        client.IssuedOne("variables", Unshown) &&
        (res, client.pos) == PlainCall(client.peer, old(client.pos), "unable to get variables", "Retrieved variables")
    {
      res := CallPlain("variables", "unable to get variables", "Retrieved variables");
    }

    method SetVariable(variablesReference: int, name: string, value: string) returns (res: ToolResult)
      requires Valid()
      modifies {client}`pos, {client}`nextSeq, {client}`built, {client}`written
      ensures Valid() && client == old(client) && cmd == old(cmd)
      ensures old(client) == null ==> res == Failure(NotStarted)
      ensures old(client) != null ==>
        client.IssuedOne("setVariable", Unshown) &&
        (res, client.pos) == PlainCall(client.peer, old(client.pos), "unable to set variable",
                                       "Set variable " + name + " to " + value)
    {
      res := CallPlain("setVariable", "unable to set variable", "Set variable " + name + " to " + value);
    }

    method GetLoadedSources() returns (res: ToolResult)
      requires Valid()
      modifies {client}`pos, {client}`nextSeq, {client}`built, {client}`written
      ensures Valid() && client == old(client) && cmd == old(cmd)
      ensures old(client) == null ==> res == Failure(NotStarted)
      ensures old(client) != null ==>
        client.IssuedOne("loadedSources", Unshown) &&
        (res, client.pos) == PlainCall(client.peer, old(client.pos), "unable to get loaded sources",
                                       "Retrieved loaded sources")
    {
      res := CallPlain("loadedSources", "unable to get loaded sources", "Retrieved loaded sources");
    }

    method GetModules() returns (res: ToolResult)
      requires Valid()
      modifies {client}`pos, {client}`nextSeq, {client}`built, {client}`written
      ensures Valid() && client == old(client) && cmd == old(cmd)
      ensures old(client) == null ==> res == Failure(NotStarted)
      ensures old(client) != null ==>
        client.IssuedOne("modules", Unshown) &&
        (res, client.pos) == PlainCall(client.peer, old(client.pos), "unable to get modules", "Retrieved modules")
    {
      res := CallPlain("modules", "unable to get modules", "Retrieved modules");
    }

    method DisassembleCode(memoryReference: string, instructionOffset: int, instructionCount: int)
      returns (res: ToolResult)
      requires Valid()
      modifies {client}`pos, {client}`nextSeq, {client}`built, {client}`written
      ensures Valid() && client == old(client) && cmd == old(cmd)
      ensures old(client) == null ==> res == Failure(NotStarted)
      ensures old(client) != null ==>
        client.IssuedOne("disassemble", Unshown) &&
        (res, client.pos) == PlainCall(client.peer, old(client.pos), "unable to disassemble", "Disassembled code")
    {
      res := CallPlain("disassemble", "unable to disassemble", "Disassembled code");
    }

    method GetExceptionInfo(threadId: int) returns (res: ToolResult)
      requires Valid()
      modifies {client}`pos, {client}`nextSeq, {client}`built, {client}`written
      ensures Valid() && client == old(client) && cmd == old(cmd)
      ensures old(client) == null ==> res == Failure(NotStarted)
      ensures old(client) != null ==>
        client.IssuedOne("exceptionInfo", Unshown) &&
        (res, client.pos) == PlainCall(client.peer, old(client.pos), "unable to get exception info",
                                       "Retrieved exception info")
    {
      res := CallPlain("exceptionInfo", "unable to get exception info", "Retrieved exception info");
    }

    /** tools.go:682-735. */
    method GetScopes(frameId: int) returns (res: ToolResult)
      requires Valid()
      modifies {client}`pos, {client}`nextSeq, {client}`built, {client}`written
      ensures Valid() && client == old(client) && cmd == old(cmd)
      ensures old(client) == null ==> res == Failure(NotStarted)
      ensures old(client) != null ==>
        var (r, q, f) := ScopesCall(frameId, client.peer, old(client.pos));
        var first := Request(old(client.nextSeq), "request", "scopes");
        res == r && client.pos == q && client.nextSeq == old(client.nextSeq) + 1 + f &&
        client.built == old(client.built) + [first] + VariablesRequests(old(client.nextSeq) + 1, f) &&
        client.written == (if client.peer.writeErr.None?
                           then old(client.written) + [Outgoing(first, Unshown)]
                                + VariablesWrites(old(client.nextSeq) + 1, f)
                           else old(client.written))
    {
      if client == null {
        return Failure(NotStarted);
      }
      var err := client.Issue("scopes", Unshown);
      if err.Some? {
        return Failure(err.value);
      }
      var m := client.ReadMessage();
      if m.Err? {
        return Failure(m.error);
      }
      var msg := m.value;
      if !(msg.Response? && msg.body.ScopesBody?) {
        return Failure("unexpected response type");
      }
      if !msg.success {
        return Failure("unable to get scopes: " + msg.message);
      }
      var text := WalkScopes(client, msg.body.scopes);
      res := Reply("Scopes for frame " + IntToString(frameId) + ":\n" + text);
    }

    /** tools.go:604-668: zero levels become 20 before the request is built. */
    method GetStackTrace(threadId: int, startFrame: int, levels: int) returns (res: ToolResult)
      requires Valid()
      modifies {client}`pos, {client}`nextSeq, {client}`built, {client}`written
      ensures Valid() && client == old(client) && cmd == old(cmd)
      ensures old(client) == null ==> res == Failure(NotStarted)
      ensures old(client) != null ==>
        client.IssuedOne("stackTrace", StackTraceInputs(threadId, startFrame, DefaultLevels(levels))) &&
        (res, client.pos) == StackTraceCall(threadId, client.peer, old(client.pos))
    {
      if client == null {
        return Failure(NotStarted);
      }
      var err := client.Issue("stackTrace", StackTraceInputs(threadId, startFrame, DefaultLevels(levels)));
      if err.Some? {
        return Failure(err.value);
      }
      var m := ReadUntil(client, NonEvent);
      if m.Err? {
        return Failure(m.error);
      }
      var msg := m.value;
      if msg.Response? && msg.success && msg.body.StackTraceBody? {
        var text := BuildStackTraceText(threadId, msg.body.stackFrames, msg.body.totalFrames);
        res := Reply(text);
      } else {
        res := StackTraceVerdict(threadId, msg);
      }
    }

    /** tools.go:775-816: an empty context becomes "repl" before the request is built. */
    method EvaluateExpression(expression: string, frameId: int, context: string) returns (res: ToolResult)
      requires Valid()
      modifies {client}`pos, {client}`nextSeq, {client}`built, {client}`written
      ensures Valid() && client == old(client) && cmd == old(cmd)
      ensures old(client) == null ==> res == Failure(NotStarted)
      ensures old(client) != null ==>
        client.IssuedOne("evaluate", EvaluateInputs(expression, frameId, DefaultContext(context))) &&
        (res, client.pos) == EvaluateCall(client.peer, old(client.pos))
    {
      if client == null {
        return Failure(NotStarted);
      }
      var err := client.Issue("evaluate", EvaluateInputs(expression, frameId, DefaultContext(context)));
      if err.Some? {
        return Failure(err.value);
      }
      var m := ReadUntil(client, NonEvent);
      if m.Err? {
        return Failure(m.error);
      }
      res := EvaluateVerdict(m.value);
    }
  }
}
