/** Properties of the handlers' read loops and of the session, stated over the
    specification functions of module Tools. */
module Properties {
  import opened Wrappers
  import opened Text
  import opened Protocol
  import opened Dap
  import opened Correlate
  import opened Format
  import opened Tools

  /** The stream `p` with `skipped` read before it. */
  function Behind(skipped: seq<Msg>, p: Peer): Peer {
    Peer(skipped + p.incoming, p.readErr, p.writeErr)
  }

  // --- readAndValidateResponse -------------------------------------------------

  /** The first response ends the wait, whatever its command or `request_seq`, and
      the call fails exactly when that response reports failure. */
  lemma ValidateDecidedByFirstResponse(p: Peer, pos: nat, prefix: string, k: nat)
    requires pos <= k < |p.incoming| && p.incoming[k].Response?
    requires forall j :: pos <= j < k ==> !p.incoming[j].Response?
    ensures ValidateResponse(p, pos, prefix) ==
      (if p.incoming[k].success then None else Some(prefix + ": " + p.incoming[k].message), k + 1)
  {
    AwaitFirstEnding(AnyResponse, p, pos, k);
  }

  /** Without a response the read error comes back unchanged. */
  lemma ValidateReadError(p: Peer, pos: nat, prefix: string)
    requires pos <= |p.incoming|
    requires forall j :: pos <= j < |p.incoming| ==> !p.incoming[j].Response?
    ensures ValidateResponse(p, pos, prefix) == (Some(p.readErr), |p.incoming|)
  {
    AwaitNoEnding(AnyResponse, p, pos);
  }

  /** Events and requests from the adapter before the response change nothing. */
  lemma ValidateSkipsNonResponses(skipped: seq<Msg>, p: Peer, prefix: string)
    requires forall j :: 0 <= j < |skipped| ==> !skipped[j].Response?
    ensures ValidateResponse(Behind(skipped, p), 0, prefix).0 == ValidateResponse(p, 0, prefix).0
  {
    AwaitSkipsPrefix(AnyResponse, skipped, p);
  }

  // --- continue / next / step in / step out -------------------------------------

  /** A successful response does not end the wait. */
  lemma ExecutionSkipsSuccess(k: StepKind, p: Peer, pos: nat)
    requires p.writeErr.None?
    requires pos < |p.incoming| && p.incoming[pos].Response? && p.incoming[pos].success
    ensures ExecutionCall(k, p, pos) == ExecutionCall(k, p, pos + 1)
  {
    FirstEndIs(Execution, p.incoming, pos, FirstEnd(Execution, p.incoming, pos + 1));
  }

  /** The first failed response, stopped event or terminated event decides. */
  lemma ExecutionDecidedByFirst(k: StepKind, p: Peer, pos: nat, j: nat)
    requires p.writeErr.None?
    requires pos <= j < |p.incoming| && Ends(Execution, p.incoming[j])
    requires forall i :: pos <= i < j ==> !Ends(Execution, p.incoming[i])
    ensures ExecutionCall(k, p, pos) == (ExecutionVerdict(k, p.incoming[j]), j + 1)
  {
    AwaitFirstEnding(Execution, p, pos, j);
  }

  /** A stop at a breakpoint is reported with the handler's header, the first hit
      breakpoint and the thread; a termination with the handler's termination text. */
  lemma ExecutionReports(k: StepKind, m: Msg)
    requires Ends(Execution, m)
    ensures m.Event? && m.event.Stopped? && IsBreakpointReason(m.event.reason) && |m.event.hitBreakpointIds| > 0 ==>
      ExecutionVerdict(k, m) == Reply(StoppedHeader(k) + ("Program stopped as a result of hitting breakpoint "
        + IntToString(m.event.hitBreakpointIds[0]) + " hit by thread " + IntToString(m.event.threadId)))
    ensures m.Event? && m.event.Stopped? && !IsBreakpointReason(m.event.reason) ==>
      ExecutionVerdict(k, m) == Reply(StoppedHeader(k) + UnknownStopText)
    ensures m.Event? && m.event.Terminated? ==> ExecutionVerdict(k, m) == Reply(TerminationText(k))
    ensures m.Response? ==> ExecutionVerdict(k, m) == Failure(StepFailurePrefix(k) + ": " + m.message)
  {
    if m.Event? && m.event.Stopped? {
      var e := m.event;
      if IsBreakpointReason(e.reason) && |e.hitBreakpointIds| > 0 {
        var f := FormatStoppedResponse(e.reason, e.threadId, e.hitBreakpointIds);
        assert ExecutionVerdict(k, m) == Reply(StoppedHeader(k) + f);
      }
    }
  }

  /** Successful responses, other events and adapter requests may come first in any
      number and order: the outcome is the same. */
  lemma ExecutionSkipsNonDecisive(k: StepKind, skipped: seq<Msg>, p: Peer)
    requires forall j :: 0 <= j < |skipped| ==> !Ends(Execution, skipped[j])
    ensures ExecutionCall(k, Behind(skipped, p), 0).0 == ExecutionCall(k, p, 0).0
  {
    AwaitSkipsPrefix(Execution, skipped, p);
  }

  /** When the stream ends before anything decisive, the read error is returned. */
  lemma ExecutionReadError(k: StepKind, p: Peer, pos: nat)
    requires p.writeErr.None? && pos <= |p.incoming|
    requires forall j :: pos <= j < |p.incoming| ==> !Ends(Execution, p.incoming[j])
    ensures ExecutionCall(k, p, pos) == (Failure(p.readErr), |p.incoming|)
  {
    AwaitNoEnding(Execution, p, pos);
  }

  // --- stack trace and evaluate ---------------------------------------------------

  predicate AllEvents(ms: seq<Msg>) {
    forall j :: 0 <= j < |ms| ==> ms[j].Event?
  }

  /** Events before the answer are drained; the first other message decides. */
  lemma StackTraceSkipsEvents(threadId: int, events: seq<Msg>, p: Peer)
    requires AllEvents(events)
    ensures StackTraceCall(threadId, Behind(events, p), 0).0 == StackTraceCall(threadId, p, 0).0
  {
    AwaitSkipsPrefix(NonEvent, events, p);
  }

  lemma EvaluateSkipsEvents(events: seq<Msg>, p: Peer)
    requires AllEvents(events)
    ensures EvaluateCall(Behind(events, p), 0).0 == EvaluateCall(p, 0).0
  {
    AwaitSkipsPrefix(NonEvent, events, p);
  }

  /** The answers the stack-trace loop gives, by the message that ends it. */
  lemma StackTraceOutcomes(threadId: int, m: Msg)
    requires !m.Event?
    ensures m.Response? && !m.success ==>
      StackTraceVerdict(threadId, m) == Failure("unable to get stack trace: " + m.message)
    ensures m.Response? && m.success && m.body.StackTraceBody? ==>
      StackTraceVerdict(threadId, m).Reply? &&
      "Stack trace for thread " + IntToString(threadId) + ":\n" <= StackTraceVerdict(threadId, m).text
    ensures m.Response? && m.success && !m.body.StackTraceBody? ==>
      StackTraceVerdict(threadId, m) == Failure("received generic response instead of StackTraceResponse")
    ensures m.ServerRequest? ==> StackTraceVerdict(threadId, m) == Failure("unexpected response type: " + m.goType)
  {
  }

  /** The evaluate loop answers with the result (and its type) only for a successful
      evaluate response; any other response is an unexpected type. */
  lemma EvaluateOutcomes(m: Msg)
    requires !m.Event?
    ensures EvaluateVerdict(m).Reply? <==> m.Response? && m.success && m.body.EvaluateBody?
    ensures EvaluateVerdict(m).Reply? ==> m.body.result <= EvaluateVerdict(m).text
  {
  }

  // --- single reads ---------------------------------------------------------------

  /** The single-read handlers do not drain events: an event that arrives first is
      an unexpected response type, and it is consumed. */
  lemma PlainCallEventFirst(p: Peer, pos: nat, failPrefix: string, okText: string)
    requires p.writeErr.None? && pos < |p.incoming| && p.incoming[pos].Event?
    ensures PlainCall(p, pos, failPrefix, okText) == (Failure("unexpected response type"), pos + 1)
  {
  }

  lemma SetBreakpointsEventFirst(p: Peer, pos: nat)
    requires p.writeErr.None? && pos < |p.incoming| && p.incoming[pos].Event?
    ensures SetBreakpointsCall(p, pos) ==
      (Failure("unexpected DAP response from set breakpoints request"), pos + 1)
  {
  }

  /** An error response's message becomes the error; a breakpoints response becomes
      the breakpoints' texts, whatever its success flag. */
  lemma SetBreakpointsOutcomes(m: Msg)
    ensures m.Response? && m.body.ErrorBody? ==> SetBreakpointsVerdict(m) == Failure(m.message)
    ensures m.Response? && m.body.SetBreakpointsBody? && SourcesPresent(m.body.breakpoints) ==>
      SetBreakpointsVerdict(m) == Reply(BreakpointsText(m.body.breakpoints))
  {
  }

  // --- getScopes --------------------------------------------------------------------

  /** At most one variables request per scope. */
  lemma {:induction false} FetchesAtMostScopes(scopes: seq<Scope>)
    ensures Fetches(scopes) <= |scopes|
    decreases |scopes|
  {
    if scopes != [] {
      FetchesAtMostScopes(scopes[..|scopes| - 1]);
    }
  }

  /** The walk reads exactly one message per fetched scope, stopping at the end of
      the stream: it never waits for the response that belongs to its request. */
  lemma {:induction false} ScopesWalkAdvance(scopes: seq<Scope>, p: Peer, pos: nat)
    requires pos <= |p.incoming|
    ensures ScopesWalk(scopes, p, pos).1 ==
      if pos + Fetches(scopes) <= |p.incoming| then pos + Fetches(scopes) else |p.incoming|
    decreases |scopes|
  {
    if scopes != [] {
      ScopesWalkAdvance(scopes[..|scopes| - 1], p, pos);
    }
  }

  /** Scopes without variables cost no read and show only their header lines. */
  lemma {:induction false} ScopesWalkNoFetch(scopes: seq<Scope>, p: Peer, pos: nat)
    requires pos <= |p.incoming|
    requires forall j :: 0 <= j < |scopes| ==> scopes[j].variablesReference <= 0
    ensures ScopesWalk(scopes, p, pos) == (ScopeHeaders(scopes), pos)
    ensures Fetches(scopes) == 0
    decreases |scopes|
  {
    if scopes != [] {
      ScopesWalkNoFetch(scopes[..|scopes| - 1], p, pos);
    }
  }

  /** The header lines alone. */
  function ScopeHeaders(scopes: seq<Scope>): string
    decreases |scopes|
  {
    if scopes == [] then "" else ScopeHeaders(scopes[..|scopes| - 1]) + ScopeHeader(scopes[|scopes| - 1])
  }

  /** Whatever comes back in place of a variables response (an event, a failed
      response, the end of the stream) is consumed and adds only the header. */
  lemma ScopeStepSwallows(s: Scope, p: Peer, pos: nat)
    requires pos <= |p.incoming| && s.variablesReference > 0
    requires pos < |p.incoming| ==>
      !(p.incoming[pos].Response? && p.incoming[pos].success && p.incoming[pos].body.VariablesBody?)
    ensures ScopeStep(s, p, pos) == (ScopeHeader(s), if pos < |p.incoming| then pos + 1 else pos)
  {
    var (m, _) := ReadNext(p, pos);
    assert FetchedText(m) == "";
    assert ScopeHeader(s) + "" == ScopeHeader(s);
  }

  /** A successful scopes response always yields a reply: failures of the nested
      variables reads never surface. */
  lemma ScopesSucceedOnScopesResponse(frameId: int, p: Peer, pos: nat)
    requires pos < |p.incoming| && p.writeErr.None?
    requires p.incoming[pos].Response? && p.incoming[pos].success && p.incoming[pos].body.ScopesBody?
    ensures ScopesCall(frameId, p, pos).0.Reply?
    ensures "Scopes for frame " + IntToString(frameId) + ":\n" <= ScopesCall(frameId, p, pos).0.text
    ensures ScopesCall(frameId, p, pos).2 == Fetches(p.incoming[pos].body.scopes)
  {
  }

  /** getScopes does not skip events: an event where the scopes response should be
      fails the call as an unexpected response type. */
  lemma ScopesEventFirst(frameId: int, p: Peer, pos: nat)
    requires pos < |p.incoming| && p.writeErr.None? && p.incoming[pos].Event?
    ensures ScopesCall(frameId, p, pos) == (Failure("unexpected response type"), pos + 1, 0)
  {
  }

  // --- the session ------------------------------------------------------------------

  /** tools.go:222-227: "already finished" anywhere in the kill error is tolerated. */
  lemma KillToleratedIff(k: KillOutcome)
    requires k.KillFailed?
    ensures KillTolerated(k) <==> exists i :: 0 <= i <= |k.error| && "process already finished" <= k.error[i..]
  {
    ContainsIff(k.error, "process already finished");
  }

  /** Each start makes a new client whose numbering starts again at 1: the initialize
      request of the second start carries 1 again, and the first client, which had
      gone on to 2, is left as it was. */
  method StartTwiceRenumbers(s: DebuggerSession, port: string, launch: Launch, p1: Peer, p2: Peer)
    returns (first: DAPClient)
    requires s.Valid() && LaunchFailure(launch).None?
    modifies s
    ensures s.Valid() && s.client != null && s.client != first
    ensures s.client.nextSeq == 2 && s.client.built == [Request(1, "request", "initialize")]
    ensures first.nextSeq == 3
    ensures first.built == [Request(1, "request", "initialize"), Request(2, "request", "configurationDone")]
  {
    var _ := s.StartDebugger(port, launch, p1);
    first := s.client;
    var _ := s.ConfigurationDone();
    var _ := s.StartDebugger(port, launch, p2);
  }

  /** Stopping twice after a successful start: the second stop finds no process,
      says so, and changes nothing. */
  method StopTwice(s: DebuggerSession, kill: KillOutcome, again: KillOutcome)
    returns (second: ToolResult)
    requires s.Valid() && KillTolerated(kill) && (s.cmd.Some? ==> s.cmd.value.started)
    modifies s, {s.client}`closed
    ensures s.Valid() && s.cmd.None? && s.client == null
    ensures second == Reply(NoDebuggerText)
  {
    var _ := s.StopDebugger(kill);
    second := s.StopDebugger(again);
  }

  /** When `Start` fails (no `dlv` on the path, say), the process stays recorded with
      a nil `Process`, and the next stop drops the client and then panics. */
  method StopAfterFailedStart(s: DebuggerSession, port: string, launch: Launch, p: Peer, kill: KillOutcome)
    returns (started: ToolResult, stopped: ToolResult)
    requires s.Valid() && launch.pipeErr.None? && launch.startErr.Some?
    modifies s, {s.client}`closed
    ensures started == Failure(launch.startErr.value)
    ensures stopped == Panic(NilDereference) && s.client == null && s.cmd.Some?
  {
    started := s.StartDebugger(port, launch, p);
    stopped := s.StopDebugger(kill);
  }

  /** Only stopDebugger and disconnect close the connection: a started session stays
      connected, with the same client, through any other tool calls. */
  method OtherToolsKeepConnection(s: DebuggerSession, path: string, threadId: int)
    requires s.Valid() && s.client != null && !s.client.closed
    modifies s.client`pos, s.client`nextSeq, s.client`built, s.client`written
    ensures s.Valid() && s.client == old(s.client) && !s.client.closed && s.cmd == old(s.cmd)
  {
    var _ := s.ExecProgram(path);
    var _ := s.SetBreakpoints(path, [7]);
    var _ := s.ContinueExecution(threadId);
    var _ := s.ListThreads();
    var _ := s.GetStackTrace(threadId, 0, 0);
    var _ := s.EvaluateExpression("x", 0, "");
    var _ := s.GetScopes(0);
  }
}
