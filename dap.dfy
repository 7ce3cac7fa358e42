/** dap.go: the client side of one Debug Adapter Protocol connection. Its one piece of
    state of its own is the sequence counter: section "Base Protocol" of the Debug
    Adapter Protocol specification asks that the first message carry `seq` 1 and each
    later one the previous number plus one. */
module Dap {
  import opened Wrappers
  import opened Protocol

  /** `dap.InitializeRequestArguments` as `InitializeRequest` fills it in, the launch
      argument map of `LaunchRequest`, and the inputs tools.go itself computes for the
      builders whose bodies are not part of this model. */
  datatype Arguments =
    | InitializeArguments(
        adapterId: string, pathFormat: string, linesStartAt1: bool, columnsStartAt1: bool,
        supportsVariableType: bool, supportsVariablePaging: bool,
        supportsRunInTerminalRequest: bool, locale: string)
    | LaunchArguments(request: string, mode: string, program: string, stopOnEntry: bool)
    | StackTraceInputs(threadId: int, startFrame: int, levels: int)
    | EvaluateInputs(expression: string, frameId: int, context: string)
    | RestartArguments(request: string, mode: string, stopOnEntry: bool, args: seq<string>)
    | Unshown

  const InitializeArgs: Arguments :=
    InitializeArguments("go", "path", true, true, true, true, true, "en-us")

  /** `dap.Request`, the header `newRequest` builds (`Type`, `Command`, `Seq`). */
  datatype Request = Request(seqNum: int, messageType: string, command: string)

  /** A request as it is written to the connection: the header and its arguments. */
  datatype Outgoing = Outgoing(request: Request, arguments: Arguments)

  /** The requests of one client, in the order they were built, carry 1, 2, 3, ... */
  ghost predicate NumberedFromOne(rs: seq<Request>) {
    forall i :: 0 <= i < |rs| ==> rs[i].seqNum == i + 1 && rs[i].messageType == "request"
  }

  /** So no two requests of one client share a number, and later ones carry larger ones. */
  lemma NumberedFromOneIncreasing(rs: seq<Request>, i: int, j: int)
    requires NumberedFromOne(rs)
    requires 0 <= i < j < |rs|
    ensures rs[i].seqNum < rs[j].seqNum
  {
  }

  /** Numbering is kept by appending exactly the next number, and only by that. */
  lemma NumberedFromOneAppend(rs: seq<Request>, r: Request)
    ensures NumberedFromOne(rs + [r]) <==>
            NumberedFromOne(rs) && r.seqNum == |rs| + 1 && r.messageType == "request"
  {
    if NumberedFromOne(rs + [r]) {
      assert (rs + [r])[|rs|] == r;
      forall i | 0 <= i < |rs| ensures rs[i].seqNum == i + 1 && rs[i].messageType == "request" {
        assert (rs + [r])[i] == rs[i];
      }
    }
  }

  /** The requests written to one connection carry 1, 2, 3, ... in the order they
      were written: no gaps and no repeats. */
  lemma WireNumbered(c: DAPClient)
    requires c.Valid()
    ensures forall i :: 0 <= i < |c.written| ==>
      c.written[i].request.seqNum == i + 1 && c.written[i].request.messageType == "request"
    ensures c.peer.writeErr.None? ==> |c.written| == c.nextSeq - 1
  {
  }

  /** `DAPClient`. The connection it owns is modelled by `peer` (what the debugger will
      send and whether writes fail), `pos` (how much of it the reader has consumed),
      `written` (what has been sent) and `closed`. */
  class DAPClient {
    const address: string
    const peer: Peer
    /** The `seq` field: the number the next request will carry. */
    var nextSeq: int
    /** Every request `newRequest` has built on this client, in order. */
    ghost var built: seq<Request>
    var written: seq<Outgoing>
    var pos: nat
    var closed: bool

    /** The counter and the build log agree, and the reader is inside the stream. */
    ghost predicate Numbered()
      reads this
    {
      nextSeq == |built| + 1 && NumberedFromOne(built) && pos <= |peer.incoming|
    }

    /** What went over the wire is the build log, request by request (nothing, when
        writes fail). */
    ghost predicate WireMatchesLog()
      reads this
    {
      |written| == (if peer.writeErr.None? then |built| else 0) &&
      forall i :: 0 <= i < |written| ==> written[i].request == built[i]
    }

    ghost predicate Valid()
      reads this
    {
      Numbered() && WireMatchesLog()
    }

    /** `newDAPClient(address)` followed by `newDAPClientFromConn`: the dial is assumed
        to succeed, and the counter starts at 1. */
    constructor FromConn(address: string, peer: Peer)
      ensures Valid()
      ensures this.address == address && this.peer == peer
      ensures nextSeq == 1 && built == [] && written == [] && pos == 0 && !closed
    {
      this.address := address;
      this.peer := peer;
      nextSeq := 1;
      built := [];
      written := [];
      pos := 0;
      closed := false;
    }

    /** `Close`. */
    method Close()
      modifies this`closed
      ensures closed
    {
      closed := true;
    }

    /** `newRequest`: stamps the current counter on a new request header, then
        increments the counter. */
    method NewRequest(command: string) returns (r: Request)
      requires Numbered()
      modifies this`nextSeq, this`built
      ensures Numbered()
      ensures r == Request(old(nextSeq), "request", command)
      ensures nextSeq == old(nextSeq) + 1 && built == old(built) + [r]
    {
      r := Request(nextSeq, "request", command);
      NumberedFromOneAppend(built, r);
      built := built + [r];
      nextSeq := nextSeq + 1;
    }

    /** `send`: one write to the connection. */
    method Send(m: Outgoing) returns (err: Option<string>)
      modifies this`written
      ensures err == peer.writeErr
      ensures written == if err.None? then old(written) + [m] else old(written)
    {
      err := peer.writeErr;
      if err.None? {
        written := written + [m];
      }
    }

    /** One request built by `newRequest` with the given arguments and written. */
    twostate predicate IssuedOne(command: string, args: Arguments)
      reads this
    {
      nextSeq == old(nextSeq) + 1 &&
      built == old(built) + [Request(old(nextSeq), "request", command)] &&
      written == (if peer.writeErr.None?
                  then old(written) + [Outgoing(Request(old(nextSeq), "request", command), args)]
                  else old(written))
    }

    /** A request builder: one `newRequest` and one `send`. This is what the builders
        dap.go shows do; the ones tools.go calls beyond those are assumed to do the same. */
    method Issue(command: string, args: Arguments) returns (err: Option<string>)
      requires Valid()
      modifies this`nextSeq, this`built, this`written
      ensures Valid()
      ensures IssuedOne(command, args)
      ensures err == peer.writeErr
    {
      var r := NewRequest(command);
      err := Send(Outgoing(r, args));
      assert forall i :: 0 <= i < |old(built)| ==> built[i] == old(built)[i];
    }

    /** `InitializeRequest`. */
    method InitializeRequest() returns (err: Option<string>)
      requires Valid()
      modifies this`nextSeq, this`built, this`written
      ensures Valid()
      ensures IssuedOne("initialize", InitializeArgs)
      ensures err == peer.writeErr
    {
      err := Issue("initialize", InitializeArgs);
    }

    /** `LaunchRequest(mode, program, stopOnEntry)`. */
    method LaunchRequest(mode: string, program: string, stopOnEntry: bool) returns (err: Option<string>)
      requires Valid()
      modifies this`nextSeq, this`built, this`written
      ensures Valid()
      ensures IssuedOne("launch", LaunchArguments("launch", mode, program, stopOnEntry))
      ensures err == peer.writeErr
    {
      err := Issue("launch", LaunchArguments("launch", mode, program, stopOnEntry));
    }

    /** `ReadMessage`: the next message of the stream, or the read error at its end. */
    method ReadMessage() returns (r: Result<Msg>)
      requires Valid()
      modifies this`pos
      ensures Valid()
      ensures (r, pos) == ReadNext(peer, old(pos))
    {
      if pos < |peer.incoming| {
        r := Ok(peer.incoming[pos]);
        pos := pos + 1;
      } else {
        r := Err(peer.readErr);
      }
    }
  }
}
