/** The pure parts of tools.go: port normalisation, argument defaults, the readiness
    line the debugger prints, and the text the handlers build from responses. */
module Format {
  import opened Wrappers
  import opened Text
  import opened Protocol

  /** tools.go:141-144: a port without a leading ':' gets one. */
  function NormalizePort(port: string): (r: string)
    ensures |r| > 0 && r[0] == ':'
    ensures ":" <= port ==> r == port
    ensures !(":" <= port) ==> r == ":" + port
  {
    if ":" <= port then port else ":" + port
  }

  /** Normalising twice is normalising once. */
  lemma NormalizePortIdempotent(port: string)
    ensures NormalizePort(NormalizePort(port)) == NormalizePort(port)
  {
  }

  /** tools.go:609-612: zero levels means 20. */
  function DefaultLevels(levels: int): (r: int)
    ensures r != 0
    ensures levels != 0 ==> r == levels
    ensures levels == 0 ==> r == 20
  {
    if levels == 0 then 20 else levels
  }

  /** tools.go:780-783: an empty evaluation context means "repl". */
  function DefaultContext(context: string): (r: string)
    ensures r != ""
    ensures context != "" ==> r == context
    ensures context == "" ==> r == "repl"
  {
    if context == "" then "repl" else context
  }

  lemma DefaultsIdempotent(levels: int, context: string)
    ensures DefaultLevels(DefaultLevels(levels)) == DefaultLevels(levels)
    ensures DefaultContext(DefaultContext(context)) == DefaultContext(context)
  {
  }

  const ReadyMarker := "DAP server listening at"

  /** tools.go:161: the line dlv prints once its DAP server accepts connections. */
  predicate IsReadyLine(line: string) {
    ReadyMarker <= line
  }

  predicate HasReadyLine(lines: seq<string>) {
    exists i :: 0 <= i < |lines| && IsReadyLine(lines[i])
  }

  /** tools.go:154-164: read stdout line by line until the readiness line. `found` is
      false when the lines run out first (the read error ends the scan); otherwise `k`
      is the first readiness line. */
  method ScanForReadiness(lines: seq<string>) returns (found: bool, k: nat)
    ensures found <==> HasReadyLine(lines)
    ensures found ==> k < |lines| && IsReadyLine(lines[k])
    ensures forall j :: 0 <= j < k && j < |lines| ==> !IsReadyLine(lines[j])
  {
    k := 0;
    while k < |lines|
      invariant k <= |lines|
      invariant forall j :: 0 <= j < k ==> !IsReadyLine(lines[j])
    {
      if IsReadyLine(lines[k]) {
        return true, k;
      }
      k := k + 1;
    }
    found := false;
  }

  /** The stop reasons `formatStoppedResponse` reports as a hit breakpoint. */
  predicate IsBreakpointReason(reason: string) {
    reason == "breakpoint" || reason == "function breakpoint"
  }

  const UnknownStopText := "Program stopped for unknown reason."

  /** tools.go:419-426. For a breakpoint reason the text names the first hit
      breakpoint, so that list must not be empty (Go would index out of range). */
  function FormatStoppedResponse(reason: string, threadId: int, hitBreakpointIds: seq<int>): (r: string)
    requires IsBreakpointReason(reason) ==> |hitBreakpointIds| > 0
    ensures IsBreakpointReason(reason) ==>
      r == "Program stopped as a result of hitting breakpoint " + IntToString(hitBreakpointIds[0])
           + " hit by thread " + IntToString(threadId)
    ensures !IsBreakpointReason(reason) ==> r == UnknownStopText
  {
    if IsBreakpointReason(reason) then
      "Program stopped as a result of hitting breakpoint " + IntToString(hitBreakpointIds[0])
      + " hit by thread " + IntToString(threadId)
    else UnknownStopText
  }

  /** The generic text is given exactly for the reasons that are not breakpoints. */
  lemma StoppedUnknownIff(reason: string, threadId: int, hitBreakpointIds: seq<int>)
    requires IsBreakpointReason(reason) ==> |hitBreakpointIds| > 0
    ensures FormatStoppedResponse(reason, threadId, hitBreakpointIds) == UnknownStopText
            <==> !IsBreakpointReason(reason)
  {
    if IsBreakpointReason(reason) {
      var r := FormatStoppedResponse(reason, threadId, hitBreakpointIds);
      assert r[16] == 'a' != UnknownStopText[16];
    }
  }

  /** tools.go:318-326: the text of one breakpoint of a set-breakpoints response. A
      verified breakpoint is described through its source, which must be present (Go
      would dereference a nil pointer). */
  function BreakpointText(bp: Breakpoint): (r: string)
    requires bp.verified ==> bp.source.Some?
  {
    if bp.verified then
      "Breakpoint created at " + bp.source.value + ":" + IntToString(bp.line)
      + " with ID " + IntToString(bp.id)
    else "Breakpoint unable to be created: " + bp.message
  }

  predicate SourcesPresent(bps: seq<Breakpoint>) {
    forall i :: 0 <= i < |bps| ==> bps[i].verified ==> bps[i].source.Some?
  }

  /** The texts of all breakpoints, in order and with nothing between them. */
  function BreakpointsText(bps: seq<Breakpoint>): string
    requires SourcesPresent(bps)
    decreases |bps|
  {
    if bps == [] then "" else BreakpointsText(bps[..|bps| - 1]) + BreakpointText(bps[|bps| - 1])
  }

  lemma SourcesPresentAppend(a: seq<Breakpoint>, b: seq<Breakpoint>)
    requires SourcesPresent(a) && SourcesPresent(b)
    ensures SourcesPresent(a + b)
  {
    forall i | 0 <= i < |a + b| ensures (a + b)[i].verified ==> (a + b)[i].source.Some? {
      if i >= |a| { assert (a + b)[i] == b[i - |a|]; }
    }
  }

  /** Appending one breakpoint appends its text. */
  lemma BreakpointsTextSnoc(xs: seq<Breakpoint>, x: Breakpoint)
    requires SourcesPresent(xs + [x])
    ensures SourcesPresent(xs) && (x.verified ==> x.source.Some?)
    ensures BreakpointsText(xs + [x]) == BreakpointsText(xs) + BreakpointText(x)
  {
    var ys := xs + [x];
    assert ys[..|ys| - 1] == xs;
    assert ys[|ys| - 1] == x;
    forall i | 0 <= i < |xs| ensures xs[i].verified ==> xs[i].source.Some? {
      assert ys[i] == xs[i];
    }
  }

  /** The text of a list is the text of its parts, one after the other. */
  lemma {:induction false} BreakpointsTextAppend(a: seq<Breakpoint>, b: seq<Breakpoint>)
    requires SourcesPresent(a) && SourcesPresent(b)
    ensures SourcesPresent(a + b)
    ensures BreakpointsText(a + b) == BreakpointsText(a) + BreakpointsText(b)
    decreases |b|
  {
    SourcesPresentAppend(a, b);
    if b == [] {
      assert a + b == a;
    } else {
      var b', last := b[..|b| - 1], b[|b| - 1];
      assert b' + [last] == b;
      assert (a + b') + [last] == a + b;
      BreakpointsTextSnoc(b', last);
      BreakpointsTextSnoc(a + b', last);
      BreakpointsTextAppend(a, b');
      var ta, tb', tl := BreakpointsText(a), BreakpointsText(b'), BreakpointText(last);
      assert BreakpointsText(a + b) == (ta + tb') + tl;
      assert BreakpointsText(b) == tb' + tl;
      ConcatAssoc(ta, tb', tl);
    }
  }

  lemma ConcatAssoc(x: string, y: string, z: string)
    ensures (x + y) + z == x + (y + z)
  {
  }

  /** The text of one response lists every breakpoint: one entry each, all starting
      with "Breakpoint ". */
  lemma BreakpointTextShape(bp: Breakpoint)
    requires bp.verified ==> bp.source.Some?
    ensures "Breakpoint " <= BreakpointText(bp)
    ensures bp.verified <==> "Breakpoint created at " <= BreakpointText(bp)
  {
    var r := BreakpointText(bp);
    if !bp.verified {
      assert r[11] == 'u' && "Breakpoint created at "[11] == 'c';
    }
  }

  /** tools.go:316-326, built with a `strings.Builder` in a loop. */
  method BuildBreakpointsText(bps: seq<Breakpoint>) returns (s: string)
    requires SourcesPresent(bps)
    ensures s == BreakpointsText(bps)
  {
    s := "";
    var i := 0;
    while i < |bps|
      invariant i <= |bps|
      invariant s == BreakpointsText(bps[..i])
    {
      assert bps[..i + 1][..i] == bps[..i];
      s := s + BreakpointText(bps[i]);
      i := i + 1;
    }
    assert bps[..i] == bps;
  }

  /** tools.go:636-641: where a frame is, when its source has a path. */
  function FrameLocation(f: StackFrame): string {
    if f.source.Some? && f.source.value != "" then
      "\n   at " + f.source.value + ":" + IntToString(f.line)
      + (if f.column > 0 then ":" + IntToString(f.column) else "")
    else ""
  }

  /** tools.go:635: the frame's index, id and name. */
  function FrameHead(i: nat, f: StackFrame): string {
    "\n#" + NatToString(i) + " (Frame ID: " + IntToString(f.id) + ") " + f.name
  }

  /** tools.go:642-645: " (runtime)" for a "subtle" frame, then the line end. */
  function FrameTail(f: StackFrame): string {
    if f.presentationHint == "subtle" then " (runtime)\n" else "\n"
  }

  /** tools.go:635-645: the entry for frame number `i`. */
  function FrameText(i: nat, f: StackFrame): string {
    FrameHead(i, f) + FrameLocation(f) + FrameTail(f)
  }

  /** The entries of all frames, numbered from 0. */
  function FramesText(frames: seq<StackFrame>): string
    decreases |frames|
  {
    if frames == [] then ""
    else FramesText(frames[..|frames| - 1]) + FrameText(|frames| - 1, frames[|frames| - 1])
  }

  /** tools.go:631-648: the whole stack-trace text. */
  function StackTraceText(threadId: int, frames: seq<StackFrame>, totalFrames: int): string {
    "Stack trace for thread " + IntToString(threadId) + ":\n" + FramesText(frames)
    + "\nTotal frames: " + IntToString(totalFrames)
  }

  /** The location is shown exactly for frames whose source has a path, the column
      only when it is positive, and " (runtime)" marks exactly the "subtle" frames. */
  lemma FrameTextParts(i: nat, f: StackFrame)
    ensures FrameLocation(f) != "" <==> f.source.Some? && f.source.value != ""
    ensures f.source.Some? && f.source.value != "" ==>
      FrameLocation(f) == "\n   at " + f.source.value + ":" + IntToString(f.line)
                          + (if f.column > 0 then ":" + IntToString(f.column) else "")
    ensures var t := FrameText(i, f);
            (f.presentationHint == "subtle" ==> |t| >= 11 && t[|t| - 11..] == " (runtime)\n") &&
            (f.presentationHint != "subtle" ==> t[|t| - |FrameLocation(f)| - 1..] == FrameLocation(f) + "\n")
    ensures "\n#" + NatToString(i) + " (Frame ID: " + IntToString(f.id) + ") " <= FrameText(i, f)
  {
    var start := "\n#" + NatToString(i) + " (Frame ID: " + IntToString(f.id) + ") ";
    var rest := f.name;
    var head, loc, tail := FrameHead(i, f), FrameLocation(f), FrameTail(f);
    var t := FrameText(i, f);
    assert t == (head + loc) + tail;
    ConcatAssoc(head, loc, tail);
    assert head == start + rest;
    ConcatPrefix(start, rest);
    ConcatPrefix(head, loc + tail);
    PrefixOfExtension(start, rest, t);
    if f.presentationHint == "subtle" {
      ConcatSuffix(head + loc, tail);
    } else {
      ConcatSuffix(head, loc + tail);
    }
  }

  lemma ConcatPrefix(a: string, b: string)
    ensures a <= a + b
  {
  }

  lemma ConcatSuffix(a: string, b: string)
    ensures (a + b)[|a + b| - |b|..] == b
  {
    assert (a + b)[|a|..] == b;
  }

  /** A prefix of an extension is a prefix. */
  lemma PrefixOfExtension(a: string, b: string, c: string)
    requires a + b <= c
    ensures a <= c
  {
    assert forall j :: 0 <= j < |a| ==> a[j] == (a + b)[j];
  }

  /** Building the frames one by one only ever appends: the text for the first `n`
      frames is a prefix of the text for all of them. */
  lemma {:induction false} FramesTextPrefix(frames: seq<StackFrame>, n: nat)
    requires n <= |frames|
    ensures FramesText(frames[..n]) <= FramesText(frames)
    decreases |frames| - n
  {
    if n < |frames| {
      FramesTextPrefix(frames, n + 1);
      var m := frames[..n + 1];
      assert m[..|m| - 1] == frames[..n];
      var before, entry := FramesText(frames[..n]), FrameText(n, frames[n]);
      assert FramesText(m) == before + entry;
      PrefixOfExtension(before, entry, FramesText(frames));
    } else {
      assert frames[..n] == frames;
    }
  }

  /** tools.go:631-648, built with a `strings.Builder` in a loop over the frames. */
  method BuildStackTraceText(threadId: int, frames: seq<StackFrame>, totalFrames: int)
    returns (s: string)
    ensures s == StackTraceText(threadId, frames, totalFrames)
  {
    var header := "Stack trace for thread " + IntToString(threadId) + ":\n";
    var body := "";
    var i := 0;
    while i < |frames|
      invariant i <= |frames|
      invariant body == FramesText(frames[..i])
    {
      var entry := FrameText(i, frames[i]);
      assert frames[..i + 1][..i] == frames[..i];
      assert FramesText(frames[..i + 1]) == FramesText(frames[..i]) + entry;
      body := body + entry;
      i := i + 1;
    }
    assert frames[..i] == frames;
    s := header + body + "\nTotal frames: " + IntToString(totalFrames);
  }

  /** tools.go:703-707: the line that introduces one scope. */
  function ScopeHeader(s: Scope): string {
    "\n" + s.name + " (ref: " + IntToString(s.variablesReference)
    + (if s.expensive then ", expensive" else "") + ")\n"
  }

  /** tools.go:717-721: one variable of a scope, with its type when there is one. */
  function VariableText(v: Variable): string {
    "  " + v.name + (if v.varType != "" then " (" + v.varType + ")" else "") + " = " + v.value + "\n"
  }

  /** The lines of all variables, in order. */
  function VariablesText(vs: seq<Variable>): string
    decreases |vs|
  {
    if vs == [] then "" else VariablesText(vs[..|vs| - 1]) + VariableText(vs[|vs| - 1])
  }

  /** A variable line shows the type in parentheses exactly when it has one, e.g.
      "  x (int) = 10". */
  lemma VariableTextTyped(v: Variable)
    ensures v.varType != "" ==> VariableText(v) == "  " + v.name + " (" + v.varType + ") = " + v.value + "\n"
    ensures v.varType == "" ==> VariableText(v) == "  " + v.name + " = " + v.value + "\n"
  {
  }

  /** tools.go:716-722, a loop appending to a `strings.Builder`. */
  method BuildVariablesText(vs: seq<Variable>) returns (s: string)
    ensures s == VariablesText(vs)
  {
    s := "";
    var i := 0;
    while i < |vs|
      invariant i <= |vs|
      invariant s == VariablesText(vs[..i])
    {
      assert vs[..i + 1][..i] == vs[..i];
      s := s + VariableText(vs[i]);
      i := i + 1;
    }
    assert vs[..i] == vs;
  }

  /** tools.go:802-805: the result, followed by its type when there is one. */
  function EvaluateText(result: string, resultType: string): (r: string)
    ensures result <= r
  {
    if resultType != "" then result + " (type: " + resultType + ")" else result
  }

  /** The type suffix is added exactly when the type is not empty. */
  lemma EvaluateTextPlainIff(result: string, resultType: string)
    ensures EvaluateText(result, resultType) == result <==> resultType == ""
    ensures resultType != "" ==>
      EvaluateText(result, resultType)[|result|..] == " (type: " + resultType + ")"
  {
  }
}
