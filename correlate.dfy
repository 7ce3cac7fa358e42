/** The read loops of tools.go. Each reads messages one at a time and stops at the first
    message that decides its handler's outcome; every other message is read and
    dropped. Matching is by message type only: no loop looks at `request_seq`. A
    `Waiter` says which messages decide. */
module Correlate {
  import opened Wrappers
  import opened Protocol
  import opened Dap

  datatype Waiter =
    /** `readAndValidateResponse` (tools.go:279-295): any response. */
    | AnyResponse
    /** The continue/next/step-in/step-out loops (tools.go:394-416 and the three
        copies after it): a failed response, a stopped event or a terminated event. */
    | Execution
    /** The stack-trace and evaluate loops (tools.go:619-667, 791-815): anything that
        is not an event. */
    | NonEvent

  predicate Ends(w: Waiter, m: Msg) {
    match w
    case AnyResponse => m.Response?
    case Execution =>
      (m.Response? && !m.success) || (m.Event? && (m.event.Stopped? || m.event.Terminated?))
    case NonEvent => !m.Event?
  }

  /** The position of the first message at or after `from` that ends the wait, or the
      end of the stream when none does. */
  function FirstEnd(w: Waiter, msgs: seq<Msg>, from: nat): (k: nat)
    requires from <= |msgs|
    ensures from <= k <= |msgs|
    ensures k < |msgs| ==> Ends(w, msgs[k])
    ensures forall j :: from <= j < k ==> !Ends(w, msgs[j])
    decreases |msgs| - from
  {
    if from == |msgs| || Ends(w, msgs[from]) then from else FirstEnd(w, msgs, from + 1)
  }

  /** The three facts `FirstEnd` promises determine it. */
  lemma {:induction false} FirstEndIs(w: Waiter, msgs: seq<Msg>, from: nat, k: nat)
    requires from <= k <= |msgs|
    requires k < |msgs| ==> Ends(w, msgs[k])
    requires forall j :: from <= j < k ==> !Ends(w, msgs[j])
    ensures FirstEnd(w, msgs, from) == k
    decreases k - from
  {
    if from < k {
      assert !Ends(w, msgs[from]);
      FirstEndIs(w, msgs, from + 1, k);
    }
  }

  /** Reading from `pos` until `w` is satisfied: the message that ended the wait and
      the position after it, or the read error once the stream is used up. */
  function Await(w: Waiter, p: Peer, pos: nat): (r: (Result<Msg>, nat))
    requires pos <= |p.incoming|
    ensures pos <= r.1 <= |p.incoming|
    ensures r.0.Ok? ==> Ends(w, r.0.value) && r.1 > pos && r.0.value == p.incoming[r.1 - 1]
    ensures r.0.Err? ==> r.0.error == p.readErr && r.1 == |p.incoming|
    ensures forall j :: pos <= j < r.1 - (if r.0.Ok? then 1 else 0) ==> !Ends(w, p.incoming[j])
  {
    var k := FirstEnd(w, p.incoming, pos);
    if k < |p.incoming| then (Ok(p.incoming[k]), k + 1) else (Err(p.readErr), k)
  }

  /** The first message that ends the wait decides it, whatever came before. */
  lemma AwaitFirstEnding(w: Waiter, p: Peer, pos: nat, k: nat)
    requires pos <= k < |p.incoming|
    requires Ends(w, p.incoming[k])
    requires forall j :: pos <= j < k ==> !Ends(w, p.incoming[j])
    ensures Await(w, p, pos) == (Ok(p.incoming[k]), k + 1)
  {
    FirstEndIs(w, p.incoming, pos, k);
  }

  /** When no message ends the wait, the loop reads the whole stream and returns the
      read error unchanged. */
  lemma AwaitNoEnding(w: Waiter, p: Peer, pos: nat)
    requires pos <= |p.incoming|
    requires forall j :: pos <= j < |p.incoming| ==> !Ends(w, p.incoming[j])
    ensures Await(w, p, pos) == (Err(p.readErr), |p.incoming|)
  {
    FirstEndIs(w, p.incoming, pos, |p.incoming|);
  }

  /** Messages that do not end the wait may be put in front of a stream in any number
      and order: the outcome is the same, only later in the stream. */
  lemma AwaitSkipsPrefix(w: Waiter, skipped: seq<Msg>, p: Peer)
    requires forall j :: 0 <= j < |skipped| ==> !Ends(w, skipped[j])
    ensures var q := Peer(skipped + p.incoming, p.readErr, p.writeErr);
            Await(w, q, 0).0 == Await(w, p, 0).0 &&
            Await(w, q, 0).1 == |skipped| + Await(w, p, 0).1
  {
    var q := Peer(skipped + p.incoming, p.readErr, p.writeErr);
    var k := FirstEnd(w, p.incoming, 0);
    forall j | 0 <= j < |skipped| + k ensures !Ends(w, q.incoming[j]) {
      if j >= |skipped| {
        assert q.incoming[j] == p.incoming[j - |skipped|];
      }
    }
    if k < |p.incoming| {
      assert q.incoming[|skipped| + k] == p.incoming[k];
    }
    FirstEndIs(w, q.incoming, 0, |skipped| + k);
  }

  /** The loop shared by tools.go's read loops: `ReadMessage` until a message ends the
      wait or a read fails. */
  method ReadUntil(client: DAPClient, w: Waiter) returns (r: Result<Msg>)
    requires client.Valid()
    modifies client`pos
    ensures client.Valid()
    ensures (r, client.pos) == Await(w, client.peer, old(client.pos))
  {
    while true
      invariant client.Valid()
      invariant old(client.pos) <= client.pos
      invariant forall j :: old(client.pos) <= j < client.pos ==> !Ends(w, client.peer.incoming[j])
      decreases |client.peer.incoming| - client.pos
    {
      r := client.ReadMessage();
      if r.Err? {
        FirstEndIs(w, client.peer.incoming, old(client.pos), client.pos);
        return;
      }
      if Ends(w, r.value) {
        FirstEndIs(w, client.peer.incoming, old(client.pos), client.pos - 1);
        return;
      }
    }
  }
}
