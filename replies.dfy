/** How each request kind turns what its wait produced into a result:
    which reply kinds it accepts, how an ErrorMsg, a timeout or a
    cancellation is reported, and how "message" waits past Acks. */
module Replies {
  import opened Types

  /** What one wait on a request's reply channel produced: the fixed
      timeout elapsed, the caller's context was done, or a message arrived. */
  datatype Wait = TimedOut | Cancelled | Replied(msg: Msg)

  /** The Go type of a decoded message, as the type switches see it. */
  datatype MsgKind = SuccessKind | ErrorKind | AckKind | EventKind | InfoKind | OtherKind

  function KindOf(m: Msg): MsgKind
  {
    match m
    case SuccessMsg(_, _) => SuccessKind
    case ErrorMsg(_, _) => ErrorKind
    case AckMsg => AckKind
    case EventMsg(_, _) => EventKind
    case InfoMsg(_) => InfoKind
    case OtherMsg(_, _) => OtherKind
  }

  /** The reply switch shared by Info, KeepAlive, Request, Trickle and
      TrickleMany (and by Message once Acks are skipped): only a message
      of kind `want` succeeds; an ErrorMsg becomes the server's error, any
      other message `unexpected(request)`, and a timeout or cancellation
      is reported as such. `what` is the request as the timeout text names it. */
  function Expect(w: Wait, want: MsgKind, request: string, what: string): (r: Result<Msg>)
    requires want != ErrorKind
    ensures r.Ok? <==> w.Replied? && KindOf(w.msg) == want
    ensures r.Ok? ==> r.value == w.msg
    ensures w.TimedOut? ==> r == Err(Timeout(what))
    ensures w.Cancelled? ==> r == Err(Canceled)
    ensures w.Replied? && w.msg.ErrorMsg? ==> r == Err(Server(w.msg.code, w.msg.reason))
    ensures w.Replied? && !w.msg.ErrorMsg? && KindOf(w.msg) != want ==> r == Err(Unexpected(request))
  {
    match w
    case TimedOut => Err(Timeout(what))
    case Cancelled => Err(Canceled)
    case Replied(m) =>
      if KindOf(m) == want then Ok(m)
      else if m.ErrorMsg? then Err(Server(m.code, m.reason))
      else Err(Unexpected(request))
  }

  /** The reply switch of Destroy and Detach: every reply except an
      ErrorMsg lets the teardown go ahead; the flag says whether it was
      the AckMsg the call returns (any other kind returns a nil ack). */
  function Teardown(w: Wait, what: string): (r: Result<bool>)
    ensures r.Ok? <==> w.Replied? && !w.msg.ErrorMsg?
    ensures r.Ok? ==> (r.value <==> w.msg.AckMsg?)
    ensures w.TimedOut? ==> r == Err(Timeout(what))
    ensures w.Cancelled? ==> r == Err(Canceled)
    ensures w.Replied? && w.msg.ErrorMsg? ==> r == Err(Server(w.msg.code, w.msg.reason))
  {
    match w
    case TimedOut => Err(Timeout(what))
    case Cancelled => Err(Canceled)
    case Replied(m) =>
      if m.ErrorMsg? then Err(Server(m.code, m.reason)) else Ok(m.AckMsg?)
  }

  predicate IsAck(w: Wait)
  {
    w.Replied? && w.msg.AckMsg?
  }

  /** Some wait in the sequence ends a "message" call. */
  predicate Settles(waits: seq<Wait>)
  {
    exists i :: 0 <= i < |waits| && !IsAck(waits[i])
  }

  /** The wait that ends a "message" call: the first one that is not an Ack. */
  function FirstNonAck(waits: seq<Wait>): (n: nat)
    requires Settles(waits)
    ensures n < |waits| && !IsAck(waits[n])
    ensures forall j :: 0 <= j < n ==> IsAck(waits[j])
    decreases |waits|
  {
    if !IsAck(waits[0]) then 0
    else
      var i :| 0 <= i < |waits| && !IsAck(waits[i]);
      assert waits[1..][i - 1] == waits[i];
      1 + FirstNonAck(waits[1..])
  }

  /** The first non-Ack wait is the only wait with its two properties. */
  lemma {:induction false} FirstNonAckUnique(waits: seq<Wait>, n: nat)
    requires n < |waits| && !IsAck(waits[n])
    requires forall j :: 0 <= j < n ==> IsAck(waits[j])
    ensures FirstNonAck(waits) == n
  {
  }

  /** What Message returns for the waits it goes through. */
  function MessageReply(waits: seq<Wait>): (r: Result<Msg>)
    requires Settles(waits)
    ensures var w := waits[FirstNonAck(waits)];
      && (r.Ok? <==> w.Replied? && w.msg.EventMsg?)
      && (r.Ok? ==> r.value == w.msg)
      && (w.TimedOut? ==> r == Err(Timeout("'message'")))
      && (w.Cancelled? ==> r == Err(Canceled))
      && (w.Replied? && w.msg.ErrorMsg? ==> r == Err(Server(w.msg.code, w.msg.reason)))
      && (w.Replied? && !w.msg.ErrorMsg? && !w.msg.EventMsg? ==> r == Err(Unexpected("message")))
  {
    Expect(waits[FirstNonAck(waits)], EventKind, "message", "'message'")
  }

  /** Message's wait loop: wait again after every Ack; the first other
      outcome decides the result. `n` is the number of Acks skipped. */
  method AwaitMessage(waits: seq<Wait>) returns (r: Result<Msg>, n: nat)
    requires Settles(waits)
    ensures n < |waits| && !IsAck(waits[n])
    ensures forall j :: 0 <= j < n ==> IsAck(waits[j])
    ensures r == MessageReply(waits)
    ensures r.Ok? <==> waits[n].Replied? && waits[n].msg.EventMsg?
  {
    n := 0;
    while IsAck(waits[n])
      invariant n < |waits|
      invariant forall j :: 0 <= j < n ==> IsAck(waits[j])
      decreases |waits| - n
    {
      n := n + 1;
      assert n < |waits| by {
        var i :| 0 <= i < |waits| && !IsAck(waits[i]);
        assert n <= i;
      }
    }
    FirstNonAckUnique(waits, n);
    r := Expect(waits[n], EventKind, "message", "'message'");
  }

  /** Any number of Acks in front of the waits change nothing: a "message"
      call returns what the first non-Ack outcome says. */
  lemma {:induction false} AcksIgnored(acks: seq<Wait>, rest: seq<Wait>)
    requires forall j :: 0 <= j < |acks| ==> IsAck(acks[j])
    requires Settles(rest)
    ensures Settles(acks + rest)
    ensures MessageReply(acks + rest) == MessageReply(rest)
  {
    var all := acks + rest;
    var m := FirstNonAck(rest);
    assert all[|acks| + m] == rest[m];
    forall j | 0 <= j < |acks| + m
      ensures IsAck(all[j])
    {
      if j < |acks| {
        assert all[j] == acks[j];
      } else {
        assert all[j] == rest[j - |acks|];
      }
    }
    FirstNonAckUnique(all, |acks| + m);
  }

  /** A "message" call succeeds exactly when the first non-Ack reply is an
      EventMsg, and then returns that event. */
  lemma {:induction false} MessageSucceedsOnEvent(waits: seq<Wait>)
    requires Settles(waits)
    ensures MessageReply(waits).Ok? <==>
      exists n :: 0 <= n < |waits| && (forall j :: 0 <= j < n ==> IsAck(waits[j]))
        && waits[n].Replied? && waits[n].msg.EventMsg?
    ensures MessageReply(waits).Ok? ==> MessageReply(waits).value == waits[FirstNonAck(waits)].msg
  {
  }
}
