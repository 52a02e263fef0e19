/** One physical WebSocket connection attempt: start once, gated writes,
    the inbound receive loop, and a teardown that notifies exactly once.
    The socket itself is the environment: whether the connect succeeds is a
    parameter of `StartAsync`, whether writes throw is the `faulty` flag, and
    the receive results are the input of `ListenAsync`. Raised events are
    recorded in the order they are raised (`received`, `disposals`). The type
    parameter is what a write carries: chat writes text, pubsub writes its
    message records. */
module Transport {
  import opened Wrappers
  import opened Errors
  import opened Framing

  /** The two exceptions `StartAsync` throws. */
  datatype StartError = AlreadyStarted | AlreadyDisposed

  /** The observable state of a connection, as a value. */
  datatype ConnView<M> = ConnView(
    started: bool, disposed: bool, open: bool, faulty: bool, listening: bool,
    sent: seq<M>, received: seq<string>, disposals: seq<Option<Fault>>)

  /** Writing `messages` in order, each with `SendAsync`: nothing happens on
      a socket that is not open; with working writes they are all sent; when
      writes throw, the first one disposes the connection with the write
      error and the others find the socket closed. */
  function AfterWrites<M>(v: ConnView<M>, messages: seq<M>): (r: ConnView<M>)
    ensures v.sent <= r.sent && r.received == v.received
    ensures r.sent != v.sent ==> r.sent == v.sent + messages
    ensures r.disposed <==> v.disposed || (v.open && messages != [] && v.faulty)
    ensures r.disposals == v.disposals || r.disposals == v.disposals + [Some(SendFailed)]
  {
    if !v.open || messages == [] then v
    else if !v.faulty then v.(sent := v.sent + messages)
    else v.(disposed := true, open := false, disposals := v.disposals + [Some(SendFailed)])
  }

  /** The writes dispose the connection. */
  predicate WriteFails<M>(v: ConnView<M>, messages: seq<M>) {
    v.open && messages != [] && v.faulty
  }

  /** Writing `a` and then `b` is writing `a + b`, and the connection is
      disposed by at most one of the two batches. */
  lemma WritesCompose<M>(v: ConnView<M>, a: seq<M>, b: seq<M>)
    ensures AfterWrites(AfterWrites(v, a), b) == AfterWrites(v, a + b)
    ensures WriteFails(v, a + b) <==> WriteFails(v, a) || WriteFails(AfterWrites(v, a), b)
    ensures !(WriteFails(v, a) && WriteFails(AfterWrites(v, a), b))
  {
    if a == [] {
      assert a + b == b;
    } else if v.open && !v.faulty {
      assert v.sent + a + b == v.sent + (a + b);
    }
  }

  class WsConnection<M> {
    var started: bool
    var disposed: bool
    /** The socket's state is Open (`Connected`). */
    var open: bool
    /** Writes on the socket throw; set by the environment. */
    var faulty: bool
    /** The receive loop was started. */
    var listening: bool
    /** What was written to the socket, in order. */
    var sent: seq<M>
    /** The messages raised through `MessageReceived`, in order. */
    var received: seq<string>
    /** The reasons passed to the `Disposing` notification, in order. */
    var disposals: seq<Option<Fault>>

    /** The notification has fired once exactly when the connection is disposed;
        an open socket belongs to a started, undisposed connection. */
    ghost predicate Valid()
      reads this
    {
      && |disposals| == (if disposed then 1 else 0)
      && (open ==> started && !disposed)
      && (listening ==> started)
    }

    function View(): ConnView<M>
      reads this
    {
      ConnView(started, disposed, open, faulty, listening, sent, received, disposals)
    }

    constructor ()
      ensures Valid()
      ensures !started && !disposed && !open && !faulty && !listening
      ensures sent == [] && received == [] && disposals == []
    {
      started, disposed, open, faulty, listening := false, false, false, false, false;
      sent, received, disposals := [], [], [];
    }

    /** Starting twice, or after disposal, throws. Otherwise the connection is
        started; a failed connect disposes it with the error and gives false,
        a successful one opens the socket, starts the receive loop and gives true. */
    method StartAsync(connectSucceeds: bool) returns (r: Result<bool, StartError>)
      requires Valid()
      modifies this
      ensures Valid()
      ensures old(started) ==> r == Err(AlreadyStarted) && unchanged(this)
      ensures !old(started) && old(disposed) ==> r == Err(AlreadyDisposed) && unchanged(this)
      ensures !old(started) && !old(disposed) ==>
        && r == Ok(connectSucceeds) && started
        && sent == old(sent) && received == old(received) && faulty == old(faulty)
        && (connectSucceeds ==> open && listening && !disposed && disposals == old(disposals))
        && (!connectSucceeds ==> !open && !listening && disposed && disposals == old(disposals) + [Some(ConnectFailed)])
    {
      if started {
        return Err(AlreadyStarted);
      }
      if disposed {
        return Err(AlreadyDisposed);
      }
      started := true;
      if connectSucceeds {
        open := true;
        listening := true;
        r := Ok(true);
      } else {
        Dispose(Some(ConnectFailed));
        r := Ok(false);
      }
    }

    /** A no-op unless the socket is open; a write that throws disposes the
        connection instead of propagating. */
    method SendAsync(message: M)
      requires Valid()
      modifies this
      ensures Valid()
      ensures View() == AfterWrites(old(View()), [message])
    {
      if !open {
        return;
      }
      if faulty {
        Dispose(Some(SendFailed));
      } else {
        sent := sent + [message];
      }
    }

    /** Only the first call aborts the socket and raises `Disposing`, with its
        reason; later calls change nothing. */
    method Dispose(reason: Option<Fault>)
      requires Valid()
      modifies this
      ensures Valid() && disposed && !open
      ensures old(disposed) ==> unchanged(this)
      ensures !old(disposed) ==> disposals == old(disposals) + [reason]
      ensures started == old(started) && listening == old(listening) && faulty == old(faulty)
      ensures sent == old(sent) && received == old(received)
    {
      if !disposed {
        disposed := true;
        open := false;
        disposals := disposals + [reason];
      }
    }

    /** The network fails: from now on every write on the socket throws. */
    method Break()
      modifies this`faulty
      ensures View() == old(View()).(faulty := true)
    {
      faulty := true;
    }

    /** Raises `MessageReceived`; an exception of a handler is logged and dropped. */
    method OnMessageReceived(message: string)
      modifies this
      ensures received == old(received) + [message]
      ensures started == old(started) && disposed == old(disposed) && open == old(open)
      ensures faulty == old(faulty) && listening == old(listening)
      ensures sent == old(sent) && disposals == old(disposals)
    {
      received := received + [message];
    }

    /** The receive loop, run on all the results the socket delivers to it, in
        order. It does what `Framing.Listen` says: the messages it raises are
        the dispatched ones, and a Close frame or a failed receive disposes the
        connection with that reason and ends the loop. */
    method ListenAsync(frames: seq<ReceiveResult>)
      requires Valid() && listening
      modifies this
      ensures Valid()
      ensures started == old(started) && listening == old(listening) && faulty == old(faulty)
      ensures sent == old(sent)
      ensures !old(open) ==> unchanged(this)
      ensures old(open) ==>
        var r := Listen(InitialState, frames);
        && received == old(received) + r.dispatched
        && (r.stop.Some? ==> disposed && !open && disposals == old(disposals) + [r.stop])
        && (r.stop.None? ==> open && disposals == old(disposals))
    {
      if !open {
        return;
      }
      var buffer := new char[BufferSizeStep];
      var spaceLeft: nat := BufferSizeStep;
      var currentCount: nat := 0;
      var i := 0;
      ghost var st := InitialState;
      ghost var dispatched: seq<string> := [];
      ListenFrom(frames);
      ghost var goal := Listen(InitialState, frames);
      while i < |frames|
        invariant Valid() && open && !disposed && disposals == old(disposals)
        invariant started == old(started) && listening == old(listening) && faulty == old(faulty)
        invariant sent == old(sent)
        invariant 0 <= i <= |frames|
        invariant fresh(buffer) && currentCount + spaceLeft == buffer.Length
        invariant st == Reassembly(buffer[..currentCount], buffer.Length, spaceLeft) && ValidState(st)
        invariant received == old(received) + dispatched
        invariant goal == Prefixed(dispatched, Listen(st, frames[i..]))
        decreases |frames| - i
      {
        ghost var s := Receive(st, frames[i]);
        ListenAdvance(goal, dispatched, st, frames, i, s);
        AppendAssoc(old(received), dispatched, s.dispatched);
        buffer, currentCount, spaceLeft := ReceiveOnce(st, buffer, currentCount, spaceLeft, frames[i]);
        if !open {
          return;
        }
        dispatched, st := dispatched + s.dispatched, s.next;
        i := i + 1;
      }
      assert frames[i..] == [];
    }

    /** One iteration of the receive loop: grow a full buffer, receive into the
        free segment, then end the loop on a fault or a Close frame, raise the
        split messages when a text frame ends a message, or keep accumulating. */
    method ReceiveOnce(ghost st: Reassembly, buffer: array<char>, currentCount: nat, spaceLeft: nat, result: ReceiveResult)
      returns (next: array<char>, nextCount: nat, nextSpace: nat)
      requires Valid() && open && currentCount + spaceLeft == buffer.Length
      requires st == Reassembly(buffer[..currentCount], buffer.Length, spaceLeft) && ValidState(st)
      modifies this, buffer
      ensures var s := Receive(st, result);
        && nextCount + nextSpace == next.Length && next.Length == s.next.capacity
        && next[..nextCount] == s.next.pending && nextSpace == s.next.spaceLeft
        && received == old(received) + s.dispatched
        && (s.stop.Some? ==> disposed && !open && disposals == old(disposals) + [s.stop])
        && (s.stop.None? ==> open && disposals == old(disposals))
      ensures next == buffer || fresh(next)
      ensures Valid() && started == old(started) && listening == old(listening) && faulty == old(faulty)
      ensures sent == old(sent)
    {
      ghost var s := Receive(st, result);
      next, nextSpace := buffer, spaceLeft;
      if nextSpace == 0 {
        next := Grown(buffer);
        nextSpace := nextSpace + BufferSizeStep;
        assert next[..currentCount] == buffer[..currentCount];
      }
      assert next[..currentCount] == Grow(st).pending && next.Length == Grow(st).capacity;
      assert nextSpace == Grow(st).spaceLeft;
      if result.ReceiveFault? {
        Dispose(Some(ReceiveFailed));
        nextCount := currentCount;
        return;
      }
      var chunk := Chunk(result.data, nextSpace);
      WriteAt(next, currentCount, chunk);
      nextCount := currentCount + |chunk|;
      nextSpace := nextSpace - |chunk|;
      if result.messageType == Close {
        Dispose(Some(CloseFrameReceived));
      } else if result.messageType == Text && result.endOfMessage {
        RaiseAll(SplitLines(next[..nextCount]));
        nextCount := 0;
        nextSpace := next.Length;
      }
    }

    /** Raises `MessageReceived` once per message, in order. */
    method RaiseAll(messages: seq<string>)
      modifies this
      ensures received == old(received) + messages
      ensures started == old(started) && disposed == old(disposed) && open == old(open)
      ensures faulty == old(faulty) && listening == old(listening)
      ensures sent == old(sent) && disposals == old(disposals)
    {
      for j := 0 to |messages|
        invariant received == old(received) + messages[..j]
        invariant started == old(started) && disposed == old(disposed) && open == old(open)
        invariant faulty == old(faulty) && listening == old(listening)
        invariant sent == old(sent) && disposals == old(disposals)
      {
        OnMessageReceived(messages[j]);
      }
    }
  }

  /** `Array.Resize` by one step: a fresh array, one step longer, holding the
      same characters first. */
  method Grown(buffer: array<char>) returns (grown: array<char>)
    ensures fresh(grown) && grown.Length == buffer.Length + BufferSizeStep
    ensures forall k :: 0 <= k < buffer.Length ==> grown[k] == buffer[k]
  {
    grown := new char[buffer.Length + BufferSizeStep];
    forall k | 0 <= k < buffer.Length {
      grown[k] := buffer[k];
    }
  }

  /** The socket writing a chunk into the segment that starts at `at`. */
  method WriteAt(buffer: array<char>, at: nat, chunk: string)
    requires at + |chunk| <= buffer.Length
    modifies buffer
    ensures buffer[..at + |chunk|] == old(buffer[..at]) + chunk
  {
    forall k | 0 <= k < |chunk| {
      buffer[at + k] := chunk[k];
    }
    assert forall k :: 0 <= k < at ==> buffer[k] == old(buffer[k]);
  }

  lemma AppendAssoc<T>(a: seq<T>, b: seq<T>, c: seq<T>)
    ensures a + b + c == a + (b + c)
  {
  }

  /** A run that first dispatched `done`, then continued as `rest`. */
  function Prefixed(done: seq<string>, rest: ListenResult): ListenResult {
    ListenResult(rest.state, done + rest.dispatched, rest.stop)
  }

  /** The whole run is the run from the first result with nothing before it. */
  lemma ListenFrom(frames: seq<ReceiveResult>)
    ensures Listen(InitialState, frames) == Prefixed([], Listen(InitialState, frames[0..]))
  {
    assert frames[0..] == frames;
    assert [] + Listen(InitialState, frames).dispatched == Listen(InitialState, frames).dispatched;
  }

  /** Running from result `i` is one receive, then, unless it ended the loop,
      the run from result `i + 1`. */
  lemma ListenAdvance(goal: ListenResult, done: seq<string>, st: Reassembly, frames: seq<ReceiveResult>, i: nat, s: Step)
    requires ValidState(st) && i < |frames| && s == Receive(st, frames[i])
    requires goal == Prefixed(done, Listen(st, frames[i..]))
    ensures ValidState(s.next)
      && (s.stop.Some? ==> goal == ListenResult(s.next, done + s.dispatched, s.stop))
      && (s.stop.None? ==> goal == Prefixed(done + s.dispatched, Listen(s.next, frames[i + 1..])))
  {
    ReceiveKeepsInvariant(st, frames[i]);
    assert frames[i..][0] == frames[i] && frames[i..][1..] == frames[i + 1..];
    if s.stop.None? {
      var rest := Listen(s.next, frames[i + 1..]);
      assert done + (s.dispatched + rest.dispatched) == (done + s.dispatched) + rest.dispatched;
    }
  }
}
