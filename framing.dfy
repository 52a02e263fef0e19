/** Inbound reassembly of a WebSocket connection: the text accumulated from
    receive results is split into logical messages on "\r\n" when a text frame
    ends a message. This module holds the specification of the receive loop
    as functions over values; `Transport.WsConnection.ListenAsync` runs it on
    an array and is proved against it. */
module Framing {
  import opened Wrappers
  import opened Errors

  /** The buffer starts at this size and grows by it. */
  const BufferSizeStep: nat := 512

  datatype MessageType = Text | Binary | Close

  /** One completed `ReceiveAsync`: the characters written into the segment,
      the frame type and the end-of-message flag; or the call threw. */
  datatype ReceiveResult =
    | Received(data: string, messageType: MessageType, endOfMessage: bool)
    | ReceiveFault

  // ---------------------------------------------------------------------
  // Splitting on "\r\n" with empty entries removed

  predicate CrlfAt(s: string, i: int) {
    0 <= i && i + 1 < |s| && s[i] == '\r' && s[i + 1] == '\n'
  }

  predicate HasCrlf(s: string) {
    exists i :: 0 <= i < |s| && CrlfAt(s, i)
  }

  /** The first "\r\n" at or after `from`, or |s| when there is none
      (`FindCrlfFirst` says that none comes before it). */
  function FindCrlf(s: string, from: nat): (i: nat)
    requires from <= |s|
    ensures from <= i <= |s|
    ensures i < |s| ==> CrlfAt(s, i)
    decreases |s| - from
  {
    if from + 1 >= |s| then |s|
    else if s[from] == '\r' && s[from + 1] == '\n' then from
    else FindCrlf(s, from + 1)
  }

  lemma {:induction false} FindCrlfFirst(s: string, from: nat)
    requires from <= |s|
    ensures forall j :: from <= j < FindCrlf(s, from) ==> !CrlfAt(s, j)
    decreases |s| - from
  {
    if from + 1 < |s| && !(s[from] == '\r' && s[from + 1] == '\n') {
      FindCrlfFirst(s, from + 1);
    }
  }

  /** `s.Split("\r\n", StringSplitOptions.RemoveEmptyEntries)`: no piece is
      empty, and together they are never longer than the text.
      `SplitLinesRemovesEmpty` says which pieces they are. */
  function SplitLines(s: string): (pieces: seq<string>)
    ensures forall k :: 0 <= k < |pieces| ==> pieces[k] != []
    ensures |pieces| <= |s|
    decreases |s|
  {
    var i := FindCrlf(s, 0);
    var piece := s[..i];
    var rest := if i < |s| then SplitLines(s[i + 2..]) else [];
    if piece == [] then rest else [piece] + rest
  }

  /** `s.Split("\r\n")`: every piece between two delimiters, empty ones
      included. */
  function Pieces(s: string): (ps: seq<string>)
    ensures ps != []
    decreases |s|
  {
    var i := FindCrlf(s, 0);
    if i < |s| then [s[..i]] + Pieces(s[i + 2..]) else [s]
  }

  /** The non-empty entries of `ps`, in order. */
  function NonEmpty(ps: seq<string>): (r: seq<string>)
    ensures forall k :: 0 <= k < |r| ==> r[k] != []
    ensures |r| <= |ps|
  {
    if ps == [] then []
    else if ps[0] == [] then NonEmpty(ps[1..])
    else [ps[0]] + NonEmpty(ps[1..])
  }

  /** Joining the pieces with the delimiter gives back the text. */
  lemma {:induction false} JoinPieces(s: string)
    ensures Join(Pieces(s)) == s
    decreases |s|
  {
    var i := FindCrlf(s, 0);
    if i < |s| {
      var tail := s[i + 2..];
      JoinPieces(tail);
      JoinCons(s[..i], Pieces(tail));
      assert s == s[..i] + "\r\n" + tail by {
        assert CrlfAt(s, i);
      }
    } else {
      assert Pieces(s) == [s];
    }
  }

  lemma JoinCons(p: string, rest: seq<string>)
    requires rest != []
    ensures Join([p] + rest) == p + "\r\n" + Join(rest)
  {
    assert ([p] + rest)[1..] == rest;
  }

  /** No piece contains the delimiter. */
  lemma {:induction false} PiecesHaveNoCrlf(s: string)
    ensures forall k :: 0 <= k < |Pieces(s)| ==> !HasCrlf(Pieces(s)[k])
    decreases |s|
  {
    var i := FindCrlf(s, 0);
    var piece := s[..i];
    FindCrlfFirst(s, 0);
    forall j | 0 <= j < |piece| ensures !CrlfAt(piece, j) {
      assert CrlfAt(piece, j) ==> CrlfAt(s, j);
    }
    if i < |s| {
      PiecesHaveNoCrlf(s[i + 2..]);
      assert Pieces(s) == [piece] + Pieces(s[i + 2..]);
    } else {
      assert piece == s;
    }
  }

  /** Splitting with empty entries removed is the plain split with the empty
      pieces dropped. */
  lemma {:induction false} SplitLinesRemovesEmpty(s: string)
    ensures SplitLines(s) == NonEmpty(Pieces(s))
    decreases |s|
  {
    var i := FindCrlf(s, 0);
    var piece := s[..i];
    if i < |s| {
      var rest := Pieces(s[i + 2..]);
      SplitLinesRemovesEmpty(s[i + 2..]);
      assert ([piece] + rest)[0] == piece && ([piece] + rest)[1..] == rest;
    } else {
      assert piece == s;
      assert [s][1..] == [];
    }
  }

  /** No piece is empty and none contains the delimiter. */
  lemma {:induction false} SplitLinesAreLines(s: string)
    ensures forall k :: 0 <= k < |SplitLines(s)| ==> IsLine(SplitLines(s)[k])
    decreases |s|
  {
    var i := FindCrlf(s, 0);
    var piece := s[..i];
    FindCrlfFirst(s, 0);
    forall j | 0 <= j < |piece| ensures !CrlfAt(piece, j) {
      assert CrlfAt(piece, j) ==> CrlfAt(s, j);
    }
    if i < |s| {
      SplitLinesAreLines(s[i + 2..]);
    }
  }

  /** The pieces with "\r\n" between them: what a peer sends to batch them in
      one frame. */
  function Join(pieces: seq<string>): string {
    if |pieces| == 0 then []
    else if |pieces| == 1 then pieces[0]
    else pieces[0] + "\r\n" + Join(pieces[1..])
  }

  predicate IsLine(p: string) {
    p != [] && !HasCrlf(p)
  }

  /** A piece free of "\r\n" followed by the delimiter: the first delimiter is
      the one right after the piece. */
  lemma FirstCrlfAfterPiece(p: string, tail: string)
    requires !HasCrlf(p)
    ensures FindCrlf(p + "\r\n" + tail, 0) == |p|
  {
    var s := p + "\r\n" + tail;
    assert CrlfAt(s, |p|);
    forall j | 0 <= j < |p| ensures !CrlfAt(s, j) {
      if j + 1 < |p| {
        assert !CrlfAt(p, j);
      } else {
        assert s[j + 1] == '\r';
      }
    }
    FindCrlfIsFirst(s, 0, |p|);
  }

  lemma {:induction false} FindCrlfIsFirst(s: string, from: nat, k: nat)
    requires from <= k < |s| && CrlfAt(s, k)
    requires forall j :: from <= j < k ==> !CrlfAt(s, j)
    ensures FindCrlf(s, from) == k
    decreases k - from
  {
    if from < k {
      assert !CrlfAt(s, from);
      FindCrlfIsFirst(s, from + 1, k);
    }
  }

  /** Without a delimiter the search runs to the end. */
  lemma {:induction false} FindCrlfAbsent(s: string, from: nat)
    requires from <= |s| && !HasCrlf(s)
    ensures FindCrlf(s, from) == |s|
    decreases |s| - from
  {
    if from + 1 < |s| {
      assert !CrlfAt(s, from);
      FindCrlfAbsent(s, from + 1);
    }
  }

  /** Splitting a batch gives back exactly the lines that were joined. */
  lemma {:induction false} SplitJoin(pieces: seq<string>)
    requires forall k :: 0 <= k < |pieces| ==> IsLine(pieces[k])
    ensures SplitLines(Join(pieces)) == pieces
  {
    if |pieces| == 0 {
    } else if |pieces| == 1 {
      var p := pieces[0];
      FindCrlfAbsent(p, 0);
      assert p[..|p|] == p;
    } else {
      var p, tail := pieces[0], Join(pieces[1..]);
      var s := p + "\r\n" + tail;
      assert Join(pieces) == s;
      FirstCrlfAfterPiece(p, tail);
      assert s[..|p|] == p;
      assert s[|p| + 2..] == tail;
      SplitJoin(pieces[1..]);
      assert pieces == [p] + pieces[1..];
    }
  }

  /** Splitting the re-joined lines of a text changes nothing. */
  lemma SplitIdempotent(s: string)
    ensures SplitLines(Join(SplitLines(s))) == SplitLines(s)
  {
    SplitLinesAreLines(s);
    SplitJoin(SplitLines(s));
  }

  // ---------------------------------------------------------------------
  // The receive loop as a function of the receive results

  /** The loop's state between two receives: the characters accumulated since
      the last dispatch (`buffer[..currentCount]`), the buffer's length and
      the free space the loop keeps in its own variable `spaceLeft`. */
  datatype Reassembly = Reassembly(pending: string, capacity: nat, spaceLeft: nat)

  /** The loop's invariant: `currentCount + spaceLeft == buffer.Length`, and the
      length is a positive multiple of the step. */
  predicate ValidState(st: Reassembly) {
    && st.capacity > 0 && st.capacity % BufferSizeStep == 0
    && |st.pending| + st.spaceLeft == st.capacity
  }

  const InitialState: Reassembly := Reassembly([], BufferSizeStep, BufferSizeStep)

  /** At the top of an iteration a buffer with no space left grows by one
      step, and so does `spaceLeft`. */
  function Grow(st: Reassembly): (g: Reassembly)
    requires ValidState(st)
    ensures ValidState(g) && g.pending == st.pending && g.spaceLeft > 0
    ensures g.capacity == if st.spaceLeft == 0 then st.capacity + BufferSizeStep else st.capacity
  {
    if st.spaceLeft == 0 then Reassembly(st.pending, st.capacity + BufferSizeStep, st.spaceLeft + BufferSizeStep)
    else st
  }

  /** What the socket writes into a segment of `space` characters: never more.
      A result stands for what one `ReceiveAsync` wrote into the segment it was
      given, so its data never exceeds that segment; the cut of a longer one
      only keeps the function total. */
  function Chunk(data: string, space: nat): (c: string)
    ensures |c| <= space && c <= data
    ensures |data| <= space ==> c == data
  {
    if |data| <= space then data else data[..space]
  }

  /** One iteration: its new state, the messages it dispatched in order, and the
      fault with which it disposed the connection, if it ended the loop. */
  datatype Step = Step(next: Reassembly, dispatched: seq<string>, stop: Option<Fault>)

  /** A result after which the loop disposes the connection and returns. */
  predicate Ends(r: ReceiveResult) {
    r.ReceiveFault? || r.messageType == Close
  }

  /** An iteration stops the loop exactly on a fault or a Close frame, and only
      a frame that ends a text message dispatches anything. */
  function Receive(st: Reassembly, r: ReceiveResult): (s: Step)
    requires ValidState(st)
    ensures s.stop.Some? <==> Ends(r)
    ensures s.dispatched != [] ==> r.Received? && r.messageType == Text && r.endOfMessage
  {
    var g := Grow(st);
    match r
    case ReceiveFault => Step(g, [], Some(ReceiveFailed))
    case Received(data, messageType, endOfMessage) =>
      var chunk := Chunk(data, g.spaceLeft);
      var acc := Reassembly(g.pending + chunk, g.capacity, g.spaceLeft - |chunk|);
      match messageType
      case Close => Step(acc, [], Some(CloseFrameReceived))
      case Text =>
        if endOfMessage then Step(Reassembly([], g.capacity, g.capacity), SplitLines(acc.pending), None)
        else Step(acc, [], None)
      case Binary => Step(acc, [], None)
  }

  /** Every iteration keeps the buffer invariant, and the buffer grows by exactly
      one step, only when no space was left. */
  lemma ReceiveKeepsInvariant(st: Reassembly, r: ReceiveResult)
    requires ValidState(st)
    ensures ValidState(Receive(st, r).next)
    ensures Receive(st, r).next.capacity
         == if st.spaceLeft == 0 then st.capacity + BufferSizeStep else st.capacity
  {
  }

  /** Whatever an iteration dispatches is a non-empty line. */
  lemma ReceiveDispatchesLines(st: Reassembly, r: ReceiveResult)
    requires ValidState(st)
    ensures forall k :: 0 <= k < |Receive(st, r).dispatched| ==> IsLine(Receive(st, r).dispatched[k])
  {
    if r.Received? {
      var g := Grow(st);
      SplitLinesAreLines(g.pending + Chunk(r.data, g.spaceLeft));
    }
  }

  /** A frame that does not end a text message only accumulates: its characters
      are kept after the pending ones and nothing is dispatched. */
  lemma NonFinalFrameAccumulates(st: Reassembly, data: string, messageType: MessageType, endOfMessage: bool)
    requires ValidState(st)
    requires messageType == Binary || (messageType == Text && !endOfMessage)
    ensures var s := Receive(st, Received(data, messageType, endOfMessage));
      && s.dispatched == [] && s.stop == None
      && s.next.pending == st.pending + Chunk(data, Grow(st).spaceLeft)
      && s.next.spaceLeft == Grow(st).spaceLeft - |Chunk(data, Grow(st).spaceLeft)|
  {
  }

  /** A frame ending a text message dispatches the split of everything
      accumulated, in order, empties the buffer while keeping its size, and
      resets `spaceLeft` to the whole length. */
  lemma FinalTextFrameDispatches(st: Reassembly, data: string)
    requires ValidState(st)
    ensures var s := Receive(st, Received(data, Text, true));
      s.dispatched == SplitLines(st.pending + Chunk(data, Grow(st).spaceLeft)) &&
      s.stop == None && s.next == Reassembly([], Grow(st).capacity, Grow(st).capacity)
  {
  }

  /** A Close frame or a failed receive ends the loop without dispatching. */
  lemma CloseEndsLoop(st: Reassembly, r: ReceiveResult)
    requires ValidState(st)
    requires r.ReceiveFault? || r.messageType == Close
    ensures Receive(st, r).dispatched == []
    ensures Receive(st, r).stop == Some(if r.ReceiveFault? then ReceiveFailed else CloseFrameReceived)
  {
  }

  /** Two (or more) messages batched in one frame are dispatched separately and
      in order. */
  lemma BatchedFrameDispatchesEach(pieces: seq<string>)
    requires forall k :: 0 <= k < |pieces| ==> IsLine(pieces[k])
    requires |Join(pieces)| <= BufferSizeStep
    ensures Receive(InitialState, Received(Join(pieces), Text, true)).dispatched == pieces
  {
    var data := Join(pieces);
    assert Grow(InitialState) == InitialState;
    assert Chunk(data, InitialState.spaceLeft) == data;
    FinalTextFrameDispatches(InitialState, data);
    assert [] + data == data;
    SplitJoin(pieces);
  }

  /** What the loop does with a sequence of receive results: it stops at the
      first result that disposes the connection. */
  datatype ListenResult = ListenResult(state: Reassembly, dispatched: seq<string>, stop: Option<Fault>)

  /** The run stops exactly when some result ends the loop. */
  function Listen(st: Reassembly, frames: seq<ReceiveResult>): (lr: ListenResult)
    requires ValidState(st)
    ensures lr.stop.Some? <==> exists k :: 0 <= k < |frames| && Ends(frames[k])
    decreases |frames|
  {
    if frames == [] then ListenResult(st, [], None)
    else
      var s := Receive(st, frames[0]);
      ReceiveKeepsInvariant(st, frames[0]);
      if s.stop.Some? then ListenResult(s.next, s.dispatched, s.stop)
      else
        var rest := Listen(s.next, frames[1..]);
        ListenResult(rest.state, s.dispatched + rest.dispatched, rest.stop)
  }

  /** Over any run the buffer invariant holds, and no dispatched message is empty
      or contains the delimiter. */
  lemma {:induction false} ListenInvariant(st: Reassembly, frames: seq<ReceiveResult>)
    requires ValidState(st)
    ensures ValidState(Listen(st, frames).state)
    ensures forall k :: 0 <= k < |Listen(st, frames).dispatched| ==> IsLine(Listen(st, frames).dispatched[k])
    decreases |frames|
  {
    if frames != [] {
      var s := Receive(st, frames[0]);
      ReceiveKeepsInvariant(st, frames[0]);
      ReceiveDispatchesLines(st, frames[0]);
      if s.stop.None? {
        ListenInvariant(s.next, frames[1..]);
      }
    }
  }

  /** Frames that never end a text message dispatch nothing. */
  lemma {:induction false} NoEndOfMessageNoDispatch(st: Reassembly, frames: seq<ReceiveResult>)
    requires ValidState(st)
    requires forall k :: 0 <= k < |frames| ==>
      frames[k].Received? && !(frames[k].messageType == Text && frames[k].endOfMessage)
    ensures Listen(st, frames).dispatched == []
    decreases |frames|
  {
    if frames != [] {
      ReceiveKeepsInvariant(st, frames[0]);
      NoEndOfMessageNoDispatch(Receive(st, frames[0]).next, frames[1..]);
    }
  }
}
