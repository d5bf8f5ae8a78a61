/**
  The repaired AudioSocket frame reader of Asterisk, on a nonblocking socket
  that may split the bytes anywhere. The socket is the bytes still to arrive and
  whether the peer has closed behind them; a schedule says how each `read` and
  each wait for input turns out.
 */
module SocketReader {
  import opened Basics
  import opened AudioSocket

  /** How one `read` turns out: up to `n` bytes, would-block, EINTR, or another error. */
  datatype Read = Deliver(n: nat) | NotYet | Interrupted | Broken

  /** How the bounded wait after a would-block turns out. */
  datatype Poll = Ready | TimedOut | PollInterrupted | PollBroken

  datatype Tick = Tick(read: Read, poll: Poll)

  /** What one call meets: its header reads, its payload reads, and its two allocations. */
  datatype Call = Call(header: seq<Tick>, payload: seq<Tick>, memory: bool, isolates: bool)

  datatype Socket = Socket(unread: Bytes, closed: bool)

  /**
    What a call returns. `Hangup` and `Fatal` are both a null pointer, with the hangup
    flag set or not. `Blocked` is no reply: the schedule ended inside the call.
   */
  datatype Reply = NullFrame | Voice(data: Bytes) | Hangup | Fatal | Blocked

  datatype Answer = Got(n: nat) | EndOfFile | WouldBlock | Interruption | Fault

  function Taken(a: Answer): nat { if a.Got? then a.n else 0 }

  // ----------------------------------------------------- the two reading loops

  datatype Loop = HeaderLoop | PayloadLoop

  datatype Verdict = Take(n: nat) | Retry | Stop(reply: Reply)

  /** What the kernel answers to a read of at most `want` bytes. */
  function Kernel(socket: Socket, want: nat, read: Read): (a: Answer)
    requires want > 0
    ensures a.Got? ==> 0 < a.n <= want && a.n <= |socket.unread|
  {
    match read
    case Deliver(n) =>
      if socket.unread != [] then Got(Max(1, Min(n, Min(want, |socket.unread|))))
      else if socket.closed then EndOfFile
      else WouldBlock
    case NotYet => WouldBlock
    case Interrupted => Interruption
    case Broken => Fault
  }

  /** What a loop that already holds `have` bytes makes of the kernel's answer. */
  function Judge(loop: Loop, have: nat, answer: Answer, poll: Poll): Verdict {
    match answer
    case Got(n) => Take(n)
    case EndOfFile => Stop(if loop.HeaderLoop? && have == 0 then Hangup else Fatal)
    case Interruption => if loop.HeaderLoop? then Retry else Stop(Fatal)
    case Fault => Stop(Fatal)
    case WouldBlock =>
      if loop.HeaderLoop? && have == 0 then Stop(NullFrame)
      else if poll.Ready? || (loop.HeaderLoop? && poll.PollInterrupted?) then Retry
      else Stop(Fatal)
  }

  datatype Filled = Filled(stopped: Option<Reply>, got: Bytes, socket: Socket)

  /** Reading until `want` bytes are held, or the loop gives up. */
  function Fill(loop: Loop, want: nat, got: Bytes, socket: Socket, ticks: seq<Tick>): Filled
    requires |got| <= want
    decreases |ticks|
  {
    if |got| == want then Filled(None, got, socket)
    else if ticks == [] then Filled(Some(Blocked), got, socket)
    else
      match Judge(loop, |got|, Kernel(socket, want - |got|, ticks[0].read), ticks[0].poll)
      case Take(n) => Fill(loop, want, got + socket.unread[..n], socket.(unread := socket.unread[n..]), ticks[1..])
      case Retry => Fill(loop, want, got, socket, ticks[1..])
      case Stop(reply) => Filled(Some(reply), got, socket)
  }

  datatype Received = Received(reply: Reply, socket: Socket)

  /** One call of the reader. */
  function Receive(call: Call, socket: Socket): Received {
    var head := Fill(HeaderLoop, 3, [], socket, call.header);
    if head.stopped.Some? then Received(head.stopped.value, head.socket)
    else FillTakesPrefix(HeaderLoop, 3, socket, call.header); ReceivePayload(call, head.got, head.socket)
  }

  function ReceivePayload(call: Call, header: Bytes, socket: Socket): Received
    requires |header| == 3
  {
    var length := BigEndian(header[1], header[2]);
    if header[0] == TYPE_TERMINATE then Received(Hangup, socket)
    else if header[0] != TYPE_AUDIO || length < 1 || !call.memory then Received(Fatal, socket)
    else
      var body := Fill(PayloadLoop, length, [], socket, call.payload);
      if body.stopped.Some? then Received(body.stopped.value, body.socket)
      else Received(if call.isolates then Voice(body.got) else Fatal, body.socket)
  }

  lemma {:induction false} FillShape(loop: Loop, want: nat, got: Bytes, socket: Socket, ticks: seq<Tick>)
    requires |got| <= want
    ensures var r := Fill(loop, want, got, socket, ticks);
            && |got| <= |r.got| <= want
            && r.got + r.socket.unread == got + socket.unread
            && r.got[..|got|] == got
            && r.socket.closed == socket.closed
            && (r.stopped == None <==> |r.got| == want)
            && (r.stopped == Some(NullFrame) ==> loop.HeaderLoop? && r.got == [])
            && (r.stopped == Some(Hangup) ==> loop.HeaderLoop? && r.got == [] && socket == Socket([], true))
            && (r.stopped.Some? ==> !r.stopped.value.Voice?)
    decreases |ticks|
  {
    if |got| < want && ticks != [] {
      match Judge(loop, |got|, Kernel(socket, want - |got|, ticks[0].read), ticks[0].poll)
      case Take(n) =>
        FillShape(loop, want, got + socket.unread[..n], socket.(unread := socket.unread[n..]), ticks[1..]);
        hide Fill;
        assert (got + socket.unread[..n]) + socket.unread[n..] == got + socket.unread;
      case Retry => FillShape(loop, want, got, socket, ticks[1..]);
      case Stop(_) =>
    }
  }

  // ------------------------------------------------------- the reader itself

  class AudioSocketConnection {
    var unread: Bytes
    var closed: bool

    ghost function State(): Socket
      reads this
    {
      Socket(unread, closed)
    }

    /** One nonblocking `read` into `buffer` at `at`. */
    method ReadInto(buffer: array<Byte>, at: nat, want: nat, read: Read) returns (a: Answer)
      requires 0 < want && at + want <= buffer.Length
      modifies this`unread, buffer
      ensures a == Kernel(old(State()), want, read)
      ensures unread == old(unread)[Taken(a)..]
      ensures buffer[..at + Taken(a)] == old(buffer[..at]) + old(unread)[..Taken(a)]
    {
      a := Kernel(Socket(unread, closed), want, read);
      if a.Got? {
        forall i | 0 <= i < a.n {
          buffer[at + i] := unread[i];
        }
        unread := unread[a.n..];
      }
    }

    method ReceiveFrame(call: Call) returns (reply: Reply)
      modifies this`unread
      ensures Received(reply, State()) == Receive(call, old(State()))
    {
      hide Kernel, Fill, ReceivePayload, BigEndian;
      var header := new Byte[3];
      var headerBytes, i := 0, 0;
      while headerBytes < 3
        invariant 0 <= headerBytes <= 3 && 0 <= i <= |call.header|
        invariant closed == old(closed)
        invariant Fill(HeaderLoop, 3, header[..headerBytes], State(), call.header[i..])
                  == Fill(HeaderLoop, 3, [], old(State()), call.header)
        decreases |call.header| - i
      {
        ghost var had, was := header[..headerBytes], State();
        FillStep(HeaderLoop, 3, had, was, call.header[i..]);
        if i == |call.header| {
          return Blocked;
        }
        var tick := call.header[i];
        assert call.header[i..][1..] == call.header[i + 1..];
        i := i + 1;
        var answer := ReadInto(header, headerBytes, 3 - headerBytes, tick.read);
        if answer.Got? {
          headerBytes := headerBytes + answer.n;
        } else if answer.EndOfFile? {
          return if headerBytes == 0 then Hangup else Fatal;
        } else if answer.WouldBlock? {
          if headerBytes == 0 {
            return NullFrame;
          }
          if tick.poll.TimedOut? || tick.poll.PollBroken? {
            return Fatal;
          }
        } else if answer.Fault? {
          return Fatal;
        }
      }
      FillStep(HeaderLoop, 3, header[..], State(), call.header[i..]);
      assert header[..3] == header[..];
      reply := this.ReceiveBody(call, header);
    }

    /** The call after its header: the kind and length checks, then the payload loop. */
    method ReceiveBody(call: Call, header: array<Byte>) returns (reply: Reply)
      requires header.Length == 3
      modifies this`unread
      ensures Received(reply, State()) == ReceivePayload(call, header[..], old(State()))
    {
      hide Kernel, Fill;
      if header[0] == TYPE_TERMINATE {
        return Hangup;
      }
      if header[0] != TYPE_AUDIO {
        return Fatal;
      }
      var length := BigEndian(header[1], header[2]);
      if length < 1 {
        return Fatal;
      }
      if !call.memory {
        return Fatal;
      }
      var data := new Byte[length];
      var got, i := 0, 0;
      while got < length
        invariant 0 <= got <= length && 0 <= i <= |call.payload|
        invariant closed == old(closed) && header[..] == old(header[..])
        invariant Fill(PayloadLoop, length, data[..got], State(), call.payload[i..])
                  == Fill(PayloadLoop, length, [], old(State()), call.payload)
        decreases |call.payload| - i
      {
        ghost var had, was := data[..got], State();
        FillStep(PayloadLoop, length, had, was, call.payload[i..]);
        if i == |call.payload| {
          return Blocked;
        }
        var tick := call.payload[i];
        assert call.payload[i..][1..] == call.payload[i + 1..];
        i := i + 1;
        var answer := ReadInto(data, got, length - got, tick.read);
        if answer.Got? {
          got := got + answer.n;
        } else if !answer.WouldBlock? || !tick.poll.Ready? {
          return Fatal;
        }
      }
      FillStep(PayloadLoop, length, data[..], State(), call.payload[i..]);
      assert data[..length] == data[..];
      reply := if call.isolates then Voice(data[..]) else Fatal;
    }
  }

  lemma FillStep(loop: Loop, want: nat, got: Bytes, socket: Socket, ticks: seq<Tick>)
    requires |got| <= want
    ensures |got| == want ==> Fill(loop, want, got, socket, ticks) == Filled(None, got, socket)
    ensures |got| < want && ticks == [] ==> Fill(loop, want, got, socket, ticks) == Filled(Some(Blocked), got, socket)
    ensures |got| < want && ticks != [] ==>
              var a := Kernel(socket, want - |got|, ticks[0].read);
              var v := Judge(loop, |got|, a, ticks[0].poll);
              Fill(loop, want, got, socket, ticks)
              == if v.Stop? then Filled(Some(v.reply), got, socket)
                 else Fill(loop, want, got + socket.unread[..Taken(a)],
                           socket.(unread := socket.unread[Taken(a)..]), ticks[1..])
  {
    if |got| < want && ticks != [] {
      assert got + socket.unread[..0] == got && socket.unread[0..] == socket.unread;
    }
  }

  // -------------------------------------------------- what one call can have done

  /** The first header read that is not merely interrupted. */
  function FirstRead(ticks: seq<Tick>): (first: Option<Read>)
    ensures first.Some? ==> !first.value.Interrupted?
  {
    if ticks == [] then None
    else if ticks[0].read.Interrupted? then FirstRead(ticks[1..])
    else Some(ticks[0].read)
  }

  predicate StartsReading(call: Call) {
    FirstRead(call.header).Some? && FirstRead(call.header).value.Deliver?
  }

  /** At a frame boundary the first uninterrupted read decides everything but a new frame. */
  lemma {:induction false} FillStarts(socket: Socket, ticks: seq<Tick>)
    ensures var r := Fill(HeaderLoop, 3, [], socket, ticks);
            var first := FirstRead(ticks);
            if first.None? then r.stopped == Some(Blocked)
            else if first.value.Broken? then r.stopped == Some(Fatal)
            else if first.value.NotYet? then r.stopped == Some(NullFrame)
            else if socket.unread == [] then r.stopped == Some(if socket.closed then Hangup else NullFrame)
            else r.stopped != Some(NullFrame)
    decreases |ticks|
  {
    if ticks != [] {
      if ticks[0].read.Interrupted? {
        FillStarts(socket, ticks[1..]);
      } else if ticks[0].read.Deliver? && socket.unread != [] {
        var n := Kernel(socket, 3, ticks[0].read).n;
        FillShape(HeaderLoop, 3, [] + socket.unread[..n], socket.(unread := socket.unread[n..]), ticks[1..]);
      }
    }
  }

  function Used(call: Call, socket: Socket): nat {
    ReceiveShape(call, socket);
    |socket.unread| - |Receive(call, socket).socket.unread|
  }

  /** Reading takes the wire's bytes in order. */
  lemma FillTakesPrefix(loop: Loop, want: nat, socket: Socket, ticks: seq<Tick>)
    ensures var r := Fill(loop, want, [], socket, ticks);
            && |r.got| <= want && |r.got| <= |socket.unread|
            && r.got == socket.unread[..|r.got|]
            && r.socket == Socket(socket.unread[|r.got|..], socket.closed)
            && (r.stopped == None <==> |r.got| == want)
            && (r.stopped.Some? ==> !r.stopped.value.Voice?)
            && (r.stopped == Some(NullFrame) ==> loop.HeaderLoop? && r.got == [])
            && (r.stopped == Some(Hangup) ==> loop.HeaderLoop? && r.got == [] && socket == Socket([], true))
  {
    FillShape(loop, want, [], socket, ticks);
    hide Fill;
    var r := Fill(loop, want, [], socket, ticks);
    assert socket.unread == [] + socket.unread == r.got + r.socket.unread;
  }

  lemma ReceiveShape(call: Call, socket: Socket)
    ensures var after := Receive(call, socket).socket;
            && |after.unread| <= |socket.unread| && after.closed == socket.closed
            && after.unread == socket.unread[|socket.unread| - |after.unread|..]
  {
    hide Fill, BigEndian, ReceivePayload;
    var head := Fill(HeaderLoop, 3, [], socket, call.header);
    FillTakesPrefix(HeaderLoop, 3, socket, call.header);
    if head.stopped == None {
      BodyConsumesWholeFrames(call, head.got, head.socket);
    }
  }

  /** The unread bytes start with an audio frame of at least one byte that is `used` bytes long. */
  predicate AudioFrameOf(unread: Bytes, used: nat) {
    && 3 < used <= |unread| && unread[0] == TYPE_AUDIO
    && used == 3 + BigEndian(unread[1], unread[2])
  }

  /** The null frame is for a frame boundary with nothing to read yet, and consumes nothing. */
  lemma NullFramesConsumeNothing(call: Call, socket: Socket)
    ensures var reply := Receive(call, socket).reply;
            && (reply == NullFrame <==>
                || FirstRead(call.header) == Some(NotYet)
                || (socket == Socket([], false) && StartsReading(call)))
            && (reply == NullFrame ==> Receive(call, socket).socket == socket)
  {
    hide Fill, BigEndian, ReceivePayload, FirstRead;
    var head := Fill(HeaderLoop, 3, [], socket, call.header);
    FillTakesPrefix(HeaderLoop, 3, socket, call.header);
    FillStarts(socket, call.header);
    if head.stopped == None {
      BodyConsumesWholeFrames(call, head.got, head.socket);
    }
  }

  /** Hangup is the end of the stream at a frame boundary, or a complete header of kind 0. */
  lemma HangupIsBoundaryOrRequest(call: Call, socket: Socket)
    ensures var used := Used(call, socket);
            Receive(call, socket).reply == Hangup <==>
              || (used == 3 && socket.unread[0] == TYPE_TERMINATE)
              || (socket == Socket([], true) && StartsReading(call))
  {
    hide Fill, BigEndian, ReceivePayload, FirstRead;
    var head := Fill(HeaderLoop, 3, [], socket, call.header);
    FillTakesPrefix(HeaderLoop, 3, socket, call.header);
    FillStarts(socket, call.header);
    if head.stopped == None {
      BodyConsumesWholeFrames(call, head.got, head.socket);
      assert head.got[0] == socket.unread[0];
    }
  }

  /** A voice frame means exactly one whole audio frame was consumed, and carries its payload. */
  lemma VoiceFramesAreWhole(call: Call, socket: Socket)
    ensures var reply, used := Receive(call, socket).reply, Used(call, socket);
            && (reply.Voice? <==> call.isolates && AudioFrameOf(socket.unread, used))
            && (reply.Voice? ==> reply.data == socket.unread[3..used])
  {
    hide Fill, BigEndian, ReceivePayload, FirstRead;
    var unread, used := socket.unread, Used(call, socket);
    var head := Fill(HeaderLoop, 3, [], socket, call.header);
    FillTakesPrefix(HeaderLoop, 3, socket, call.header);
    if head.stopped == None {
      BodyConsumesWholeFrames(call, head.got, head.socket);
      assert head.got[0] == unread[0] && head.got[1] == unread[1] && head.got[2] == unread[2];
      assert unread[3..][..used - 3] == unread[3..used];
    }
  }

  lemma BodyConsumesWholeFrames(call: Call, header: Bytes, socket: Socket)
    requires |header| == 3
    ensures var r, length := ReceivePayload(call, header, socket), BigEndian(header[1], header[2]);
            var used := |socket.unread| - |r.socket.unread|;
            && 0 <= used <= length && r.socket == Socket(socket.unread[used..], socket.closed)
            && r.reply != NullFrame
            && (r.reply == Hangup <==> header[0] == TYPE_TERMINATE)
            && (header[0] == TYPE_TERMINATE ==> used == 0)
            && (r.reply.Voice? <==> call.isolates && header[0] == TYPE_AUDIO && used == length > 0)
            && (r.reply.Voice? ==> r.reply.data == socket.unread[..used])
  {
    var length := BigEndian(header[1], header[2]);
    var body := Fill(PayloadLoop, length, [], socket, call.payload);
    FillTakesPrefix(PayloadLoop, length, socket, call.payload);
    hide Fill, BigEndian;
  }

  // ------------------------------------------------------------------ progress

  function Delivering(ticks: seq<Tick>): nat {
    if ticks == [] then 0 else Delivering(ticks[1..]) + if ticks[0].read.Deliver? then 1 else 0
  }

  /** Every delivering read takes a byte, so a loop left waiting has had fewer of them than bytes it wants. */
  lemma {:induction false} BlockedHasProgressed(loop: Loop, want: nat, got: Bytes, socket: Socket, ticks: seq<Tick>)
    requires |got| <= want
    ensures var r := Fill(loop, want, got, socket, ticks);
            r.stopped == Some(Blocked) && (socket.closed || r.socket.unread != []) ==>
              |got| + Delivering(ticks) <= |r.got| < want
    decreases |ticks|
  {
    if |got| < want && ticks != [] {
      match Judge(loop, |got|, Kernel(socket, want - |got|, ticks[0].read), ticks[0].poll)
      case Take(n) =>
        var after := socket.(unread := socket.unread[n..]);
        BlockedHasProgressed(loop, want, got + socket.unread[..n], after, ticks[1..]);
        FillShape(loop, want, got + socket.unread[..n], after, ticks[1..]);
      case Retry =>
        BlockedHasProgressed(loop, want, got, socket, ticks[1..]);
        FillShape(loop, want, got, socket, ticks[1..]);
      case Stop(_) =>
    }
  }

  /** Enough reads that find the socket readable for the longest frame there can be. */
  predicate Ample(call: Call) {
    Delivering(call.header) >= 3 && Delivering(call.payload) >= 0xFFFF
  }

  /** While bytes or an end of stream are there to be read, an ample schedule lets the call return. */
  lemma AmpleCallsReturn(call: Call, socket: Socket)
    requires Ample(call)
    ensures var r := Receive(call, socket);
            r.reply == Blocked ==> !socket.closed && r.socket.unread == []
  {
    hide Fill, Delivering;
    var head := Fill(HeaderLoop, 3, [], socket, call.header);
    BlockedHasProgressed(HeaderLoop, 3, [], socket, call.header);
    FillTakesPrefix(HeaderLoop, 3, socket, call.header);
    if head.stopped == None {
      var length := BigEndian(head.got[1], head.got[2]);
      BlockedHasProgressed(PayloadLoop, length, [], head.socket, call.payload);
    }
  }

  // --------------------------------------------- what the sender wrote comes back

  predicate CalmHeader(ticks: seq<Tick>) {
    forall t | t in ticks :: !t.read.Broken? && (t.poll.Ready? || t.poll.PollInterrupted?)
  }

  predicate CalmPayload(ticks: seq<Tick>) {
    forall t | t in ticks :: (t.read.Deliver? || t.read.NotYet?) && t.poll.Ready?
  }

  /** No wait times out, no payload read is interrupted, and memory lasts. The bytes may split anywhere. */
  predicate Calm(call: Call) {
    CalmHeader(call.header) && CalmPayload(call.payload) && call.memory && call.isolates
  }

  predicate CalmFor(loop: Loop, ticks: seq<Tick>) {
    if loop.HeaderLoop? then CalmHeader(ticks) else CalmPayload(ticks)
  }

  lemma {:induction false} CalmLoopsFill(loop: Loop, want: nat, got: Bytes, socket: Socket, ticks: seq<Tick>)
    requires CalmFor(loop, ticks) && |got| <= want <= |got| + |socket.unread|
    ensures var r := Fill(loop, want, got, socket, ticks);
            r.stopped in {None, Some(Blocked)} || (r.stopped == Some(NullFrame) && loop.HeaderLoop? && got == [])
    decreases |ticks|
  {
    if |got| < want && ticks != [] {
      assert ticks[0] in ticks;
      match Judge(loop, |got|, Kernel(socket, want - |got|, ticks[0].read), ticks[0].poll)
      case Take(n) =>
        CalmLoopsFill(loop, want, got + socket.unread[..n], socket.(unread := socket.unread[n..]), ticks[1..]);
      case Retry => CalmLoopsFill(loop, want, got, socket, ticks[1..]);
      case Stop(_) =>
    }
  }

  predicate PlainAudio(f: Frame) { f.kind == TYPE_AUDIO && f.payload != [] && Legal(f) }

  /** With a whole audio frame on the wire a calm call returns it, returns the null frame, or is still reading. */
  lemma CalmCallReadsFrame(call: Call, socket: Socket, f: Frame, rest: Bytes)
    requires Calm(call) && PlainAudio(f) && socket.unread == Wire(f) + rest
    ensures var r := Receive(call, socket);
            || r == Received(Voice(f.payload), Socket(rest, socket.closed))
            || (r == Received(NullFrame, socket) && !StartsReading(call))
            || (r.reply == Blocked && !Ample(call))
  {
    var unread, n := socket.unread, |f.payload|;
    WireHeader(f, rest);
    NullFramesConsumeNothing(call, socket);
    VoiceFramesAreWhole(call, socket);
    ReceiveShape(call, socket);
    CalmHeaderRead(call, socket, f, rest);
    hide Fill, Wire, BigEndian, FirstRead, ReceivePayload, Receive, CalmHeader, CalmPayload, Ample;
    if Receive(call, socket).reply.Voice? {
      assert Used(call, socket) == 3 + n;
    }
  }

  lemma WireHeader(f: Frame, rest: Bytes)
    requires Legal(f)
    ensures var unread := Wire(f) + rest;
            && |unread| == 3 + |f.payload| + |rest|
            && unread[0] == f.kind && BigEndian(unread[1], unread[2]) == |f.payload|
            && unread[3..3 + |f.payload|] == f.payload && unread[3 + |f.payload|..] == rest
  {}

  lemma CalmHeaderRead(call: Call, socket: Socket, f: Frame, rest: Bytes)
    requires Calm(call) && PlainAudio(f) && socket.unread == Wire(f) + rest
    ensures var reply := Receive(call, socket).reply;
            reply.Voice? || reply == NullFrame || (reply == Blocked && !Ample(call))
  {
    WireHeader(f, rest);
    hide Wire, BigEndian, Fill, CalmHeader, CalmPayload, Ample;
    var head := Fill(HeaderLoop, 3, [], socket, call.header);
    FillTakesPrefix(HeaderLoop, 3, socket, call.header);
    CalmLoopsFill(HeaderLoop, 3, [], socket, call.header);
    if Ample(call) {
      AmpleLoopsEnd(call, socket);
    }
    if head.stopped == None {
      var unread := socket.unread;
      assert head.got[0] == unread[0] && head.got[1] == unread[1] && head.got[2] == unread[2];
      CalmLoopsFill(PayloadLoop, |f.payload|, [], head.socket, call.payload);
      if Ample(call) {
        AmpleBodiesEnd(call, head.socket, |f.payload|);
      }
    }
  }

  lemma AmpleLoopsEnd(call: Call, socket: Socket)
    requires Ample(call) && |socket.unread| >= 3
    ensures Fill(HeaderLoop, 3, [], socket, call.header).stopped != Some(Blocked)
  {
    BlockedHasProgressed(HeaderLoop, 3, [], socket, call.header);
    FillTakesPrefix(HeaderLoop, 3, socket, call.header);
  }

  lemma AmpleBodiesEnd(call: Call, socket: Socket, length: nat)
    requires Ample(call) && length <= 0xFFFF && |socket.unread| >= length
    ensures Fill(PayloadLoop, length, [], socket, call.payload).stopped != Some(Blocked)
  {
    BlockedHasProgressed(PayloadLoop, length, [], socket, call.payload);
    FillTakesPrefix(PayloadLoop, length, socket, call.payload);
  }

  /** The replies of repeated calls, up to the first that ends the connection or does not return. */
  function Replies(calls: seq<Call>, socket: Socket): seq<Reply> {
    if calls == [] then []
    else
      var r := Receive(calls[0], socket);
      [r.reply] + if r.reply.Voice? || r.reply.NullFrame? then Replies(calls[1..], r.socket) else []
  }

  function Voices(replies: seq<Reply>): seq<Bytes> {
    if replies == [] then []
    else (if replies[0].Voice? then [replies[0].data] else []) + Voices(replies[1..])
  }

  /** Calls that find the socket readable at a frame boundary. */
  function Reading(calls: seq<Call>): nat {
    if calls == [] then 0 else Reading(calls[1..]) + if StartsReading(calls[0]) then 1 else 0
  }

  predicate AllCalm(calls: seq<Call>) { forall c | c in calls :: Calm(c) }

  predicate AllAmple(calls: seq<Call>) { forall c | c in calls :: Ample(c) }

  predicate AllAudio(frames: seq<Frame>)
    ensures AllAudio(frames) ==> forall f | f in frames :: Legal(f)
  {
    forall f | f in frames :: PlainAudio(f)
  }

  function Payloads(frames: seq<Frame>): (ps: seq<Bytes>)
    ensures |ps| == |frames|
  {
    if frames == [] then [] else [frames[0].payload] + Payloads(frames[1..])
  }

  /** Nothing but the frames' payloads in order, null frames between, and a hangup only after them all. */
  predicate Faithful(replies: seq<Reply>, payloads: seq<Bytes>, closed: bool) {
    && Voices(replies) <= payloads
    && Fatal !in replies
    && (Hangup in replies ==> closed && Voices(replies) == payloads)
  }

  /** Enough calls that find bytes to read, on schedules long enough for them, get every frame. */
  predicate Complete(calls: seq<Call>, replies: seq<Reply>, frames: nat) {
    AllAmple(calls) ==> Blocked !in replies && |Voices(replies)| >= Min(Reading(calls), frames)
  }

  lemma {:induction false} CallsReadFrames(calls: seq<Call>, frames: seq<Frame>, closed: bool)
    requires AllCalm(calls) && AllAudio(frames)
    ensures var replies := Replies(calls, Socket(WireAll(frames), closed));
            Faithful(replies, Payloads(frames), closed) && Complete(calls, replies, |frames|)
    decreases |calls|
  {
    if calls != [] {
      assert calls[0] in calls;
      if frames == [] {
        CallsAfterTheEnd(calls, closed);
      } else {
        assert frames[0] in frames;
        hide Wire, Calm, Ample, StartsReading, Receive, Faithful, Complete, PlainAudio;
        assert AllAudio(frames[1..]) && AllCalm(calls[1..]);
        CallsReadFrames(calls[1..], frames, closed);
        CallsReadFrames(calls[1..], frames[1..], closed);
        OneMoreCall(calls, frames, closed);
      }
    }
  }

  lemma {:induction false} OneMoreCall(calls: seq<Call>, frames: seq<Frame>, closed: bool)
    requires calls != [] && frames != [] && Calm(calls[0]) && AllAudio(frames)
    requires var later := Replies(calls[1..], Socket(WireAll(frames), closed));
             Faithful(later, Payloads(frames), closed) && Complete(calls[1..], later, |frames|)
    requires AllAudio(frames[1..])
    requires var later := Replies(calls[1..], Socket(WireAll(frames[1..]), closed));
             Faithful(later, Payloads(frames[1..]), closed) && Complete(calls[1..], later, |frames| - 1)
    ensures var replies := Replies(calls, Socket(WireAll(frames), closed));
            Faithful(replies, Payloads(frames), closed) && Complete(calls, replies, |frames|)
  {
    hide Wire, Calm, Ample, StartsReading, Receive, PlainAudio, Replies, Voices, AllCalm, Faithful;
    var f, socket := frames[0], Socket(WireAll(frames), closed);
    assert f in frames && calls[0] in calls && (AllAmple(calls) ==> AllAmple(calls[1..]));
    CalmCallReadsFrame(calls[0], socket, f, WireAll(frames[1..]));
    CallStep(calls, socket);
    assert Reading(calls) == Reading(calls[1..]) + if StartsReading(calls[0]) then 1 else 0;
    assert Payloads(frames) == [f.payload] + Payloads(frames[1..]);
    hide WireAll, Payloads, Reading, AllAmple, AllAudio;
    var r := Receive(calls[0], socket);
    var later := Replies(calls[1..], r.socket);
    if r.reply.Voice? {
      FaithfulGrows(f.payload, later, Payloads(frames[1..]), closed);
    } else if r.reply.NullFrame? {
      FaithfulIdles(later, Payloads(frames), closed);
    } else {
      assert Faithful([Blocked], Payloads(frames), closed) by { FaithfulBlocked(Payloads(frames), closed); }
    }
  }

  lemma FaithfulGrows(payload: Bytes, later: seq<Reply>, payloads: seq<Bytes>, closed: bool)
    requires Faithful(later, payloads, closed)
    ensures Faithful([Voice(payload)] + later, [payload] + payloads, closed)
  {
    assert ([Voice(payload)] + later)[1..] == later;
  }

  lemma FaithfulIdles(later: seq<Reply>, payloads: seq<Bytes>, closed: bool)
    requires Faithful(later, payloads, closed)
    ensures Faithful([NullFrame] + later, payloads, closed)
  {
    assert ([NullFrame] + later)[1..] == later;
  }

  lemma FaithfulBlocked(payloads: seq<Bytes>, closed: bool)
    ensures Faithful([Blocked], payloads, closed)
  {
    assert [Blocked][1..] == [];
  }

  lemma CallStep(calls: seq<Call>, socket: Socket)
    requires calls != []
    ensures var r, replies := Receive(calls[0], socket), Replies(calls, socket);
            if r.reply.Voice? || r.reply.NullFrame? then
              && replies == [r.reply] + Replies(calls[1..], r.socket)
              && Voices(replies)
                 == (if r.reply.Voice? then [r.reply.data] else []) + Voices(Replies(calls[1..], r.socket))
            else replies == [r.reply] && Voices(replies) == []
  {
    hide Receive;
    var r := Receive(calls[0], socket);
    if r.reply.Voice? || r.reply.NullFrame? {
      var later := Replies(calls[1..], r.socket);
      assert ([r.reply] + later)[1..] == later;
    } else {
      assert [r.reply][1..] == [];
    }
  }

  lemma {:induction false} CallsAfterTheEnd(calls: seq<Call>, closed: bool)
    requires AllCalm(calls)
    ensures var replies := Replies(calls, Socket([], closed));
            && Voices(replies) == []
            && Fatal !in replies
            && (Hangup in replies ==> closed)
            && (AllAmple(calls) ==> Blocked !in replies)
    decreases |calls|
  {
    if calls != [] {
      var socket := Socket([], closed);
      assert calls[0] in calls;
      CalmCallAtTheEnd(calls[0], closed);
      hide Receive, Calm, Ample;
      CallsAfterTheEnd(calls[1..], closed);
      CallStep(calls, socket);
    }
  }

  lemma CalmCallAtTheEnd(call: Call, closed: bool)
    requires Calm(call)
    ensures var socket := Socket([], closed);
            var r := Receive(call, socket);
            || r == Received(NullFrame, socket)
            || (r.reply == Hangup && closed)
            || (r.reply == Blocked && !Ample(call))
  {
    var socket := Socket([], closed);
    FillStarts(socket, call.header);
    FillTakesPrefix(HeaderLoop, 3, socket, call.header);
    NullFramesConsumeNothing(call, socket);
    CalmFirstRead(call.header);
  }

  lemma {:induction false} CalmFirstRead(ticks: seq<Tick>)
    requires CalmHeader(ticks)
    ensures FirstRead(ticks) != Some(Broken)
    ensures Delivering(ticks) > 0 ==> FirstRead(ticks).Some?
  {
    if ticks != [] {
      assert ticks[0] in ticks;
      CalmFirstRead(ticks[1..]);
    }
  }

  lemma {:induction false} PayloadsOfFramed(frames: seq<Frame>, chunks: seq<Bytes>)
    requires |frames| == |chunks| && forall i | 0 <= i < |chunks| :: frames[i] == Frame(TYPE_AUDIO, chunks[i])
    ensures Payloads(frames) == chunks
  {
    if frames != [] {
      PayloadsOfFramed(frames[1..], chunks[1..]);
    }
  }

  lemma SendIsPlainAudio(payload: Bytes)
    requires payload != []
    ensures AllAudio(AudioFrames(payload)) && Payloads(AudioFrames(payload)) == Chunks(payload)
  {
    var frames, chunks := AudioFrames(payload), Chunks(payload);
    ChunksAreShort(payload);
    PayloadsOfFramed(frames, chunks);
    hide AudioFrames, Chunks;
    assert frames == Framed(chunks);
    forall f | f in frames ensures PlainAudio(f) {
      var i :| 0 <= i < |frames| && frames[i] == f;
      assert chunks[i] in chunks;
    }
  }

  lemma {:induction false} JoinedPrefix(some: seq<Bytes>, all: seq<Bytes>)
    requires some <= all
    ensures Joined(some) <= Joined(all)
  {
    if some != [] {
      JoinedPrefix(some[1..], all[1..]);
    }
  }

  /** A `send_audio` and how its writes went. */
  datatype Send = Send(payload: Bytes, script: seq<WriteOutcome>)

  predicate Succeeded(s: Send) { s.payload != [] && AllDrained(AudioFrames(s.payload), s.script) }

  /** What a sequence of sends puts on the connection. */
  function AllWritten(sends: seq<Send>): Bytes {
    if sends == [] then []
    else Written(AudioFrames(sends[0].payload), sends[0].script) + AllWritten(sends[1..])
  }

  /** The payloads in order. */
  function Said(sends: seq<Send>): Bytes {
    if sends == [] then [] else sends[0].payload + Said(sends[1..])
  }

  /** The pieces they are sent in. */
  function Pieces(sends: seq<Send>): seq<Bytes> {
    if sends == [] then [] else Chunks(sends[0].payload) + Pieces(sends[1..])
  }

  function FramesOf(sends: seq<Send>): seq<Frame> {
    if sends == [] then [] else AudioFrames(sends[0].payload) + FramesOf(sends[1..])
  }

  lemma {:induction false} FramesAppend(some: seq<Frame>, more: seq<Frame>)
    requires AllAudio(some) && AllAudio(more)
    ensures AllAudio(some + more) && WireAll(some + more) == WireAll(some) + WireAll(more)
    ensures Payloads(some + more) == Payloads(some) + Payloads(more)
  {
    hide Wire, PlainAudio;
    if some == [] {
      assert some + more == more;
    } else {
      assert forall f | f in some[1..] :: f in some;
      FramesAppend(some[1..], more);
      assert (some + more)[1..] == some[1..] + more;
    }
  }

  lemma JoinedHead(first: Bytes, rest: seq<Bytes>)
    ensures Joined([first] + rest) == first + Joined(rest)
  {
    assert ([first] + rest)[1..] == rest;
  }

  lemma {:induction false} JoinedAppend(some: seq<Bytes>, more: seq<Bytes>)
    ensures Joined(some + more) == Joined(some) + Joined(more)
  {
    if some == [] {
      assert some + more == more;
    } else {
      JoinedAppend(some[1..], more);
      assert some + more == [some[0]] + (some[1..] + more);
      JoinedHead(some[0], some[1..] + more);
      JoinedHead(some[0], some[1..]);
      assert some == [some[0]] + some[1..];
      hide Joined;
    }
  }

  /** Successful sends put the frames of all their pieces on the connection, one after another. */
  lemma {:induction false} SendsAreFrames(sends: seq<Send>)
    requires forall s | s in sends :: Succeeded(s)
    ensures var frames := FramesOf(sends);
            && AllAudio(frames) && Payloads(frames) == Pieces(sends) && WireAll(frames) == AllWritten(sends)
            && Joined(Pieces(sends)) == Said(sends)
  {
    if sends != [] {
      var payload, frames := sends[0].payload, AudioFrames(sends[0].payload);
      assert sends[0] in sends;
      hide AudioFrames, Chunks, Written, AllDrained, Wire, PlainAudio;
      SendsAreFrames(sends[1..]);
      SendIsPlainAudio(payload);
      DrainedMeansAllWritten(frames, sends[0].script);
      FramesAppend(frames, FramesOf(sends[1..]));
      ChunksJoin(payload);
      JoinedAppend(Chunks(payload), Pieces(sends[1..]));
    }
  }

  /**
    Whatever non-empty payloads successful sends wrote, and however the socket splits
    the bytes, calm calls of the reader yield their pieces in order and null frames
    between; enough calls yield all the payloads.
   */
  lemma SentAudioIsHeard(sends: seq<Send>, calls: seq<Call>, closed: bool)
    requires (forall s | s in sends :: Succeeded(s)) && AllCalm(calls)
    ensures var replies := Replies(calls, Socket(AllWritten(sends), closed));
            && Faithful(replies, Pieces(sends), closed)
            && Joined(Voices(replies)) <= Said(sends)
            && (AllAmple(calls) && Reading(calls) >= |Pieces(sends)| ==>
                Joined(Voices(replies)) == Said(sends) && Blocked !in replies)
  {
    hide Calm, Ample, Replies, Voices, Joined, Reading, AllWritten, Pieces, Said, FramesOf, Succeeded;
    var frames := FramesOf(sends);
    SendsAreFrames(sends);
    CallsReadFrames(calls, frames, closed);
    var heard := Voices(Replies(calls, Socket(WireAll(frames), closed)));
    JoinedPrefix(heard, Pieces(sends));
    if |heard| >= |Pieces(sends)| {
      assert heard == Pieces(sends);
    }
  }

  /** A frame of length 0 makes the reader give up. */
  lemma EmptyFrameIsFatal(call: Call, socket: Socket)
    requires Calm(call) && Ample(call) && StartsReading(call)
    requires |socket.unread| >= 3 && socket.unread[0] == TYPE_AUDIO
    requires BigEndian(socket.unread[1], socket.unread[2]) == 0
    ensures Receive(call, socket).reply == Fatal
  {
    hide BigEndian, Fill, Ample, FirstRead, CalmPayload, CalmHeader;
    FillStarts(socket, call.header);
    CalmLoopsFill(HeaderLoop, 3, [], socket, call.header);
    FillTakesPrefix(HeaderLoop, 3, socket, call.header);
    AmpleLoopsEnd(call, socket);
    var head, unread := Fill(HeaderLoop, 3, [], socket, call.header), socket.unread;
    assert head.got[0] == unread[0] && head.got[1] == unread[1] && head.got[2] == unread[2];
  }

  /** An empty payload is sent as one such frame, whatever follows it. */
  lemma SentSilenceIsFatal(call: Call, rest: Bytes, closed: bool)
    requires Calm(call) && Ample(call) && StartsReading(call)
    ensures Receive(call, Socket(WireAll(AudioFrames([])) + rest, closed)).reply == Fatal
  {
    hide Calm, Ample, StartsReading, Receive, AudioFrames;
    var f := Frame(TYPE_AUDIO, []);
    FirstFrame([]);
    assert WireAll([f]) == Wire(f) by { assert [f][1..] == []; }
    WireHeader(f, rest);
    EmptyFrameIsFatal(call, Socket(Wire(f) + rest, closed));
  }
}
