/**
  When the frame reader fails closed, for every schedule, told by the reads and waits it
  met and the bytes it then held.
 */
module ReaderFailures {
  import opened Basics
  import opened AudioSocket
  import opened SocketReader

  /** Bytes that a read adds when `room` are wanted and `left` are still to arrive. */
  function Gain(read: Read, room: nat, left: nat): nat {
    if read.Deliver? then Min(Max(1, read.n), Min(room, left)) else 0
  }

  /** Bytes held before read `i`, of `want`, when `left` were to arrive and `have` were held at first. */
  function Held(want: nat, have: nat, left: nat, ticks: seq<Tick>, i: nat): (held: nat)
    requires have <= want && i <= |ticks|
    ensures have <= held <= want && held <= have + left
    decreases i
  {
    if i == 0 then have
    else
      var gain := Gain(ticks[0].read, want - have, left);
      Held(want, have + gain, left - gain, ticks[1..], i - 1)
  }

  /** What a read finds once all bytes have been taken. */
  predicate FindsEnd(t: Tick, left: nat, closed: bool) { t.read.Deliver? && left == 0 && closed }

  predicate FindsNothing(t: Tick, left: nat, closed: bool) {
    t.read.NotYet? || (t.read.Deliver? && left == 0 && !closed)
  }

  /** A header read that ends the connection: an error, or, inside the header, end of stream or a failed wait. */
  predicate HeaderFails(t: Tick, held: nat, left: nat, closed: bool) {
    || t.read.Broken?
    || (held > 0 && FindsEnd(t, left, closed))
    || (held > 0 && FindsNothing(t, left, closed) && (t.poll.TimedOut? || t.poll.PollBroken?))
  }

  /** A header read that ends the call at the frame boundary, without failing. */
  predicate HeaderRests(t: Tick, held: nat, left: nat, closed: bool) {
    held == 0 && (FindsEnd(t, left, closed) || FindsNothing(t, left, closed))
  }

  /** A payload read that ends the connection: here an interruption does so too, of the read or of the wait. */
  predicate PayloadFails(t: Tick, left: nat, closed: bool) {
    || t.read.Broken? || t.read.Interrupted? || FindsEnd(t, left, closed)
    || (FindsNothing(t, left, closed) && (t.poll.TimedOut? || t.poll.PollInterrupted? || t.poll.PollBroken?))
  }

  predicate FailsAt(loop: Loop, t: Tick, held: nat, left: nat, closed: bool) {
    if loop.HeaderLoop? then HeaderFails(t, held, left, closed) else PayloadFails(t, left, closed)
  }

  predicate EndsAt(loop: Loop, t: Tick, held: nat, left: nat, closed: bool) {
    FailsAt(loop, t, held, left, closed) || (loop.HeaderLoop? && HeaderRests(t, held, left, closed))
  }

  /** Read `i` is made: bytes are still wanted, and no earlier read ended the call. */
  predicate Reaches(loop: Loop, want: nat, have: nat, left: nat, closed: bool, ticks: seq<Tick>, i: nat)
    requires have <= want && i <= |ticks|
  {
    forall j | 0 <= j < i ::
      var held := Held(want, have, left, ticks, j);
      held < want && !EndsAt(loop, ticks[j], held, have + left - held, closed)
  }

  /** The loop meets a read that ends the connection. */
  ghost predicate Fails(loop: Loop, want: nat, have: nat, left: nat, closed: bool, ticks: seq<Tick>)
    requires have <= want
  {
    exists i :: FailsOnRead(loop, want, have, left, closed, ticks, i)
  }

  predicate FailsOnRead(loop: Loop, want: nat, have: nat, left: nat, closed: bool, ticks: seq<Tick>, i: int)
    requires have <= want
  {
    && 0 <= i < |ticks| && Reaches(loop, want, have, left, closed, ticks, i)
    && var held := Held(want, have, left, ticks, i);
       held < want && FailsAt(loop, ticks[i], held, have + left - held, closed)
  }

  /** The loop gets all the bytes it wants. */
  ghost predicate Completes(loop: Loop, want: nat, have: nat, left: nat, closed: bool, ticks: seq<Tick>)
    requires have <= want
  {
    exists i: nat :: i <= |ticks| && Reaches(loop, want, have, left, closed, ticks, i)
                     && Held(want, have, left, ticks, i) == want
  }

  // --------------------------------------------------------------- where a loop stops

  lemma HeldTail(want: nat, have: nat, left: nat, ticks: seq<Tick>, i: nat)
    requires have <= want && i < |ticks|
    ensures var gain := Gain(ticks[0].read, want - have, left);
            Held(want, have, left, ticks, i + 1) == Held(want, have + gain, left - gain, ticks[1..], i)
  {}

  lemma ReachesOneMore(loop: Loop, want: nat, have: nat, left: nat, closed: bool, ticks: seq<Tick>, i: nat)
    requires have < want && i < |ticks| && !EndsAt(loop, ticks[0], have, left, closed)
    requires var gain := Gain(ticks[0].read, want - have, left);
             Reaches(loop, want, have + gain, left - gain, closed, ticks[1..], i)
    ensures Reaches(loop, want, have, left, closed, ticks, i + 1)
  {
    hide EndsAt, Gain;
    forall j | 0 <= j < i + 1
      ensures Held(want, have, left, ticks, j) < want
      ensures !EndsAt(loop, ticks[j], Held(want, have, left, ticks, j),
                      have + left - Held(want, have, left, ticks, j), closed)
    {
      if j > 0 {
        HeldTail(want, have, left, ticks, j - 1);
        assert ticks[j] == ticks[1..][j - 1];
      }
    }
  }

  /** How the kernel's answer is judged, told by the read and the wait. */
  lemma JudgedByTheTick(loop: Loop, want: nat, have: nat, socket: Socket, t: Tick)
    requires have < want
    ensures var v, left := Judge(loop, have, Kernel(socket, want - have, t.read), t.poll), |socket.unread|;
            && (v.Stop? <==> EndsAt(loop, t, have, left, socket.closed))
            && (v == Stop(Fatal) <==> FailsAt(loop, t, have, left, socket.closed))
            && v != Stop(Blocked) && !(v.Stop? && v.reply.Voice?)
            && (v.Take? ==> v.n == Gain(t.read, want - have, left) > 0)
            && (v.Retry? ==> Gain(t.read, want - have, left) == 0)
  {}

  /** The loop stops before read `i` with `held` bytes, for this reason. */
  predicate StopsAt(loop: Loop, want: nat, have: nat, left: nat, closed: bool, ticks: seq<Tick>, i: nat,
                    stopped: Option<Reply>, held: nat)
    requires have <= want
  {
    && i <= |ticks| && Reaches(loop, want, have, left, closed, ticks, i)
    && held == Held(want, have, left, ticks, i)
    && (stopped == None <==> held == want)
    && (stopped == Some(Blocked) ==> i == |ticks|)
    && (stopped.Some? && stopped != Some(Blocked) ==>
        i < |ticks| && EndsAt(loop, ticks[i], held, have + left - held, closed))
    && (stopped == Some(Fatal) <==>
        i < |ticks| && held < want && FailsAt(loop, ticks[i], held, have + left - held, closed))
  }

  lemma StopsOneLater(loop: Loop, want: nat, have: nat, left: nat, closed: bool, ticks: seq<Tick>, i: nat,
                      stopped: Option<Reply>, held: nat)
    requires have < want && ticks != [] && !EndsAt(loop, ticks[0], have, left, closed)
    requires var gain := Gain(ticks[0].read, want - have, left);
             StopsAt(loop, want, have + gain, left - gain, closed, ticks[1..], i, stopped, held)
    ensures StopsAt(loop, want, have, left, closed, ticks, i + 1, stopped, held)
  {
    hide Gain, EndsAt, FailsAt, Reaches;
    ReachesOneMore(loop, want, have, left, closed, ticks, i);
    HeldTail(want, have, left, ticks, i);
    hide Held;
  }

  lemma StopsAtOnce(loop: Loop, want: nat, got: Bytes, socket: Socket, ticks: seq<Tick>)
    requires |got| <= want
    requires |got| == want || ticks == [] || EndsAt(loop, ticks[0], |got|, |socket.unread|, socket.closed)
    ensures StopsAt(loop, want, |got|, |socket.unread|, socket.closed, ticks, 0,
                    Fill(loop, want, got, socket, ticks).stopped, |Fill(loop, want, got, socket, ticks).got|)
  {
    FillStep(loop, want, got, socket, ticks);
    if |got| < want && ticks != [] {
      JudgedByTheTick(loop, want, |got|, socket, ticks[0]);
    }
    hide Fill, Judge, Kernel, EndsAt, FailsAt;
  }

  /** A loop makes its reads up to the first that ends the call, or until it holds all it wants. */
  lemma {:induction false} LoopStops(loop: Loop, want: nat, got: Bytes, socket: Socket, ticks: seq<Tick>)
    returns (i: nat)
    requires |got| <= want
    ensures var r := Fill(loop, want, got, socket, ticks);
            StopsAt(loop, want, |got|, |socket.unread|, socket.closed, ticks, i, r.stopped, |r.got|)
    decreases |ticks|
  {
    hide Judge, Kernel, EndsAt, FailsAt, Gain, StopsAt, Fill;
    i := 0;
    if |got| < want && ticks != [] && !EndsAt(loop, ticks[0], |got|, |socket.unread|, socket.closed) {
      FillStep(loop, want, got, socket, ticks);
      JudgedByTheTick(loop, want, |got|, socket, ticks[0]);
      var n := Taken(Kernel(socket, want - |got|, ticks[0].read));
      GainIsTaken(socket, want - |got|, ticks[0].read);
      i := LoopStops(loop, want, got + socket.unread[..n], socket.(unread := socket.unread[n..]), ticks[1..]);
      var r := Fill(loop, want, got, socket, ticks);
      StopsOneLater(loop, want, |got|, |socket.unread|, socket.closed, ticks, i, r.stopped, |r.got|);
      i := i + 1;
    } else {
      StopsAtOnce(loop, want, got, socket, ticks);
    }
  }

  lemma GainIsTaken(socket: Socket, room: nat, read: Read)
    requires room > 0
    ensures Taken(Kernel(socket, room, read)) == Gain(read, room, |socket.unread|) <= |socket.unread|
  {}

  lemma LoopFailsIff(loop: Loop, want: nat, socket: Socket, ticks: seq<Tick>)
    ensures var r := Fill(loop, want, [], socket, ticks);
            && (r.stopped == Some(Fatal) <==> Fails(loop, want, 0, |socket.unread|, socket.closed, ticks))
            && (r.stopped == None <==> Completes(loop, want, 0, |socket.unread|, socket.closed, ticks))
  {
    var k := LoopStops(loop, want, [], socket, ticks);
    var left, closed, r := |socket.unread|, socket.closed, Fill(loop, want, [], socket, ticks);
    hide Fill;
    assert StopsAt(loop, want, 0, left, closed, ticks, k, r.stopped, |r.got|);
    if r.stopped == Some(Fatal) {
      assert FailsOnRead(loop, want, 0, left, closed, ticks, k);
    }
  }

  lemma HeaderOfFill(call: Call, socket: Socket)
    ensures var head := Fill(HeaderLoop, 3, [], socket, call.header);
            head.stopped == None ==>
              && |socket.unread| >= 3 && |head.got| == 3
              && head.got[0] == socket.unread[0] && head.got[1] == socket.unread[1] && head.got[2] == socket.unread[2]
              && |head.socket.unread| == |socket.unread| - 3 && head.socket.closed == socket.closed
  {
    FillTakesPrefix(HeaderLoop, 3, socket, call.header);
    hide Fill;
  }

  /** The body behind a complete header cannot be returned: wrong kind, no length, no memory, or its reads fail. */
  ghost predicate BodyFails(call: Call, kind: Byte, length: nat, left: nat, closed: bool) {
    && kind != 0x00
    && (|| kind != 0x10 || length == 0 || !call.memory
        || Fails(PayloadLoop, length, 0, left, closed, call.payload)
        || (Completes(PayloadLoop, length, 0, left, closed, call.payload) && !call.isolates))
  }

  /**
    The reader fails closed exactly on a read error, an end of stream inside a frame, a wait
    that times out or breaks inside a frame, an interrupted payload read or wait, a wrong
    kind, length 0, or a failed allocation: at the first of these that the schedule meets.
   */
  lemma FatalIff(call: Call, socket: Socket)
    ensures var unread, n, closed := socket.unread, |socket.unread|, socket.closed;
            Receive(call, socket).reply == Fatal <==>
              || Fails(HeaderLoop, 3, 0, n, closed, call.header)
              || (&& Completes(HeaderLoop, 3, 0, n, closed, call.header) && n >= 3
                  && BodyFails(call, unread[0], 256 * unread[1] as nat + unread[2] as nat, n - 3, closed))
  {
    var head := Fill(HeaderLoop, 3, [], socket, call.header);
    LoopFailsIff(HeaderLoop, 3, socket, call.header);
    HeaderOfFill(call, socket);
    FillTakesPrefix(HeaderLoop, 3, socket, call.header);
    hide Fails, Completes;
    if head.stopped == None {
      var length := BigEndian(head.got[1], head.got[2]);
      LoopFailsIff(PayloadLoop, length, head.socket, call.payload);
      FillTakesPrefix(PayloadLoop, length, head.socket, call.payload);
    }
    hide Fill;
  }
}
