/**
  AudioSocket framing: the type-length-value codec, the handshake, the server's
  read loop with its callbacks, and the chunking sender.
 */
module AudioSocket {
  import opened Basics

  type ConnectionId = nat

  const TYPE_TERMINATE: Byte := 0x00
  const TYPE_UUID: Byte := 0x01
  const TYPE_DTMF: Byte := 0x03
  const TYPE_AUDIO: Byte := 0x10
  const TYPE_ERROR: Byte := 0xFF
  const MAX_PAYLOAD_BYTES: nat := 4096

  datatype Frame = Frame(kind: Byte, payload: Bytes)

  predicate Legal(f: Frame) { |f.payload| <= MAX_PAYLOAD_BYTES }

  predicate IsAudio(kind: Byte) { 0x10 <= kind <= 0x18 }

  // -------------------------------------------------------------------- codec

  datatype FrameError = PayloadTooLong | HeaderIncomplete | LengthInvalid

  function Wire(f: Frame): Bytes
    requires Legal(f)
  {
    [f.kind, |f.payload| / 256, |f.payload| % 256] + f.payload
  }

  function EncodeFrame(kind: Byte, payload: Bytes): Result<Bytes, FrameError> {
    if |payload| > MAX_PAYLOAD_BYTES then Failure(PayloadTooLong) else Success(Wire(Frame(kind, payload)))
  }

  function DecodeFrame(data: Bytes): Result<Frame, FrameError> {
    if |data| < 3 then Failure(HeaderIncomplete)
    else
      var length := BigEndian(data[1], data[2]);
      if length > MAX_PAYLOAD_BYTES || |data| != length + 3 then Failure(LengthInvalid)
      else Success(Frame(data[0], data[3..]))
  }

  /** Decoding inverts encoding on every legal frame and accepts nothing else. */
  lemma DecodeExactlyEncodings(data: Bytes, f: Frame)
    ensures DecodeFrame(data) == Success(f) <==> EncodeFrame(f.kind, f.payload) == Success(data)
  {
    if DecodeFrame(data) == Success(f) {
      assert data == [data[0], data[1], data[2]] + data[3..];
      assert Wire(f) == data;
    }
    if Legal(f) && Wire(f) == data {
      assert data[3..] == f.payload;
    }
  }

  // ------------------------------------------------------------- the handshake

  datatype Acceptance = NewUuid(uuid: Bytes) | Passed | Refused

  class AudioSocketHandshake {
    var callUuid: Option<Bytes>

    constructor ()
      ensures callUuid == None
    {
      callUuid := None;
    }

    method Accept(f: Frame) returns (r: Acceptance)
      modifies this
      ensures old(callUuid) == None && f.kind == TYPE_UUID && |f.payload| == 16 ==>
                r == NewUuid(f.payload) && callUuid == Some(f.payload)
      ensures old(callUuid) == None && !(f.kind == TYPE_UUID && |f.payload| == 16) ==> r == Refused && callUuid == None
      ensures old(callUuid) != None ==>
                callUuid == old(callUuid)
                && r == if IsAudio(f.kind) || f.kind in {TYPE_DTMF, TYPE_TERMINATE, TYPE_ERROR} then Passed else Refused
    {
      if callUuid == None {
        if f.kind != TYPE_UUID || |f.payload| != 16 {
          return Refused;
        }
        callUuid := Some(f.payload);
        return NewUuid(f.payload);
      }
      r := if IsAudio(f.kind) || f.kind in {TYPE_DTMF, TYPE_TERMINATE, TYPE_ERROR} then Passed else Refused;
    }
  }

  // --------------------------------------------------- what the server must do

  datatype Callback =
    | OnUuid(uuid: Bytes)
    | OnAudio(payload: Bytes)
    | OnDtmf(digit: Option<Byte>)
    | OnDisconnect

  /** Frames after the handshake that end the connection: a terminator, an error, or a kind the protocol lacks. */
  predicate Stops(f: Frame) { !IsAudio(f.kind) && f.kind != TYPE_DTMF }

  function FirstAscii(payload: Bytes): Option<Byte> {
    if payload == [] then None
    else if payload[0] < 128 then Some(payload[0])
    else FirstAscii(payload[1..])
  }

  /** Byte `i` is `b`, and only non-ASCII bytes come before it. */
  predicate LeadsAscii(payload: Bytes, i: int, b: Byte) {
    0 <= i < |payload| && payload[i] == b < 128 && forall j | 0 <= j < i :: payload[j] >= 128
  }

  /** A DTMF digit is the first ASCII byte of its payload; there is none exactly if no byte is ASCII. */
  lemma {:induction false} DigitLeads(payload: Bytes)
    ensures var digit := FirstAscii(payload);
            if digit.None? then forall j | 0 <= j < |payload| :: payload[j] >= 128
            else exists i :: LeadsAscii(payload, i, digit.value)
  {
    if payload != [] {
      if payload[0] < 128 {
        assert LeadsAscii(payload, 0, payload[0]);
      } else {
        DigitLeads(payload[1..]);
        var digit := FirstAscii(payload[1..]);
        if digit.Some? {
          var i :| LeadsAscii(payload[1..], i, digit.value);
          assert LeadsAscii(payload, i + 1, digit.value);
        } else {
          assert payload == [payload[0]] + payload[1..];
        }
      }
    }
  }

  function Delivery(f: Frame): seq<Callback> {
    if f.payload == [] then []
    else if IsAudio(f.kind) then [OnAudio(f.payload)]
    else if f.kind == TYPE_DTMF then [OnDtmf(FirstAscii(f.payload))]
    else []
  }

  function Deliveries(frames: seq<Frame>): seq<Callback> {
    if frames == [] then [] else Deliveries(frames[..|frames| - 1]) + Delivery(frames[|frames| - 1])
  }

  /** The frames before the first one that stops the connection. */
  function BeforeStop(frames: seq<Frame>): (live: seq<Frame>)
    ensures live <= frames && (forall f | f in live :: !Stops(f))
    ensures |live| < |frames| ==> Stops(frames[|live|])
  {
    if frames == [] || Stops(frames[0]) then [] else [frames[0]] + BeforeStop(frames[1..])
  }

  predicate Introduces(frames: seq<Frame>) {
    frames != [] && frames[0].kind == TYPE_UUID && |frames[0].payload| == 16
  }

  /** The callbacks of one connection on which `frames` arrive. */
  function Session(frames: seq<Frame>, accepted: bool): seq<Callback> {
    if !Introduces(frames) then [OnDisconnect]
    else if !accepted then [OnUuid(frames[0].payload), OnDisconnect]
    else [OnUuid(frames[0].payload)] + Deliveries(BeforeStop(frames[1..])) + [OnDisconnect]
  }

  /** The complete frames at the head of a byte stream that then ends. */
  function Parsed(input: Bytes): seq<Frame> {
    if |input| < 3 then []
    else
      var length := BigEndian(input[1], input[2]);
      if length > MAX_PAYLOAD_BYTES || |input| < 3 + length then []
      else [Frame(input[0], input[3..3 + length])] + Parsed(input[3 + length..])
  }

  function WireAll(frames: seq<Frame>): Bytes
    requires forall f | f in frames :: Legal(f)
  {
    if frames == [] then [] else Wire(frames[0]) + WireAll(frames[1..])
  }

  // ------------------------------------------------------------------ the server

  datatype WriteOutcome = Drained | LostBeforeWrite | LostAfterWrite

  /** A payload in pieces of at most 4096 bytes; a short or empty one is a single piece. */
  function Chunks(payload: Bytes): seq<Bytes> {
    if |payload| <= MAX_PAYLOAD_BYTES then [payload]
    else [payload[..MAX_PAYLOAD_BYTES]] + Chunks(payload[MAX_PAYLOAD_BYTES..])
  }

  lemma {:induction false} ChunksAreShort(payload: Bytes)
    ensures forall c | c in Chunks(payload) :: |c| <= MAX_PAYLOAD_BYTES
    ensures payload != [] ==> forall c | c in Chunks(payload) :: c != []
  {
    if |payload| > MAX_PAYLOAD_BYTES {
      ChunksAreShort(payload[MAX_PAYLOAD_BYTES..]);
    }
  }

  /** What `send_audio` writes for a payload, frame by frame. */
  function AudioFrames(payload: Bytes): (frames: seq<Frame>)
    ensures forall f | f in frames :: Legal(f)
  {
    ChunksAreShort(payload);
    Framed(Chunks(payload))
  }

  function Framed(chunks: seq<Bytes>): (frames: seq<Frame>)
    ensures |frames| == |chunks| && forall i | 0 <= i < |chunks| :: frames[i] == Frame(TYPE_AUDIO, chunks[i])
  {
    seq(|chunks|, i requires 0 <= i < |chunks| => Frame(TYPE_AUDIO, chunks[i]))
  }

  /** Bytes that reached the transport before the first failed write. */
  function Written(frames: seq<Frame>, script: seq<WriteOutcome>): Bytes
    requires forall f | f in frames :: Legal(f)
  {
    if frames == [] then []
    else match OutcomeAt(script)
      case LostBeforeWrite => []
      case LostAfterWrite => Wire(frames[0])
      case Drained => Wire(frames[0]) + Written(frames[1..], if script == [] then [] else script[1..])
  }

  predicate AllDrained(frames: seq<Frame>, script: seq<WriteOutcome>) {
    frames == [] || (OutcomeAt(script).Drained? && AllDrained(frames[1..], if script == [] then [] else script[1..]))
  }

  function OutcomeAt(script: seq<WriteOutcome>): WriteOutcome { if script == [] then Drained else script[0] }

  class AudioSocketServer {
    /** What has been written to each open connection. */
    var writers: map<ConnectionId, Bytes>
    var connectionUuids: map<ConnectionId, Bytes>

    constructor ()
      ensures writers == map[] && connectionUuids == map[]
    {
      writers, connectionUuids := map[], map[];
    }

    method WriteFrame(id: ConnectionId, chunk: Bytes, outcome: WriteOutcome) returns (ok: bool)
      requires |chunk| <= MAX_PAYLOAD_BYTES && id in writers
      modifies this`writers
      ensures ok <==> outcome.Drained?
      ensures writers == if outcome.LostBeforeWrite? then old(writers)
                         else old(writers)[id := old(writers)[id] + Wire(Frame(TYPE_AUDIO, chunk))]
    {
      if !outcome.LostBeforeWrite? {
        writers := writers[id := writers[id] + Wire(Frame(TYPE_AUDIO, chunk))];
      }
      ok := outcome.Drained?;
    }

    method SendAudio(id: ConnectionId, payload: Bytes, script: seq<WriteOutcome>) returns (ok: bool)
      modifies this`writers
      ensures id !in old(writers) ==> !ok && writers == old(writers)
      ensures id in old(writers) ==>
                && writers == old(writers)[id := old(writers)[id] + Written(AudioFrames(payload), script)]
                && (ok <==> AllDrained(AudioFrames(payload), script))
    {
      hide Written, AllDrained, AudioFrames, Wire;
      if id !in writers {
        return false;
      }
      ghost var open, sent := writers, [];
      var rest, todo, more := payload, script, true;
      assert open[id] + sent == open[id];
      while more
        invariant id in open && writers == open[id := open[id] + sent]
        invariant more ==> Written(AudioFrames(payload), script) == sent + Written(AudioFrames(rest), todo)
        invariant more ==> (AllDrained(AudioFrames(payload), script) <==> AllDrained(AudioFrames(rest), todo))
        invariant !more ==> sent == Written(AudioFrames(payload), script) && AllDrained(AudioFrames(payload), script)
        decreases |rest|, more
      {
        var chunk := if |rest| > MAX_PAYLOAD_BYTES then rest[..MAX_PAYLOAD_BYTES] else rest;
        OneChunk(rest, todo);
        var written := WriteFrame(id, chunk, OutcomeAt(todo));
        if !OutcomeAt(todo).LostBeforeWrite? {
          Regroup(open[id], sent, Wire(Frame(TYPE_AUDIO, chunk)));
          sent := sent + Wire(Frame(TYPE_AUDIO, chunk));
        }
        if !written {
          assert Written(AudioFrames(payload), script) == sent;
          return false;
        }
        todo := if todo == [] then [] else todo[1..];
        more := |rest| > MAX_PAYLOAD_BYTES;
        rest := if more then rest[MAX_PAYLOAD_BYTES..] else [];
      }
      ok := true;
    }

    /** A frame after the handshake: what it calls back, and whether the connection ends there. */
    method Dispatch(handshake: AudioSocketHandshake, frame: Frame) returns (made: seq<Callback>, stop: bool)
      requires handshake.callUuid != None
      modifies handshake
      ensures handshake.callUuid == old(handshake.callUuid)
      ensures stop == Stops(frame) && (!stop ==> made == Delivery(frame))
    {
      var r := handshake.Accept(frame);
      if r.Refused? {
        return [], true;
      }
      if IsAudio(frame.kind) && frame.payload != [] {
        made := [OnAudio(frame.payload)];
      } else if frame.kind == TYPE_DTMF && frame.payload != [] {
        made := [OnDtmf(FirstAscii(frame.payload))];
      } else {
        made := [];
      }
      stop := frame.kind == TYPE_TERMINATE || frame.kind == TYPE_ERROR;
    }

    /** The next frame of the stream, unless it is too long or the stream ends inside it. */
    static method ReadFrame(input: Bytes, pos: nat) returns (frame: Option<Frame>)
      requires pos <= |input|
      ensures frame.None? ==> Parsed(input[pos..]) == []
      ensures frame.Some? ==>
                var next := pos + 3 + |frame.value.payload|;
                next <= |input| && Parsed(input[pos..]) == [frame.value] + Parsed(input[next..])
    {
      hide Parsed, BigEndian;
      ParsedEnds(input, pos);
      if |input| - pos < 3 {
        return None;
      }
      var length := BigEndian(input[pos + 1], input[pos + 2]);
      if length > MAX_PAYLOAD_BYTES || |input| - pos - 3 < length {
        return None;
      }
      ParsedStep(input, pos);
      frame := Some(Frame(input[pos], input[pos + 3..pos + 3 + length]));
    }

    /** The read loop of one connection: what it calls back, and what it answers, before the clean-up. */
    method Converse(id: ConnectionId, input: Bytes, accepted: bool) returns (callbacks: seq<Callback>, replied: Bytes)
      requires id !in connectionUuids
      modifies this`connectionUuids
      ensures callbacks + [OnDisconnect] == Session(Parsed(input), accepted)
      ensures connectionUuids - {id} == old(connectionUuids)
      ensures replied == if Introduces(Parsed(input)) && !accepted then Wire(Frame(TYPE_ERROR, REJECTION)) else []
    {
      hide Session, Parsed, Deliveries, BeforeStop, Wire, Stops, Delivery, BigEndian, IsAudio, InSession;
      ghost var u0, frames, k := connectionUuids, Parsed(input), 0;
      var handshake := new AudioSocketHandshake();
      callbacks, replied := [], [];
      var pos := 0;
      while true
        invariant pos <= |input| && k <= |frames| && frames[k..] == Parsed(input[pos..])
        invariant fresh(handshake) && (handshake.callUuid == None <==> k == 0) && replied == []
        invariant k == 0 ==> callbacks == [] && connectionUuids == u0
        invariant k > 0 ==> connectionUuids == u0[id := frames[0].payload]
        invariant k > 0 ==> accepted && InSession(frames, k, callbacks)
        decreases |input| - pos
      {
        var read := ReadFrame(input, pos);
        if read.None? {
          break;
        }
        var frame := read.value;
        assert frame == frames[k] && frames[k + 1..] == frames[k..][1..];
        pos := pos + 3 + |frame.payload|;
        if handshake.callUuid == None {
          var r := handshake.Accept(frame);
          if r.Refused? {
            break;
          }
          callbacks := [OnUuid(frame.payload)];
          if !accepted {
            replied := Wire(Frame(TYPE_ERROR, REJECTION));
            break;
          }
          connectionUuids := connectionUuids[id := frame.payload];
          InSessionStarts(frames);
        } else {
          var made, stop := Dispatch(handshake, frame);
          if stop {
            break;
          }
          InSessionGrows(frames, k, callbacks);
          callbacks := callbacks + made;
        }
        k := k + 1;
      }
      SessionEnds(frames, k, callbacks, accepted);
    }

    /**
      One connection from accept to close: `input` is all the peer ever sends, and
      `accepted` is what `on_uuid` answers.
     */
    method Handle(id: ConnectionId, input: Bytes, accepted: bool) returns (callbacks: seq<Callback>, replied: Bytes)
      requires id !in writers && id !in connectionUuids
      modifies this
      ensures callbacks == Session(Parsed(input), accepted)
      ensures writers == old(writers) && connectionUuids == old(connectionUuids)
      ensures replied == if Introduces(Parsed(input)) && !accepted then Wire(Frame(TYPE_ERROR, REJECTION)) else []
    {
      hide Session, Parsed, Wire, Introduces;
      writers := writers[id := []];
      callbacks, replied := Converse(id, input, accepted);
      writers := writers - {id};
      connectionUuids := connectionUuids - {id};
      callbacks := callbacks + [OnDisconnect];
    }
  }

  /** The first `k` frames of a connection are handled, and none of them ended it. */
  predicate InSession(frames: seq<Frame>, k: nat, callbacks: seq<Callback>) {
    && 0 < k <= |frames| && Introduces(frames) && (forall i | 1 <= i < k :: !Stops(frames[i]))
    && callbacks == [OnUuid(frames[0].payload)] + Deliveries(frames[1..k])
  }

  lemma InSessionStarts(frames: seq<Frame>)
    requires Introduces(frames)
    ensures InSession(frames, 1, [OnUuid(frames[0].payload)])
  {
    assert frames[1..1] == [];
  }

  lemma InSessionGrows(frames: seq<Frame>, k: nat, callbacks: seq<Callback>)
    requires InSession(frames, k, callbacks) && k < |frames| && !Stops(frames[k])
    ensures InSession(frames, k + 1, callbacks + Delivery(frames[k]))
  {
    hide Introduces, Stops;
    DeliveriesSnoc(frames[1..k], frames[k]);
    assert frames[1..k + 1] == frames[1..k] + [frames[k]];
  }

  /** What a connection has called back when no frame is left, or the next one ends it. */
  lemma SessionEnds(frames: seq<Frame>, k: nat, callbacks: seq<Callback>, accepted: bool)
    requires k > 0 ==> accepted && InSession(frames, k, callbacks) && (k < |frames| ==> Stops(frames[k]))
    requires k == 0 ==>
               if Introduces(frames) then !accepted && callbacks == [OnUuid(frames[0].payload)] else callbacks == []
    ensures Session(frames, accepted) == callbacks + [OnDisconnect]
  {
    hide Stops, Introduces;
    if k > 0 {
      forall i | 0 <= i < k - 1 ensures !Stops(frames[1..][i]) {
        assert frames[1..][i] == frames[i + 1];
      }
      StopFound(frames[1..], k - 1);
      assert frames[1..][..k - 1] == frames[1..k];
    }
  }

  lemma ParsedEnds(input: Bytes, pos: nat)
    requires pos <= |input|
    ensures |input| - pos < 3 ==> Parsed(input[pos..]) == []
    ensures |input| - pos >= 3 ==>
              var n := BigEndian(input[pos + 1], input[pos + 2]);
              n > MAX_PAYLOAD_BYTES || |input| - pos - 3 < n ==> Parsed(input[pos..]) == []
  {}

  lemma Regroup(a: Bytes, b: Bytes, c: Bytes)
    ensures (a + b) + c == a + (b + c)
  {}

  lemma OneChunk(rest: Bytes, script: seq<WriteOutcome>)
    ensures var chunk := if |rest| > MAX_PAYLOAD_BYTES then rest[..MAX_PAYLOAD_BYTES] else rest;
            var later := if script == [] then [] else script[1..];
            var more := |rest| > MAX_PAYLOAD_BYTES;
            var wire := Wire(Frame(TYPE_AUDIO, chunk));
            && Written(AudioFrames(rest), script)
               == (match OutcomeAt(script)
                   case LostBeforeWrite => []
                   case LostAfterWrite => wire
                   case Drained => wire + if more then Written(AudioFrames(rest[MAX_PAYLOAD_BYTES..]), later) else [])
            && (AllDrained(AudioFrames(rest), script) <==>
                OutcomeAt(script).Drained?
                && (more ==> AllDrained(AudioFrames(rest[MAX_PAYLOAD_BYTES..]), later)))
  {
    FirstFrame(rest);
    hide AudioFrames, Wire;
    var frames, later := AudioFrames(rest), if script == [] then [] else script[1..];
    if |rest| <= MAX_PAYLOAD_BYTES {
      assert frames[1..] == [] && Written(frames[1..], later) == [];
    } else {
      assert frames[1..] == AudioFrames(rest[MAX_PAYLOAD_BYTES..]);
    }
  }

  /** "uuid-rejected" */
  const REJECTION: Bytes := [0x75, 0x75, 0x69, 0x64, 0x2d, 0x72, 0x65, 0x6a, 0x65, 0x63, 0x74, 0x65, 0x64]

  lemma FirstFrame(rest: Bytes)
    ensures var frames := AudioFrames(rest);
            if |rest| <= MAX_PAYLOAD_BYTES then frames == [Frame(TYPE_AUDIO, rest)]
            else frames != [] && frames[0] == Frame(TYPE_AUDIO, rest[..MAX_PAYLOAD_BYTES])
                 && frames[1..] == AudioFrames(rest[MAX_PAYLOAD_BYTES..])
  {}

  lemma {:induction false} ParsedStep(input: Bytes, pos: nat)
    requires pos + 3 <= |input|
    requires var n := BigEndian(input[pos + 1], input[pos + 2]); n <= MAX_PAYLOAD_BYTES && pos + 3 + n <= |input|
    ensures var n := BigEndian(input[pos + 1], input[pos + 2]);
            Parsed(input[pos..]) == [Frame(input[pos], input[pos + 3..pos + 3 + n])] + Parsed(input[pos + 3 + n..])
  {
    var n, rest := BigEndian(input[pos + 1], input[pos + 2]), input[pos..];
    assert rest[3..3 + n] == input[pos + 3..pos + 3 + n] && rest[3 + n..] == input[pos + 3 + n..];
  }

  lemma DeliveriesSnoc(frames: seq<Frame>, f: Frame)
    ensures Deliveries(frames + [f]) == Deliveries(frames) + Delivery(f)
  {
    assert (frames + [f])[..|frames|] == frames;
  }

  lemma {:induction false} StopFound(frames: seq<Frame>, k: nat)
    requires k <= |frames| && (forall i | 0 <= i < k :: !Stops(frames[i])) && (k < |frames| ==> Stops(frames[k]))
    ensures BeforeStop(frames) == frames[..k]
  {
    if k > 0 {
      StopFound(frames[1..], k - 1);
      assert frames[..k] == [frames[0]] + frames[1..][..k - 1];
    }
  }

  // ---------------------------------------------------------------- what follows

  /** A tail that never completes another frame. */
  predicate Truncated(tail: Bytes) { Parsed(tail) == [] }

  lemma OneParsed(f: Frame, rest: Bytes)
    requires Legal(f)
    ensures Parsed(Wire(f) + rest) == [f] + Parsed(rest)
  {
    var input, n := Wire(f) + rest, |f.payload|;
    assert BigEndian(input[1], input[2]) == n;
    assert input[3..3 + n] == f.payload;
    assert input[3 + n..] == rest;
    ParsedStep(input, 0);
    hide Parsed, Wire, BigEndian;
    assert input[0..] == input;
  }

  /** Parsing inverts writing, whatever incomplete bytes follow. */
  lemma {:induction false} ParsedInvertsWire(frames: seq<Frame>, tail: Bytes)
    requires (forall f | f in frames :: Legal(f)) && Truncated(tail)
    ensures Parsed(WireAll(frames) + tail) == frames
  {
    if frames == [] {
      assert WireAll(frames) + tail == tail;
    } else {
      var f, rest := frames[0], WireAll(frames[1..]) + tail;
      ParsedInvertsWire(frames[1..], tail);
      OneParsed(f, rest);
      hide Wire, Parsed;
      assert WireAll(frames) + tail == Wire(f) + rest;
    }
  }

  /** Any concatenation of encoded frames yields the callbacks of the frames before the first stopping one. */
  lemma ServerDeliversWhatWasSent(frames: seq<Frame>, tail: Bytes, accepted: bool)
    requires (forall f | f in frames :: Legal(f)) && Truncated(tail)
    ensures Session(Parsed(WireAll(frames) + tail), accepted) == Session(frames, accepted)
  {
    ParsedInvertsWire(frames, tail);
  }

  function AudioIn(callbacks: seq<Callback>): Bytes {
    if callbacks == [] then []
    else AudioIn(callbacks[..|callbacks| - 1])
         + (var c := callbacks[|callbacks| - 1]; if c.OnAudio? then c.payload else [])
  }

  function AudioOf(frames: seq<Frame>): Bytes {
    if frames == [] then []
    else AudioOf(frames[..|frames| - 1]) + (var f := frames[|frames| - 1]; if IsAudio(f.kind) then f.payload else [])
  }

  lemma {:induction false} AudioInAppend(a: seq<Callback>, b: seq<Callback>)
    ensures AudioIn(a + b) == AudioIn(a) + AudioIn(b)
  {
    if b == [] {
      assert a + b == a;
    } else {
      var last := |a + b| - 1;
      assert (a + b)[..last] == a + b[..|b| - 1];
      AudioInAppend(a, b[..|b| - 1]);
    }
  }

  lemma {:induction false} AudioDelivered(frames: seq<Frame>)
    requires forall f | f in frames :: !Stops(f)
    ensures AudioIn(Deliveries(frames)) == AudioOf(frames)
  {
    if frames != [] {
      var before, f := frames[..|frames| - 1], frames[|frames| - 1];
      AudioDelivered(before);
      AudioInAppend(Deliveries(before), Delivery(f));
      assert Delivery(f) != [] ==> Delivery(f)[..0] == [];
    }
  }

  /** Every audio byte before the stop arrives, in order, and only after an accepted UUID. */
  lemma AudioArrivesComplete(frames: seq<Frame>, accepted: bool)
    ensures AudioIn(Session(frames, accepted))
            == if Introduces(frames) && accepted then AudioOf(BeforeStop(frames[1..])) else []
  {
    var bye := [OnDisconnect];
    assert AudioIn(bye) == [] by { assert bye[..0] == []; }
    if Introduces(frames) {
      var hello, live := [OnUuid(frames[0].payload)], BeforeStop(frames[1..]);
      assert AudioIn(hello) == [] by { assert hello[..0] == []; }
      AudioDelivered(live);
      hide BeforeStop, AudioIn, AudioOf, Deliveries, Introduces;
      AudioInAppend(hello + Deliveries(live), bye);
      AudioInAppend(hello, Deliveries(live));
      AudioInAppend(hello, bye);
    }
  }

  /** One UUID first, then media if it is accepted, then one disconnect. */
  lemma SessionIsOrderly(frames: seq<Frame>, accepted: bool)
    ensures var cs := Session(frames, accepted);
            && cs[|cs| - 1] == OnDisconnect
            && (Introduces(frames) <==> cs[0].OnUuid?)
            && (forall i | 0 <= i < |cs| - 1 :: cs[i].OnUuid? <==> i == 0)
            && (forall i | 1 <= i < |cs| - 1 :: accepted && (cs[i].OnAudio? || cs[i].OnDtmf?))
  {
    if Introduces(frames) {
      var live := BeforeStop(frames[1..]);
      DeliveriesAreMedia(live);
      hide BeforeStop, Deliveries, Introduces;
      var cs, ds := Session(frames, accepted), Deliveries(live);
      forall i | 1 <= i < |cs| - 1 ensures accepted && (cs[i].OnAudio? || cs[i].OnDtmf?) {
        assert cs[i] == ds[i - 1] && ds[i - 1] in ds;
      }
    }
  }

  lemma {:induction false} DeliveriesAreMedia(frames: seq<Frame>)
    ensures forall c | c in Deliveries(frames) :: c.OnAudio? || c.OnDtmf?
  {
    if frames != [] {
      DeliveriesAreMedia(frames[..|frames| - 1]);
    }
  }

  /** Kinds 0x10 to 0x18 are audio and 0x03 is a digit; every other kind ends a connection that has its UUID. */
  lemma KindsDecide(f: Frame)
    ensures Stops(f) <==> f.kind != 0x03 && !(0x10 <= f.kind <= 0x18)
    ensures Introduces([f]) <==> f.kind == 0x01 && |f.payload| == 16
    ensures Legal(f) <==> |f.payload| <= 4096
    ensures Stops(f) ==> Delivery(f) == []
  {}

  /** The frames that carry something. */
  function Filled(frames: seq<Frame>): seq<Frame> {
    if frames == [] then []
    else
      var f := frames[|frames| - 1];
      Filled(frames[..|frames| - 1]) + if f.payload != [] then [f] else []
  }

  /** Each frame that carries something is called back once, in order: a digit by its first ASCII byte, audio whole. */
  lemma {:induction false} DeliveriesAt(frames: seq<Frame>)
    requires forall f | f in frames :: !Stops(f)
    ensures var filled, calls := Filled(frames), Deliveries(frames);
            && |calls| == |filled|
            && forall j | 0 <= j < |calls| ::
                 calls[j] == if filled[j].kind == 0x03 then OnDtmf(FirstAscii(filled[j].payload))
                             else OnAudio(filled[j].payload)
  {
    if frames != [] {
      DeliveriesAt(frames[..|frames| - 1]);
      assert !Stops(frames[|frames| - 1]);
      hide FirstAscii;
    }
  }

  /** An accepted connection calls back its UUID, each filled frame before the first that stops it, and its end. */
  lemma SessionByFrames(frames: seq<Frame>)
    requires frames != [] && frames[0].kind == 0x01 && |frames[0].payload| == 16
    ensures var cs, live := Session(frames, true), BeforeStop(frames[1..]);
            && |cs| == |Filled(live)| + 2
            && cs[0] == OnUuid(frames[0].payload) && cs[|cs| - 1] == OnDisconnect
            && (forall j | 0 <= j < |Filled(live)| ::
                  var f := Filled(live)[j];
                  cs[j + 1] == if f.kind == 0x03 then OnDtmf(FirstAscii(f.payload)) else OnAudio(f.payload))
            && (|live| < |frames| - 1 ==> var f := frames[|live| + 1]; f.kind != 0x03 && !(0x10 <= f.kind <= 0x18))
  {
    DeliveriesAt(BeforeStop(frames[1..]));
    hide Deliveries, Filled, FirstAscii;
  }

  /** Why bytes are not one frame. */
  lemma NotAFrame(data: Bytes)
    ensures DecodeFrame(data) == Failure(HeaderIncomplete) <==> |data| < 3
    ensures DecodeFrame(data) == Failure(LengthInvalid) <==>
              |data| >= 3 && (|data| - 3 != 256 * data[1] as nat + data[2] as nat || |data| > 4099)
    ensures DecodeFrame(data) != Failure(PayloadTooLong)
  {}

  function Joined(chunks: seq<Bytes>): Bytes {
    if chunks == [] then [] else chunks[0] + Joined(chunks[1..])
  }

  /** Chunking loses and reorders nothing. */
  lemma {:induction false} ChunksJoin(payload: Bytes)
    ensures Joined(Chunks(payload)) == payload
  {
    if |payload| > MAX_PAYLOAD_BYTES {
      ChunksJoin(payload[MAX_PAYLOAD_BYTES..]);
    } else {
      assert [payload][1..] == [];
    }
  }

  /** A send that reports success has written every frame of the payload. */
  lemma {:induction false} DrainedMeansAllWritten(frames: seq<Frame>, script: seq<WriteOutcome>)
    requires (forall f | f in frames :: Legal(f)) && AllDrained(frames, script)
    ensures Written(frames, script) == WireAll(frames)
  {
    if frames != [] {
      DrainedMeansAllWritten(frames[1..], if script == [] then [] else script[1..]);
    }
  }

  /** A send writes its frames up to the first that fails, and of that one all, if it failed after them, or nothing. */
  lemma {:induction false} SendStopsAtFirstFailure(frames: seq<Frame>, script: seq<WriteOutcome>, k: nat)
    requires (forall f | f in frames :: Legal(f)) && k <= |frames|
    requires forall i | 0 <= i < k && i < |script| :: script[i] == Drained
    requires k < |frames| ==> k < |script| && script[k] != Drained
    ensures Written(frames, script)
            == WireAll(frames[..k]) + if k < |frames| && script[k] == LostAfterWrite then Wire(frames[k]) else []
    ensures AllDrained(frames, script) <==> k == |frames|
  {
    hide Wire;
    if k > 0 {
      var rest := if script == [] then [] else script[1..];
      SendStopsAtFirstFailure(frames[1..], rest, k - 1);
      assert frames[..k][1..] == frames[1..][..k - 1] && frames[..k][0] == frames[0];
      assert k < |frames| ==> rest[k - 1] == script[k] && frames[1..][k - 1] == frames[k];
      var front := WireAll(frames[1..][..k - 1]);
      var last := if k < |frames| && script[k] == LostAfterWrite then Wire(frames[k]) else [];
      assert Wire(frames[0]) + (front + last) == (Wire(frames[0]) + front) + last;
    } else {
      assert WireAll(frames[..0]) == [];
    }
  }

  /** A refused connection is told so in plain text. */
  lemma RefusalReads()
    ensures |REJECTION| == |"uuid-rejected"|
    ensures forall i | 0 <= i < |REJECTION| :: REJECTION[i] as int == "uuid-rejected"[i] as int
    ensures Wire(Frame(TYPE_ERROR, REJECTION)) == [0xff, 0, 13] + REJECTION
  {}
}
