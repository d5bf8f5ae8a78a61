/**
  RTP packets of the external media path: the receiving parser, and the sender's
  running header state. Layout from section 5.1 and section 5.3.1 of RFC 3550.
 */
module Rtp {
  import opened Basics

  type Word16 = w: int | 0 <= w < 0x1_0000
  type Word32 = w: int | 0 <= w < 0x1_0000_0000

  function Be16(w: Word16): (b: Bytes)
    ensures |b| == 2
  {
    [w / 0x100, w % 0x100]
  }

  function Be32(w: Word32): (b: Bytes)
    ensures |b| == 4
  {
    Be16(w / 0x1_0000) + Be16(w % 0x1_0000)
  }

  function Be32s(ws: seq<Word32>): (b: Bytes)
    ensures |b| == 4 * |ws|
  {
    if ws == [] then [] else Be32(ws[0]) + Be32s(ws[1..])
  }

  // ------------------------------------------------------- what a packet looks like

  datatype Extension = Extension(profile: Word16, words: seq<Word32>)

  /** `marker` is the second byte: the marker bit and the payload type. */
  datatype Header = Header(padding: bool, marker: Byte, sequence: Word16, timestamp: Word32, ssrc: Word32,
                           csrcs: seq<Word32>, extension: Option<Extension>)

  predicate WellFormed(h: Header) {
    |h.csrcs| < 16 && (h.extension.Some? ==> |h.extension.value.words| < 0x1_0000)
  }

  function FirstByte(h: Header): (b: Byte)
    requires WellFormed(h)
    ensures b / 64 == 2 && b % 16 == |h.csrcs| && (b / 16 % 2 == 1 <==> h.extension.Some?)
  {
    128 + (if h.padding then 32 else 0) + (if h.extension.Some? then 16 else 0) + |h.csrcs|
  }

  function FixedBytes(h: Header): (b: Bytes)
    requires WellFormed(h)
    ensures |b| == 12
  {
    [FirstByte(h), h.marker] + Be16(h.sequence) + Be32(h.timestamp) + Be32(h.ssrc)
  }

  function ExtensionBytes(e: Option<Extension>): Bytes
    requires e.Some? ==> |e.value.words| < 0x1_0000
  {
    if e.None? then [] else Be16(e.value.profile) + Be16(|e.value.words|) + Be32s(e.value.words)
  }

  /** A version 2 packet. */
  function Build(h: Header, payload: Bytes): Bytes
    requires WellFormed(h)
  {
    FixedBytes(h) + Be32s(h.csrcs) + ExtensionBytes(h.extension) + payload
  }

  // ------------------------------------------------------------------- the parser

  datatype RtpError = InvalidPacket | InvalidExtension | PayloadEmpty

  function HeaderLength(packet: Bytes): Result<nat, RtpError> {
    if |packet| < 12 || packet[0] / 64 != 2 then Failure(InvalidPacket)
    else
      var fixed := 12 + packet[0] % 16 * 4;
      if packet[0] / 16 % 2 == 0 then Success(fixed)
      else if |packet| < fixed + 4 then Failure(InvalidExtension)
      else Success(fixed + 4 + BigEndian(packet[fixed + 2], packet[fixed + 3]) * 4)
  }

  function ParseRtp(packet: Bytes): Result<Bytes, RtpError> {
    var length := HeaderLength(packet);
    if length.Failure? then Failure(length.error)
    else if length.value >= |packet| then Failure(PayloadEmpty)
    else Success(packet[length.value..])
  }

  method Parse(packet: Bytes) returns (r: Result<Bytes, RtpError>)
    ensures r == ParseRtp(packet)
  {
    if |packet| < 12 || packet[0] / 64 != 2 {
      return Failure(InvalidPacket);
    }
    var headerLength := 12 + packet[0] % 16 * 4;
    if packet[0] / 16 % 2 != 0 {
      if |packet| < headerLength + 4 {
        return Failure(InvalidExtension);
      }
      var extensionWords := BigEndian(packet[headerLength + 2], packet[headerLength + 3]);
      headerLength := headerLength + 4 + extensionWords * 4;
    }
    if headerLength >= |packet| {
      return Failure(PayloadEmpty);
    }
    r := Success(packet[headerLength..]);
  }

  /** The parser finds the payload behind any contributors and any extension, and refuses an empty one. */
  lemma ParseInvertsBuild(h: Header, payload: Bytes)
    requires WellFormed(h)
    ensures ParseRtp(Build(h, payload)) == if payload == [] then Failure(PayloadEmpty) else Success(payload)
  {
    hide Be16, Be32, FirstByte;
    var head, packet := FixedBytes(h) + Be32s(h.csrcs), Build(h, payload);
    assert packet[0] == FirstByte(h);
    assert packet == head + ExtensionBytes(h.extension) + payload;
    if h.extension.Some? {
      ExtensionLength(h, payload);
    }
    assert HeaderLength(packet) == Success(|head| + |ExtensionBytes(h.extension)|);
  }

  lemma ExtensionLength(h: Header, payload: Bytes)
    requires WellFormed(h) && h.extension.Some?
    ensures var packet, fixed := Build(h, payload), 12 + 4 * |h.csrcs|;
            && |packet| >= fixed + 4
            && BigEndian(packet[fixed + 2], packet[fixed + 3]) == |h.extension.value.words|
  {
    hide Be32, FixedBytes, Be32s;
    var head, e := FixedBytes(h) + Be32s(h.csrcs), h.extension.value;
    var packet := Build(h, payload);
    assert packet[|head| + 2] == Be16(|e.words|)[0] && packet[|head| + 3] == Be16(|e.words|)[1];
  }

  /** Every refusal with its exact condition: the first byte holds version, extension bit and contributor count. */
  lemma RefusedIff(packet: Bytes)
    ensures var version2 := |packet| >= 12 && 128 <= packet[0] < 192;
            && (ParseRtp(packet) == Failure(InvalidPacket) <==> !version2)
            && (ParseRtp(packet) == Failure(InvalidExtension) <==>
                version2 && packet[0] % 32 >= 16 && |packet| < 16 + 4 * (packet[0] % 16))
            && (ParseRtp(packet) == Failure(PayloadEmpty) <==>
                && version2
                && var fixed: nat := 12 + 4 * (packet[0] % 16);
                   if packet[0] % 32 < 16 then |packet| <= fixed
                   else fixed + 4 <= |packet|
                        && |packet| <= fixed + 4 + 4 * (256 * packet[fixed + 2] as nat + packet[fixed + 3] as nat))
  {}

  // ---------------------------------------- and everything it accepts is a packet

  function Word32At(b: Bytes, i: nat): Word32
    requires i + 4 <= |b|
  {
    Word16At(b, i) * 0x1_0000 + Word16At(b, i + 2)
  }

  function Word16At(b: Bytes, i: nat): Word16
    requires i + 2 <= |b|
  {
    BigEndian(b[i], b[i + 1])
  }

  lemma Be16Inverts(b: Bytes, i: nat)
    requires i + 2 <= |b|
    ensures Be16(Word16At(b, i)) == b[i..i + 2]
  {}

  lemma Be32Inverts(b: Bytes, i: nat)
    requires i + 4 <= |b|
    ensures Be32(Word32At(b, i)) == b[i..i + 4]
  {
    hide Word16At, Be16, Be32;
    Be16Inverts(b, i);
    Be16Inverts(b, i + 2);
    Be32OfHalves(Word16At(b, i), Word16At(b, i + 2));
    assert b[i..i + 4] == b[i..i + 2] + b[i + 2..i + 4];
  }

  lemma Be32OfHalves(high: Word16, low: Word16)
    ensures Be32(high * 0x1_0000 + low) == Be16(high) + Be16(low)
  {
    hide Be16;
    var w: int := high * 0x1_0000 + low;
    assert w / 0x1_0000 == high && w % 0x1_0000 == low;
  }

  lemma {:induction false} Words(b: Bytes, n: nat) returns (ws: seq<Word32>)
    requires |b| == 4 * n
    ensures |ws| == n && Be32s(ws) == b
  {
    if n == 0 {
      ws := [];
    } else {
      var later := Words(b[4..], n - 1);
      Be32Inverts(b, 0);
      ws := [Word32At(b, 0)] + later;
      assert ws[1..] == later;
    }
  }

  lemma FixedOf(packet: Bytes, csrcs: seq<Word32>, extension: Option<Extension>) returns (h: Header)
    requires |packet| >= 12 && packet[0] / 64 == 2 && |csrcs| == packet[0] % 16
    requires (extension.Some? <==> packet[0] / 16 % 2 == 1) && (extension.Some? ==> |extension.value.words| < 0x1_0000)
    ensures WellFormed(h) && h.csrcs == csrcs && h.extension == extension && FixedBytes(h) == packet[..12]
  {
    h := Header(packet[0] / 32 % 2 == 1, packet[1], Word16At(packet, 2), Word32At(packet, 4), Word32At(packet, 8),
                csrcs, extension);
    Be16Inverts(packet, 2);
    Be32Inverts(packet, 4);
    Be32Inverts(packet, 8);
    assert FirstByte(h) == packet[0];
    hide Be16, Be32, Word16At, Word32At;
    assert packet[..12] == [packet[0], packet[1]] + packet[2..4] + packet[4..8] + packet[8..12];
  }

  lemma ExtensionOf(packet: Bytes, fixed: nat) returns (e: Extension)
    requires fixed + 4 <= |packet|
    requires fixed + 4 + Word16At(packet, fixed + 2) * 4 <= |packet|
    ensures |e.words| == Word16At(packet, fixed + 2)
    ensures ExtensionBytes(Some(e)) == packet[fixed..fixed + 4 + Word16At(packet, fixed + 2) * 4]
  {
    var n: nat := Word16At(packet, fixed + 2);
    var end := fixed + 4 + 4 * n;
    var words := Words(packet[fixed + 4..end], n);
    e := Extension(Word16At(packet, fixed), words);
    Be16Inverts(packet, fixed);
    Be16Inverts(packet, fixed + 2);
    hide Be16, Be32s, Word16At;
    assert packet[fixed..end] == packet[fixed..fixed + 2] + packet[fixed + 2..fixed + 4] + packet[fixed + 4..end];
  }

  /** Whatever the parser accepts is a version 2 packet carrying that payload. */
  lemma AcceptedIsBuilt(packet: Bytes) returns (h: Header)
    requires ParseRtp(packet).Success?
    ensures WellFormed(h) && ParseRtp(packet).value != [] && Build(h, ParseRtp(packet).value) == packet
  {
    var fixed := 12 + packet[0] % 16 * 4;
    var csrcs := Words(packet[12..fixed], packet[0] % 16);
    var extension: Option<Extension> := None;
    if packet[0] / 16 % 2 == 1 {
      var e := ExtensionOf(packet, fixed);
      extension := Some(e);
    }
    var end := |packet| - |ParseRtp(packet).value|;
    assert ExtensionBytes(extension) == packet[fixed..end];
    h := FixedOf(packet, csrcs, extension);
    hide FixedBytes, ExtensionBytes, Be32s, ParseRtp, HeaderLength;
    InFourParts(packet, 12, fixed, end);
  }

  lemma InFourParts(s: Bytes, i: nat, j: nat, k: nat)
    requires i <= j <= k <= |s|
    ensures s == s[..i] + s[i..j] + s[j..k] + s[k..]
  {}

  // ------------------------------------------------------------------- the sender

  class RtpState {
    var sequence: Word16
    var timestamp: Word32
    const ssrc: Word32

    constructor (ssrc: Word32)
      ensures sequence == 0 && timestamp == 0 && this.ssrc == ssrc
    {
      sequence, timestamp, this.ssrc := 0, 0, ssrc;
    }

    method Packet(payload: Bytes) returns (packet: Bytes)
      modifies this
      ensures packet == Build(Plain(old(sequence), old(timestamp), ssrc), payload)
      ensures Counters(sequence, timestamp) == Advanced(Counters(old(sequence), old(timestamp)), payload)
    {
      var header := [0x80, 0] + Be16(sequence) + Be32(timestamp) + Be32(ssrc);
      packet := header + payload;
      assert header == FixedBytes(Plain(sequence, timestamp, ssrc));
      assert packet == header + [] + [] + payload;
      sequence := (sequence + 1) % 0x1_0000;
      timestamp := (timestamp + |payload|) % 0x1_0000_0000;
    }
  }

  datatype Counters = Counters(sequence: Word16, timestamp: Word32)

  function Plain(sequence: Word16, timestamp: Word32, ssrc: Word32): Header {
    Header(false, 0, sequence, timestamp, ssrc, [], None)
  }

  function Advanced(c: Counters, payload: Bytes): Counters {
    Counters((c.sequence + 1) % 0x1_0000, (c.timestamp + |payload|) % 0x1_0000_0000)
  }

  /** The packets of a run of sends. */
  function Sent(c: Counters, ssrc: Word32, payloads: seq<Bytes>): (packets: seq<Bytes>)
    ensures |packets| == |payloads|
    decreases |payloads|
  {
    if payloads == [] then []
    else
      [Build(Plain(c.sequence, c.timestamp, ssrc), payloads[0])] + Sent(Advanced(c, payloads[0]), ssrc, payloads[1..])
  }

  /** Samples in all of the payloads; a µ-law byte is one sample. */
  function Samples(payloads: seq<Bytes>): nat {
    if payloads == [] then 0 else |payloads[0]| + Samples(payloads[1..])
  }

  function CountersAfter(c: Counters, payloads: seq<Bytes>): Counters
    decreases |payloads|
  {
    if payloads == [] then c else CountersAfter(Advanced(c, payloads[0]), payloads[1..])
  }

  lemma {:induction false} SentAt(c: Counters, ssrc: Word32, payloads: seq<Bytes>, i: nat)
    requires i < |payloads|
    ensures var at := CountersAfter(c, payloads[..i]);
            Sent(c, ssrc, payloads)[i] == Build(Plain(at.sequence, at.timestamp, ssrc), payloads[i])
    decreases i
  {
    hide Build, Plain, Advanced;
    if i > 0 {
      SentAt(Advanced(c, payloads[0]), ssrc, payloads[1..], i - 1);
      assert payloads[..i][1..] == payloads[1..][..i - 1];
    }
  }

  lemma {:induction false} CountersWrap(c: Counters, payloads: seq<Bytes>)
    ensures CountersAfter(c, payloads)
            == Counters((c.sequence + |payloads|) % 0x1_0000, (c.timestamp + Samples(payloads)) % 0x1_0000_0000)
    decreases |payloads|
  {
    if payloads != [] {
      CountersWrap(Advanced(c, payloads[0]), payloads[1..]);
      Carry16(c.sequence + 1, |payloads| - 1);
      Carry32(c.timestamp + |payloads[0]|, Samples(payloads[1..]));
    }
  }

  lemma Carry16(a: nat, b: nat)
    ensures (a % 0x1_0000 + b) % 0x1_0000 == (a + b) % 0x1_0000
  {}

  lemma Carry32(a: nat, b: nat)
    ensures (a % 0x1_0000_0000 + b) % 0x1_0000_0000 == (a + b) % 0x1_0000_0000
  {}

  /**
    The i-th packet counts packets modulo 2^16 and samples modulo 2^32 from the start,
    and parses to the i-th payload.
   */
  lemma RunCountsPacketsAndSamples(c: Counters, ssrc: Word32, payloads: seq<Bytes>, i: nat)
    requires i < |payloads|
    ensures var sequence := (c.sequence + i) % 0x1_0000;
            var timestamp := (c.timestamp + Samples(payloads[..i])) % 0x1_0000_0000;
            && Sent(c, ssrc, payloads)[i] == Build(Plain(sequence, timestamp, ssrc), payloads[i])
            && (payloads[i] != [] ==> ParseRtp(Sent(c, ssrc, payloads)[i]) == Success(payloads[i]))
  {
    SentAt(c, ssrc, payloads, i);
    CountersWrap(c, payloads[..i]);
    var at := CountersAfter(c, payloads[..i]);
    ParseInvertsBuild(Plain(at.sequence, at.timestamp, ssrc), payloads[i]);
    hide Build, ParseRtp, Samples, CountersAfter, Sent;
  }

  /** Byte for byte, a sent packet is version 2 without extras, of payload type 0, and its counters stand in order. */
  lemma SentBytes(c: Counters, ssrc: Word32, payload: Bytes)
    ensures var packet := Build(Plain(c.sequence, c.timestamp, ssrc), payload);
            && |packet| == 12 + |payload| && packet[0] == 0x80 && packet[1] == 0
            && Word16At(packet, 2) == c.sequence && Word32At(packet, 4) == c.timestamp && Word32At(packet, 8) == ssrc
            && packet[12..] == payload
  {}
}
