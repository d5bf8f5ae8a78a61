/**
  The µ-law codec of the external media path: 8-bit companded samples (section 3 of
  ITU-T G.711) against little-endian 16-bit PCM at twice the sample rate.
 */
module Ulaw {
  import opened Basics

  type Sample = s: int | -32768 <= s < 32768

  /** The bias added to a magnitude before it is split into segment and step. */
  const BIAS: nat := 0x84

  /** The largest magnitude kept. */
  const CLIP: nat := 32635

  /** Python's `int.bit_length`. */
  function BitLength(n: nat): nat { if n == 0 then 0 else 1 + BitLength(n / 2) }

  // ------------------------------------------------------------ one sample

  /** The unsigned level of a segment and a step in it, with the bias still on. */
  function Level(segment: nat, step: nat): nat { (step * 8 + BIAS) * Pow2(segment) }

  function Expand(encoded: Byte): (s: int) {
    var value := 255 - encoded;
    var magnitude := Level(value / 16 % 8, value % 16) - BIAS;
    if value >= 128 then -magnitude else magnitude
  }

  function Abs(n: int): nat { if n < 0 then -n else n }

  /** A sample with its magnitude limited to the clip. */
  function Clipped(s: int): int { if s < 0 then -Min(-s, CLIP) else Min(s, CLIP) }

  function Biased(s: int): (m: nat)
    ensures BIAS <= m <= CLIP + BIAS
  {
    Min(Abs(s), CLIP) + BIAS
  }

  function Segment(s: int): nat { Min(7, Max(0, BitLength(Biased(s)) - 8)) }

  function Step(s: int): nat { Biased(s) / Pow2(Segment(s) + 3) % 16 }

  function Compress(s: int): (b: Byte) {
    255 - ((if s < 0 then 128 else 0) + Segment(s) * 16 + Step(s))
  }

  // -------------------------------------------------- what the segments mean

  lemma {:induction false} BitLengthIs(n: nat, k: nat)
    requires Pow2(k) <= n < Pow2(k + 1)
    ensures BitLength(n) == k + 1
  {
    if k > 0 {
      BitLengthIs(n / 2, k - 1);
    }
  }

  lemma PowersOfTwo()
    ensures Pow2(0) == 1 && Pow2(1) == 2 && Pow2(2) == 4 && Pow2(3) == 8
    ensures Pow2(4) == 16 && Pow2(5) == 32 && Pow2(6) == 64 && Pow2(7) == 128
    ensures Pow2(8) == 256 && Pow2(9) == 512 && Pow2(10) == 1024 && Pow2(11) == 2048
    ensures Pow2(12) == 4096 && Pow2(13) == 8192 && Pow2(14) == 16384 && Pow2(15) == 32768
  {
    assert Pow2(3) == 8;
    assert Pow2(6) == 64;
    assert Pow2(9) == 512;
    assert Pow2(12) == 4096;
  }

  /** The segment is the octave of the biased magnitude. */
  lemma SegmentIs(s: int, e: nat)
    requires e <= 7 && Pow2(e + 7) <= Biased(s) < Pow2(e + 8)
    ensures Segment(s) == e
  {
    BitLengthIs(Biased(s), e + 7);
  }

  lemma SegmentFits(s: int)
    ensures Segment(s) <= 7 && Pow2(Segment(s) + 7) <= Biased(s) < Pow2(Segment(s) + 8)
  {
    PowersOfTwo();
    var m := Biased(s);
    var e := if m < 256 then 0 else if m < 512 then 1 else if m < 1024 then 2 else if m < 2048 then 3
             else if m < 4096 then 4 else if m < 8192 then 5 else if m < 16384 then 6 else 7;
    assert Pow2(e + 7) <= m < Pow2(e + 8);
    hide Pow2, Biased, BitLength;
    SegmentIs(s, e);
  }

  lemma SixteenthsOf(m: nat, p: nat)
    requires p > 0 && 16 * p <= m < 32 * p
    ensures m / p % 16 == m / p - 16 && m == (16 + m / p % 16) * p + m % p
  {
    var q := m / p;
    assert m == q * p + m % p;
    Scales(q, 15, p);
    Scales(32, q, p);
  }

  /** Every biased magnitude lies in the octave of its segment, `r` above the start of its step. */
  lemma SegmentAndStep(s: int) returns (r: nat)
    ensures Segment(s) <= 7 && Step(s) < 16
    ensures r < Pow2(Segment(s) + 3) && Biased(s) == (16 + Step(s)) * Pow2(Segment(s) + 3) + r
  {
    SegmentFits(s);
    var e, p := Segment(s), Pow2(Segment(s) + 3);
    assert Pow2(e + 7) == 16 * p && Pow2(e + 8) == 32 * p by {
      assert Pow2(e + 8) == 2 * Pow2(e + 7);
      assert Pow2(e + 7) == 2 * Pow2(e + 6) && Pow2(e + 6) == 2 * Pow2(e + 5);
      assert Pow2(e + 5) == 2 * Pow2(e + 4) && Pow2(e + 4) == 2 * p;
    }
    hide Pow2, Biased, Segment;
    SixteenthsOf(Biased(s), p);
    r := Biased(s) % p;
  }

  /** Adding the bias puts a level in the middle of its step. */
  lemma LevelIs(segment: nat, step: nat)
    requires segment <= 7
    ensures Level(segment, step) == (16 + step) * Pow2(segment + 3) + Pow2(segment + 2)
  {
    PowersOfTwo();
    assert Pow2(segment + 3) == 8 * Pow2(segment) && Pow2(segment + 2) == 4 * Pow2(segment) by {
      assert Pow2(segment + 3) == 2 * Pow2(segment + 2);
      assert Pow2(segment + 2) == 2 * Pow2(segment + 1);
    }
    assert (16 + step) * (8 * Pow2(segment)) + 4 * Pow2(segment) == (step * 8 + 132) * Pow2(segment);
  }

  lemma Rescaled(k: nat, p: nat)
    ensures (k * 8 + BIAS) * p - BIAS == 4 * ((2 * k + 33) * p - 33)
  {}

  /**
    The decoder's output values as the recommendation gives them, scaled from 14 to 16 bits:
    of the complemented code, the sign bit, three segment bits and four step bits.
   */
  lemma StandardLevels(b: Byte)
    ensures var v := 255 - b;
            var magnitude := 4 * ((2 * (v % 16) + 33) * Pow2(v / 16 % 8) - 33);
            Expand(b) == if b < 128 then -magnitude else magnitude
  {
    var v := 255 - b;
    hide Pow2;
    Rescaled(v % 16, Pow2(v / 16 % 8));
  }

  lemma ExtremeLevels()
    ensures Expand(0x00) == -32124 && Expand(0x80) == 32124 && Expand(0xFF) == 0 && Expand(0xFE) == 8
  {
    PowersOfTwo();
    hide Pow2;
  }

  // --------------------------------------------------------------- the codec laws

  lemma ExpandCompress(s: int)
    ensures Level(Segment(s), Step(s)) >= BIAS
    ensures Expand(Compress(s))
            == if s < 0 then BIAS - Level(Segment(s), Step(s)) else Level(Segment(s), Step(s)) - BIAS
  {
    var r := SegmentAndStep(s);
    var e, step := Segment(s), Step(s);
    LevelAtLeastBias(e, step);
    hide Segment, Step, Biased, Level, Pow2;
    BytePieces(if s < 0 then 1 else 0, e, step);
  }

  lemma BytePieces(sign: nat, segment: nat, step: nat)
    requires sign <= 1 && segment <= 7 && step < 16
    ensures var v := sign * 128 + segment * 16 + step;
            v / 16 % 8 == segment && v % 16 == step && (v >= 128 <==> sign == 1)
  {}

  lemma LevelAtLeastBias(segment: nat, step: nat)
    ensures Level(segment, step) >= BIAS
  {
    assert (step * 8 + BIAS) * Pow2(segment) >= step * 8 + BIAS;
  }

  /**
    What survives a round trip is within half a step of the clipped sample: 4 in the
    lowest segment and 512 in the highest.
   */
  lemma RoundTripError(s: Sample)
    ensures Segment(s) <= 7
    ensures Abs(Expand(Compress(s)) - Clipped(s)) <= Pow2(Segment(s) + 2) <= 512
    ensures Abs(Expand(Compress(s)) - s) <= 644
  {
    var r := SegmentAndStep(s);
    ExpandCompress(s);
    LevelIs(Segment(s), Step(s));
    var e := Segment(s);
    assert Pow2(e + 3) == 2 * Pow2(e + 2);
    assert Pow2(e + 2) <= 512 by { PowersOfTwo(); }
    assert Abs(Level(e, Step(s)) - Biased(s)) <= Pow2(e + 2);
    hide Segment, Step, Level, Pow2, Compress, Expand;
  }

  lemma LevelRises(a: nat, i: nat, b: nat, j: nat)
    requires i < 16 && j < 16 && a <= 7 && b <= 7 && (a < b || (a == b && i <= j))
    ensures Level(a, i) <= Level(b, j)
  {
    Scales(i * 8 + BIAS, j * 8 + BIAS, Pow2(a));
    if a < b {
      Pow2Rises(a + 1, b);
      assert Pow2(a + 1) == 2 * Pow2(a);
      hide Pow2;
      Scales(i * 8 + BIAS, 252, Pow2(a));
      Scales(132, j * 8 + BIAS, Pow2(b));
    }
  }

  lemma {:induction false} Pow2Rises(a: nat, b: nat)
    requires a <= b
    ensures Pow2(a) <= Pow2(b)
  {
    if a < b {
      Pow2Rises(a, b - 1);
    }
  }

  lemma StepsRise(i: nat, r: nat, j: nat, q: nat, p: nat)
    requires r < p && q < p && (16 + i) * p + r <= (16 + j) * p + q
    ensures i <= j
  {
    Scales(17 + j, 16 + i, p);
  }

  lemma LevelOfBiasedRises(s: int, t: int)
    requires Biased(s) <= Biased(t)
    ensures Level(Segment(s), Step(s)) <= Level(Segment(t), Step(t))
  {
    SegmentFits(s);
    SegmentFits(t);
    var r := SegmentAndStep(s);
    var q := SegmentAndStep(t);
    var a, b := Segment(s), Segment(t);
    hide Segment, Step, Level, Biased, Pow2;
    if a > b {
      Pow2Rises(b + 8, a + 7);
    }
    if a == b {
      StepsRise(Step(s), r, Step(t), q, Pow2(a + 3));
    }
    LevelRises(a, Step(s), b, Step(t));
  }

  /** Companding keeps order. */
  lemma RoundTripIsMonotone(s: Sample, t: Sample)
    requires s <= t
    ensures Expand(Compress(s)) <= Expand(Compress(t))
  {
    ExpandCompress(s);
    ExpandCompress(t);
    if s >= 0 {
      LevelOfBiasedRises(s, t);
    } else if t < 0 {
      LevelOfBiasedRises(t, s);
    }
    hide Expand, Compress, Segment, Step, Level;
  }

  /** Re-encoding a decoded byte gives it back, save negative zero, which becomes zero. */
  function Canonical(b: Byte): Byte { if b == 0x7F then 0xFF else b }

  lemma CompressExpand(b: Byte)
    ensures -32768 <= Expand(b) < 32768
    ensures Compress(Expand(b)) == Canonical(b)
  {
    var v := 255 - b;
    var e, step := v / 16 % 8, v % 16;
    ByteSum(v);
    ExpandedLevel(b);
    hide Expand, Level, Segment, Step, Pow2, Biased;
    SegmentAndStepOfLevel(Expand(b), e, step);
  }

  lemma ByteSum(v: nat)
    requires v < 256
    ensures v == (if v >= 128 then 128 else 0) + v / 16 % 8 * 16 + v % 16
  {}

  lemma ExpandedLevel(b: Byte)
    ensures var v := 255 - b;
            && -32768 <= Expand(b) < 32768
            && Biased(Expand(b)) == Level(v / 16 % 8, v % 16)
            && (Expand(b) < 0 <==> v > 128)
            && (v < 128 || v > 128 || b == 0x7F)
  {
    var v := 255 - b;
    var e, step := v / 16 % 8, v % 16;
    LevelBound(e, step);
    LevelAtLeastBias(e, step);
    LevelIsBias(e, step);
    NegativeZero();
    var m := Level(e, step);
    assert Expand(b) == if v >= 128 then BIAS - m else m - BIAS;
    hide Level, Expand, Pow2;
  }

  lemma SegmentAndStepOfLevel(s: int, segment: nat, step: nat)
    requires segment <= 7 && step < 16 && Biased(s) == Level(segment, step)
    ensures Segment(s) == segment && Step(s) == step
  {
    LevelBound(segment, step);
    LevelIs(segment, step);
    var p, h := Pow2(segment + 3), Pow2(segment + 2);
    assert p == 2 * h;
    hide Pow2, Level, Biased, Segment;
    SegmentIs(s, segment);
    QuotientIs(Biased(s), p, 16 + step, h);
  }

  lemma QuotientIs(m: nat, p: nat, q: nat, r: nat)
    requires r < p && m == q * p + r
    ensures m / p == q
  {
    var d := m / p;
    assert m == d * p + m % p;
    Scales(q + 1, d, p);
    Scales(d + 1, q, p);
  }

  lemma LevelBound(segment: nat, step: nat)
    requires segment <= 7 && step < 16
    ensures Level(segment, step) <= CLIP + BIAS
    ensures Pow2(segment + 7) <= Level(segment, step) < Pow2(segment + 8)
  {
    var p := Pow2(segment);
    PowersOfTwo();
    assert p <= 128;
    assert Pow2(segment + 7) == 128 * p && Pow2(segment + 8) == 256 * p;
    hide Pow2;
    assert (step * 8 + BIAS) * p <= 252 * p;
    assert (step * 8 + BIAS) * p >= 132 * p;
  }

  lemma LevelIsBias(segment: nat, step: nat)
    ensures Level(segment, step) == BIAS ==> segment == 0 && step == 0
  {
    if segment > 0 {
      assert Pow2(segment) >= 2;
      hide Pow2;
      assert (step * 8 + BIAS) * Pow2(segment) >= (step * 8 + BIAS) * 2;
    } else {
      assert Pow2(0) == 1;
    }
  }

  lemma NegativeZero()
    ensures Expand(0x7F) == 0 == Expand(0xFF)
  {
    assert Pow2(0) == 1;
  }

  /** A sample that has been through the codec goes through unchanged. */
  lemma RoundTripIsIdempotent(s: Sample)
    ensures Expand(Compress(Expand(Compress(s)))) == Expand(Compress(s))
  {
    CompressExpand(Compress(s));
    NegativeZero();
    hide Expand, Compress;
  }

  // ------------------------------------------------------------- whole payloads

  datatype PcmError = OddLength

  /** Little-endian two's complement. */
  function Packed(s: Sample): Bytes {
    var u := if s < 0 then s + 0x1_0000 else s;
    [u % 256, u / 256]
  }

  function Pack(samples: seq<Sample>): Bytes {
    if samples == [] then [] else Pack(samples[..|samples| - 1]) + Packed(samples[|samples| - 1])
  }

  function SampleAt(pcm: Bytes, i: nat): Sample
    requires 2 * i + 1 < |pcm|
  {
    var u := pcm[2 * i] as int + 256 * (pcm[2 * i + 1] as int);
    if u >= 0x8000 then u - 0x1_0000 else u
  }

  lemma {:induction false} PackAt(samples: seq<Sample>)
    ensures |Pack(samples)| == 2 * |samples|
    ensures forall i | 0 <= i < |samples| :: SampleAt(Pack(samples), i) == samples[i]
  {
    if samples != [] {
      var before, last := samples[..|samples| - 1], samples[|samples| - 1];
      PackAt(before);
      assert forall i | 0 <= i < |before| :: SampleAt(Pack(samples), i) == SampleAt(Pack(before), i);
    }
  }

  /** Twice each decoded byte, which doubles the sample rate. */
  predicate DecodesTo(payload: Bytes, pcm: Bytes) {
    && |pcm| == 4 * |payload|
    && forall i | 0 <= i < |payload| :: SampleAt(pcm, 2 * i) == SampleAt(pcm, 2 * i + 1) == Expand(payload[i])
  }

  /** Every other sample, starting with the first, compressed. */
  predicate EncodesTo(pcm: Bytes, payload: Bytes) {
    && |pcm| % 2 == 0 && |payload| == (|pcm| / 2 + 1) / 2
    && forall i | 0 <= i < |payload| :: payload[i] == Compress(SampleAt(pcm, 2 * i))
  }

  method UlawToPcm16(payload: Bytes) returns (pcm: Bytes)
    ensures DecodesTo(payload, pcm)
  {
    hide Expand, Compress;
    var samples: seq<Sample> := [];
    for k := 0 to |payload|
      invariant |samples| == 2 * k
      invariant forall i | 0 <= i < k :: samples[2 * i] == samples[2 * i + 1] == Expand(payload[i])
    {
      var sample := DecodeOne(payload[k]);
      samples := samples + [sample, sample];
    }
    PackAt(samples);
    pcm := Pack(samples);
  }

  method DecodeOne(encoded: Byte) returns (sample: Sample)
    ensures sample == Expand(encoded)
  {
    CompressExpand(encoded);
    var value := 255 - encoded;
    var level := (value % 16 * 8 + 0x84) * Pow2(value / 16 % 8);
    level := level - 0x84;
    sample := if value >= 0x80 then -level else level;
  }

  method Pcm16ToUlaw(pcm: Bytes) returns (r: Result<Bytes, PcmError>)
    ensures if |pcm| % 2 == 0 then r.Success? && EncodesTo(pcm, r.value) else r == Failure(OddLength)
  {
    hide Expand, Compress;
    if |pcm| % 2 != 0 {
      return Failure(OddLength);
    }
    var encoded: Bytes, index := [], 0;
    while index < |pcm| / 2
      invariant 0 <= index <= |pcm| / 2 + 1 && index % 2 == 0
      invariant |encoded| == index / 2
      invariant forall i | 0 <= i < |encoded| :: encoded[i] == Compress(SampleAt(pcm, 2 * i))
    {
      var b := EncodeOne(SampleAt(pcm, index));
      encoded := encoded + [b];
      index := index + 2;
    }
    r := Success(encoded);
  }

  method EncodeOne(sample: Sample) returns (b: Byte)
    ensures b == Compress(sample)
  {
    var sign := if sample < 0 then 0x80 else 0;
    var biased := Min(Abs(sample), 32635) + 0x84;
    var exponent := Min(7, Max(0, BitLength(biased) - 8));
    var mantissa := biased / Pow2(exponent + 3) % 16;
    b := 255 - (sign + exponent * 16 + mantissa);
  }

  /** One payload has one decoding. */
  lemma DecodingIsUnique(payload: Bytes, a: Bytes, b: Bytes)
    requires DecodesTo(payload, a) && DecodesTo(payload, b)
    ensures a == b
  {
    hide Expand;
    forall k | 0 <= k < |a| ensures a[k] == b[k] {
      var i := k / 4;
      assert SampleAt(a, 2 * i) == SampleAt(b, 2 * i) == Expand(payload[i]);
      assert SampleAt(a, 2 * i + 1) == SampleAt(b, 2 * i + 1) == Expand(payload[i]);
      SampleFixesBytes(a, b, 2 * i);
      SampleFixesBytes(a, b, 2 * i + 1);
    }
  }

  lemma SampleFixesBytes(a: Bytes, b: Bytes, i: nat)
    requires 2 * i + 1 < |a| && 2 * i + 1 < |b| && SampleAt(a, i) == SampleAt(b, i)
    ensures a[2 * i] == b[2 * i] && a[2 * i + 1] == b[2 * i + 1]
  {}

  /** Decoding a µ-law payload and encoding it again only turns negative zeros into zeros. */
  lemma DecodeThenEncode(payload: Bytes, pcm: Bytes, again: Bytes)
    requires DecodesTo(payload, pcm) && EncodesTo(pcm, again)
    ensures |again| == |payload| && forall i | 0 <= i < |payload| :: again[i] == Canonical(payload[i])
  {
    hide Expand, Compress;
    forall i | 0 <= i < |payload| ensures again[i] == Canonical(payload[i]) {
      CompressExpand(payload[i]);
    }
  }

  /** Every kept sample survives encoding and decoding within half a step of its clipped value. */
  lemma EncodeThenDecode(pcm: Bytes, payload: Bytes, back: Bytes)
    requires EncodesTo(pcm, payload) && DecodesTo(payload, back)
    ensures |back| == |pcm| || |back| == |pcm| + 2
    ensures forall i | 0 <= i < |payload| ::
              var kept := SampleAt(pcm, 2 * i);
              && SampleAt(back, 2 * i) == SampleAt(back, 2 * i + 1)
              && Abs(SampleAt(back, 2 * i) - Clipped(kept)) <= Pow2(Segment(kept) + 2) <= 512
              && Abs(SampleAt(back, 2 * i) - kept) <= 644
  {
    hide Expand, Compress, Segment, Clipped, Abs, Pow2;
    forall i | 0 <= i < |payload|
      ensures
        var kept := SampleAt(pcm, 2 * i);
        && SampleAt(back, 2 * i) == SampleAt(back, 2 * i + 1)
        && Abs(SampleAt(back, 2 * i) - Clipped(kept)) <= Pow2(Segment(kept) + 2) <= 512
        && Abs(SampleAt(back, 2 * i) - kept) <= 644
    {
      RoundTripError(SampleAt(pcm, 2 * i));
      assert SampleAt(back, 2 * i) == Expand(payload[i]);
    }
  }
}
