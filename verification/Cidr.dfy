/**
  The FreePBX bridge's source filter: CIDR blocks compared bit by bit, and the
  configuration that only private blocks may enter. Addresses are in packed form.
 */
module Cidr {
  import opened Basics

  type Address = a: seq<bv8> | |a| == 4 || |a| == 16 witness [0, 0, 0, 0]

  datatype Prefix = Absent | Digits(n: nat) | Malformed

  /** One CIDR string: its address if that is an IP literal, and what follows the slash. */
  datatype Entry = Entry(address: Option<Address>, prefix: Prefix)

  datatype Block = Block(network: Address, prefix: nat)

  predicate ValidBlock(b: Block) { b.prefix <= 8 * |b.network| }

  datatype CidrError = InvalidCidr | NoSources | TooBroad | NotPrivate

  // ------------------------------------------------------------ bits of an address

  function BitOf(b: bv8, k: nat): bool
    requires k < 8
  {
    b & (if k == 0 then 0x80 else if k == 1 then 0x40 else if k == 2 then 0x20 else if k == 3 then 0x10
         else if k == 4 then 0x08 else if k == 5 then 0x04 else if k == 6 then 0x02 else 0x01) != 0
  }

  function Bit(a: Address, i: nat): bool
    requires i < 8 * |a|
  {
    BitOf(a[i / 8], i % 8)
  }

  /** The addresses of a block: same family, same first `prefix` bits. */
  predicate Within(a: Address, b: Block)
    requires ValidBlock(b)
  {
    |a| == |b.network| && forall i | 0 <= i < b.prefix :: Bit(a, i) == Bit(b.network, i)
  }

  // ------------------------------------------------------------------ the comparison

  function ParseCidr(e: Entry): (r: Result<Block, CidrError>)
    ensures r.Success? ==> ValidBlock(r.value)
  {
    if e.address.None? || e.prefix.Malformed? then Failure(InvalidCidr)
    else
      var bits := 8 * |e.address.value|;
      var prefix := if e.prefix.Digits? then e.prefix.n else bits;
      if prefix > bits then Failure(InvalidCidr) else Success(Block(e.address.value, prefix))
  }

  /** The top `rest` bits of a byte. */
  function Mask(rest: nat): bv8
    requires rest < 8
  {
    if rest == 0 then 0 else 0xFF << (8 - rest)
  }

  predicate BlockContains(candidate: Address, b: Block)
    requires ValidBlock(b)
  {
    && |candidate| == |b.network|
    && var whole, rest := b.prefix / 8, b.prefix % 8;
       && candidate[..whole] == b.network[..whole]
       && (rest == 0 || candidate[whole] & Mask(rest) == b.network[whole] & Mask(rest))
  }

  function CidrContains(candidate: Option<Address>, e: Entry): Result<bool, CidrError> {
    if candidate.None? then Success(false)
    else
      var parsed := ParseCidr(e);
      if parsed.Failure? then Failure(parsed.error) else Success(BlockContains(candidate.value, parsed.value))
  }

  lemma SameBits(x: bv8, y: bv8)
    requires forall k | 0 <= k < 8 :: BitOf(x, k) == BitOf(y, k)
    ensures x == y
  {
    assert BitOf(x, 0) == BitOf(y, 0) && BitOf(x, 1) == BitOf(y, 1) && BitOf(x, 2) == BitOf(y, 2);
    assert BitOf(x, 3) == BitOf(y, 3) && BitOf(x, 4) == BitOf(y, 4) && BitOf(x, 5) == BitOf(y, 5);
    assert BitOf(x, 6) == BitOf(y, 6) && BitOf(x, 7) == BitOf(y, 7);
  }

  predicate TopBitsAgree(x: bv8, y: bv8, rest: nat)
    requires rest < 8
  {
    forall k | 0 <= k < rest :: BitOf(x, k) == BitOf(y, k)
  }

  lemma MaskOfFew(x: bv8, y: bv8)
    ensures x & 0x80 == y & 0x80 <==> BitOf(x, 0) == BitOf(y, 0)
    ensures x & 0xC0 == y & 0xC0 <==> x & 0x80 == y & 0x80 && BitOf(x, 1) == BitOf(y, 1)
    ensures x & 0xE0 == y & 0xE0 <==> x & 0xC0 == y & 0xC0 && BitOf(x, 2) == BitOf(y, 2)
    ensures x & 0xF0 == y & 0xF0 <==> x & 0xE0 == y & 0xE0 && BitOf(x, 3) == BitOf(y, 3)
  {}

  lemma MaskOfMany(x: bv8, y: bv8)
    ensures x & 0xF8 == y & 0xF8 <==> x & 0xF0 == y & 0xF0 && BitOf(x, 4) == BitOf(y, 4)
    ensures x & 0xFC == y & 0xFC <==> x & 0xF8 == y & 0xF8 && BitOf(x, 5) == BitOf(y, 5)
    ensures x & 0xFE == y & 0xFE <==> x & 0xFC == y & 0xFC && BitOf(x, 6) == BitOf(y, 6)
  {}

  lemma MaskBits(x: bv8, y: bv8, rest: nat)
    requires 0 < rest < 8
    ensures x & Mask(rest) == y & Mask(rest) <==>
              && BitOf(x, 0) == BitOf(y, 0)
              && (rest > 1 ==> BitOf(x, 1) == BitOf(y, 1))
              && (rest > 2 ==> BitOf(x, 2) == BitOf(y, 2))
              && (rest > 3 ==> BitOf(x, 3) == BitOf(y, 3))
              && (rest > 4 ==> BitOf(x, 4) == BitOf(y, 4))
              && (rest > 5 ==> BitOf(x, 5) == BitOf(y, 5))
              && (rest > 6 ==> BitOf(x, 6) == BitOf(y, 6))
  {
    MaskValues();
    MaskOfFew(x, y);
    MaskOfMany(x, y);
    hide Mask, BitOf;
  }

  lemma MaskComparesTopBits(x: bv8, y: bv8, rest: nat)
    requires 0 < rest < 8
    ensures x & Mask(rest) == y & Mask(rest) <==> TopBitsAgree(x, y, rest)
  {
    hide BitOf, Mask;
    MaskBits(x, y, rest);
    if x & Mask(rest) == y & Mask(rest) {
      forall k | 0 <= k < rest ensures BitOf(x, k) == BitOf(y, k) {
        assert k == 0 || k == 1 || k == 2 || k == 3 || k == 4 || k == 5 || k == 6;
      }
    }
  }

  lemma MaskValues()
    ensures Mask(1) == 0x80 && Mask(2) == 0xC0 && Mask(3) == 0xE0 && Mask(4) == 0xF0
    ensures Mask(5) == 0xF8 && Mask(6) == 0xFC && Mask(7) == 0xFE
  {}

  /** Comparing whole bytes and then a masked one is comparing the first `prefix` bits. */
  lemma ContainsIffBitsAgree(a: Address, b: Block)
    requires ValidBlock(b)
    ensures BlockContains(a, b) <==> Within(a, b)
  {
    if BlockContains(a, b) {
      ContainsFixesBits(a, b);
    }
    if Within(a, b) {
      WithinFixesBytes(a, b);
      WithinFixesMasked(a, b);
    }
    hide Within, Mask;
  }

  lemma ContainsFixesBits(a: Address, b: Block)
    requires ValidBlock(b) && BlockContains(a, b)
    ensures Within(a, b)
  {
    hide BitOf, Mask;
    var whole, rest := b.prefix / 8, b.prefix % 8;
    if rest > 0 {
      MaskComparesTopBits(a[whole], b.network[whole], rest);
    }
    forall i | 0 <= i < b.prefix ensures Bit(a, i) == Bit(b.network, i) {
      if i / 8 < whole {
        assert a[i / 8] == a[..whole][i / 8] == b.network[..whole][i / 8];
      }
    }
  }

  lemma WithinFixesMasked(a: Address, b: Block)
    requires ValidBlock(b) && Within(a, b)
    ensures var whole, rest := b.prefix / 8, b.prefix % 8;
            rest == 0 || a[whole] & Mask(rest) == b.network[whole] & Mask(rest)
  {
    hide BitOf, Mask;
    var whole, rest := b.prefix / 8, b.prefix % 8;
    if rest > 0 {
      forall k | 0 <= k < rest ensures BitOf(a[whole], k) == BitOf(b.network[whole], k) {
        assert Bit(a, 8 * whole + k) == Bit(b.network, 8 * whole + k);
      }
      MaskComparesTopBits(a[whole], b.network[whole], rest);
    }
  }

  lemma WithinFixesBytes(a: Address, b: Block)
    requires ValidBlock(b) && Within(a, b)
    ensures a[..b.prefix / 8] == b.network[..b.prefix / 8]
  {
    hide BitOf;
    forall j | 0 <= j < b.prefix / 8 ensures a[j] == b.network[j] {
      forall k | 0 <= k < 8 ensures BitOf(a[j], k) == BitOf(b.network[j], k) {
        assert Bit(a, 8 * j + k) == Bit(b.network, 8 * j + k);
      }
      SameBits(a[j], b.network[j]);
    }
  }

  /** `inner` is a block inside `outer`. */
  predicate Inside(inner: Block, outer: Block)
    requires ValidBlock(inner) && ValidBlock(outer)
  {
    inner.prefix >= outer.prefix && Within(inner.network, outer)
  }

  /** Containment composes: a block's addresses are its enclosing block's. */
  lemma InsideComposes(a: Address, inner: Block, outer: Block)
    requires ValidBlock(inner) && ValidBlock(outer)
    requires Inside(inner, outer) && Within(a, inner)
    ensures Within(a, outer)
  {
    hide Bit;
  }

  lemma OutsideAddress(inner: Block, outer: Block) returns (a: Address)
    requires ValidBlock(inner) && ValidBlock(outer)
    requires inner.prefix < outer.prefix && Within(inner.network, outer)
    ensures Within(a, inner) && !Within(a, outer)
  {
    var n, i := inner.network, inner.prefix;
    a := n[i / 8 := Flipped(n[i / 8], i % 8)];
    FlippedBits(n[i / 8], i % 8);
    hide BitOf, Flipped;
    forall j | 0 <= j < i ensures Bit(a, j) == Bit(n, j) {
      assert j / 8 == i / 8 ==> j % 8 != i % 8;
    }
    assert Bit(a, i) != Bit(n, i);
  }

  /** And only then: a block all of whose addresses another one holds lies inside it. */
  lemma InsideIsNecessary(inner: Block, outer: Block)
    requires ValidBlock(inner) && ValidBlock(outer)
    requires forall a: Address | Within(a, inner) :: Within(a, outer)
    ensures Inside(inner, outer)
  {
    assert Within(inner.network, inner);
    if inner.prefix < outer.prefix {
      var a := OutsideAddress(inner, outer);
    }
  }

  function Flipped(b: bv8, k: nat): bv8
    requires k < 8
  {
    b ^ (if k == 0 then 0x80 else if k == 1 then 0x40 else if k == 2 then 0x20 else if k == 3 then 0x10
         else if k == 4 then 0x08 else if k == 5 then 0x04 else if k == 6 then 0x02 else 0x01)
  }

  lemma FlippedBits(b: bv8, k: nat)
    requires k < 8
    ensures forall j | 0 <= j < 8 :: BitOf(Flipped(b, k), j) == if j == k then !BitOf(b, j) else BitOf(b, j)
  {}

  // ----------------------------------------------------------- the private ranges

  const PRIVATE_V4: seq<Block> := [
    Block([10, 0, 0, 0], 8),
    Block([172, 16, 0, 0], 12),
    Block([192, 168, 0, 0], 16),
    Block([127, 0, 0, 0], 8),
    Block([169, 254, 0, 0], 16)
  ]

  const LOOPBACK_V6: Address := [0, 0, 0, 0, 0, 0, 0, 0, 0, 0, 0, 0, 0, 0, 0, 1]

  /** Unique-local, link-local and loopback: fc00::/7, fe80::/10 and ::1/128. */
  const PRIVATE_V6: seq<Block> := [
    Block([0xFC, 0, 0, 0, 0, 0, 0, 0, 0, 0, 0, 0, 0, 0, 0, 0], 7),
    Block([0xFE, 0x80, 0, 0, 0, 0, 0, 0, 0, 0, 0, 0, 0, 0, 0, 0], 10),
    Block(LOOPBACK_V6, 128)
  ]

  /** The container's own bridge address, denied whatever the configuration says. */
  const ALWAYS_DENIED: Entry := Entry(Some([172, 18, 0, 1]), Digits(32))

  predicate InRanges(a: Address, ranges: seq<Block>)
    requires forall r | r in ranges :: ValidBlock(r)
  {
    exists r :: r in ranges && Within(a, r)
  }

  predicate InsideRanges(b: Block, ranges: seq<Block>)
    requires ValidBlock(b) && forall r | r in ranges :: ValidBlock(r)
  {
    exists r :: r in ranges && Inside(b, r)
  }

  method PrivateNetwork(b: Block) returns (private: bool)
    requires ValidBlock(b)
    ensures private <==> InsideRanges(b, PRIVATE_V4) || InsideRanges(b, PRIVATE_V6)
  {
    hide Within, Bit;
    if |b.network| == 4 {
      for k := 0 to |PRIVATE_V4|
        invariant forall j | 0 <= j < k :: !Inside(b, PRIVATE_V4[j])
      {
        ContainsIffBitsAgree(b.network, PRIVATE_V4[k]);
        if b.prefix >= PRIVATE_V4[k].prefix && BlockContains(b.network, PRIVATE_V4[k]) {
          assert PRIVATE_V4[k] in PRIVATE_V4;
          return true;
        }
      }
      assert !InsideRanges(b, PRIVATE_V6) by { FamiliesDiffer(b, PRIVATE_V6); }
      return false;
    }
    var first, second := b.network[0], b.network[1];
    assert !InsideRanges(b, PRIVATE_V4) by { FamiliesDiffer(b, PRIVATE_V4); }
    V6Ranges(b);
    private := (b.prefix >= 7 && first & 0xFE == 0xFC)
               || (b.prefix >= 10 && first == 0xFE && second & 0xC0 == 0x80)
               || (b.prefix == 128 && b.network == LOOPBACK_V6);
  }

  lemma FamiliesDiffer(b: Block, ranges: seq<Block>)
    requires ValidBlock(b) && forall r | r in ranges :: ValidBlock(r) && |r.network| != |b.network|
    ensures !InsideRanges(b, ranges)
  {}

  /** The byte tests on an IPv6 block are the three ranges. */
  lemma V6Ranges(b: Block)
    requires ValidBlock(b) && |b.network| == 16
    ensures Inside(b, PRIVATE_V6[0]) <==> b.prefix >= 7 && b.network[0] & 0xFE == 0xFC
    ensures Inside(b, PRIVATE_V6[1]) <==> b.prefix >= 10 && b.network[0] == 0xFE && b.network[1] & 0xC0 == 0x80
    ensures Inside(b, PRIVATE_V6[2]) <==> b.prefix == 128 && b.network == LOOPBACK_V6
    ensures InsideRanges(b, PRIVATE_V6) <==>
              Inside(b, PRIVATE_V6[0]) || Inside(b, PRIVATE_V6[1]) || Inside(b, PRIVATE_V6[2])
  {
    hide Within;
    ContainsIffBitsAgree(b.network, PRIVATE_V6[0]);
    ContainsIffBitsAgree(b.network, PRIVATE_V6[1]);
    ContainsIffBitsAgree(b.network, PRIVATE_V6[2]);
    MaskValues();
    assert b.network[..1] == [b.network[0]] && b.network[..16] == b.network && LOOPBACK_V6[..16] == LOOPBACK_V6;
    assert PRIVATE_V6[0] in PRIVATE_V6 && PRIVATE_V6[1] in PRIVATE_V6 && PRIVATE_V6[2] in PRIVATE_V6;
  }

  // -------------------------------------------------------------- the configuration

  /** What one list entry must be: any valid block, or for the allowed list a narrow private one. */
  predicate Acceptable(e: Entry, required: bool) {
    var parsed := ParseCidr(e);
    && parsed.Success?
    && (required ==> parsed.value.prefix > 0 && IsPrivate(parsed.value))
  }

  predicate IsPrivate(b: Block)
    requires ValidBlock(b)
  {
    InsideRanges(b, PRIVATE_V4) || InsideRanges(b, PRIVATE_V6)
  }

  predicate AllAcceptable(entries: seq<Entry>, required: bool) {
    forall e | e in entries :: Acceptable(e, required)
  }

  /** Why an entry is not acceptable. */
  function Objection(e: Entry): CidrError {
    var parsed := ParseCidr(e);
    if parsed.Failure? then parsed.error else if parsed.value.prefix == 0 then TooBroad else NotPrivate
  }

  method Cidrs(values: seq<Entry>, required: bool) returns (r: Result<seq<Entry>, CidrError>)
    ensures r.Success? <==> (required ==> values != []) && AllAcceptable(values, required)
    ensures r.Success? ==> r.value == values
    ensures values == [] && required ==> r == Failure(NoSources)
    ensures r.Failure? && values != [] ==>
              exists k :: 0 <= k < |values| && AllAcceptable(values[..k], required)
                          && !Acceptable(values[k], required) && r.error == Objection(values[k])
  {
    hide InsideRanges, PRIVATE_V4, PRIVATE_V6;
    if values == [] && required {
      return Failure(NoSources);
    }
    var result: seq<Entry> := [];
    for k := 0 to |values|
      invariant result == values[..k] && AllAcceptable(values[..k], required)
    {
      var parsed := ParseCidr(values[k]);
      assert values[k] in values;
      if parsed.Failure? {
        return Failure(parsed.error);
      }
      if required && parsed.value.prefix == 0 {
        return Failure(TooBroad);
      }
      if required {
        var private := PrivateNetwork(parsed.value);
        if !private {
          return Failure(NotPrivate);
        }
      }
      result := result + [values[k]];
      assert values[..k + 1] == values[..k] + [values[k]];
    }
    r := Success(result);
  }

  /** Each element once, where it first occurs. */
  function Distinct(s: seq<Entry>): (d: seq<Entry>)
    ensures forall x :: x in d <==> x in s
    ensures forall i, j | 0 <= i < j < |d| :: d[i] != d[j]
  {
    if s == [] then []
    else
      var before := Distinct(s[..|s| - 1]);
      if s[|s| - 1] in before then before else before + [s[|s| - 1]]
  }

  datatype Config = Config(allowed: seq<Entry>, denied: seq<Entry>)

  /** The configurations the bridge starts with. */
  predicate Accepted(allowed: seq<Entry>, denied: seq<Entry>) {
    allowed != [] && AllAcceptable(allowed, true) && AllAcceptable(denied, false)
  }

  function Configured(allowed: seq<Entry>, denied: seq<Entry>): Config {
    Config(allowed, Distinct([ALWAYS_DENIED] + denied))
  }

  method FromArray(allowed: seq<Entry>, denied: seq<Entry>) returns (r: Result<Config, CidrError>)
    ensures r.Success? <==> Accepted(allowed, denied)
    ensures r.Success? ==> r.value == Configured(allowed, denied)
  {
    hide InsideRanges, Distinct;
    var a := Cidrs(allowed, true);
    if a.Failure? {
      return Failure(a.error);
    }
    var d := Cidrs(denied, false);
    if d.Failure? {
      return Failure(d.error);
    }
    var merged := Cidrs(Distinct([ALWAYS_DENIED] + d.value), false);
    // Every entry of the merged list has passed already, so this third check cannot refuse.
    assert Acceptable(ALWAYS_DENIED, false) && merged.Success?;
    r := Success(Config(a.value, merged.value));
  }

  // ------------------------------------------------------- what the configuration means

  /** The entry is an address, alone or with a prefix that fits it. */
  predicate Parses(e: Entry) {
    e.address.Some? && (e.prefix.Absent? || (e.prefix.Digits? && e.prefix.n <= 8 * |e.address.value|))
  }

  /** How many leading bits the entry fixes; all of them if it has no prefix. */
  function Fixed(e: Entry): nat
    requires Parses(e)
  {
    if e.prefix.Digits? then e.prefix.n else 8 * |e.address.value|
  }

  lemma ParsesIff(e: Entry)
    ensures ParseCidr(e) == if Parses(e) then Success(Block(e.address.value, Fixed(e))) else Failure(InvalidCidr)
  {}

  /** The first bytes, with so many bits fixed, are those of a private, loopback or link-local range. */
  predicate PrivateBytes(a: Address, fixed: nat) {
    if |a| == 4 then
      || (fixed >= 8 && a[0] == 10)
      || (fixed >= 12 && a[0] == 172 && 16 <= a[1] < 32)
      || (fixed >= 16 && a[0] == 192 && a[1] == 168)
      || (fixed >= 8 && a[0] == 127)
      || (fixed >= 16 && a[0] == 169 && a[1] == 254)
    else
      || (fixed >= 7 && (a[0] == 0xFC || a[0] == 0xFD))
      || (fixed >= 10 && a[0] == 0xFE && 0x80 <= a[1] < 0xC0)
      || (fixed == 128 && a[15] == 1 && forall i | 0 <= i < 15 :: a[i] == 0)
  }

  /** The byte tests on an IPv4 block are the five ranges. */
  lemma V4Ranges(b: Block)
    requires ValidBlock(b) && |b.network| == 4
    ensures Inside(b, PRIVATE_V4[0]) <==> b.prefix >= 8 && b.network[0] == 10
    ensures Inside(b, PRIVATE_V4[1]) <==> b.prefix >= 12 && b.network[0] == 172 && b.network[1] & 0xF0 == 16
    ensures Inside(b, PRIVATE_V4[2]) <==> b.prefix >= 16 && b.network[0] == 192 && b.network[1] == 168
    ensures Inside(b, PRIVATE_V4[3]) <==> b.prefix >= 8 && b.network[0] == 127
    ensures Inside(b, PRIVATE_V4[4]) <==> b.prefix >= 16 && b.network[0] == 169 && b.network[1] == 254
    ensures InsideRanges(b, PRIVATE_V4) <==> exists k :: 0 <= k < 5 && Inside(b, PRIVATE_V4[k])
  {
    hide Within;
    var a := b.network;
    ContainsIffBitsAgree(a, PRIVATE_V4[0]);
    ContainsIffBitsAgree(a, PRIVATE_V4[1]);
    ContainsIffBitsAgree(a, PRIVATE_V4[2]);
    ContainsIffBitsAgree(a, PRIVATE_V4[3]);
    ContainsIffBitsAgree(a, PRIVATE_V4[4]);
    MaskValues();
    assert a[..1] == [a[0]] && a[..2] == [a[0], a[1]];
    assert forall k | 0 <= k < 5 :: PRIVATE_V4[k] in PRIVATE_V4;
  }

  lemma ByteRanges(x: bv8)
    ensures x & 0xF0 == 16 <==> 16 <= x < 32
    ensures x & 0xFE == 0xFC <==> x == 0xFC || x == 0xFD
    ensures x & 0xC0 == 0x80 <==> 0x80 <= x < 0xC0
  {}

  lemma PrivateV4Iff(b: Block)
    requires ValidBlock(b) && |b.network| == 4
    ensures InsideRanges(b, PRIVATE_V4) <==> PrivateBytes(b.network, b.prefix)
  {
    ByteRanges(b.network[1]);
    V4Ranges(b);
    hide Inside, PRIVATE_V4, InsideRanges;
    assert (exists k :: 0 <= k < 5 && Inside(b, PRIVATE_V4[k])) <==>
      Inside(b, PRIVATE_V4[0]) || Inside(b, PRIVATE_V4[1]) || Inside(b, PRIVATE_V4[2]) || Inside(b, PRIVATE_V4[3])
      || Inside(b, PRIVATE_V4[4]);
  }

  lemma PrivateV6Iff(b: Block)
    requires ValidBlock(b) && |b.network| == 16
    ensures InsideRanges(b, PRIVATE_V6) <==> PrivateBytes(b.network, b.prefix)
  {
    ByteRanges(b.network[0]);
    ByteRanges(b.network[1]);
    V6Ranges(b);
    assert b.network == LOOPBACK_V6 <==> b.network[15] == 1 && forall i | 0 <= i < 15 :: b.network[i] == 0;
    hide Inside, PRIVATE_V6, InsideRanges;
  }

  lemma PrivateIff(b: Block)
    requires ValidBlock(b)
    ensures IsPrivate(b) <==> PrivateBytes(b.network, b.prefix)
  {
    if |b.network| == 4 {
      FamiliesDiffer(b, PRIVATE_V6);
      PrivateV4Iff(b);
    } else {
      FamiliesDiffer(b, PRIVATE_V4);
      PrivateV6Iff(b);
    }
    hide PrivateBytes, InsideRanges;
  }

  /** A configuration is accepted exactly if something is allowed, all of it private, and all entries parse. */
  lemma AcceptedIff(allowed: seq<Entry>, denied: seq<Entry>)
    ensures Accepted(allowed, denied) <==>
              && allowed != []
              && (forall e | e in allowed :: Parses(e) && PrivateBytes(e.address.value, Fixed(e)))
              && (forall e | e in denied :: Parses(e))
  {
    forall e: Entry
      ensures Acceptable(e, false) <==> Parses(e)
      ensures Acceptable(e, true) <==> Parses(e) && PrivateBytes(e.address.value, Fixed(e))
    {
      ParsesIff(e);
      if Parses(e) {
        PrivateIff(Block(e.address.value, Fixed(e)));
      }
      hide IsPrivate;
    }
    hide Acceptable, PrivateBytes;
  }

  // -------------------------------------------------------------- admitting a source

  /** Whether a list holds the source, up to the first entry that does or does not parse. */
  function FirstHit(ip: Option<Address>, entries: seq<Entry>): Result<bool, CidrError> {
    if entries == [] then Success(false)
    else
      var hit := CidrContains(ip, entries[0]);
      if hit == Success(false) then FirstHit(ip, entries[1..]) else hit
  }

  method SourceAllowed(ip: Option<Address>, allowed: seq<Entry>, denied: seq<Entry>)
    returns (r: Result<bool, CidrError>)
    ensures r == if FirstHit(ip, denied) == Success(false) then FirstHit(ip, allowed)
                 else if FirstHit(ip, denied).Success? then Success(false)
                 else FirstHit(ip, denied)
  {
    for k := 0 to |denied|
      invariant FirstHit(ip, denied) == FirstHit(ip, denied[k..])
    {
      assert denied[k..][1..] == denied[k + 1..];
      var hit := CidrContains(ip, denied[k]);
      if hit.Failure? {
        return hit;
      }
      if hit.value {
        return Success(false);
      }
    }
    for k := 0 to |allowed|
      invariant FirstHit(ip, allowed) == FirstHit(ip, allowed[k..])
    {
      assert allowed[k..][1..] == allowed[k + 1..];
      var hit := CidrContains(ip, allowed[k]);
      if hit.Failure? || hit.value {
        return hit;
      }
    }
    r := Success(false);
  }

  /** The source is an address of the entry's block. */
  predicate Holds(e: Entry, ip: Address) {
    var parsed := ParseCidr(e);
    parsed.Success? && Within(ip, parsed.value)
  }

  lemma {:induction false} FirstHitIsMembership(ip: Address, entries: seq<Entry>)
    requires AllAcceptable(entries, false)
    ensures FirstHit(Some(ip), entries) == Success(exists e :: e in entries && Holds(e, ip))
  {
    hide Within, BlockContains, ParseCidr;
    if entries != [] {
      var e := entries[0];
      assert Acceptable(e, false) by { assert e in entries; }
      ContainsIffBitsAgree(ip, ParseCidr(e).value);
      FirstHitIsMembership(ip, entries[1..]);
      assert forall x :: x in entries <==> x == e || x in entries[1..];
    }
  }

  predicate Admits(c: Config, ip: Address) {
    var denied := FirstHit(Some(ip), c.denied);
    denied == Success(false) && FirstHit(Some(ip), c.allowed) == Success(true)
  }

  /** A source is admitted exactly when some allowed block holds it and no denied block does. */
  lemma AdmitsExactly(allowed: seq<Entry>, denied: seq<Entry>, ip: Address)
    requires Accepted(allowed, denied)
    ensures Admits(Configured(allowed, denied), ip) <==>
              && (exists e :: e in allowed && Holds(e, ip))
              && !Holds(ALWAYS_DENIED, ip)
              && (forall e | e in denied :: !Holds(e, ip))
  {
    hide Within, ParseCidr, InsideRanges, Holds, FirstHit, Distinct;
    var c := Configured(allowed, denied);
    assert Acceptable(ALWAYS_DENIED, false) by { AlwaysDeniedParses(); }
    assert AllAcceptable(c.denied, false) && AllAcceptable(c.allowed, false);
    FirstHitIsMembership(ip, c.denied);
    FirstHitIsMembership(ip, allowed);
    assert ALWAYS_DENIED in [ALWAYS_DENIED] + denied;
  }

  lemma AlwaysDeniedParses()
    ensures ParseCidr(ALWAYS_DENIED).Success?
  {}

  /** Every source an accepted configuration admits lies in a private range and in no denied one. */
  lemma AdmittedSourcesArePrivate(allowed: seq<Entry>, denied: seq<Entry>, ip: Address)
    requires Accepted(allowed, denied) && Admits(Configured(allowed, denied), ip)
    ensures InRanges(ip, PRIVATE_V4) || InRanges(ip, PRIVATE_V6)
    ensures forall e | e in [ALWAYS_DENIED] + denied :: !Holds(e, ip)
  {
    AdmitsExactly(allowed, denied, ip);
    hide Within, ParseCidr, FirstHit, Distinct, PRIVATE_V4, PRIVATE_V6;
    var e :| e in allowed && Holds(e, ip);
    assert Acceptable(e, true);
    var b := ParseCidr(e).value;
    if InsideRanges(b, PRIVATE_V4) {
      var r :| r in PRIVATE_V4 && Inside(b, r);
      InsideComposes(ip, b, r);
    } else {
      var r :| r in PRIVATE_V6 && Inside(b, r);
      InsideComposes(ip, b, r);
    }
  }

  /** The source has the address's length, and agrees with it on all the bits that the entry fixes. */
  predicate Agrees(e: Entry, ip: Address) {
    && Parses(e) && |ip| == |e.address.value|
    && forall i | 0 <= i < Fixed(e) :: Bit(ip, i) == Bit(e.address.value, i)
  }

  lemma HoldsIff(e: Entry, ip: Address)
    ensures Holds(e, ip) <==> Agrees(e, ip)
  {
    ParsesIff(e);
    hide Bit;
  }

  /** Whether a source is admitted, told by the entries themselves; 172.18.0.1 never is. */
  lemma AdmittedIff(allowed: seq<Entry>, denied: seq<Entry>, ip: Address)
    requires Accepted(allowed, denied)
    ensures Admits(Configured(allowed, denied), ip) <==>
              && (exists e :: e in allowed && Agrees(e, ip))
              && (forall e | e in denied :: !Agrees(e, ip))
              && ip != [172, 18, 0, 1]
  {
    AdmitsExactly(allowed, denied, ip);
    forall e: Entry
      ensures Holds(e, ip) <==> Agrees(e, ip)
    {
      HoldsIff(e, ip);
    }
    WholeAddress(ip);
    hide Agrees, Holds, Admits, Configured, Accepted;
  }

  lemma WholeAddress(ip: Address)
    ensures Holds(ALWAYS_DENIED, ip) <==> ip == [172, 18, 0, 1]
  {
    var b := Block([172, 18, 0, 1], 32);
    ParsesIff(ALWAYS_DENIED);
    ContainsIffBitsAgree(ip, b);
    hide Within;
    assert b.network[..4] == b.network && (|ip| == 4 ==> ip[..4] == ip);
  }

  /** A source that is no address is not admitted, whatever the lists say. */
  lemma {:induction false} NoAddressNoHit(entries: seq<Entry>)
    ensures FirstHit(None, entries) == Success(false)
  {
    if entries != [] {
      NoAddressNoHit(entries[1..]);
    }
  }

  /** In bytes: what an accepted configuration admits starts like a private, loopback or link-local address. */
  lemma AdmittedBytesArePrivate(allowed: seq<Entry>, denied: seq<Entry>, ip: Address)
    requires Accepted(allowed, denied) && Admits(Configured(allowed, denied), ip)
    ensures PrivateBytes(ip, 8 * |ip|)
  {
    AdmittedSourcesArePrivate(allowed, denied, ip);
    var whole := Block(ip, 8 * |ip|);
    assert IsPrivate(whole) by {
      hide Within, PRIVATE_V4, PRIVATE_V6;
      if InRanges(ip, PRIVATE_V4) {
        var r :| r in PRIVATE_V4 && Within(ip, r);
        assert Inside(whole, r);
      } else {
        var r :| r in PRIVATE_V6 && Within(ip, r);
        assert Inside(whole, r);
      }
    }
    PrivateIff(whole);
  }
}
