/**
 The reflected CRC-32 of IEEE Std 802.3 as the firmware and the endpoint compute it, and the
 properties that make it worth storing: it is linear, it never merges two states, it can be
 computed in pieces, and it sees every error confined to 32 consecutive bits.

 A 32-bit register is the sequence of its bits, least significant first.
 */
module Crc32 {
  import opened Abi

  const ONES: Reg := Repeat(true, 32)

  function Pow2(n: nat): (p: nat)
    ensures p > 0
  {
    if n == 0 then 1 else 2 * Pow2(n - 1)
  }

  /** The `n` low bits of a number, least significant first. */
  function Bits(value: nat, n: nat): (bits: seq<bool>)
    ensures |bits| == n
    decreases n, value
  {
    if n == 0 then [] else [value % 2 == 1] + Bits(value / 2, n - 1)
  }

  function WordBits(value: u32): Reg { Bits(value, 32) }

  function ByteBits(value: u8): (bits: seq<bool>)
    ensures |bits| == 8
  {
    Bits(value, 8)
  }

  function Coefficients(value: nat): Reg {
    seq(32, i requires 0 <= i < 32 => value / Pow2(i) % 2 == 1)
  }

  /** The reflected generator polynomial. */
  const POLYNOMIAL: Reg := Coefficients(0xedb88320)

  function Xor(a: seq<bool>, b: seq<bool>): (r: seq<bool>)
    requires |a| == |b|
    ensures |r| == |a|
  {
    seq(|a|, i requires 0 <= i < |a| => a[i] != b[i])
  }

  function Not(a: Reg): Reg { Xor(a, ONES) }

  /** Logical shift right by one. */
  function ShiftRight(a: Reg): Reg { a[1..] + [false] }

  /** One shift of the register: `(crc >> 1) ^ (POLYNOMIAL & (0 - (crc & 1)))`. */
  function BitStep(crc: Reg): Reg {
    Xor(ShiftRight(crc), if crc[0] then POLYNOMIAL else ZERO)
  }

  function Steps(crc: Reg, n: nat): Reg
    decreases n, crc
  {
    if n == 0 then crc else Steps(BitStep(crc), n - 1)
  }

  function Extend(bits: seq<bool>): Reg
    requires |bits| <= 32
  {
    bits + Repeat(false, 32 - |bits|)
  }

  function ByteStep(crc: Reg, value: u8): Reg {
    Steps(Xor(crc, Extend(ByteBits(value))), 8)
  }

  function Update(crc: Reg, bytes: seq<u8>): Reg
    decreases |bytes|
  {
    if bytes == [] then crc else Update(ByteStep(crc, bytes[0]), bytes[1..])
  }

  function Checksum(bytes: seq<u8>): Reg {
    Not(Update(ONES, bytes))
  }

  // ---------------------------------------------------------------- the loops of the source

  method UpdateByte(crc: Reg, value: u8) returns (r: Reg)
    ensures r == ByteStep(crc, value)
  {
    r := Xor(crc, Extend(ByteBits(value)));
    var bit := 0;
    while bit < 8
      invariant 0 <= bit <= 8
      invariant Steps(r, 8 - bit) == ByteStep(crc, value)
    {
      var mask := if r[0] then POLYNOMIAL else ZERO;
      r := Xor(ShiftRight(r), mask);
      bit := bit + 1;
    }
  }

  method UpdateBuffer(crc: Reg, buffer: seq<u8>) returns (r: Reg)
    ensures r == Update(crc, buffer)
  {
    r := crc;
    var index := 0;
    while index < |buffer|
      invariant 0 <= index <= |buffer|
      invariant Update(r, buffer[index..]) == Update(crc, buffer)
    {
      assert buffer[index..][1..] == buffer[index + 1..];
      r := UpdateByte(r, buffer[index]);
      index := index + 1;
    }
  }

  // ---------------------------------------------------------------- algebra of xor

  lemma XorRegroup(a: seq<bool>, b: seq<bool>, c: seq<bool>, d: seq<bool>)
    requires |a| == |b| == |c| == |d|
    ensures Xor(Xor(a, b), Xor(c, d)) == Xor(Xor(a, c), Xor(b, d))
  {
  }

  lemma XorCancel(a: seq<bool>, b: seq<bool>, v: seq<bool>)
    requires |a| == |b| == |v|
    requires Xor(a, v) == Xor(b, v) || Xor(v, a) == Xor(v, b)
    ensures a == b
  {
    forall i | 0 <= i < |a| ensures a[i] == b[i] {
      assert Xor(a, v)[i] == (a[i] != v[i]) && Xor(b, v)[i] == (b[i] != v[i]);
      assert Xor(v, a)[i] == (v[i] != a[i]) && Xor(v, b)[i] == (v[i] != b[i]);
    }
  }

  // ---------------------------------------------------------------- linearity

  lemma BitStepLinear(a: Reg, b: Reg)
    ensures BitStep(Xor(a, b)) == Xor(BitStep(a), BitStep(b))
  {
    var l, r := BitStep(Xor(a, b)), Xor(BitStep(a), BitStep(b));
    forall i | 0 <= i < 32 ensures l[i] == r[i] {
      assert ShiftRight(Xor(a, b))[i] == (ShiftRight(a)[i] != ShiftRight(b)[i]);
    }
  }

  lemma {:induction false} StepsLinear(a: Reg, b: Reg, n: nat)
    ensures Steps(Xor(a, b), n) == Xor(Steps(a, n), Steps(b, n))
    decreases n
  {
    if n > 0 {
      BitStepLinear(a, b);
      StepsLinear(BitStep(a), BitStep(b), n - 1);
    }
  }

  /** The register fed one message bit at a time, least significant bit of each byte first. */
  function Feed(crc: Reg, bits: seq<bool>): Reg
    decreases |bits|
  {
    if bits == [] then crc else Feed(BitStep(Xor(crc, Extend([bits[0]]))), bits[1..])
  }

  lemma FeedBitLinear(a: Reg, p: bool, b: Reg, q: bool)
    ensures BitStep(Xor(Xor(a, b), Extend([p != q]))) ==
            Xor(BitStep(Xor(a, Extend([p]))), BitStep(Xor(b, Extend([q]))))
  {
    var x, y := Extend([p]), Extend([q]);
    assert Extend([p != q]) == Xor(x, y);
    XorRegroup(a, b, x, y);
    BitStepLinear(Xor(a, x), Xor(b, y));
  }

  /** The register after the xor of two messages is the xor of the two registers. */
  lemma {:induction false} FeedLinear(a: Reg, s: seq<bool>, b: Reg, t: seq<bool>)
    requires |s| == |t|
    ensures Feed(Xor(a, b), Xor(s, t)) == Xor(Feed(a, s), Feed(b, t))
    decreases |s|
  {
    if s != [] {
      var x, y := Extend([s[0]]), Extend([t[0]]);
      FeedBitLinear(a, s[0], b, t[0]);
      assert Xor(s, t)[1..] == Xor(s[1..], t[1..]);
      FeedLinear(BitStep(Xor(a, x)), s[1..], BitStep(Xor(b, y)), t[1..]);
    }
  }

  // ---------------------------------------------------------------- injectivity

  lemma PolynomialTop()
    ensures POLYNOMIAL[31]
  {
    Pow2Values();
  }

  lemma Pow2Values()
    ensures Pow2(8) == 0x100 && Pow2(31) == 0x8000_0000 && Pow2(32) == TWO32
  {
    assert Pow2(8) == 0x100;
    assert Pow2(16) == 0x100 * Pow2(8);
    assert Pow2(24) == 0x100 * Pow2(16);
    assert Pow2(31) == 0x80 * Pow2(24);
  }

  /** The generator's top coefficient is 1, so bit 31 of the result tells what was shifted out. */
  lemma BitStepInjective(a: Reg, b: Reg)
    requires BitStep(a) == BitStep(b)
    ensures a == b
  {
    PolynomialTop();
    assert BitStep(a)[31] == a[0] && BitStep(b)[31] == b[0];
    var mask := if a[0] then POLYNOMIAL else ZERO;
    XorCancel(ShiftRight(a), ShiftRight(b), mask);
    forall i | 1 <= i < 32 ensures a[i] == b[i] {
      assert ShiftRight(a)[i - 1] == a[i] && ShiftRight(b)[i - 1] == b[i];
    }
  }

  lemma {:induction false} StepsInjective(a: Reg, b: Reg, n: nat)
    requires Steps(a, n) == Steps(b, n)
    ensures a == b
    decreases n
  {
    if n > 0 {
      StepsInjective(BitStep(a), BitStep(b), n - 1);
      BitStepInjective(a, b);
    }
  }

  /** Two different registers never become equal over the same message. */
  lemma {:induction false} FeedInjective(a: Reg, b: Reg, bits: seq<bool>)
    requires Feed(a, bits) == Feed(b, bits)
    ensures a == b
    decreases |bits|
  {
    if bits != [] {
      var x := Extend([bits[0]]);
      FeedInjective(BitStep(Xor(a, x)), BitStep(Xor(b, x)), bits[1..]);
      BitStepInjective(Xor(a, x), Xor(b, x));
      XorCancel(a, b, x);
    }
  }

  // ---------------------------------------------------------------- streaming

  /** Chunk by chunk is the same as all at once. */
  lemma {:induction false} UpdateConcat(crc: Reg, s: seq<u8>, t: seq<u8>)
    ensures Update(crc, s + t) == Update(Update(crc, s), t)
    decreases |s|
  {
    if s == [] {
      assert s + t == t;
    } else {
      assert (s + t)[1..] == s[1..] + t;
      UpdateConcat(ByteStep(crc, s[0]), s[1..], t);
    }
  }

  lemma {:induction false} FeedConcat(crc: Reg, s: seq<bool>, t: seq<bool>)
    ensures Feed(crc, s + t) == Feed(Feed(crc, s), t)
    decreases |s|
  {
    if s == [] {
      assert s + t == t;
    } else {
      assert (s + t)[1..] == s[1..] + t;
      FeedConcat(BitStep(Xor(crc, Extend([s[0]]))), s[1..], t);
    }
  }

  lemma {:induction false} FeedThreeParts(crc: Reg, s: seq<bool>, t: seq<bool>, u: seq<bool>)
    ensures Feed(crc, s + (t + u)) == Feed(Feed(Feed(crc, s), t), u)
  {
    FeedConcat(crc, s, t + u);
    FeedConcat(Feed(crc, s), t, u);
  }

  // ---------------------------------------------------------------- many bits at once

  lemma PeelLowBit(crc: Reg, w: Reg)
    ensures BitStep(Xor(crc, w)) == Xor(BitStep(Xor(crc, Extend([w[0]]))), ShiftRight(w))
  {
    var low := Extend([w[0]]);
    var high: Reg := [false] + w[1..];
    assert Xor(crc, w) == Xor(Xor(crc, low), high);
    BitStepLinear(Xor(crc, low), high);
    assert ShiftRight(high) == ShiftRight(w);
    assert BitStep(high) == ShiftRight(w);
  }

  /** `bits` with its first `n` bits shifted out. */
  function Rest(w: Reg, n: nat): Reg
    requires n <= 32
  {
    w[n..] + Repeat(false, n)
  }

  /** Feeding `n` bits of `w` differs from xoring `w` in at once only by the bits not yet fed. */
  lemma {:induction false} FeedIsSteps(crc: Reg, w: Reg, n: nat)
    requires n <= 32
    ensures Steps(Xor(crc, w), n) == Xor(Feed(crc, w[..n]), Rest(w, n))
    decreases n
  {
    if n == 0 {
      assert Rest(w, 0) == w;
    } else {
      PeelLowBit(crc, w);
      assert w[..n][1..] == ShiftRight(w)[..n - 1];
      assert Rest(ShiftRight(w), n - 1) == Rest(w, n);
      FeedIsSteps(BitStep(Xor(crc, Extend([w[0]]))), ShiftRight(w), n - 1);
    }
  }

  /** Up to 32 message bits act like one xor followed by as many shifts. */
  lemma {:induction false} BlockFeed(crc: Reg, bits: seq<bool>)
    requires |bits| <= 32
    ensures Feed(crc, bits) == Steps(Xor(crc, Extend(bits)), |bits|)
  {
    var w, n := Extend(bits), |bits|;
    FeedIsSteps(crc, w, n);
    assert w[..n] == bits;
    assert Rest(w, n) == ZERO;
    assert Xor(Feed(crc, bits), ZERO) == Feed(crc, bits);
  }

  lemma {:induction false} BlockFeedInjective(crc: Reg, s: seq<bool>, t: seq<bool>)
    requires |s| == |t| <= 32
    requires Feed(crc, s) == Feed(crc, t)
    ensures s == t
  {
    BlockFeed(crc, s);
    BlockFeed(crc, t);
    StepsInjective(Xor(crc, Extend(s)), Xor(crc, Extend(t)), |s|);
    XorCancel(Extend(s), Extend(t), crc);
    assert s == Extend(s)[..|s|] && t == Extend(t)[..|s|];
  }

  function MessageBits(bytes: seq<u8>): (bits: seq<bool>)
    ensures |bits| == 8 * |bytes|
  {
    if bytes == [] then [] else ByteBits(bytes[0]) + MessageBits(bytes[1..])
  }

  /** The byte loop and the bit-serial definition agree on every message. */
  lemma {:induction false} UpdateIsFeed(crc: Reg, bytes: seq<u8>)
    ensures Update(crc, bytes) == Feed(crc, MessageBits(bytes))
    decreases |bytes|
  {
    if bytes != [] {
      BlockFeed(crc, ByteBits(bytes[0]));
      FeedConcat(crc, ByteBits(bytes[0]), MessageBits(bytes[1..]));
      UpdateIsFeed(ByteStep(crc, bytes[0]), bytes[1..]);
    }
  }

  // ---------------------------------------------------------------- detection

  /** The two bit strings agree everywhere except in the `n` positions starting at `at`. */
  ghost predicate DifferOnlyIn(s: seq<bool>, t: seq<bool>, at: nat, n: nat) {
    && |s| == |t| && at + n <= |s|
    && s[..at] == t[..at] && s[at + n..] == t[at + n..]
  }

  lemma {:induction false} FeedDetectsBurst(crc: Reg, s: seq<bool>, t: seq<bool>, at: nat, n: nat)
    requires n <= 32 && DifferOnlyIn(s, t, at, n)
    requires Feed(crc, s) == Feed(crc, t)
    ensures s == t
  {
    var a, b := s[at..at + n], t[at..at + n];
    var prefix, suffix := s[..at], s[at + n..];
    assert s == prefix + (a + suffix) && t == prefix + (b + suffix);
    FeedThreeParts(crc, prefix, a, suffix);
    FeedThreeParts(crc, prefix, b, suffix);
    var mid := Feed(crc, prefix);
    FeedInjective(Feed(mid, a), Feed(mid, b), suffix);
    BlockFeedInjective(mid, a, b);
  }

  /** Any change confined to 32 consecutive message bits, at any offset, changes the checksum. */
  lemma {:induction false} ChecksumDetectsBurst(x: seq<u8>, y: seq<u8>, at: nat, n: nat)
    requires n <= 32 && DifferOnlyIn(MessageBits(x), MessageBits(y), at, n)
    requires MessageBits(x) != MessageBits(y)
    ensures Checksum(x) != Checksum(y)
  {
    if Checksum(x) == Checksum(y) {
      XorCancel(Update(ONES, x), Update(ONES, y), ONES);
      UpdateIsFeed(ONES, x);
      UpdateIsFeed(ONES, y);
      FeedDetectsBurst(ONES, MessageBits(x), MessageBits(y), at, n);
      assert false;
    }
  }

  // ---------------------------------------------------------------- numbers and their bits

  lemma {:induction false} BitsInjective(a: nat, b: nat, n: nat)
    requires a < Pow2(n) && b < Pow2(n) && Bits(a, n) == Bits(b, n)
    ensures a == b
    decreases n
  {
    if n > 0 {
      assert Bits(a, n)[0] == (a % 2 == 1) && Bits(b, n)[0] == (b % 2 == 1);
      assert Bits(a, n)[1..] == Bits(a / 2, n - 1) && Bits(b, n)[1..] == Bits(b / 2, n - 1);
      BitsInjective(a / 2, b / 2, n - 1);
    }
  }

  lemma WordBitsInjective(a: u32, b: u32)
    requires WordBits(a) == WordBits(b)
    ensures a == b
  {
    Pow2Values();
    BitsInjective(a, b, 32);
  }

  /** The `n` low bytes of a number, low byte first. */
  function LeBytes(value: nat, n: nat): (bytes: seq<u8>)
    ensures |bytes| == n
    decreases n, value
  {
    if n == 0 then [] else [value % 0x100] + LeBytes(value / 0x100, n - 1)
  }

  /** A little-endian word is stored as four bytes. */
  function WordBytes(value: u32): (bytes: seq<u8>)
    ensures |bytes| == 4
  {
    LeBytes(value, 4)
  }

  lemma {:induction false} BitsSplit(value: nat, m: nat, n: nat, high: nat, low: nat)
    requires low < Pow2(m) && value == Pow2(m) * high + low
    ensures Bits(value, m + n) == Bits(low, m) + Bits(high, n)
    decreases m
  {
    if m > 0 {
      var x := Pow2(m - 1) * high;
      assert Pow2(m) * high == 2 * x;
      BitsSplit(value / 2, m - 1, n, high, low / 2);
    }
  }

  lemma SplitByte(value: nat, n: nat, high: nat, low: u8)
    requires value == 0x100 * high + low
    ensures Bits(value, 8 + n) == ByteBits(low) + Bits(high, n)
  {
    Pow2Values();
    BitsSplit(value, 8, n, high, low);
  }

  /** The message bits of a stored number are the number's own bits. */
  lemma {:induction false} LeBytesBits(value: nat, n: nat)
    ensures MessageBits(LeBytes(value, n)) == Bits(value, 8 * n)
    decreases n
  {
    if n > 0 {
      SplitByte(value, 8 * (n - 1), value / 0x100, value % 0x100);
      assert LeBytes(value, n)[1..] == LeBytes(value / 0x100, n - 1);
      LeBytesBits(value / 0x100, n - 1);
    }
  }

  lemma WordBytesBits(value: u32)
    ensures MessageBits(WordBytes(value)) == WordBits(value)
  {
    LeBytesBits(value, 4);
  }

  /** The number a bit string stands for. */
  function Value(bits: seq<bool>): nat {
    if bits == [] then 0 else (if bits[0] then 1 else 0) + 2 * Value(bits[1..])
  }

  lemma {:induction false} BitsOfValue(bits: seq<bool>)
    ensures Value(bits) < Pow2(|bits|) && Bits(Value(bits), |bits|) == bits
    decreases |bits|
  {
    if bits != [] {
      BitsOfValue(bits[1..]);
      assert bits == [bits[0]] + bits[1..];
    }
  }

  /** A register read back as a word. */
  function WordOf(r: Reg): (w: u32)
    ensures WordBits(w) == r
  {
    BitsOfValue(r);
    Pow2Values();
    Value(r)
  }
}
