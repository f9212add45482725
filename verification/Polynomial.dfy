/**
 Polynomials over the two-element field, and what the checksum is in terms of them: the remainder of a
 division, as IEEE Std 802.3 clause 3.2.9 defines the frame check sequence.

 A polynomial is the sequence of its coefficients, that of the highest power first, so that a message
 is a polynomial in the order in which its bits are sent. Addition is exclusive-or.
 */
module Polynomial {
  import opened Abi
  import opened Crc32

  /** The product, one shifted copy of `b` for each power in `a`. */
  function Times(a: seq<bool>, b: seq<bool>): (r: seq<bool>)
    requires b != []
    ensures |r| == |a| + |b| - 1
  {
    if a == [] then Repeat(false, |b| - 1)
    else Xor((if a[0] then b else Repeat(false, |b|)) + Repeat(false, |a| - 1), [false] + Times(a[1..], b))
  }

  /** Leading zeros up to a length. */
  function Widened(a: seq<bool>, n: nat): (r: seq<bool>)
    requires |a| <= n
    ensures |r| == n
  {
    Repeat(false, n - |a|) + a
  }

  /** `a` is `q` times `g` plus `r`, and `r` is of lower degree than `g`. */
  ghost predicate Divides(a: seq<bool>, q: seq<bool>, g: seq<bool>, r: seq<bool>) {
    && g != [] && |r| == |g| - 1 && |a| == |q| + |r|
    && a == Xor(Times(q, g), Widened(r, |a|))
  }

  ghost predicate IsRemainder(a: seq<bool>, g: seq<bool>, r: seq<bool>) {
    exists q :: Divides(a, q, g, r)
  }

  // ---------------------------------------------------------------- there is one remainder

  lemma {:induction false} DivisionIsUnique(a: seq<bool>, g: seq<bool>, q: seq<bool>, r: seq<bool>, p: seq<bool>,
                                            s: seq<bool>)
    requires Divides(a, q, g, r) && Divides(a, p, g, s) && g[0]
    ensures q == p && r == s
    decreases |q|
  {
    if q == [] {
      assert forall i :: 0 <= i < |a| ==> a[i] == r[i] && a[i] == s[i];
    } else {
      assert a[0] == q[0] && a[0] == p[0];
      var top := (if q[0] then g else Repeat(false, |g|)) + Repeat(false, |q| - 1);
      var rest := Xor(a, top);
      Peel(a, q, g, r, rest);
      Peel(a, p, g, s, rest);
      DivisionIsUnique(rest[1..], g, q[1..], r, p[1..], s);
      assert q == [q[0]] + q[1..] && p == [p[0]] + p[1..];
    }
  }

  /** Taking the leading term of the quotient away. */
  lemma Peel(a: seq<bool>, q: seq<bool>, g: seq<bool>, r: seq<bool>, rest: seq<bool>)
    requires Divides(a, q, g, r) && q != []
    requires rest == Xor(a, (if q[0] then g else Repeat(false, |g|)) + Repeat(false, |q| - 1))
    ensures |rest| == |a| && Divides(rest[1..], q[1..], g, r)
  {
    var top := (if q[0] then g else Repeat(false, |g|)) + Repeat(false, |q| - 1);
    var low := Times(q[1..], g);
    assert Times(q, g) == Xor(top, [false] + low);
    var whole, part := rest[1..], Xor(low, Widened(r, |a| - 1));
    forall i | 0 <= i < |a| - 1 ensures whole[i] == part[i] {
      assert a[i + 1] == (Times(q, g)[i + 1] != Widened(r, |a|)[i + 1]);
      assert Times(q, g)[i + 1] == (top[i + 1] != low[i]);
      assert Widened(r, |a|)[i + 1] == Widened(r, |a| - 1)[i];
    }
  }

  // ---------------------------------------------------------------- the checksum is a remainder

  const EXPONENTS := {32, 26, 23, 22, 16, 12, 11, 10, 8, 7, 5, 4, 2, 1, 0}

  /** The generator polynomial of the standard. */
  const GENERATOR: seq<bool> := seq(33, i requires 0 <= i < 33 => 32 - i in EXPONENTS)

  /** A register in front of a message of which nothing has been read. */
  function Dividend(crc: Reg, bits: seq<bool>): (r: seq<bool>)
    ensures |r| == |bits| + 32
  {
    Xor(crc + Repeat(false, |bits|), bits + Repeat(false, 32))
  }

  lemma AtLeastOnce(p: nat, k: int)
    requires k >= 1
    ensures p * k >= p
  {
  }

  lemma QuotientIs(value: nat, p: nat, q: nat, r: nat)
    requires r < p && value == p * q + r
    ensures value / p == q
  {
    var x, rest := value / p, value % p;
    assert p * (x - q) == r - rest;
    if x > q {
      AtLeastOnce(p, x - q);
    } else if x < q {
      AtLeastOnce(p, q - x);
    }
  }

  lemma DivTwice(value: nat, p: nat)
    requires p > 0
    ensures value / 2 / p == value / (2 * p)
  {
    var half := value / 2;
    var q, r := half / p, half % p;
    assert half == p * q + r;
    assert value == 2 * p * q + (2 * r + value % 2);
    QuotientIs(value, 2 * p, q, 2 * r + value % 2);
  }

  /** The binary digits of `value`, lowest first, are the coefficients from x to the `e` down. */
  predicate Spells(value: nat, e: int)
    decreases e + 1
  {
    e < 0 || ((value % 2 == 1 <==> e in EXPONENTS) && Spells(value / 2, e - 1))
  }

  lemma {:induction false} SpelledAt(value: nat, e: nat, i: nat)
    requires Spells(value, e) && i <= e
    ensures value / Pow2(i) % 2 == 1 <==> e - i in EXPONENTS
    decreases i
  {
    if i > 0 {
      SpelledAt(value / 2, e - 1, i - 1);
      DivTwice(value, Pow2(i - 1));
    }
  }

  function Bit(b: bool): nat { if b then 1 else 0 }

  /** One more binary digit. */
  lemma LowBit(high: nat, b: bool, e: nat) returns (value: nat)
    requires Spells(high, e - 1) && (b <==> e in EXPONENTS)
    ensures value == 2 * high + Bit(b) && Spells(value, e)
  {
    value := 2 * high + Bit(b);
    assert value / 2 == high;
  }

  /** One more hexadecimal digit. */
  lemma Digit(high: nat, b3: bool, b2: bool, b1: bool, b0: bool, e: int) returns (value: nat)
    requires e >= 3 && Spells(high, e - 4)
    requires (b3 <==> e - 3 in EXPONENTS) && (b2 <==> e - 2 in EXPONENTS)
    requires (b1 <==> e - 1 in EXPONENTS) && (b0 <==> e in EXPONENTS)
    ensures value == 16 * high + 8 * Bit(b3) + 4 * Bit(b2) + 2 * Bit(b1) + Bit(b0) && Spells(value, e)
  {
    value := LowBit(high, b3, e - 3);
    value := LowBit(value, b2, e - 2);
    value := LowBit(value, b1, e - 1);
    value := LowBit(value, b0, e);
  }

  lemma SpelledHigh() returns (value: nat)
    ensures value == 0xedb8 && Spells(value, 15)
  {
    value := Digit(0, true, true, true, false, 3);
    value := Digit(value, true, true, false, true, 7);
    value := Digit(value, true, false, true, true, 11);
    value := Digit(value, true, false, false, false, 15);
  }

  lemma Spelled() returns (value: nat)
    ensures value == 0xedb88320 && Spells(value, 31)
  {
    value := SpelledHigh();
    value := Digit(value, true, false, false, false, 19);
    value := Digit(value, false, false, true, true, 23);
    value := Digit(value, false, false, true, false, 27);
    assert 31 !in EXPONENTS && 30 !in EXPONENTS && 29 !in EXPONENTS && 28 !in EXPONENTS;
    value := Digit(value, false, false, false, false, 31);
  }

  /** The register's polynomial is the standard's, without its leading term. */
  lemma GeneratorIs()
    ensures GENERATOR == [true] + POLYNOMIAL
  {
    var value := Spelled();
    forall i | 0 <= i < 32 ensures POLYNOMIAL[i] == GENERATOR[i + 1] {
      SpelledAt(value, 31, i);
    }
  }

  // ---------------------------------------------------------------- dividing by feeding

  /** Shifting the register is taking a multiple of the generator away from it times x. */
  lemma ShiftDivides(crc: Reg)
    ensures var step := [false] + BitStep(crc);
            crc + [false] == Xor(if crc[0] then GENERATOR else Repeat(false, 33), step)
  {
    GeneratorIs();
    var whole, parts := crc + [false], Xor(if crc[0] then GENERATOR else Repeat(false, 33), [false] + BitStep(crc));
    forall i | 0 <= i < 33 ensures whole[i] == parts[i] {
      if i > 0 {
        assert BitStep(crc)[i - 1] == (ShiftRight(crc)[i - 1] != (if crc[0] then POLYNOMIAL else ZERO)[i - 1]);
      }
    }
  }

  /** The first message bit meets the register's leading one. */
  lemma FirstBit(crc: Reg, bits: seq<bool>)
    requires bits != []
    ensures var met := Xor(crc, Extend([bits[0]]));
            var top := (if met[0] then GENERATOR else Repeat(false, 33)) + Repeat(false, |bits| - 1);
            Dividend(crc, bits) == Xor(top, [false] + Dividend(BitStep(met), bits[1..]))
  {
    var met := Xor(crc, Extend([bits[0]]));
    ShiftDivides(met);
    var top := (if met[0] then GENERATOR else Repeat(false, 33)) + Repeat(false, |bits| - 1);
    var next := BitStep(met);
    var whole, parts := Dividend(crc, bits), Xor(top, [false] + Dividend(next, bits[1..]));
    forall i | 0 <= i < |bits| + 32 ensures whole[i] == parts[i] {
      assert whole[i] == ((crc + Repeat(false, |bits|))[i] != (bits + Repeat(false, 32))[i]);
      assert i < 33 ==> (met + [false])[i] == (top[i] != ([false] + next)[i]);
      if i > 0 {
        assert Dividend(next, bits[1..])[i - 1] ==
               ((next + Repeat(false, |bits| - 1))[i - 1] != (bits[1..] + Repeat(false, 32))[i - 1]);
        assert (bits[1..] + Repeat(false, 32))[i - 1] == (bits + Repeat(false, 32))[i];
      }
    }
  }

  /** What the register holds in the end is the remainder; what was shifted out is the quotient. */
  lemma {:induction false} FeedDivides(crc: Reg, bits: seq<bool>) returns (q: seq<bool>)
    ensures Divides(Dividend(crc, bits), q, GENERATOR, Feed(crc, bits))
    decreases |bits|
  {
    if bits == [] {
      q := [];
      assert Dividend(crc, bits) == crc;
    } else {
      var met := Xor(crc, Extend([bits[0]]));
      var rest := FeedDivides(BitStep(met), bits[1..]);
      q := [met[0]] + rest;
      FirstBit(crc, bits);
      Unpeel(Dividend(BitStep(met), bits[1..]), rest, Feed(crc, bits), met[0], Dividend(crc, bits));
    }
  }

  lemma Unpeel(a: seq<bool>, q: seq<bool>, r: seq<bool>, lead: bool, whole: seq<bool>)
    requires Divides(a, q, GENERATOR, r)
    requires whole == Xor((if lead then GENERATOR else Repeat(false, 33)) + Repeat(false, |q|), [false] + a)
    ensures Divides(whole, [lead] + q, GENERATOR, r)
  {
    var top := (if lead then GENERATOR else Repeat(false, 33)) + Repeat(false, |q|);
    assert ([lead] + q)[1..] == q;
    assert Times([lead] + q, GENERATOR) == Xor(top, [false] + Times(q, GENERATOR));
    var parts := Xor(Times([lead] + q, GENERATOR), Widened(r, |whole|));
    forall i | 0 <= i < |whole| ensures whole[i] == parts[i] {
      if i > 0 {
        assert a[i - 1] == (Times(q, GENERATOR)[i - 1] != Widened(r, |a|)[i - 1]);
        assert Widened(r, |whole|)[i] == Widened(r, |a|)[i - 1];
      }
    }
  }

  /**
   The checksum of every message: the complement of the remainder, modulo the generator, of the message
   times x to the 32 with its first 32 bits complemented. There is only one such remainder.
   */
  lemma {:induction false} ChecksumIsRemainder(bytes: seq<u8>)
    ensures var complemented := Dividend(Repeat(true, 32), MessageBits(bytes));
            IsRemainder(complemented, GENERATOR, Xor(Checksum(bytes), Repeat(true, 32)))
  {
    var q := FeedDivides(ONES, MessageBits(bytes));
    UpdateIsFeed(ONES, bytes);
    var crc := Update(ONES, bytes);
    assert Xor(Not(crc), ONES) == crc;
  }

  lemma {:induction false} RemainderIsChecksum(bytes: seq<u8>, r: seq<bool>)
    requires IsRemainder(Dividend(Repeat(true, 32), MessageBits(bytes)), GENERATOR, r)
    ensures r == Xor(Checksum(bytes), Repeat(true, 32))
  {
    ChecksumIsRemainder(bytes);
    var a, s := Dividend(Repeat(true, 32), MessageBits(bytes)), Xor(Checksum(bytes), Repeat(true, 32));
    var q :| Divides(a, q, GENERATOR, r);
    var p :| Divides(a, p, GENERATOR, s);
    DivisionIsUnique(a, GENERATOR, q, r, p, s);
  }
}
