/**
 The checksum as the sources compute it, in 32-bit machine words, and the published answer for "123456789".
 */
module CrcAnswer {
  import opened Abi
  import opened Crc32
  import opened Polynomial

  // ---------------------------------------------------------------- the sources' arithmetic

  /** One shift: the polynomial is folded in when a one falls out. */
  function WordStep(crc: bv32): bv32 { (crc >> 1) ^ (0xedb88320 & (0 - (crc & 1))) }

  function WordSteps(crc: bv32, n: nat): bv32
    decreases n, crc
  {
    if n == 0 then crc else WordSteps(WordStep(crc), n - 1)
  }

  function WordUpdate(crc: bv32, bytes: seq<bv32>): bv32
    decreases |bytes|
  {
    if bytes == [] then crc else WordUpdate(WordSteps(crc ^ bytes[0], 8), bytes[1..])
  }

  function WordChecksum(bytes: seq<bv32>): bv32 { WordUpdate(0xffffffff, bytes) ^ 0xffffffff }

  // ---------------------------------------------------------------- words and their bits

  /** The `n` low bits, least significant first. */
  function LowBits(x: bv32, n: nat): (bits: seq<bool>)
    ensures |bits| == n
    decreases n, x
  {
    if n == 0 then [] else [x & 1 == 1] + LowBits(x >> 1, n - 1)
  }

  function Register(x: bv32): Reg { LowBits(x, 32) }

  /** Nothing is set above the `n` low bits. */
  predicate Fits(x: bv32, n: nat)
    decreases n
  {
    if n == 0 then x == 0 else Fits(x >> 1, n - 1)
  }

  /** The word and the number have the same `n` low binary digits. */
  predicate Same(x: bv32, value: nat, n: nat)
    decreases n
  {
    n == 0 || ((x & 1 == 1 <==> value % 2 == 1) && Same(x >> 1, value / 2, n - 1))
  }

  lemma {:induction false} SameBits(x: bv32, value: nat, n: nat)
    requires Same(x, value, n)
    ensures LowBits(x, n) == Bits(value, n)
    decreases n
  {
    if n > 0 {
      SameBits(x >> 1, value / 2, n - 1);
    }
  }

  lemma BitFacts(a: bv32, b: bv32)
    ensures (a ^ b) >> 1 == (a >> 1) ^ (b >> 1) && ((a ^ b) & 1 == 1 <==> (a & 1 == 1) != (b & 1 == 1))
  {
  }

  lemma XorCons(p: bool, s: seq<bool>, q: bool, t: seq<bool>)
    requires |s| == |t|
    ensures Xor([p] + s, [q] + t) == [p != q] + Xor(s, t)
  {
  }

  lemma {:induction false} XorBits(a: bv32, b: bv32, n: nat)
    ensures LowBits(a ^ b, n) == Xor(LowBits(a, n), LowBits(b, n))
    decreases n
  {
    if n > 0 {
      BitFacts(a, b);
      XorBits(a >> 1, b >> 1, n - 1);
      XorCons(a & 1 == 1, LowBits(a >> 1, n - 1), b & 1 == 1, LowBits(b >> 1, n - 1));
    }
  }

  lemma {:induction false} ZeroBits(n: nat)
    ensures LowBits(0, n) == Repeat(false, n)
    decreases n
  {
    if n > 0 {
      assert (0 as bv32) >> 1 == 0;
      ZeroBits(n - 1);
    }
  }

  lemma {:induction false} FitsBits(x: bv32, m: nat, n: nat)
    requires Fits(x, m)
    ensures LowBits(x, m + n) == LowBits(x, m) + Repeat(false, n)
    decreases m
  {
    if m == 0 {
      ZeroBits(n);
    } else {
      FitsBits(x >> 1, m - 1, n);
    }
  }

  lemma {:induction false} FitsBelow(x: bv32, mask: bv32, n: nat)
    requires x | mask == mask && Fits(mask, n)
    ensures Fits(x, n)
    decreases n
  {
    if n > 0 {
      FitsBelow(x >> 1, mask >> 1, n - 1);
    }
  }

  lemma ShiftBits(x: bv32)
    ensures Register(x >> 1) == ShiftRight(Register(x))
  {
    assert Fits(0x7f, 7);
    assert Fits(0x7fff, 15);
    assert Fits(0x7fffff, 23);
    assert Fits(0x7fffffff, 31);
    FitsBelow(x >> 1, 0x7fffffff, 31);
    FitsBits(x >> 1, 31, 1);
    assert Repeat(false, 1) == [false];
  }

  lemma {:induction false} BitsAt(value: nat, n: nat, i: nat)
    requires i < n
    ensures Bits(value, n)[i] == (value / Pow2(i) % 2 == 1)
    decreases n
  {
    if i > 0 {
      BitsAt(value / 2, n - 1, i - 1);
      DivTwice(value, Pow2(i - 1));
    }
  }

  lemma PolynomialRegister()
    ensures Register(0xedb88320) == POLYNOMIAL
  {
    assert Same(0xed, 0xed, 8);
    assert Same(0xedb8, 0xedb8, 16);
    assert Same(0xedb883, 0xedb883, 24);
    SameBits(0xedb88320, 0xedb88320, 32);
    forall i | 0 <= i < 32 ensures Bits(0xedb88320, 32)[i] == POLYNOMIAL[i] {
      BitsAt(0xedb88320, 32, i);
    }
  }

  // ---------------------------------------------------------------- the words compute the checksum

  /** The mask is all ones or none. */
  lemma WordStepIs(crc: bv32)
    ensures WordStep(crc) == (crc >> 1) ^ (if crc & 1 == 1 then 0xedb88320 else 0)
  {
    MaskIs(crc & 1);
    assert crc & 1 == 0 || crc & 1 == 1;
  }

  lemma MaskIs(low: bv32)
    requires low == 0 || low == 1
    ensures 0xedb88320 & (0 - low) == if low == 1 then 0xedb88320 else 0
  {
  }

  lemma StepRegister(crc: bv32)
    ensures Register(WordStep(crc)) == BitStep(Register(crc))
  {
    WordStepIs(crc);
    FoldedRegister(crc);
  }

  lemma FoldedRegister(crc: bv32)
    ensures Register((crc >> 1) ^ (if crc & 1 == 1 then 0xedb88320 else 0)) == BitStep(Register(crc))
  {
    PolynomialRegister();
    ZeroBits(32);
    if crc & 1 == 1 {
      FoldRegister(crc, 0xedb88320);
    } else {
      FoldRegister(crc, 0);
    }
  }

  lemma FoldRegister(crc: bv32, fold: bv32)
    requires Register(fold) == if crc & 1 == 1 then POLYNOMIAL else ZERO
    ensures Register((crc >> 1) ^ fold) == BitStep(Register(crc))
  {
    LowestBit(crc);
    ShiftXor(crc, fold);
  }

  lemma ShiftXor(crc: bv32, fold: bv32)
    ensures Register((crc >> 1) ^ fold) == Xor(ShiftRight(Register(crc)), Register(fold))
  {
    var shifted := crc >> 1;
    ShiftBits(crc);
    XorRegister(shifted, fold);
  }

  lemma XorRegister(a: bv32, b: bv32)
    ensures Register(a ^ b) == Xor(Register(a), Register(b))
  {
    XorBits(a, b, 32);
  }

  lemma LowestBit(crc: bv32)
    ensures Register(crc)[0] <==> crc & 1 == 1
  {
  }

  lemma {:induction false} StepsRegister(crc: bv32, n: nat)
    ensures Register(WordSteps(crc, n)) == Steps(Register(crc), n)
    decreases n
  {
    if n > 0 {
      StepRegister(crc);
      StepsRegister(WordStep(crc), n - 1);
    }
  }

  /** A byte in a word. */
  predicate IsByte(x: bv32, value: u8) { Register(x) == Extend(ByteBits(value)) }

  lemma {:induction false} ByteIs(x: bv32, value: u8)
    requires Fits(x, 8) && Same(x, value, 8)
    ensures IsByte(x, value)
  {
    SameBits(x, value, 8);
    FitsBits(x, 8, 24);
  }

  lemma ByteRegister(crc: bv32, x: bv32, value: u8)
    requires IsByte(x, value)
    ensures Register(WordSteps(crc ^ x, 8)) == ByteStep(Register(crc), value)
  {
    XorBits(crc, x, 32);
    StepsRegister(crc ^ x, 8);
  }

  ghost predicate AreBytes(words: seq<bv32>, bytes: seq<u8>) {
    |words| == |bytes| && forall i :: 0 <= i < |words| ==> IsByte(words[i], bytes[i])
  }

  lemma {:induction false} UpdateRegister(crc: bv32, words: seq<bv32>, bytes: seq<u8>)
    requires AreBytes(words, bytes)
    ensures Register(WordUpdate(crc, words)) == Update(Register(crc), bytes)
    decreases |words|
  {
    if words != [] {
      assert IsByte(words[0], bytes[0]);
      ByteRegister(crc, words[0], bytes[0]);
      UpdateRegister(WordSteps(crc ^ words[0], 8), words[1..], bytes[1..]);
    }
  }

  /** All of the `n` low bits are set. */
  predicate Full(x: bv32, n: nat)
    decreases n
  {
    n == 0 || (x & 1 == 1 && Full(x >> 1, n - 1))
  }

  lemma {:induction false} FullBits(x: bv32, n: nat)
    requires Full(x, n)
    ensures LowBits(x, n) == Repeat(true, n)
    decreases n
  {
    if n > 0 {
      FullBits(x >> 1, n - 1);
    }
  }

  lemma OnesRegister()
    ensures Register(0xffffffff) == ONES
  {
    assert Full(0xff, 8);
    assert Full(0xffff, 16);
    assert Full(0xffffff, 24);
    FullBits(0xffffffff, 32);
  }

  /** For every message, the loop over machine words computes the checksum. */
  lemma WordsComputeChecksum(words: seq<bv32>, bytes: seq<u8>)
    requires AreBytes(words, bytes)
    ensures Register(WordChecksum(words)) == Checksum(bytes)
  {
    OnesRegister();
    UpdateRegister(0xffffffff, words, bytes);
    XorBits(WordUpdate(0xffffffff, words), 0xffffffff, 32);
  }

  // ---------------------------------------------------------------- the published answer

  const DIGITS: seq<u8> := [0x31, 0x32, 0x33, 0x34, 0x35, 0x36, 0x37, 0x38, 0x39]
  const DIGIT_WORDS: seq<bv32> := [0x31, 0x32, 0x33, 0x34, 0x35, 0x36, 0x37, 0x38, 0x39]

  lemma OneTwoThree()
    ensures IsByte(0x31, 0x31) && IsByte(0x32, 0x32) && IsByte(0x33, 0x33)
  {
    ByteIs(0x31, 0x31);
    ByteIs(0x32, 0x32);
    ByteIs(0x33, 0x33);
  }

  lemma FourFiveSix()
    ensures IsByte(0x34, 0x34) && IsByte(0x35, 0x35) && IsByte(0x36, 0x36)
  {
    ByteIs(0x34, 0x34);
    ByteIs(0x35, 0x35);
    ByteIs(0x36, 0x36);
  }

  lemma SevenEightNine()
    ensures IsByte(0x37, 0x37) && IsByte(0x38, 0x38) && IsByte(0x39, 0x39)
  {
    ByteIs(0x37, 0x37);
    ByteIs(0x38, 0x38);
    ByteIs(0x39, 0x39);
  }

  lemma DigitWords()
    ensures AreBytes(DIGIT_WORDS, DIGITS)
  {
    OneTwoThree();
    FourFiveSix();
    SevenEightNine();
    forall i | 0 <= i < 9 ensures IsByte(DIGIT_WORDS[i], DIGITS[i]) {
      assert i == 0 || i == 1 || i == 2 || i == 3 || i == 4 || i == 5 || i == 6 || i == 7 || i == 8;
    }
  }

  lemma DigitSteps()
    ensures WordSteps(0xffffffff ^ 0x31, 8) == 0x7c231048 && WordSteps(0x7c231048 ^ 0x32, 8) == 0xb0acbb32
    ensures WordSteps(0xb0acbb32 ^ 0x33, 8) == 0x77b79c2d && WordSteps(0x77b79c2d ^ 0x34, 8) == 0x641c1f5c
    ensures WordSteps(0x641c1f5c ^ 0x35, 8) == 0x340ac5e3 && WordSteps(0x340ac5e3 ^ 0x36, 8) == 0xf68d2c9e
    ensures WordSteps(0xf68d2c9e ^ 0x37, 8) == 0xaffc9660 && WordSteps(0xaffc9660 ^ 0x38, 8) == 0x651f2550
    ensures WordSteps(0x651f2550 ^ 0x39, 8) == 0x340bc6d9
  {
  }

  lemma DigitUpdate()
    ensures WordUpdate(0xffffffff, DIGIT_WORDS) == 0x340bc6d9
  {
    DigitSteps();
    assert WordUpdate(0x651f2550, DIGIT_WORDS[8..]) == 0x340bc6d9;
    assert WordUpdate(0xaffc9660, DIGIT_WORDS[7..]) == 0x340bc6d9;
    assert WordUpdate(0xf68d2c9e, DIGIT_WORDS[6..]) == 0x340bc6d9;
    assert WordUpdate(0x340ac5e3, DIGIT_WORDS[5..]) == 0x340bc6d9;
    assert WordUpdate(0x641c1f5c, DIGIT_WORDS[4..]) == 0x340bc6d9;
    assert WordUpdate(0x77b79c2d, DIGIT_WORDS[3..]) == 0x340bc6d9;
    assert WordUpdate(0xb0acbb32, DIGIT_WORDS[2..]) == 0x340bc6d9;
    assert WordUpdate(0x7c231048, DIGIT_WORDS[1..]) == 0x340bc6d9;
  }

  lemma DigitChecksum()
    ensures WordChecksum(DIGIT_WORDS) == 0xcbf43926
  {
    DigitUpdate();
  }

  lemma AnswerRegister()
    ensures Register(0xcbf43926) == WordBits(0xcbf43926)
  {
    assert Same(0xcb, 0xcb, 8);
    assert Same(0xcbf4, 0xcbf4, 16);
    assert Same(0xcbf439, 0xcbf439, 24);
    SameBits(0xcbf43926, 0xcbf43926, 32);
  }

  /** The checksum of the nine digits is 0xcbf43926. */
  lemma KnownAnswer()
    ensures Checksum(DIGITS) == WordBits(0xcbf43926)
  {
    DigitWords();
    WordsComputeChecksum(DIGIT_WORDS, DIGITS);
    DigitChecksum();
    AnswerRegister();
  }
}
