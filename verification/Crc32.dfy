/**
 The bitwise CRC-32 of the bundle writer, the polynomial division it stands for (section 8 of
 RFC 1952), its table-driven form, and the error bursts it is guaranteed to notice.

 A register is a 32-bit word. Its binary digits, lowest first, are the coefficients of a polynomial
 over GF(2), highest power first; everything about division is proved on those lists.
 */
module Crc32 {
  import opened Words

  const POLY: Word := 0xEDB8_8320
  const ONES: Word := 0xFFFF_FFFF

  // ---------------------------------------------------------------- the bitwise loop

  function ShiftStep(c: Word): Word {
    if c % 2 == 1 then XorWord(c / 2, POLY) else c / 2
  }

  function Shift(c: Word, n: nat): Word
    decreases n
  {
    if n == 0 then c else Shift(ShiftStep(c), n - 1)
  }

  function Absorb(c: Word, b: Byte): Word {
    Shift(XorWord(c, b), 8)
  }

  function Update(c: Word, data: seq<Byte>): Word
    decreases |data|
  {
    if data == [] then c else Update(Absorb(c, data[0]), data[1..])
  }

  function Crc(data: seq<Byte>): Word {
    XorWord(Update(ONES, data), ONES)
  }

  lemma {:induction false} ShiftLast(c: Word, n: nat)
    ensures Shift(c, n + 1) == ShiftStep(Shift(c, n))
    decreases n
  {
    if n > 0 { ShiftLast(ShiftStep(c), n - 1); }
  }

  lemma {:induction false} UpdateAppend(c: Word, a: seq<Byte>, b: seq<Byte>)
    ensures Update(c, a + b) == Update(Update(c, a), b)
    decreases |a|
  {
    if a == [] {
      assert a + b == b;
    } else {
      assert (a + b)[1..] == a[1..] + b;
      UpdateAppend(Absorb(c, a[0]), a[1..], b);
    }
  }

  /** The two nested loops of the source, on the bit pattern of the running value. */
  method Compute(buf: seq<Byte>) returns (result: Word)
    ensures result == Crc(buf)
  {
    var crc: Word := ONES;
    for i := 0 to |buf|
      invariant crc == Update(ONES, buf[..i])
    {
      ghost var before := crc;
      crc := XorWord(crc, buf[i]);
      ghost var loaded := crc;
      for j := 0 to 8
        invariant crc == Shift(loaded, j)
      {
        ShiftLast(loaded, j);
        crc := if crc % 2 == 1 then XorWord(crc / 2, POLY) else crc / 2;
      }
      assert crc == Update(before, [buf[i]]);
      assert buf[..i + 1] == buf[..i] + [buf[i]];
      UpdateAppend(ONES, buf[..i], [buf[i]]);
    }
    assert buf[..|buf|] == buf;
    result := XorWord(crc, ONES);
  }

  // ---------------------------------------------------------------- registers as coefficient lists

  /** x^26 + x^23 + x^22 + x^16 + x^12 + x^11 + x^10 + x^8 + x^7 + x^5 + x^4 + x^2 + x + 1, highest
      power (x^31) first: the generator of section 8 of RFC 1952 without its leading x^32. */
  const GENERATOR: Bits :=
    [false, false, false, false, false, true,  false, false] +
    ([true,  true,  false, false, false, false, false, true] +
    ([false, false, false, true,  true,  true,  false, true] +
     [true,  false, true,  true,  false, true,  true,  true]))

  function PolyStep(r: Bits, m: bool): (s: Bits)
    requires |r| == 32
    ensures |s| == 32
  {
    if r[0] != m then XorBits(r[1..] + [false], GENERATOR) else r[1..] + [false]
  }

  /** Feed a bit string into a register, one bit at a time. */
  function PolyFeed(r: Bits, message: Bits): (s: Bits)
    requires |r| == 32
    ensures |s| == 32
    decreases |message|
  {
    if message == [] then r else PolyFeed(PolyStep(r, message[0]), message[1..])
  }

  /** The message as one bit string: bytes in order, each least significant bit first. */
  function MessageBits(data: seq<Byte>): (r: Bits)
    ensures |r| == 8 * |data|
  {
    if data == [] then [] else LowBits(data[0], 8) + MessageBits(data[1..])
  }

  lemma BitsOf20()
    ensures LowBits(0x20, 8) == [false, false, false, false, false, true, false, false]
  {
  }

  lemma BitsOf83()
    ensures LowBits(0x83, 8) == [true, true, false, false, false, false, false, true]
  {
  }

  lemma BitsOfB8()
    ensures LowBits(0xB8, 8) == [false, false, false, true, true, true, false, true]
  {
  }

  lemma BitsOfED()
    ensures LowBits(0xED, 8) == [true, false, true, true, false, true, true, true]
  {
  }

  lemma BitsOfFF()
    ensures LowBits(0xFF, 8) == Const(true, 8)
  {
  }

  lemma GeneratorBits()
    ensures WordBits(POLY) == GENERATOR
  {
    BitsOfBytePrefix(0x20, 0xED_B883, 24);
    BitsOfBytePrefix(0x83, 0xEDB8, 16);
    BitsOfBytePrefix(0xB8, 0xED, 8);
    BitsOf20();
    BitsOf83();
    BitsOfB8();
    BitsOfED();
  }

  lemma OnesBits()
    ensures WordBits(ONES) == Const(true, 32)
  {
    BitsOfFF();
    BitsOfBytePrefix(0xFF, 0xFF, 8);
    assert LowBits(0xFFFF, 16) == Const(true, 16);
    BitsOfBytePrefix(0xFF, 0xFFFF, 16);
    assert LowBits(0xFF_FFFF, 24) == Const(true, 24);
    BitsOfBytePrefix(0xFF, 0xFF_FFFF, 24);
  }

  lemma StepOnBits(c: Word)
    ensures WordBits(ShiftStep(c)) == PolyStep(WordBits(c), false)
  {
    Pow2Values();
    BitsOfHalf(c, 32);
    GeneratorBits();
    BitsOfXor(c / 2, POLY, 32);
  }

  lemma {:induction false} ShiftOnBits(c: Word, n: nat)
    ensures WordBits(Shift(c, n)) == PolyFeed(WordBits(c), Const(false, n))
    decreases n
  {
    if n > 0 {
      StepOnBits(c);
      assert Const(false, n)[1..] == Const(false, n - 1);
      ShiftOnBits(ShiftStep(c), n - 1);
    }
  }

  lemma StepIsLinear(r: Bits, s: Bits, m: bool, k: bool)
    requires |r| == |s| == 32
    ensures PolyStep(XorBits(r, s), m != k) == XorBits(PolyStep(r, m), PolyStep(s, k))
  {
    assert XorBits(r, s)[1..] == XorBits(r[1..], s[1..]);
  }

  lemma {:induction false} FeedLinear(r: Bits, s: Bits, a: Bits, b: Bits)
    requires |r| == |s| == 32 && |a| == |b|
    ensures PolyFeed(XorBits(r, s), XorBits(a, b)) == XorBits(PolyFeed(r, a), PolyFeed(s, b))
    decreases |a|
  {
    if a != [] {
      StepIsLinear(r, s, a[0], b[0]);
      assert XorBits(a, b)[1..] == XorBits(a[1..], b[1..]);
      FeedLinear(PolyStep(r, a[0]), PolyStep(s, b[0]), a[1..], b[1..]);
    }
  }

  lemma {:induction false} FeedAppend(r: Bits, a: Bits, b: Bits)
    requires |r| == 32
    ensures PolyFeed(r, a + b) == PolyFeed(PolyFeed(r, a), b)
    decreases |a|
  {
    if a == [] {
      assert a + b == b;
    } else {
      assert (a + b)[1..] == a[1..] + b;
      FeedAppend(PolyStep(r, a[0]), a[1..], b);
    }
  }

  /** Loading m into the front of the register and shifting it out is feeding m. */
  lemma {:induction false} FeedIsLoadAndShift(r: Bits, m: Bits)
    requires |r| == 32 && |m| <= 32
    ensures PolyFeed(XorBits(r, m + Const(false, 32 - |m|)), Const(false, |m|)) == PolyFeed(r, m)
    decreases |m|
  {
    hide PolyStep;
    var loaded := m + Const(false, 32 - |m|);
    if m == [] {
      assert XorBits(r, loaded) == r;
    } else {
      assert Const(false, |m|)[1..] == Const(false, |m| - 1);
      LoadedStep(r, m);
      FeedIsLoadAndShift(PolyStep(r, m[0]), m[1..]);
    }
  }

  lemma LoadedStep(r: Bits, m: Bits)
    requires |r| == 32 && 0 < |m| <= 32
    ensures PolyStep(XorBits(r, m + Const(false, 32 - |m|)), false)
         == XorBits(PolyStep(r, m[0]), m[1..] + Const(false, 32 - |m[1..]|))
  {
    var x := XorBits(r, m + Const(false, 32 - |m|));
    assert x[0] == (r[0] != m[0]);
    assert x[1..] + [false] == XorBits(r[1..] + [false], m[1..] + Const(false, 32 - |m[1..]|));
  }

  lemma AbsorbOnBits(c: Word, b: Byte)
    ensures WordBits(Absorb(c, b)) == PolyFeed(WordBits(c), LowBits(b, 8))
  {
    Pow2Values();
    BitsPadded(b, 8, 24);
    BitsOfXor(c, b, 32);
    ShiftOnBits(XorWord(c, b), 8);
    FeedIsLoadAndShift(WordBits(c), LowBits(b, 8));
  }

  /** Byte-wise and bit-wise processing agree. */
  lemma {:induction false} UpdateOnBits(c: Word, data: seq<Byte>)
    ensures WordBits(Update(c, data)) == PolyFeed(WordBits(c), MessageBits(data))
    decreases |data|
  {
    if data != [] {
      AbsorbOnBits(c, data[0]);
      UpdateOnBits(Absorb(c, data[0]), data[1..]);
      FeedAppend(WordBits(c), LowBits(data[0], 8), MessageBits(data[1..]));
    }
  }

  // ---------------------------------------------------------------- polynomial division

  /** One step of schoolbook long division over GF(2): when the leading coefficient is one, subtract
      the generator, whose own leading x^32 cancels it. */
  function Reduce(m: Bits): (r: Bits)
    requires |m| > 32
    ensures |r| == |m| - 1
  {
    if m[0] then XorBits(m[1..33], GENERATOR) + m[33..] else m[1..]
  }

  /** Long division of a polynomial, coefficients highest power first, by the generator. */
  function Remainder(m: Bits): (r: Bits)
    requires |m| >= 32
    ensures |r| == 32
    decreases |m|
  {
    if |m| == 32 then m else Remainder(Reduce(m))
  }

  lemma XorConcat(a: Bits, b: Bits, c: Bits, d: Bits)
    requires |a| == |b| && |c| == |d|
    ensures XorBits(a + c, b + d) == XorBits(a, b) + XorBits(c, d)
  {
  }

  lemma XorRegroup(a: Bits, b: Bits, g: Bits)
    requires |a| == |b| == |g|
    ensures XorBits(XorBits(a, g), b) == XorBits(XorBits(a, b), g) == XorBits(a, XorBits(b, g))
    ensures XorBits(XorBits(a, g), XorBits(b, g)) == XorBits(a, b)
  {
  }

  lemma ReduceLinear(a: Bits, b: Bits)
    requires |a| == |b| > 32
    ensures Reduce(XorBits(a, b)) == XorBits(Reduce(a), Reduce(b))
  {
    var c := XorBits(a, b);
    assert c[0] == (a[0] != b[0]);
    assert c[1..33] == XorBits(a[1..33], b[1..33]);
    assert c[33..] == XorBits(a[33..], b[33..]);
    assert forall m: Bits :: |m| == |a| ==> m[1..] == m[1..33] + m[33..];
    XorRegroup(a[1..33], b[1..33], GENERATOR);
    hide XorBits;
    var f := if a[0] then XorBits(a[1..33], GENERATOR) else a[1..33];
    var g := if b[0] then XorBits(b[1..33], GENERATOR) else b[1..33];
    XorConcat(f, g, a[33..], b[33..]);
  }

  lemma {:induction false} RemainderLinear(a: Bits, b: Bits)
    requires |a| == |b| >= 32
    ensures Remainder(XorBits(a, b)) == XorBits(Remainder(a), Remainder(b))
    decreases |a|
  {
    if |a| > 32 {
      ReduceLinear(a, b);
      RemainderLinear(Reduce(a), Reduce(b));
    }
  }

  lemma {:induction false} RemainderOfPadded(r: Bits, n: nat)
    requires |r| == 32
    ensures Remainder(r + Const(false, n)) == PolyFeed(r, Const(false, n))
    decreases n
  {
    var z := Const(false, n);
    if n == 0 {
      assert r + z == r;
    } else {
      assert z[1..] == Const(false, n - 1);
      assert Reduce(r + z) == PolyStep(r, false) + z[1..];
      RemainderOfPadded(PolyStep(r, false), n - 1);
    }
  }

  lemma SubtractInFront(t: Bits, g: Bits)
    requires |t| >= 32 == |g|
    ensures XorBits(t[..32], g) + t[32..] == XorBits(t, g + Const(false, |t| - 32))
  {
  }

  lemma ReducePadded(m: Bits)
    requires m != []
    ensures var t := m[1..] + Const(false, 32);
      Reduce(m + Const(false, 32)) == if m[0] then XorBits(t, GENERATOR + Const(false, |m| - 1)) else t
  {
    hide XorBits;
    var t, u := m[1..] + Const(false, 32), m + Const(false, 32);
    assert u[0] == m[0] && u[1..] == t && u[1..33] == t[..32] && u[33..] == t[32..];
    SubtractInFront(t, GENERATOR);
  }

  lemma FeedFirst(m: Bits)
    requires m != []
    ensures PolyFeed(Const(false, 32), m) == PolyFeed(if m[0] then GENERATOR else Const(false, 32), m[1..])
  {
    hide PolyFeed, XorBits;
    var z := Const(false, 32);
    assert z[1..] + [false] == z;
    NoDifference(m, z);
    FeedOne(z, m);
  }

  /** One step on the message with 32 zeros behind it, and the first feeding step of its leading bit. */
  lemma FirstStep(m: Bits)
    requires m != []
    ensures var z, rest, pad := Const(false, 32), m[1..], Const(false, |m| - 1);
      && Remainder(m + z) == Remainder(if m[0] then XorBits(rest + z, GENERATOR + pad) else rest + z)
      && PolyFeed(z, m) == PolyFeed(if m[0] then GENERATOR else z, rest)
  {
    hide PolyFeed, Remainder, Reduce, XorBits;
    ReducePadded(m);
    FeedFirst(m);
    RemainderStep(m + Const(false, 32));
  }

  lemma FeedOne(r: Bits, m: Bits)
    requires |r| == 32 && m != []
    ensures PolyFeed(r, m) == PolyFeed(PolyStep(r, m[0]), m[1..])
  {
  }

  lemma RemainderStep(m: Bits)
    requires |m| > 32
    ensures Remainder(m) == Remainder(Reduce(m))
  {
  }

  lemma {:induction false} RemainderOfMessage(m: Bits)
    ensures Remainder(m + Const(false, 32)) == PolyFeed(Const(false, 32), m)
    decreases |m|
  {
    hide PolyStep, Reduce, XorBits;
    var z := Const(false, 32);
    if m == [] {
      assert m + z == z;
    } else {
      hide PolyFeed, Remainder;
      var rest, pad := m[1..], Const(false, |m| - 1);
      FirstStep(m);
      RemainderOfMessage(rest);
      if m[0] {
        RemainderLinear(rest + z, GENERATOR + pad);
        RemainderOfPadded(GENERATOR, |rest|);
        FeedLinear(z, GENERATOR, rest, pad);
        NoDifference(rest, z);
      }
    }
  }

  lemma NoDifference(m: Bits, z: Bits)
    requires |z| == 32 && z == Const(false, 32)
    ensures XorBits(m, Const(false, |m|)) == m && XorBits(z, GENERATOR) == GENERATOR
  {
  }

  function ComplementFirst32(m: Bits): (r: Bits)
    requires |m| >= 32
    ensures |r| == |m|
  {
    XorBits(m, Const(true, 32) + Const(false, |m| - 32))
  }

  lemma CrcOnBits(data: seq<Byte>)
    ensures WordBits(Crc(data)) == XorBits(PolyFeed(Const(true, 32), MessageBits(data)), Const(true, 32))
  {
    OnesBits();
    UpdateOnBits(ONES, data);
    BitsOfXor(Update(ONES, data), ONES, 32);
  }

  lemma RemainderOfComplemented(m: Bits)
    ensures Remainder(ComplementFirst32(m + Const(false, 32))) == PolyFeed(Const(true, 32), m)
  {
    var z, ones, pad := Const(false, 32), Const(true, 32), Const(false, |m|);
    RemainderLinear(m + z, ones + pad);
    RemainderOfMessage(m);
    RemainderOfPadded(ones, |m|);
    FeedLinear(z, ones, m, pad);
    assert XorBits(m, pad) == m && XorBits(z, ones) == ones;
  }

  /** Section 8 of RFC 1952: take the message bits followed by 32 zeros, complement the first 32,
      divide by the generator and complement the remainder. The loop computes exactly that. */
  lemma CrcIsRemainder(data: seq<Byte>)
    ensures WordBits(Crc(data))
         == ComplementFirst32(Remainder(ComplementFirst32(MessageBits(data) + Const(false, 32))))
  {
    CrcOnBits(data);
    RemainderOfComplemented(MessageBits(data));
    assert Const(true, 32) + Const(false, 0) == Const(true, 32);
  }

  // ---------------------------------------------------------------- known values

  /** The generator's coefficients by their powers, x^32 left out. */
  lemma GeneratorIs(k: nat)
    requires k < 32
    ensures GENERATOR[31 - k] <==> k in {0, 1, 2, 4, 5, 7, 8, 10, 11, 12, 16, 22, 23, 26}
  {
  }

  /** Exclusive or with n ones is the complement of n digits. */
  lemma {:induction false} XorOnes(x: nat, n: nat)
    requires x < Pow2(n)
    ensures Xor(Pow2(n) - 1, x) == Xor(x, Pow2(n) - 1) == Pow2(n) - 1 - x
  {
    hide Xor;
    if n == 0 {
      XorZero(0);
    } else {
      XorOnes(x / 2, n - 1);
      XorDigit(Pow2(n) - 1, x);
      XorDigit(x, Pow2(n) - 1);
      assert (Pow2(n) - 1) / 2 == Pow2(n - 1) - 1 && (Pow2(n) - 1) % 2 == 1;
    }
  }

  lemma {:induction false} XorZero(x: nat)
    ensures Xor(0, x) == x
  {
    if x > 0 { XorZero(x / 2); }
  }

  lemma {:induction false} XorSplit(a: nat, b: nat, high: nat, n: nat)
    requires a < Pow2(n) && b < Pow2(n)
    ensures Xor(a, b + Pow2(n) * high) == Xor(a, b) + Pow2(n) * Xor(0, high)
    decreases n
  {
    hide Xor;
    if n == 0 {
      XorZero(0);
    } else {
      var p := Pow2(n - 1);
      Doubling(b, p, high);
      XorSplit(a / 2, b / 2, high, n - 1);
      XorDigit(a, b + Pow2(n) * high);
      XorDigit(a, b);
      Doubling(0, p, Xor(0, high));
    }
  }

  lemma XorDigit(a: nat, b: nat)
    ensures Xor(a, b) == (if a % 2 == b % 2 then 0 else 1) + 2 * Xor(a / 2, b / 2)
  {
  }

  lemma {:induction false} ShiftEven(m: Word, n: nat, k: nat)
    requires m * Pow2(n) < 0x1_0000_0000
    ensures Shift(m * Pow2(n), n + k) == Shift(m, k)
    decreases n
  {
    if n > 0 {
      var c := m * Pow2(n - 1);
      assert m * Pow2(n) == 2 * c;
      ShiftEven(m, n - 1, k);
    }
  }

  lemma AbsorbOne(b: Byte)
    ensures Update(ONES, [b]) == Shift(0xFFFF_FFFF - b, 8)
  {
    hide Xor, Shift;
    Pow2Values();
    XorOnes(b, 32);
    assert [b][1..] == [];
  }

  lemma LastStep()
    ensures Shift(0x1FF_FFFF, 1) == 0xED47_7CDF
  {
    hide Xor;
    Pow2Values();
    assert Pow2(24) == 0x100_0000 by { assert Pow2(32) == 16 * Pow2(28) && Pow2(28) == 16 * Pow2(24); }
    XorSplit(0xFF_FFFF, 0xB8_8320, 0xED, 24);
    XorOnes(0xB8_8320, 24);
    XorZero(0xED);
    assert Shift(ShiftStep(0x1FF_FFFF), 0) == ShiftStep(0x1FF_FFFF);
  }

  /** Seven digits that agree with the register only shift it; the last brings in the generator. */
  lemma KnownValues()
    ensures Crc([]) == 0 && Crc([0xFF]) == 0xFF00_0000 && Crc([0x7F]) == 0x12B8_8320
  {
    hide Xor, Shift, Pow2;
    Pow2Values();
    SmallPowers();
    assert Pow2(7) == 0x80;
    XorOnes(ONES, 32);
    AbsorbOne(0xFF);
    ShiftEven(0xFF_FFFF, 8, 0);
    ShiftNothing(0xFF_FFFF);
    XorOnes(0xFF_FFFF, 32);
    AbsorbOne(0x7F);
    ShiftEven(0x1FF_FFFF, 7, 1);
    LastStep();
    XorOnes(0xED47_7CDF, 32);
  }

  lemma ShiftNothing(c: Word)
    ensures Shift(c, 0) == c
  {
  }

  lemma SmallPowers()
    ensures Pow2(0) == 1 && Pow2(8) == 2 * Pow2(7)
  {
  }

  // ---------------------------------------------------------------- affinity and the table

  function XorData(a: seq<Byte>, b: seq<Byte>): (r: seq<Byte>)
    requires |a| == |b|
    ensures |r| == |a|
  {
    seq(|a|, i requires 0 <= i < |a| => XorByte(a[i], b[i]))
  }

  function ZeroData(n: nat): (r: seq<Byte>)
    ensures |r| == n
  {
    seq(n, i => 0)
  }

  lemma {:induction false} MessageBitsOfXor(a: seq<Byte>, b: seq<Byte>)
    requires |a| == |b|
    ensures MessageBits(XorData(a, b)) == XorBits(MessageBits(a), MessageBits(b))
  {
    if a != [] {
      assert XorData(a, b)[1..] == XorData(a[1..], b[1..]);
      MessageBitsOfXor(a[1..], b[1..]);
      BitsOfXor(a[0], b[0], 8);
    }
  }

  lemma {:induction false} NoBits(k: nat)
    ensures LowBits(0, k) == Const(false, k)
  {
    if k > 0 {
      NoBits(k - 1);
      assert Const(false, k) == [false] + Const(false, k - 1);
    }
  }

  lemma {:induction false} MessageBitsOfZeros(n: nat)
    ensures MessageBits(ZeroData(n)) == Const(false, 8 * n)
  {
    if n > 0 {
      hide LowBits;
      assert ZeroData(n)[0] == 0 && ZeroData(n)[1..] == ZeroData(n - 1);
      MessageBitsOfZeros(n - 1);
      NoBits(8);
      assert Const(false, 8 * n) == Const(false, 8) + Const(false, 8 * (n - 1));
    }
  }

  /** The checksum is affine: on messages of one length it commutes with exclusive or, up to the
      checksum of the all-zero message of that length. */
  lemma CrcIsAffine(a: seq<Byte>, b: seq<Byte>)
    requires |a| == |b|
    ensures Crc(XorData(a, b)) == XorWord(XorWord(Crc(a), Crc(b)), Crc(ZeroData(|a|)))
  {
    var ones, z := Const(true, 32), ZeroData(|a|);
    OnesBits();
    MessageBitsOfXor(a, b);
    MessageBitsOfZeros(|a|);
    FeedLinear(ones, ones, MessageBits(a), MessageBits(b));
    FeedLinear(XorBits(ones, ones), ones, XorBits(MessageBits(a), MessageBits(b)), MessageBits(z));
    assert XorBits(XorBits(MessageBits(a), MessageBits(b)), MessageBits(z)) == XorBits(MessageBits(a), MessageBits(b));
    assert XorBits(XorBits(ones, ones), ones) == ones;
    CrcOnBits(a);
    CrcOnBits(b);
    CrcOnBits(z);
    CrcOnBits(XorData(a, b));
    BitsOfXor(Crc(a), Crc(b), 32);
    BitsOfXor(XorWord(Crc(a), Crc(b)), Crc(z), 32);
    WordBitsInjective(Crc(XorData(a, b)), XorWord(XorWord(Crc(a), Crc(b)), Crc(z)));
  }

  /** Entry `i` of the 256-entry table of section 8 of RFC 1952. */
  function TableEntry(i: Byte): Word {
    Shift(i, 8)
  }

  function TableUpdate(c: Word, data: seq<Byte>): Word
    decreases |data|
  {
    if data == [] then c
    else TableUpdate(XorWord(TableEntry(XorByte(c % 256, data[0])), c / 256), data[1..])
  }

  lemma {:induction false} FeedZerosShifts(r: Bits, n: nat)
    requires |r| == 32 && n <= 32
    requires forall i :: 0 <= i < n ==> !r[i]
    ensures PolyFeed(r, Const(false, n)) == r[n..] + Const(false, n)
    decreases n
  {
    if n > 0 {
      assert Const(false, n)[1..] == Const(false, n - 1);
      var s := PolyStep(r, false);
      assert s == r[1..] + [false];
      FeedZerosShifts(s, n - 1);
      assert s[n - 1..] == r[n..] + [false];
      assert Const(false, n) == [false] + Const(false, n - 1);
    } else {
      assert r[0..] + Const(false, 0) == r;
    }
  }

  lemma SplitWord(c: Word)
    ensures WordBits(c) == LowBits(c % 256, 8) + LowBits(c / 256, 24)
    ensures WordBits(c / 256) == LowBits(c / 256, 24) + Const(false, 8)
  {
    Pow2Values();
    BitsJoin(c % 256, c / 256, 8, 24);
    assert Pow2(24) == 0x100_0000 by { assert Pow2(32) == 16 * Pow2(28) && Pow2(28) == 16 * Pow2(24); }
    BitsPadded(c / 256, 24, 8);
  }

  lemma Overlay(low: Bits, high: Bits)
    ensures XorBits(low + Const(false, |high|), Const(false, |low|) + high) == low + high
  {
  }

  lemma ShiftUpperPart(n: nat, high: Bits)
    requires n + |high| == 32
    ensures PolyFeed(Const(false, n) + high, Const(false, n)) == high + Const(false, n)
  {
    var s := Const(false, n) + high;
    assert s[n..] == high;
    FeedZerosShifts(s, n);
  }

  lemma FeedZerosLinear(r: Bits, s: Bits, t: Bits, n: nat)
    requires |r| == |s| == 32 && t == XorBits(r, s)
    ensures PolyFeed(t, Const(false, n)) == XorBits(PolyFeed(r, Const(false, n)), PolyFeed(s, Const(false, n)))
  {
    var z := Const(false, n);
    assert XorBits(z, z) == z;
    FeedLinear(r, s, z, z);
  }

  /** Shifting out the first coefficients of a register t, split into those, r, and the others, s. */
  lemma ShiftSplit(low: Bits, high: Bits, r: Bits, s: Bits, t: Bits)
    requires |low| + |high| == 32 && t == low + high
    requires r == low + Const(false, |high|) && s == Const(false, |low|) + high
    ensures PolyFeed(t, Const(false, |low|)) == XorBits(PolyFeed(r, Const(false, |low|)), high + Const(false, |low|))
  {
    Overlay(low, high);
    ShiftUpperPart(|low|, high);
    FeedZerosLinear(r, s, t, |low|);
  }

  lemma LoadedBits(c: Word, b: Byte, i: Byte)
    requires i == XorByte(c % 256, b)
    ensures WordBits(XorWord(c, b)) == LowBits(i, 8) + LowBits(c / 256, 24)
    ensures WordBits(i) == LowBits(i, 8) + Const(false, 24)
  {
    hide LowBits, XorBits, Const;
    Pow2Values();
    SplitWord(c);
    BitsPadded(i, 8, 24);
    BitsPadded(b, 8, 24);
    BitsOfXor(c, b, 32);
    BitsOfXor(c % 256, b, 8);
    var low, high := LowBits(c % 256, 8), LowBits(c / 256, 24);
    XorParts(low, LowBits(b, 8), high);
  }

  lemma XorParts(low: Bits, other: Bits, high: Bits)
    requires |low| == |other|
    ensures XorBits(low + high, other + Const(false, |high|)) == XorBits(low, other) + high
  {
  }

  lemma AbsorbByTable(c: Word, b: Byte)
    ensures Absorb(c, b) == XorWord(TableEntry(XorByte(c % 256, b)), c / 256)
  {
    var i, x := XorByte(c % 256, b), XorWord(c, b);
    var low, high := LowBits(i, 8), LowBits(c / 256, 24);
    LoadedBits(c, b, i);
    ShiftOnBits(x, 8);
    ShiftOnBits(i, 8);
    ShiftSplit(low, high, WordBits(i), Const(false, 8) + high, WordBits(x));
    SplitWord(c);
    BitsOfXor(TableEntry(i), c / 256, 32);
    WordBitsInjective(Absorb(c, b), XorWord(TableEntry(i), c / 256));
  }

  /** One table lookup per byte computes the same register as eight shifts per byte. */
  lemma {:induction false} TableDriven(c: Word, data: seq<Byte>)
    ensures TableUpdate(c, data) == Update(c, data)
    decreases |data|
  {
    if data != [] {
      AbsorbByTable(c, data[0]);
      TableDriven(Absorb(c, data[0]), data[1..]);
    }
  }

  // ---------------------------------------------------------------- error bursts

  /** A register that ends at zero after n more message bits has nothing beyond its first n
      coefficients. */
  lemma {:induction false} EndsAtZero(r: Bits, m: Bits)
    requires |r| == 32 && |m| <= 32
    requires PolyFeed(r, m) == Const(false, 32)
    ensures forall i :: |m| <= i < 32 ==> !r[i]
    decreases |m|
  {
    if m != [] {
      var s := PolyStep(r, m[0]);
      EndsAtZero(s, m[1..]);
      assert !s[31];
      assert s == r[1..] + [false];
      forall i | |m| <= i < 32
        ensures !r[i]
      {
        assert !s[i - 1];
      }
    }
  }

  /** A nonzero burst of at most 32 bits never leaves the zero register at zero. */
  lemma {:induction false} BurstLeavesTrace(m: Bits)
    requires |m| <= 32
    requires exists i :: 0 <= i < |m| && m[i]
    ensures PolyFeed(Const(false, 32), m) != Const(false, 32)
    decreases |m|
  {
    var z := Const(false, 32);
    if m[0] {
      var s := PolyStep(z, true);
      assert s == GENERATOR && GENERATOR[31];
      if PolyFeed(z, m) == z { EndsAtZero(s, m[1..]); }
    } else {
      assert PolyStep(z, false) == z;
      var i :| 0 <= i < |m| && m[i];
      assert m[1..][i - 1];
      BurstLeavesTrace(m[1..]);
    }
  }

  lemma StepInjective(r: Bits, s: Bits, m: bool)
    requires |r| == |s| == 32
    requires PolyStep(r, m) == PolyStep(s, m)
    ensures r == s
  {
    var a, b := PolyStep(r, m), PolyStep(s, m);
    assert a[31] == (r[0] != m) && b[31] == (s[0] != m);
    forall i | 1 <= i < 32
      ensures r[i] == s[i]
    {
      assert a[i - 1] == b[i - 1];
    }
  }

  lemma {:induction false} FeedInjective(r: Bits, s: Bits, m: Bits)
    requires |r| == |s| == 32
    requires PolyFeed(r, m) == PolyFeed(s, m)
    ensures r == s
    decreases |m|
  {
    if m != [] {
      FeedInjective(PolyStep(r, m[0]), PolyStep(s, m[0]), m[1..]);
      StepInjective(r, s, m[0]);
    }
  }

  /** Two bit strings of one length that differ, but only inside the 32 bits from `at`. */
  ghost predicate Burst(a: Bits, b: Bits, at: nat) {
    && |a| == |b|
    && a != b
    && forall i :: 0 <= i < |a| && !(at <= i < at + 32) ==> a[i] == b[i]
  }

  lemma EqualFeeds(s: Bits, ma: Bits, mb: Bits)
    requires |s| == 32 && |ma| == |mb| <= 32
    requires PolyFeed(s, ma) == PolyFeed(s, mb)
    ensures ma == mb
  {
    var z := Const(false, 32);
    FeedLinear(s, s, ma, mb);
    assert XorBits(s, s) == z;
    assert XorBits(PolyFeed(s, ma), PolyFeed(s, mb)) == z;
    if k :| 0 <= k < |ma| && ma[k] != mb[k] {
      assert XorBits(ma, mb)[k];
      BurstLeavesTrace(XorBits(ma, mb));
      assert false;
    }
  }

  lemma MiddleDiffers(r: Bits, p: Bits, ma: Bits, mb: Bits, t: Bits)
    requires |r| == 32 && |ma| == |mb| <= 32
    requires PolyFeed(r, p + ma + t) == PolyFeed(r, p + mb + t)
    ensures ma == mb
  {
    FeedAppend(r, p + ma, t);
    FeedAppend(r, p + mb, t);
    FeedAppend(r, p, ma);
    FeedAppend(r, p, mb);
    var s := PolyFeed(r, p);
    FeedInjective(PolyFeed(s, ma), PolyFeed(s, mb), t);
    EqualFeeds(s, ma, mb);
  }

  lemma BurstOnBits(r: Bits, a: Bits, b: Bits, at: nat)
    requires |r| == 32 && Burst(a, b, at)
    ensures PolyFeed(r, a) != PolyFeed(r, b)
  {
    var lo := if at < |a| then at else |a|;
    var hi := if at + 32 < |a| then at + 32 else |a|;
    var ma, mb := a[lo..hi], b[lo..hi];
    assert a[..lo] == b[..lo] && a[hi..] == b[hi..];
    assert a == a[..lo] + ma + a[hi..] && b == a[..lo] + mb + a[hi..];
    if PolyFeed(r, a) == PolyFeed(r, b) {
      MiddleDiffers(r, a[..lo], ma, mb, a[hi..]);
      assert false;
    }
  }

  /** Burst detection, at any bit alignment: messages whose bit strings have one length and differ
      only inside 32 consecutive bits never have the same checksum. */
  lemma BurstDetected(a: seq<Byte>, b: seq<Byte>, at: nat)
    requires Burst(MessageBits(a), MessageBits(b), at)
    ensures Crc(a) != Crc(b)
  {
    var ones := Const(true, 32);
    BurstOnBits(ones, MessageBits(a), MessageBits(b), at);
    CrcOnBits(a);
    CrcOnBits(b);
    var x, y := PolyFeed(ones, MessageBits(a)), PolyFeed(ones, MessageBits(b));
    if Crc(a) == Crc(b) {
      forall i | 0 <= i < 32
        ensures x[i] == y[i]
      {
        assert XorBits(x, ones)[i] == XorBits(y, ones)[i];
      }
      assert false;
    }
  }

  lemma {:induction false} MessageBitsAt(data: seq<Byte>, i: nat, j: nat)
    requires i < |data| && j < 8
    ensures MessageBits(data)[8 * i + j] == LowBits(data[i], 8)[j]
    decreases i
  {
    if i > 0 {
      MessageBitsAt(data[1..], i - 1, j);
      var head := LowBits(data[0], 8);
      assert MessageBits(data) == head + MessageBits(data[1..]);
      assert MessageBits(data)[8 * i + j] == MessageBits(data[1..])[8 * (i - 1) + j];
    }
  }

  lemma MessageBitsInjective(a: seq<Byte>, b: seq<Byte>)
    requires |a| == |b| && MessageBits(a) == MessageBits(b)
    ensures a == b
  {
    forall i | 0 <= i < |a|
      ensures a[i] == b[i]
    {
      forall j | 0 <= j < 8
        ensures LowBits(a[i], 8)[j] == LowBits(b[i], 8)[j]
      {
        MessageBitsAt(a, i, j);
        MessageBitsAt(b, i, j);
      }
      Pow2Values();
      BitsInjective(a[i], b[i], 8);
    }
  }

  /** The byte-aligned case: damage confined to four consecutive bytes is always noticed. */
  lemma FourByteWindowDetected(a: seq<Byte>, b: seq<Byte>, at: nat)
    requires |a| == |b| && a != b
    requires forall i :: 0 <= i < |a| && !(at <= i < at + 4) ==> a[i] == b[i]
    ensures Crc(a) != Crc(b)
  {
    var x, y := MessageBits(a), MessageBits(b);
    if x == y { MessageBitsInjective(a, b); }
    forall i | 0 <= i < |x| && !(8 * at <= i < 8 * at + 32)
      ensures x[i] == y[i]
    {
      MessageBitsAt(a, i / 8, i % 8);
      MessageBitsAt(b, i / 8, i % 8);
    }
    BurstDetected(a, b, 8 * at);
  }
}
