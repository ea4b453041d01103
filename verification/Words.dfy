/**
 Bytes and 32-bit words as numbers, exclusive or on binary digits, and the list of binary digits a
 number stands for. A JavaScript 32-bit operation depends only on the bit pattern of its operands;
 the pattern is the number below 2^32 that the unsigned shift `>>> 0` yields.
 */
module Words {

  type Byte = b: nat | b < 0x100

  type Word = w: nat | w < 0x1_0000_0000

  type Bits = seq<bool>

  function Pow2(n: nat): (r: nat)
    ensures r > 0
  {
    if n == 0 then 1 else 2 * Pow2(n - 1)
  }

  /** Exclusive or of the binary digits. */
  function Xor(a: nat, b: nat): nat
    decreases a + b
  {
    if a == 0 && b == 0 then 0
    else (if a % 2 == b % 2 then 0 else 1) + 2 * Xor(a / 2, b / 2)
  }

  /** The n lowest binary digits of c, lowest first. */
  function LowBits(c: nat, n: nat): (r: Bits)
    ensures |r| == n
  {
    if n == 0 then [] else [c % 2 == 1] + LowBits(c / 2, n - 1)
  }

  function WordBits(w: Word): (r: Bits)
    ensures |r| == 32
  {
    LowBits(w, 32)
  }

  function XorBits(a: Bits, b: Bits): (r: Bits)
    requires |a| == |b|
    ensures |r| == |a|
  {
    seq(|a|, i requires 0 <= i < |a| => a[i] != b[i])
  }

  function Const(b: bool, n: nat): (r: Bits)
    ensures |r| == n
    ensures forall i :: 0 <= i < n ==> r[i] == b
  {
    seq(n, i => b)
  }

  lemma Pow2Values()
    ensures Pow2(8) == 0x100 && Pow2(32) == 0x1_0000_0000
  {
    assert Pow2(8) == 16 * Pow2(4) && Pow2(4) == 16;
    assert Pow2(12) == 16 * Pow2(8);
    assert Pow2(16) == 16 * Pow2(12);
    assert Pow2(20) == 16 * Pow2(16);
    assert Pow2(24) == 16 * Pow2(20);
    assert Pow2(28) == 16 * Pow2(24);
    assert Pow2(32) == 16 * Pow2(28);
  }

  lemma {:induction false} XorBound(a: nat, b: nat, n: nat)
    requires a < Pow2(n) && b < Pow2(n)
    ensures Xor(a, b) < Pow2(n)
  {
    if n > 0 && !(a == 0 && b == 0) { XorBound(a / 2, b / 2, n - 1); }
  }

  /** Exclusive or stays within the width of its operands. */
  function XorWord(a: Word, b: Word): (r: Word)
  {
    Pow2Values();
    XorBound(a, b, 32);
    Xor(a, b)
  }

  function XorByte(a: Byte, b: Byte): (r: Byte)
  {
    Pow2Values();
    XorBound(a, b, 8);
    Xor(a, b)
  }

  lemma {:induction false} BitsOfXor(a: nat, b: nat, n: nat)
    ensures LowBits(Xor(a, b), n) == XorBits(LowBits(a, n), LowBits(b, n))
  {
    if n > 0 {
      var x := Xor(a, b);
      assert x / 2 == Xor(a / 2, b / 2) && (x % 2 == 1) == (a % 2 != b % 2);
      BitsOfXor(a / 2, b / 2, n - 1);
    }
  }

  lemma {:induction false} BitsOfHalf(c: nat, n: nat)
    requires 0 < n && c < Pow2(n)
    ensures LowBits(c / 2, n) == LowBits(c, n)[1..] + [false]
  {
    if n == 1 {
      assert c / 2 == 0;
    } else {
      BitsOfHalf(c / 2, n - 1);
    }
  }

  lemma {:induction false} BitsInjective(a: nat, b: nat, n: nat)
    requires a < Pow2(n) && b < Pow2(n) && LowBits(a, n) == LowBits(b, n)
    ensures a == b
  {
    if n > 0 {
      assert LowBits(a, n)[0] == LowBits(b, n)[0];
      assert LowBits(a, n)[1..] == LowBits(a / 2, n - 1) && LowBits(b, n)[1..] == LowBits(b / 2, n - 1);
      BitsInjective(a / 2, b / 2, n - 1);
    }
  }

  lemma WordBitsInjective(a: Word, b: Word)
    requires WordBits(a) == WordBits(b)
    ensures a == b
  {
    Pow2Values();
    BitsInjective(a, b, 32);
  }

  /** The digits of a number below 2^n, listed with k more, end in k zeros. */
  lemma {:induction false} BitsPadded(c: nat, n: nat, k: nat)
    requires c < Pow2(n)
    ensures LowBits(c, n + k) == LowBits(c, n) + Const(false, k)
    decreases n, k
  {
    if n > 0 {
      BitsPadded(c / 2, n - 1, k);
    } else if k > 0 {
      BitsPadded(0, 0, k - 1);
      assert Const(false, k) == [false] + Const(false, k - 1);
    }
  }

  /** The digits of low + 2^n * high are those of low followed by those of high. */
  lemma {:induction false} BitsJoin(low: nat, high: nat, n: nat, k: nat)
    requires low < Pow2(n)
    ensures LowBits(low + Pow2(n) * high, n + k) == LowBits(low, n) + LowBits(high, k)
    decreases n
  {
    if n > 0 {
      var p := Pow2(n - 1);
      var c, rest := low + Pow2(n) * high, low / 2 + p * high;
      Doubling(low, p, high);
      BitsJoin(low / 2, high, n - 1, k);
      assert LowBits(c, n + k) == [low % 2 == 1] + LowBits(rest, n - 1 + k);
    }
  }

  lemma Doubling(low: nat, p: nat, high: nat)
    ensures (low + 2 * p * high) % 2 == low % 2
    ensures (low + 2 * p * high) / 2 == low / 2 + p * high
  {
    var m := p * high;
    assert 2 * p * high == 2 * m;
  }

  lemma BitsOfBytePrefix(low: Byte, high: nat, k: nat)
    ensures LowBits(low + 0x100 * high, 8 + k) == LowBits(low, 8) + LowBits(high, k)
  {
    Pow2Values();
    BitsJoin(low, high, 8, k);
  }
}
