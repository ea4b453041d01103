/** Decimal text as JavaScript prints integers, `padStart`, and when two such texts agree. */
module Decimals {

  function Digit(d: nat): char
    requires d < 10
  {
    '0' + d as char
  }

  function DigitValue(c: char): int {
    c as int - '0' as int
  }

  /** `String(n)` for a non-negative integer. */
  function Decimal(n: nat): (s: string)
    ensures s != ""
  {
    if n < 10 then [Digit(n)] else Decimal(n / 10) + [Digit(n % 10)]
  }

  function Signed(n: int): string {
    if n < 0 then "-" + Decimal(-n) else Decimal(n)
  }

  function Repeat(c: char, n: nat): (s: string)
    ensures |s| == n
  {
    if n == 0 then "" else [c] + Repeat(c, n - 1)
  }

  /** `s.padStart(width, '0')`. */
  function PadStart(s: string, width: nat): (r: string)
    ensures |r| == if |s| < width then width else |s|
  {
    if |s| >= width then s else Repeat('0', width - |s|) + s
  }

  /** The number a text of digits denotes. */
  function Parse(s: string): int {
    if s == "" then 0 else 10 * Parse(s[..|s| - 1]) + DigitValue(s[|s| - 1])
  }

  lemma {:induction false} ParseDecimal(n: nat)
    ensures Parse(Decimal(n)) == n
  {
    if n >= 10 {
      ParseDecimal(n / 10);
      assert Decimal(n)[..|Decimal(n)| - 1] == Decimal(n / 10);
    }
  }

  lemma {:induction false} ParseRepeat(n: nat)
    ensures Parse(Repeat('0', n)) == 0
  {
    if n > 0 {
      ParseRepeat(n - 1);
      ZerosFromTheEnd(n);
    }
  }

  lemma {:induction false} ZerosFromTheEnd(n: nat)
    requires n > 0
    ensures Repeat('0', n) == Repeat('0', n - 1) + ['0']
  {
    if n > 1 { ZerosFromTheEnd(n - 1); }
  }

  lemma {:induction false} ParsePadded(zeros: string, s: string)
    requires Parse(zeros) == 0
    ensures Parse(zeros + s) == Parse(s)
    decreases |s|
  {
    if s == "" {
      assert zeros + s == zeros;
    } else {
      ParsePadded(zeros, s[..|s| - 1]);
      assert (zeros + s)[..|zeros + s| - 1] == zeros + s[..|s| - 1];
    }
  }

  /** Padding keeps the number, so padded texts of different numbers differ, whatever their length. */
  lemma ParsePadStart(n: nat, width: nat)
    ensures Parse(PadStart(Decimal(n), width)) == n
  {
    ParseDecimal(n);
    if |Decimal(n)| < width {
      var k := width - |Decimal(n)|;
      ParseRepeat(k);
      ParsePadded(Repeat('0', k), Decimal(n));
    }
  }

  lemma DecimalInjective(m: nat, n: nat)
    requires Decimal(m) == Decimal(n)
    ensures m == n
  {
    ParseDecimal(m);
    ParseDecimal(n);
  }

  lemma PaddedInjective(m: nat, n: nat, width: nat)
    requires PadStart(Decimal(m), width) == PadStart(Decimal(n), width)
    ensures m == n
  {
    ParsePadStart(m, width);
    ParsePadStart(n, width);
  }

  lemma DecimalLength(n: nat)
    ensures |Decimal(n)| <= 3 <==> n < 1000
    ensures |Decimal(n)| <= 4 <==> n < 10000
    ensures |Decimal(n)| <= 5 <==> n < 100000
  {
    ShorterByOne(n);
    ShorterByOne(n / 10);
    ShorterByOne(n / 100);
    ShorterByOne(n / 1000);
    ShorterByOne(n / 10000);
    assert n / 10 / 10 == n / 100 && n / 100 / 10 == n / 1000 && n / 1000 / 10 == n / 10000;
  }

  lemma ShorterByOne(n: nat)
    ensures if n < 10 then |Decimal(n)| == 1 else |Decimal(n)| == |Decimal(n / 10)| + 1
  {
  }

  lemma TwoDigits(n: nat)
    requires n < 100
    ensures |PadStart(Decimal(n), 2)| == 2
  {
    if n >= 10 { assert Decimal(n) == Decimal(n / 10) + [Digit(n % 10)] && |Decimal(n / 10)| == 1; }
  }

  /** Texts built around two different middles of one pattern differ. */
  lemma AroundInjective(before: string, a: string, b: string, after: string)
    requires before + a + after == before + b + after
    ensures a == b
  {
    var s, t := before + a + after, before + b + after;
    assert |a| == |b|;
    assert a == s[|before|..|before| + |a|];
    assert b == t[|before|..|before| + |b|];
  }

  /** A separator that does not occur in either of two first parts splits a text in one way. */
  lemma {:induction false} SplitOnce(a: string, b: string, p: string, q: string, c: char)
    requires c !in a && c !in b && a + [c] + p == b + [c] + q
    ensures a == b && p == q
    decreases |a|
  {
    var s, t := a + [c] + p, b + [c] + q;
    assert s[0] == (if a == "" then c else a[0]) && t[0] == (if b == "" then c else b[0]);
    if a == "" && b == "" {
      assert s[1..] == p && t[1..] == q;
    } else if a != "" && b != "" {
      assert s[1..] == a[1..] + [c] + p && t[1..] == b[1..] + [c] + q;
      SplitOnce(a[1..], b[1..], p, q, c);
      assert a == [a[0]] + a[1..] && b == [b[0]] + b[1..];
    }
  }

  predicate IsDigit(c: char) {
    '0' <= c <= '9'
  }

  lemma {:induction false} NotInDecimal(n: nat, c: char)
    requires !IsDigit(c)
    ensures c !in Decimal(n)
  {
    if n >= 10 { NotInDecimal(n / 10, c); }
  }

  lemma {:induction false} NotInZeros(k: nat, c: char)
    requires !IsDigit(c)
    ensures c !in Repeat('0', k)
  {
    if k > 0 { NotInZeros(k - 1, c); }
  }

  lemma NotInPadded(n: nat, width: nat, c: char)
    requires !IsDigit(c)
    ensures c !in PadStart(Decimal(n), width)
  {
    NotInDecimal(n, c);
    if |Decimal(n)| < width { NotInZeros(width - |Decimal(n)|, c); }
  }

  lemma OneDigit(d: nat)
    requires d < 10
    ensures Decimal(d) == ["0123456789"[d]] && DigitValue("0123456789"[d]) == d
  {
  }

  /** Digits only, no leading zero, and the number they denote. */
  lemma {:induction false} Canonical(n: nat)
    ensures forall k :: 0 <= k < |Decimal(n)| ==> Decimal(n)[k] in "0123456789"
    ensures n > 0 ==> Decimal(n)[0] != '0'
    ensures Parse(Decimal(n)) == n
  {
    ParseDecimal(n);
    OneDigit(n % 10);
    if n >= 10 { Canonical(n / 10); }
  }

  lemma {:induction false} RepeatIs(c: char, n: nat)
    ensures forall k :: 0 <= k < n ==> Repeat(c, n)[k] == c
  {
    if n > 0 { RepeatIs(c, n - 1); }
  }

  /** Zeros in front up to the width, and then the text. */
  lemma Padded(s: string, width: nat)
    ensures var r := PadStart(s, width);
      && |r| >= |s| && r[|r| - |s|..] == s && (|s| < width ==> |r| == width) && (|s| >= width ==> r == s)
      && forall k :: 0 <= k < |r| - |s| ==> r[k] == '0'
  {
    if |s| < width { RepeatIs('0', width - |s|); }
  }

  /** Two more digits. */
  lemma ParseTwoMore(s: string, t: string)
    requires |t| == 2
    ensures Parse(s + t) == 100 * Parse(s) + Parse(t)
  {
    var u := s + t;
    assert u[..|u| - 1] == s + [t[0]] && (s + [t[0]])[..|s|] == s && t[..1] == [t[0]] && [t[0]][..0] == "";
    assert Parse([t[0]]) == DigitValue(t[0]);
  }
}
