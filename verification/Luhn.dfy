/**
 The Luhn check of the card scanner (ISO/IEC 7812-1, Annex B): the backward loop, the position-parity
 definition it computes, and the errors the check detects.
 */
module Luhn {

  predicate IsDigit(c: char) {
    '0' <= c <= '9'
  }

  predicate AllDigits(s: string) {
    forall k :: 0 <= k < |s| ==> IsDigit(s[k])
  }

  function Face(c: char): int {
    c as int - '0' as int
  }

  /** The digit sum of twice a digit. */
  function Doubled(d: int): int {
    if 2 * d > 9 then 2 * d - 9 else 2 * d
  }

  function Term(c: char, double: bool): int {
    if double then Doubled(Face(c)) else Face(c)
  }

  /** Is the digit with `after` digits to its right one of those that count double? */
  predicate Doubles(after: nat) {
    after % 2 == 1
  }

  /** Every second digit, counted from the check digit at the right end, counts double. */
  function Sum(s: string): int {
    if s == "" then 0 else Term(s[0], Doubles(|s| - 1)) + Sum(s[1..])
  }

  predicate Valid(s: string) {
    AllDigits(s) && Sum(s) % 10 == 0
  }

  method LuhnValid(digits: string) returns (ok: bool)
    ensures ok == Valid(digits)
  {
    var sum, alt := 0, false;
    var i := |digits| - 1;
    while i >= 0
      invariant -1 <= i < |digits|
      invariant AllDigits(digits[i + 1..])
      invariant sum == Sum(digits[i + 1..])
      invariant alt == Doubles(|digits| - 1 - i)
    {
      var d := digits[i] as int - 48;
      if d < 0 || d > 9 { return false; }
      if alt {
        d := d * 2;
        if d > 9 { d := d - 9; }
      }
      sum := sum + d;
      alt := !alt;
      assert digits[i..] == [digits[i]] + digits[i + 1..];
      i := i - 1;
    }
    assert digits[0..] == digits;
    return sum % 10 == 0;
  }

  // ---------------------------------------------------------------- what the check detects

  lemma {:induction false} SumUpdate(s: string, k: nat, c: char)
    requires k < |s|
    ensures Sum(s[k := c]) - Sum(s) == Term(c, Doubles(|s| - 1 - k)) - Term(s[k], Doubles(|s| - 1 - k))
    decreases |s|
  {
    if k == 0 {
      assert s[0 := c][1..] == s[1..];
    } else {
      assert s[k := c][1..] == s[1..][k - 1 := c];
      SumUpdate(s[1..], k - 1, c);
    }
  }

  lemma TermsDiffer(a: char, b: char, double: bool)
    requires IsDigit(a) && IsDigit(b) && a != b
    ensures (Term(a, double) - Term(b, double)) % 10 != 0
  {
    assert -9 <= Term(a, double) - Term(b, double) <= 9;
  }

  lemma MultiplesOf10(a: int, b: int)
    requires a % 10 == 0
    ensures b % 10 == 0 <==> (b - a) % 10 == 0
  {
  }

  /** Changing one digit of a valid number always makes it invalid. */
  lemma OneDigitChanged(s: string, k: nat, c: char)
    requires Valid(s) && k < |s| && c != s[k]
    ensures !Valid(s[k := c])
  {
    hide Term, Sum, IsDigit;
    if Valid(s[k := c]) {
      assert IsDigit(s[k := c][k]);
      SumUpdate(s, k, c);
      TermsDiffer(c, s[k], Doubles(|s| - 1 - k));
      MultiplesOf10(Sum(s), Sum(s[k := c]));
      assert false;
    }
  }

  function Swapped(s: string, k: nat): string
    requires k + 1 < |s|
  {
    s[k := s[k + 1]][k + 1 := s[k]]
  }

  lemma SwapOnDigits(a: char, b: char, double: bool)
    requires IsDigit(a) && IsDigit(b)
    ensures (Term(b, double) - Term(a, double) + Term(a, !double) - Term(b, !double)) % 10 == 0
       <==> a == b || (a == '0' && b == '9') || (a == '9' && b == '0')
  {
    var x, y := Face(a), Face(b);
    var d := Doubled(x) - x - (Doubled(y) - y);
    assert Doubled(x) - x == (if x > 4 then x - 9 else x);
    assert -8 <= d <= 8;
    assert d == 0 <==> x == y || (x == 0 && y == 9) || (x == 9 && y == 0);
  }

  /** Swapping two neighbours goes unnoticed only when they are equal, or a 0 and a 9. */
  lemma NeighboursSwapped(s: string, k: nat)
    requires Valid(s) && k + 1 < |s|
    ensures Valid(Swapped(s, k))
       <==> s[k] == s[k + 1] || (s[k] == '0' && s[k + 1] == '9') || (s[k] == '9' && s[k + 1] == '0')
  {
    hide Term, Sum, IsDigit;
    var t, n := s[k := s[k + 1]], |s| - 1 - k;
    SumUpdate(s, k, s[k + 1]);
    SumUpdate(t, k + 1, s[k]);
    assert Doubles(n - 1) == !Doubles(n);
    SwapOnDigits(s[k], s[k + 1], Doubles(n));
    assert AllDigits(Swapped(s, k));
    MultiplesOf10(Sum(s), Sum(Swapped(s, k)));
  }

  lemma {:induction false} SumAppend(prefix: string, c: char)
    ensures Sum(prefix + [c]) == Sum(prefix + ['0']) + Face(c)
  {
    var s := prefix + ['0'];
    assert prefix + [c] == s[|prefix| := c];
    SumUpdate(s, |prefix|, c);
  }

  function CheckDigit(prefix: string): (c: char)
    ensures IsDigit(c)
  {
    '0' + ((-Sum(prefix + ['0'])) % 10) as char
  }

  /** Every prefix has exactly one check digit that makes it valid. */
  lemma UniqueCheckDigit(prefix: string, c: char)
    requires AllDigits(prefix)
    ensures Valid(prefix + [c]) <==> c == CheckDigit(prefix)
  {
    var t := Sum(prefix + ['0']);
    SumAppend(prefix, c);
    assert Face(CheckDigit(prefix)) == (-t) % 10;
    assert IsDigit(c) ==> ((t + Face(c)) % 10 == 0 <==> Face(c) == (-t) % 10);
    if Valid(prefix + [c]) { assert IsDigit((prefix + [c])[|prefix|]); }
  }
}
