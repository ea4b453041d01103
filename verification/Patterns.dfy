/**
 Regular expressions with the backtracking semantics of ECMA-262, section 22.2.2: for a start position,
 the end positions a matcher reaches, in the order in which it tries them. The first one is the match.
 */
module Patterns {
  import opened Results

  datatype Class = Digit | Separator | DigitOrDot

  datatype Pattern =
    | One(chars: Class)
    | Cat(first: Pattern, second: Pattern)
    | Either(left: Pattern, right: Pattern)
    | Repeat(body: Pattern, min: nat, max: nat)
    | NotBehind(chars: Class)
    | NotAhead(chars: Class)

  predicate IsDigit(c: char) {
    '0' <= c <= '9'
  }

  predicate In(c: char, chars: Class) {
    match chars
    case Digit => IsDigit(c)
    case Separator => c == ' ' || c == '-'
    case DigitOrDot => IsDigit(c) || c == '.'
  }

  function Size(p: Pattern): nat {
    match p
    case One(_) => 0
    case Cat(a, b) => 1 + Size(a) + Size(b)
    case Either(a, b) => 1 + Size(a) + Size(b)
    case Repeat(a, _, max) => 1 + Size(a) + max
    case NotBehind(_) => 0
    case NotAhead(_) => 0
  }

  function Less(n: nat): nat {
    if n == 0 then 0 else n - 1
  }

  /** Once the required rounds are done, a round that consumes nothing fails. */
  function Rounds(ends: seq<nat>, i: nat, min: nat): (rounds: seq<nat>)
    ensures forall k :: 0 <= k < |rounds| ==> rounds[k] in ends
    ensures (forall k :: 0 <= k < |ends| ==> ends[k] != i) ==> rounds == ends
  {
    if min > 0 || ends == [] then ends
    else (if ends[0] == i then [] else [ends[0]]) + Rounds(ends[1..], i, min)
  }

  /** The ends of the matches of p that start at i, most preferred first. A greedy repetition prefers
      one more round to stopping; an alternative on the left is preferred to one on the right. */
  function Ends(p: Pattern, s: string, i: nat): (ends: seq<nat>)
    requires i <= |s|
    ensures forall k :: 0 <= k < |ends| ==> ends[k] <= |s|
    decreases Size(p), 0
  {
    match p
    case One(chars) => if i < |s| && In(s[i], chars) then [i + 1] else []
    case Cat(a, b) => EndsFromAll(b, s, Ends(a, s, i))
    case Either(a, b) => Ends(a, s, i) + Ends(b, s, i)
    case Repeat(a, min, max) =>
      if max == 0 then [i]
      else EndsFromAll(Repeat(a, Less(min), max - 1), s, Rounds(Ends(a, s, i), i, min)) + (if min == 0 then [i] else [])
    case NotBehind(chars) => if i > 0 && In(s[i - 1], chars) then [] else [i]
    case NotAhead(chars) => if i < |s| && In(s[i], chars) then [] else [i]
  }

  /** The same from several starts, one after the other. */
  function EndsFromAll(p: Pattern, s: string, starts: seq<nat>): (ends: seq<nat>)
    requires forall k :: 0 <= k < |starts| ==> starts[k] <= |s|
    ensures forall k :: 0 <= k < |ends| ==> ends[k] <= |s|
    decreases Size(p), |starts| + 1
  {
    if starts == [] then [] else Ends(p, s, starts[0]) + EndsFromAll(p, s, starts[1..])
  }

  function First(ends: seq<nat>): Option<nat> {
    if ends == [] then None else Some(ends[0])
  }

  /** One match: where it starts and where it ends. */
  datatype Span = Span(start: nat, end: nat)

  lemma {:induction false} EndsForward(p: Pattern, s: string, i: nat)
    requires i <= |s|
    ensures forall k :: 0 <= k < |Ends(p, s, i)| ==> i <= Ends(p, s, i)[k]
    decreases Size(p), 0
  {
    hide EndsFromAll, Rounds, In;
    match p
    case Cat(a, b) =>
      EndsForward(a, s, i);
      EndsFromAllForward(b, s, Ends(a, s, i), i);
    case Either(a, b) =>
      EndsForward(a, s, i);
      EndsForward(b, s, i);
    case Repeat(a, min, max) =>
      if max > 0 {
        EndsForward(a, s, i);
        EndsFromAllForward(Repeat(a, Less(min), max - 1), s, Rounds(Ends(a, s, i), i, min), i);
      }
    case _ =>
  }

  lemma {:induction false} EndsFromAllForward(p: Pattern, s: string, starts: seq<nat>, i: nat)
    requires forall k :: 0 <= k < |starts| ==> i <= starts[k] <= |s|
    ensures forall k :: 0 <= k < |EndsFromAll(p, s, starts)| ==> i <= EndsFromAll(p, s, starts)[k]
    decreases Size(p), |starts| + 1
  {
    hide Ends;
    if starts != [] {
      EndsForward(p, s, starts[0]);
      EndsFromAllForward(p, s, starts[1..], i);
    }
  }

  /** `text.matchAll(/p/g)` from position i: the leftmost match, then again from its end. */
  function MatchAll(p: Pattern, s: string, i: nat): (spans: seq<Span>)
    ensures forall k :: 0 <= k < |spans| ==> spans[k].start <= spans[k].end <= |s|
    decreases |s| + 1 - i
  {
    if i > |s| then []
    else
      EndsForward(p, s, i);
      match First(Ends(p, s, i))
      case None => MatchAll(p, s, i + 1)
      case Some(e) => [Span(i, e)] + MatchAll(p, s, if e > i then e else i + 1)
  }

  // ---------------------------------------------------------------- laws

  lemma EndsOfCat(a: Pattern, b: Pattern, s: string, i: nat)
    requires i <= |s|
    ensures Ends(Cat(a, b), s, i) == EndsFromAll(b, s, Ends(a, s, i))
  {
  }

  lemma EndsOfOne(chars: Class, s: string, i: nat)
    requires i <= |s|
    ensures Ends(One(chars), s, i) == if i < |s| && In(s[i], chars) then [i + 1] else []
  {
  }

  /** One round more or less, for a body that always consumes. */
  lemma EndsOfRepeat(a: Pattern, min: nat, max: nat, s: string, i: nat)
    requires i <= |s| && max > 0
    requires forall k :: 0 <= k < |Ends(a, s, i)| ==> Ends(a, s, i)[k] != i
    ensures Ends(Repeat(a, min, max), s, i)
         == EndsFromAll(Repeat(a, Less(min), max - 1), s, Ends(a, s, i)) + (if min == 0 then [i] else [])
  {
  }

  lemma EndsFromNone(p: Pattern, s: string)
    ensures EndsFromAll(p, s, []) == []
  {
  }

  lemma EndsFromMore(p: Pattern, s: string, starts: seq<nat>)
    requires starts != [] && forall k :: 0 <= k < |starts| ==> starts[k] <= |s|
    ensures EndsFromAll(p, s, starts) == Ends(p, s, starts[0]) + EndsFromAll(p, s, starts[1..])
  {
  }

  lemma {:induction false} EndsFromBoth(p: Pattern, s: string, a: seq<nat>, b: seq<nat>)
    requires forall k :: 0 <= k < |a| ==> a[k] <= |s|
    requires forall k :: 0 <= k < |b| ==> b[k] <= |s|
    ensures forall k :: 0 <= k < |a + b| ==> (a + b)[k] <= |s|
    ensures EndsFromAll(p, s, a + b) == EndsFromAll(p, s, a) + EndsFromAll(p, s, b)
    decreases |a|
  {
    hide Ends, EndsFromAll;
    if a == [] {
      assert a + b == b;
      EndsFromNone(p, s);
    } else {
      var t := a + b;
      assert t[0] == a[0] && t[1..] == a[1..] + b;
      EndsFromBoth(p, s, a[1..], b);
      EndsFromMore(p, s, a);
      EndsFromMore(p, s, t);
    }
  }

  lemma EndsFromOne(p: Pattern, s: string, i: nat)
    requires i <= |s|
    ensures EndsFromAll(p, s, [i]) == Ends(p, s, i)
  {
    assert [i][1..] == [];
  }

  lemma EndsFromTwo(p: Pattern, s: string, i: nat, j: nat)
    requires i <= |s| && j <= |s|
    ensures EndsFromAll(p, s, [i, j]) == Ends(p, s, i) + Ends(p, s, j)
  {
    hide Ends, EndsFromAll;
    assert [i, j] == [i] + [j];
    EndsFromBoth(p, s, [i], [j]);
    EndsFromOne(p, s, i);
    EndsFromOne(p, s, j);
  }

  lemma {:induction false} EveryMatch(p: Pattern, s: string, from: nat, m: Span)
    requires m in MatchAll(p, s, from)
    ensures from <= m.start <= |s| && First(Ends(p, s, m.start)) == Some(m.end)
    decreases |s| + 1 - from
  {
    match First(Ends(p, s, from))
    case None => EveryMatch(p, s, from + 1, m);
    case Some(e) =>
      if m != Span(from, e) { EveryMatch(p, s, if e > from then e else from + 1, m); }
  }

  /** Some reported match runs past position a from before it. */
  ghost predicate Overlapped(spans: seq<Span>, a: nat) {
    exists m :: m in spans && m.start < a < m.end
  }

  lemma NotOverlappedLater(p: Pattern, s: string, next: nat, a: nat)
    requires a <= next
    ensures !Overlapped(MatchAll(p, s, next), a)
    ensures forall b :: a < next ==> Span(a, b) !in MatchAll(p, s, next)
  {
    hide MatchAll;
    forall m | m in MatchAll(p, s, next)
      ensures next <= m.start
    {
      EveryMatch(p, s, next, m);
    }
  }

  /** Where a match could start, it is reported exactly when no reported match runs past that place. */
  lemma {:induction false} ReportedUnlessOverlapped(p: Pattern, s: string, from: nat, a: nat, b: nat)
    requires from <= a <= |s| && First(Ends(p, s, a)) == Some(b)
    ensures Span(a, b) in MatchAll(p, s, from) <==> !Overlapped(MatchAll(p, s, from), a)
    decreases |s| + 1 - from
  {
    hide Ends, First, Overlapped;
    var spans := MatchAll(p, s, from);
    match First(Ends(p, s, from))
    case None => ReportedUnlessOverlapped(p, s, from + 1, a, b);
    case Some(e) =>
      var next := if e > from then e else from + 1;
      var rest := MatchAll(p, s, next);
      assert spans == [Span(from, e)] + rest;
      OverlappedFirst(Span(from, e), rest, a);
      if a < next {
        NotOverlappedLater(p, s, next, a);
      } else {
        ReportedUnlessOverlapped(p, s, next, a, b);
      }
  }

  lemma OverlappedFirst(m: Span, rest: seq<Span>, a: nat)
    ensures Overlapped([m] + rest, a) <==> m.start < a < m.end || Overlapped(rest, a)
  {
    var spans := [m] + rest;
    if m.start < a < m.end { assert m in spans; }
    if Overlapped(rest, a) {
      var n :| n in rest && n.start < a < n.end;
      assert n in spans;
    }
  }
}
