/**
 The card-number scanner: the pattern it searches for, with the semantics of a backtracking matcher; a
 scanner written by hand that finds the same matches; and what is reported and what is not.
 */
module PanScanner {
  import opened Results
  import opened Patterns
  import Luhn

  // ---------------------------------------------------------------- the pattern

  const RUN := Repeat(One(Digit), 13, 19)
  const FOUR := Repeat(One(Digit), 4, 4)
  const GROUP := Cat(One(Separator), FOUR)
  const SHORT := Cat(One(Separator), Repeat(One(Digit), 1, 4))
  const TAIL := Repeat(SHORT, 0, 1)
  const GROUPED := Cat(FOUR, Cat(Repeat(GROUP, 2, 3), TAIL))
  const AHEAD := NotAhead(DigitOrDot)
  const PAN := Cat(NotBehind(DigitOrDot), Cat(Either(RUN, GROUPED), AHEAD))

  // ---------------------------------------------------------------- the scanner

  /** How many digits start at i. */
  function RunLength(s: string, i: nat): (n: nat)
    requires i <= |s|
    ensures i + n <= |s|
    decreases |s| - i
  {
    if i == |s| || !IsDigit(s[i]) then 0 else 1 + RunLength(s, i + 1)
  }

  /** Neither a digit nor a dot comes next. */
  predicate Clear(s: string, i: nat)
    requires i <= |s|
  {
    i == |s| || !In(s[i], DigitOrDot)
  }

  predicate SeparatorAt(s: string, g: nat) {
    g < |s| && In(s[g], Separator)
  }

  /** A separator and four digits. */
  predicate GroupAt(s: string, g: nat): (r: bool)
    ensures r ==> g + 5 <= |s|
  {
    SeparatorAt(s, g) && RunLength(s, g + 1) >= 4
  }

  /** A separator and one to four digits, and then neither a digit nor a dot. */
  predicate TailAt(s: string, g: nat) {
    SeparatorAt(s, g) && 1 <= RunLength(s, g + 1) <= 4 && Clear(s, g + 1 + RunLength(s, g + 1))
  }

  /** Where a grouped number ends whose whole groups end at g. */
  function After(s: string, g: nat): Option<nat>
    requires g <= |s|
  {
    if TailAt(s, g) then Some(g + 1 + RunLength(s, g + 1))
    else if Clear(s, g) then Some(g)
    else None
  }

  function MatchGrouped(s: string, i: nat): Option<nat>
    requires i <= |s|
  {
    if RunLength(s, i) < 4 || !GroupAt(s, i + 4) || !GroupAt(s, i + 9) then None
    else if GroupAt(s, i + 14) && After(s, i + 19).Some? then After(s, i + 19)
    else After(s, i + 14)
  }

  function MatchAt(s: string, i: nat): Option<nat>
    requires i <= |s|
  {
    if i > 0 && In(s[i - 1], DigitOrDot) then None
    else
      var n := RunLength(s, i);
      if 13 <= n <= 19 && Clear(s, i + n) then Some(i + n) else MatchGrouped(s, i)
  }

  // ---------------------------------------------------------------- the scanner finds what the pattern matches

  function Countdown(hi: nat, lo: nat): (r: seq<nat>)
    ensures forall k :: 0 <= k < |r| ==> r[k] <= hi
  {
    if hi < lo then [] else [hi] + (if hi == 0 then [] else Countdown(hi - 1, lo))
  }

  lemma {:induction false} CountdownOneMore(hi: nat, lo: nat)
    requires lo <= hi
    ensures Countdown(hi, lo + 1) + [lo] == Countdown(hi, lo)
  {
    if lo < hi { CountdownOneMore(hi - 1, lo); }
  }

  function Min(a: nat, b: nat): nat {
    if a < b then a else b
  }

  /** One more digit, if there is one, and then one round less; stopping comes last. */
  lemma DigitRound(s: string, i: nat, min: nat, max: nat)
    requires i <= |s| && max > 0
    ensures Ends(Repeat(One(Digit), min, max), s, i)
         == (if i < |s| && IsDigit(s[i]) then Ends(Repeat(One(Digit), Less(min), max - 1), s, i + 1) else [])
            + (if min == 0 then [i] else [])
  {
    hide Ends, EndsFromAll;
    var next := Repeat(One(Digit), Less(min), max - 1);
    EndsOfOne(Digit, s, i);
    EndsOfRepeat(One(Digit), min, max, s, i);
    EndsFromNone(next, s);
    if i < |s| && IsDigit(s[i]) { EndsFromOne(next, s, i + 1); }
  }

  lemma CountdownRound(i: nat, run: nat, min: nat, max: nat)
    requires min <= max && max > 0
    ensures Countdown(i + Min(max, run), i + min)
         == (if run > 0 then Countdown(i + 1 + Min(max - 1, run - 1), i + 1 + Less(min)) else [])
            + (if min == 0 then [i] else [])
  {
    if run == 0 {
      if min == 0 { CountdownOneMore(i, i); }
    } else if min == 0 {
      hide Countdown;
      CountdownOneMore(i + Min(max, run), i);
    }
  }

  lemma {:induction false} EndsOfDigits(s: string, i: nat, min: nat, max: nat)
    requires i <= |s| && min <= max
    ensures Ends(Repeat(One(Digit), min, max), s, i) == Countdown(i + Min(max, RunLength(s, i)), i + min)
    decreases max
  {
    hide Ends, Countdown, Min;
    if max == 0 {
      NoRound(s, i);
    } else {
      DigitRound(s, i, min, max);
      CountdownRound(i, RunLength(s, i), min, max);
      if i < |s| && IsDigit(s[i]) { EndsOfDigits(s, i + 1, Less(min), max - 1); }
    }
  }

  lemma NoRound(s: string, i: nat)
    requires i <= |s|
    ensures Ends(Repeat(One(Digit), 0, 0), s, i) == Countdown(i + Min(0, RunLength(s, i)), i)
  {
  }

  lemma {:induction false} InsideRun(s: string, i: nat, e: nat)
    requires i <= |s| && i <= e < i + RunLength(s, i)
    ensures IsDigit(s[e])
    decreases e - i
  {
    if i < e { InsideRun(s, i + 1, e); }
  }

  lemma LookAhead(s: string, i: nat)
    requires i <= |s|
    ensures Ends(AHEAD, s, i) == if Clear(s, i) then [i] else []
  {
  }

  /** Among the ends inside a run of digits only the end of the run passes the lookahead. */
  lemma {:induction false} AheadOfCountdown(s: string, i: nat, hi: nat, lo: nat)
    requires i <= lo && i <= |s| && hi <= i + RunLength(s, i)
    ensures EndsFromAll(AHEAD, s, Countdown(hi, lo))
         == if lo <= hi && hi == i + RunLength(s, i) && Clear(s, hi) then [hi] else []
    decreases hi
  {
    hide RunLength, Ends, EndsFromAll;
    if hi < lo {
      EndsFromNone(AHEAD, s);
    } else {
      LookAhead(s, hi);
      if hi < i + RunLength(s, i) { InsideRun(s, i, hi); }
      EndsFromMore(AHEAD, s, Countdown(hi, lo));
      if hi > 0 {
        assert Countdown(hi, lo)[1..] == Countdown(hi - 1, lo);
        AheadOfCountdown(s, i, hi - 1, lo);
      } else {
        assert Countdown(hi, lo)[1..] == [];
        EndsFromNone(AHEAD, s);
      }
    }
  }

  lemma DigitsThenAhead(s: string, i: nat, min: nat, max: nat)
    requires i <= |s| && min <= max
    ensures var n := RunLength(s, i);
      EndsFromAll(AHEAD, s, Ends(Repeat(One(Digit), min, max), s, i))
      == if min <= n <= max && Clear(s, i + n) then [i + n] else []
  {
    hide Ends, EndsFromAll, Countdown, RunLength, Clear;
    EndsOfDigits(s, i, min, max);
    AheadOfCountdown(s, i, i + Min(max, RunLength(s, i)), i + min);
  }

  lemma EndsOfFour(s: string, i: nat)
    requires i <= |s|
    ensures Ends(FOUR, s, i) == if RunLength(s, i) >= 4 then [i + 4] else []
  {
    hide Ends, RunLength;
    EndsOfDigits(s, i, 4, 4);
  }

  lemma EndsOfGroup(s: string, g: nat)
    requires g <= |s|
    ensures Ends(GROUP, s, g) == if GroupAt(s, g) then [g + 5] else []
  {
    hide RunLength, Ends, EndsFromAll;
    EndsOfCat(One(Separator), FOUR, s, g);
    EndsOfOne(Separator, s, g);
    EndsFromNone(FOUR, s);
    if SeparatorAt(s, g) {
      EndsFromOne(FOUR, s, g + 1);
      EndsOfFour(s, g + 1);
    }
  }

  lemma EndsOfTwoMore(s: string, g: nat)
    requires g <= |s|
    ensures Ends(Repeat(GROUP, 0, 1), s, g) == if GroupAt(s, g) then [g + 5, g] else [g]
  {
    hide GroupAt;
    EndsOfGroup(s, g);
    EndsFromNone(Repeat(GROUP, 0, 0), s);
    if GroupAt(s, g) { EndsFromOne(Repeat(GROUP, 0, 0), s, g + 5); }
  }

  lemma EndsOfGroups(s: string, g: nat)
    requires g <= |s|
    ensures Ends(Repeat(GROUP, 2, 3), s, g)
         == if GroupAt(s, g) && GroupAt(s, g + 5) then (if GroupAt(s, g + 10) then [g + 15, g + 10] else [g + 10])
            else []
  {
    hide GroupAt, Ends, EndsFromAll;
    EndsOfGroup(s, g);
    EndsOfRepeat(GROUP, 2, 3, s, g);
    EndsFromNone(Repeat(GROUP, 1, 2), s);
    if GroupAt(s, g) {
      EndsFromOne(Repeat(GROUP, 1, 2), s, g + 5);
      EndsOfGroup(s, g + 5);
      EndsOfRepeat(GROUP, 1, 2, s, g + 5);
      EndsFromNone(Repeat(GROUP, 0, 1), s);
      if GroupAt(s, g + 5) {
        EndsFromOne(Repeat(GROUP, 0, 1), s, g + 10);
        EndsOfTwoMore(s, g + 10);
      }
    }
  }

  lemma {:induction false} NothingMore(s: string, p: Pattern, starts: seq<nat>)
    requires forall k :: 0 <= k < |starts| ==> starts[k] <= |s|
    ensures EndsFromAll(Repeat(p, 0, 0), s, starts) == starts
    decreases |starts|
  {
    if starts != [] { NothingMore(s, p, starts[1..]); }
  }

  lemma ShortThenAhead(s: string, g: nat)
    requires g <= |s|
    ensures EndsFromAll(AHEAD, s, Ends(SHORT, s, g))
         == if TailAt(s, g) then [g + 1 + RunLength(s, g + 1)] else []
  {
    hide RunLength, Clear, Ends, EndsFromAll;
    EndsOfCat(One(Separator), Repeat(One(Digit), 1, 4), s, g);
    EndsOfOne(Separator, s, g);
    EndsFromNone(Repeat(One(Digit), 1, 4), s);
    EndsFromNone(AHEAD, s);
    if SeparatorAt(s, g) {
      EndsFromOne(Repeat(One(Digit), 1, 4), s, g + 1);
      DigitsThenAhead(s, g + 1, 1, 4);
    }
  }

  lemma ShortConsumes(s: string, g: nat)
    requires g <= |s|
    ensures forall k :: 0 <= k < |Ends(SHORT, s, g)| ==> Ends(SHORT, s, g)[k] > g
  {
    var digits := Repeat(One(Digit), 1, 4);
    EndsOfCat(One(Separator), digits, s, g);
    EndsOfOne(Separator, s, g);
    EndsFromNone(digits, s);
    if SeparatorAt(s, g) {
      EndsFromOne(digits, s, g + 1);
      EndsForward(digits, s, g + 1);
    }
  }

  /** The optional tail, then the lookahead: the tail is preferred. */
  lemma TailThenAhead(s: string, g: nat)
    requires g <= |s|
    ensures EndsFromAll(AHEAD, s, Ends(TAIL, s, g))
         == (if TailAt(s, g) then [g + 1 + RunLength(s, g + 1)] else []) + (if Clear(s, g) then [g] else [])
  {
    hide RunLength, TailAt, EndsFromAll;
    var short := Ends(SHORT, s, g);
    ShortConsumes(s, g);
    EndsOfRepeat(SHORT, 0, 1, s, g);
    NothingMore(s, SHORT, short);
    EndsFromBoth(AHEAD, s, short, [g]);
    EndsFromOne(AHEAD, s, g);
    ShortThenAhead(s, g);
  }

  lemma AfterIsFirst(s: string, g: nat)
    requires g <= |s|
    ensures First(EndsFromAll(AHEAD, s, Ends(TAIL, s, g))) == After(s, g)
  {
    hide TailAt, Clear, RunLength, Ends, EndsFromAll;
    TailThenAhead(s, g);
  }

  lemma GroupsThenTail(s: string, g: nat)
    requires g <= |s|
    ensures First(EndsFromAll(AHEAD, s, Ends(Cat(Repeat(GROUP, 2, 3), TAIL), s, g)))
         == if !GroupAt(s, g) || !GroupAt(s, g + 5) then None
            else if GroupAt(s, g + 10) && After(s, g + 15).Some? then After(s, g + 15)
            else After(s, g + 10)
  {
    hide GroupAt, After, Ends, EndsFromAll;
    EndsOfCat(Repeat(GROUP, 2, 3), TAIL, s, g);
    EndsOfGroups(s, g);
    EndsFromNone(TAIL, s);
    EndsFromNone(AHEAD, s);
    if GroupAt(s, g) && GroupAt(s, g + 5) {
      AfterIsFirst(s, g + 10);
      EndsFromOne(TAIL, s, g + 10);
      if GroupAt(s, g + 10) {
        AfterIsFirst(s, g + 15);
        EndsFromTwo(TAIL, s, g + 15, g + 10);
        EndsFromBoth(AHEAD, s, Ends(TAIL, s, g + 15), Ends(TAIL, s, g + 10));
      }
    }
  }

  lemma GroupedThenAhead(s: string, i: nat)
    requires i <= |s|
    ensures First(EndsFromAll(AHEAD, s, Ends(GROUPED, s, i))) == MatchGrouped(s, i)
  {
    hide GroupAt, After, Ends, EndsFromAll, RunLength;
    var rest := Cat(Repeat(GROUP, 2, 3), TAIL);
    EndsOfCat(FOUR, rest, s, i);
    EndsOfFour(s, i);
    EndsFromNone(rest, s);
    EndsFromNone(AHEAD, s);
    if RunLength(s, i) >= 4 {
      EndsFromOne(rest, s, i + 4);
      GroupsThenTail(s, i + 4);
    }
  }

  lemma EitherEnds(s: string, i: nat)
    requires i <= |s|
    ensures Ends(Either(RUN, GROUPED), s, i) == Ends(RUN, s, i) + Ends(GROUPED, s, i)
    ensures Ends(NotBehind(DigitOrDot), s, i) == if i > 0 && In(s[i - 1], DigitOrDot) then [] else [i]
  {
  }

  /** At every position of every text, the scanner and the pattern agree on the match. */
  lemma ScannerMatchesPattern(s: string, i: nat)
    requires i <= |s|
    ensures First(Ends(PAN, s, i)) == MatchAt(s, i)
  {
    hide Ends, EndsFromAll, MatchGrouped, RunLength, Clear;
    var either := Either(RUN, GROUPED);
    EndsOfCat(NotBehind(DigitOrDot), Cat(either, AHEAD), s, i);
    EitherEnds(s, i);
    EndsFromNone(Cat(either, AHEAD), s);
    EndsFromOne(Cat(either, AHEAD), s, i);
    EndsOfCat(either, AHEAD, s, i);
    EndsFromBoth(AHEAD, s, Ends(RUN, s, i), Ends(GROUPED, s, i));
    DigitsThenAhead(s, i, 13, 19);
    GroupedThenAhead(s, i);
  }

  // ---------------------------------------------------------------- what is reported

  datatype PanMatch = PanMatch(raw: string, masked: string)

  const ALLOWLIST: set<string> :=
    {"4242424242424242", "4000056655665556", "5555555555554444", "5105105105105100", "378282246310005",
     "371449635398431", "6011111111111117", "4111111111111111", "4000002500003155", "4000000000009995"}

  /** `replace(/[ -]/g, '')`. */
  function Strip(t: string): string {
    if t == "" then "" else (if In(t[0], Separator) then "" else [t[0]]) + Strip(t[1..])
  }

  /** One digit, over and over. */
  predicate Constant(t: string) {
    |t| >= 2 && forall k :: 0 <= k < |t| ==> IsDigit(t[k]) && t[k] == t[0]
  }

  predicate Card(digits: string) {
    && 13 <= |digits| <= 19
    && '3' <= digits[0] <= '6'
    && !Constant(digits)
    && digits !in ALLOWLIST
    && Luhn.Valid(digits)
  }

  /** The first six and the last four digits. */
  function Masked(digits: string): string
    requires |digits| >= 10
  {
    digits[..6] + "\U{2026}" + digits[|digits| - 4..]
  }

  function Report(s: string, m: Span): seq<PanMatch>
    requires m.start <= m.end <= |s|
  {
    var digits := Strip(s[m.start..m.end]);
    if Card(digits) then [PanMatch(digits, Masked(digits))] else []
  }

  function Reports(s: string, spans: seq<Span>): seq<PanMatch>
    requires forall k :: 0 <= k < |spans| ==> spans[k].start <= spans[k].end <= |s|
    decreases |spans|
  {
    if spans == [] then [] else Report(s, spans[0]) + Reports(s, spans[1..])
  }

  /** The specification: the cards among all matches of the pattern, in order. */
  function Candidates(s: string): seq<PanMatch> {
    Reports(s, MatchAll(PAN, s, 0))
  }

  method PushIfCard(out: seq<PanMatch>, matched: string) returns (r: seq<PanMatch>)
    ensures r == out + Report(matched, Span(0, |matched|))
  {
    assert matched[0..|matched|] == matched;
    var digits := Strip(matched);
    if |digits| < 13 || |digits| > 19 { return out; }
    if !('3' <= digits[0] <= '6') { return out; }
    if Constant(digits) { return out; }
    if digits in ALLOWLIST { return out; }
    var valid := Luhn.LuhnValid(digits);
    if !valid { return out; }
    return out + [PanMatch(digits, Masked(digits))];
  }

  /** The detector, with the scanner in the place of the pattern. */
  method FindPanCandidates(s: string) returns (out: seq<PanMatch>)
    ensures out == Candidates(s)
  {
    hide Ends, MatchAt, Report;
    out := [];
    var i := 0;
    while i <= |s|
      invariant out + Reports(s, MatchAll(PAN, s, i)) == Candidates(s)
      decreases |s| + 1 - i
    {
      ScannerMatchesPattern(s, i);
      MatchIsLong(s, i);
      var m := MatchAt(s, i);
      if m == None {
        i := i + 1;
      } else {
        var e := m.value;
        var t := s[i..e];
        assert Report(t, Span(0, |t|)) == Report(s, Span(i, e)) by { SameReport(s, i, e); }
        var spans := MatchAll(PAN, s, i);
        assert spans[1..] == MatchAll(PAN, s, e);
        out := PushIfCard(out, t);
        i := e;
      }
    }
  }

  lemma SameReport(s: string, i: nat, e: nat)
    requires i <= e <= |s|
    ensures Report(s[i..e], Span(0, e - i)) == Report(s, Span(i, e))
  {
    assert s[i..e][0..e - i] == s[i..e];
  }

  lemma MatchIsLong(s: string, i: nat)
    requires i <= |s|
    ensures MatchAt(s, i).Some? ==> i + 13 <= MatchAt(s, i).value <= |s| && Clear(s, MatchAt(s, i).value)
  {
    hide RunLength;
  }

  // ---------------------------------------------------------------- what that means

  lemma {:induction false} ReportsAre(s: string, spans: seq<Span>, r: PanMatch)
    requires forall k :: 0 <= k < |spans| ==> spans[k].start <= spans[k].end <= |s|
    ensures r in Reports(s, spans) <==> exists k :: 0 <= k < |spans| && r in Report(s, spans[k])
    decreases |spans|
  {
    hide Report;
    if spans != [] {
      var rest := spans[1..];
      ReportsAre(s, rest, r);
      forall k | 0 <= k < |rest| && r in Report(s, rest[k])
        ensures r in Report(s, spans[k + 1])
      {
      }
      forall k | 1 <= k < |spans| && r in Report(s, spans[k])
        ensures r in Report(s, rest[k - 1])
      {
      }
    }
  }

  /** Every reported value has 13 to 19 digits, leads with 3 to 6, passes the Luhn check, is not constant and
      not a test card, and is what some match of the pattern says without separators. Its mask shows the first
      six and the last four digits and nothing else. */
  lemma ReportedValues(s: string, r: PanMatch)
    requires r in Candidates(s)
    ensures 13 <= |r.raw| <= 19 && r.raw[0] in "3456"
    ensures forall k :: 0 <= k < |r.raw| ==> r.raw[k] in "0123456789"
    ensures exists k :: 0 < k < |r.raw| && r.raw[k] != r.raw[0]
    ensures r.raw !in {"4242424242424242", "4000056655665556", "5555555555554444", "5105105105105100",
                       "378282246310005", "371449635398431", "6011111111111117", "4111111111111111",
                       "4000002500003155", "4000000000009995"}
    ensures Luhn.Sum(r.raw) % 10 == 0
    ensures |r.masked| == 11 && r.masked[..6] == r.raw[..6] && r.masked[6] == '\U{2026}'
    ensures r.masked[7..] == r.raw[|r.raw| - 4..]
    ensures Card(r.raw) && Luhn.AllDigits(r.raw) && r.masked == Masked(r.raw)
    ensures exists m: Span :: m in MatchAll(PAN, s, 0) && m.start <= m.end <= |s| && r.raw == Strip(s[m.start..m.end])
  {
    hide MatchAll, Candidates, Strip, Card, Luhn.AllDigits, Luhn.Sum, Masked;
    ReportedFrom(s, r);
    CardIs(r.raw);
    MaskShows(r.raw);
  }

  lemma ReportedFrom(s: string, r: PanMatch)
    requires r in Candidates(s)
    ensures Card(r.raw) && Luhn.AllDigits(r.raw) && |r.raw| >= 10 && r.masked == Masked(r.raw)
    ensures exists m: Span :: m in MatchAll(PAN, s, 0) && m.start <= m.end <= |s| && r.raw == Strip(s[m.start..m.end])
  {
    hide MatchAll, Report, Reports, Strip, Card, Luhn.AllDigits, Masked;
    var spans := MatchAll(PAN, s, 0);
    ReportsAre(s, spans, r);
    var k :| 0 <= k < |spans| && r in Report(s, spans[k]);
    assert spans[k] in spans;
    ReportedIsCard(s, spans[k], r);
    CardIsLong(r.raw);
  }

  lemma CardIsLong(t: string)
    ensures Card(t) ==> |t| >= 10
  {
  }

  /** What makes a value a card. */
  lemma CardIs(t: string)
    ensures Card(t) <==>
      && 13 <= |t| <= 19 && t[0] in "3456"
      && (forall k :: 0 <= k < |t| ==> t[k] in "0123456789")
      && (exists k :: 0 < k < |t| && t[k] != t[0])
      && t !in {"4242424242424242", "4000056655665556", "5555555555554444", "5105105105105100",
                "378282246310005", "371449635398431", "6011111111111117", "4111111111111111",
                "4000002500003155", "4000000000009995"}
      && Luhn.Sum(t) % 10 == 0
  {
    hide Luhn.Sum;
  }

  lemma MaskShows(t: string)
    requires |t| >= 10
    ensures |Masked(t)| == 11 && Masked(t)[..6] == t[..6] && Masked(t)[6] == '\U{2026}'
    ensures Masked(t)[7..] == t[|t| - 4..]
  {
  }

  lemma ReportedIsCard(s: string, m: Span, r: PanMatch)
    requires m.start <= m.end <= |s| && r in Report(s, m)
    ensures Card(r.raw) && Luhn.AllDigits(r.raw) && r.masked == Masked(r.raw)
    ensures r.raw == Strip(s[m.start..m.end])
  {
    hide Strip, Constant;
  }

  /** The digits from a up to b, with no digit on either side. */
  ghost predicate MaximalRun(s: string, a: nat, b: nat) {
    && a < b <= |s|
    && (forall k :: a <= k < b ==> IsDigit(s[k]))
    && (a == 0 || !IsDigit(s[a - 1]))
    && (b == |s| || !IsDigit(s[b]))
  }

  lemma {:induction false} MaximalRunLength(s: string, a: nat, b: nat, i: nat)
    requires MaximalRun(s, a, b) && a <= i <= b
    ensures RunLength(s, i) == b - i
    decreases b - i
  {
    if i < b { MaximalRunLength(s, a, b, i + 1); }
  }

  /** From any place inside a grouped match, a place without a digit is at most four steps away. */
  lemma GroupedHasGaps(s: string, i: nat, e: nat, a: nat) returns (q: nat)
    requires i <= |s| && MatchGrouped(s, i) == Some(e) && i <= a < e
    ensures a <= q <= a + 4 && q <= |s| && (q == |s| || !IsDigit(s[q]))
  {
    hide RunLength;
    if a <= i + 4 { return i + 4; }
    if a <= i + 9 { return i + 9; }
    if a <= i + 14 { return i + 14; }
    if e == After(s, i + 14).value && After(s, i + 14).Some? { return e; }
    if a <= i + 19 { return i + 19; }
    return e;
  }

  lemma DigitAt(s: string, i: nat, e: nat, p: nat)
    requires i <= |s| && e == i + RunLength(s, i) && i <= p < e
    ensures IsDigit(s[p])
  {
    InsideRun(s, i, p);
  }

  /** A match never cuts a run of digits: a run it touches lies within it, and is either the whole
      match or at most four digits long. */
  lemma RunsNeverCut(s: string, i: nat, e: nat, a: nat, b: nat)
    requires i <= |s| && MatchAt(s, i) == Some(e)
    requires MaximalRun(s, a, b) && a < e && i < b
    ensures i <= a && b <= e
    ensures b - a <= 4 || (a == i && b == e)
  {
    hide RunLength, MatchGrouped;
    MatchIsLong(s, i);
    assert i == 0 || !IsDigit(s[i - 1]);
    assert e == |s| || !IsDigit(s[e]);
    if MatchGrouped(s, i) == Some(e) {
      var q := GroupedHasGaps(s, i, e, a);
      assert b <= q;
    } else {
      if i < a { DigitAt(s, i, e, a - 1); }
      MaximalRunLength(s, a, b, a);
    }
  }

  predicate DotBeside(s: string, a: nat, b: nat) {
    (0 < a <= |s| && s[a - 1] == '.') || (b < |s| && s[b] == '.')
  }

  lemma RunMatches(s: string, a: nat, b: nat)
    requires MaximalRun(s, a, b)
    ensures MatchAt(s, a) == Some(b) <==> 13 <= b - a <= 19 && !DotBeside(s, a, b)
  {
    hide RunLength, MatchGrouped;
    MaximalRunLength(s, a, b, a);
    if MatchAt(s, a) == Some(b) && MatchGrouped(s, a) == Some(b) {
      MatchIsLong(s, a);
      var q := GroupedHasGaps(s, a, b, a);
      assert false;
    }
  }

  /** A run of digits is considered exactly when it has 13 to 19 digits and no dot beside it. */
  lemma RunConsidered(s: string, a: nat, b: nat)
    requires MaximalRun(s, a, b)
    ensures Span(a, b) in MatchAll(PAN, s, 0) <==> 13 <= b - a <= 19 && !DotBeside(s, a, b)
  {
    hide MatchAt, MatchAll, Ends;
    RunMatches(s, a, b);
    ScannerMatchesPattern(s, a);
    var spans := MatchAll(PAN, s, 0);
    if Span(a, b) in spans {
      EveryMatch(PAN, s, 0, Span(a, b));
    } else if MatchAt(s, a) == Some(b) {
      forall m | m in spans && m.start < a
        ensures m.end <= a
      {
        EveryMatch(PAN, s, 0, m);
        ScannerMatchesPattern(s, m.start);
        if a < m.end { RunsNeverCut(s, m.start, m.end, a, b); }
      }
      ConsideredUnlessOverlapped(s, a, b);
    }
  }

  /** A place where the pattern matches is considered exactly when no reported match runs past it. */
  lemma ConsideredUnlessOverlapped(s: string, a: nat, b: nat)
    requires a <= |s| && MatchAt(s, a) == Some(b)
    ensures Span(a, b) in MatchAll(PAN, s, 0) <==> !Overlapped(MatchAll(PAN, s, 0), a)
  {
    hide MatchAt, MatchAll, Ends;
    ScannerMatchesPattern(s, a);
    ReportedUnlessOverlapped(PAN, s, 0, a, b);
  }

  lemma {:induction false} StripDigits(t: string)
    requires forall k :: 0 <= k < |t| ==> IsDigit(t[k])
    ensures Strip(t) == t
  {
    if t != "" { StripDigits(t[1..]); }
  }

  /** No card number written without separators escapes, wherever it stands in the text. */
  lemma ContiguousCardReported(s: string, a: nat, b: nat)
    requires MaximalRun(s, a, b) && !DotBeside(s, a, b) && Card(s[a..b])
    ensures PanMatch(s[a..b], Masked(s[a..b])) in Candidates(s)
  {
    hide MatchAll;
    var t, spans := s[a..b], MatchAll(PAN, s, 0);
    RunConsidered(s, a, b);
    StripDigits(t);
    var k :| 0 <= k < |spans| && spans[k] == Span(a, b);
    assert PanMatch(t, Masked(t)) in Report(s, spans[k]);
    ReportsAre(s, spans, PanMatch(t, Masked(t)));
  }

  predicate DigitOrSeparator(c: char) {
    IsDigit(c) || In(c, Separator)
  }

  lemma GroupChars(s: string, g: nat, n: nat, p: nat)
    requires SeparatorAt(s, g) && n <= RunLength(s, g + 1) && g <= p < g + 1 + n
    ensures p < |s| && DigitOrSeparator(s[p])
  {
    hide RunLength;
    if p > g { InsideRun(s, g + 1, p); }
  }

  lemma AfterChars(s: string, g: nat, e: nat, p: nat)
    requires g <= |s| && After(s, g) == Some(e) && g <= p < e
    ensures p < |s| && DigitOrSeparator(s[p])
  {
    hide RunLength;
    GroupChars(s, g, RunLength(s, g + 1), p);
  }

  /** A match consists of digits and separators. */
  lemma MatchChars(s: string, i: nat, e: nat, p: nat)
    requires i <= |s| && MatchAt(s, i) == Some(e) && i <= p < e
    ensures p < |s| && DigitOrSeparator(s[p])
  {
    hide RunLength, After, Clear, DigitOrSeparator;
    if p < i + RunLength(s, i) {
      InsideRun(s, i, p);
      DigitsDo(s[p]);
    } else if MatchGrouped(s, i) == Some(e) {
      if p < i + 4 { InsideRun(s, i, p); }
      else if p < i + 9 { GroupChars(s, i + 4, 4, p); }
      else if p < i + 14 { GroupChars(s, i + 9, 4, p); }
      else if After(s, i + 14) == Some(e) { AfterChars(s, i + 14, e, p); }
      else if p < i + 19 { GroupChars(s, i + 14, 4, p); }
      else { AfterChars(s, i + 19, e, p); }
    }
  }

  lemma DigitsDo(c: char)
    requires IsDigit(c)
    ensures DigitOrSeparator(c)
  {
  }

  /** Where neither a digit nor a separator comes before, no match runs past. */
  lemma IsolatedNotOverlapped(s: string, a: nat)
    requires a <= |s| && (a > 0 ==> !DigitOrSeparator(s[a - 1]))
    ensures !Overlapped(MatchAll(PAN, s, 0), a)
  {
    hide MatchAt, MatchAll, Ends, DigitOrSeparator;
    forall m | m in MatchAll(PAN, s, 0) && m.start < a
      ensures m.end <= a
    {
      EveryMatch(PAN, s, 0, m);
      ScannerMatchesPattern(s, m.start);
      if a < m.end { MatchChars(s, m.start, m.end, a - 1); }
    }
  }

  predicate DigitsAt(s: string, i: nat, n: nat) {
    i + n <= |s| && forall k :: i <= k < i + n ==> IsDigit(s[k])
  }

  /** A number written from a up to b in three or four groups of four, perhaps with up to four more digits, a
      space or a dash between any two. */
  predicate GroupedNumber(s: string, a: nat, b: nat, groups: nat, tail: nat) {
    && 3 <= groups <= 4 && tail <= 4
    && DigitsAt(s, a, 4) && SeparatorAt(s, a + 4) && DigitsAt(s, a + 5, 4) && SeparatorAt(s, a + 9)
    && DigitsAt(s, a + 10, 4)
    && (groups == 4 ==> SeparatorAt(s, a + 14) && DigitsAt(s, a + 15, 4))
    && var g := a + 5 * groups - 1;
       if tail == 0 then b == g else b == g + 1 + tail && SeparatorAt(s, g) && DigitsAt(s, g + 1, tail)
  }

  /** Neither a digit nor a dot before or after. */
  predicate Bounded(s: string, a: nat, b: nat)
    requires a <= b <= |s|
  {
    (a > 0 ==> !In(s[a - 1], DigitOrDot)) && Clear(s, b)
  }

  /** The pattern has room for another group, and one follows. */
  predicate Continues(s: string, b: nat, groups: nat, tail: nat) {
    (tail == 0 || (groups == 3 && tail == 4)) && TailAt(s, b)
  }

  lemma {:induction false} RunExactly(s: string, i: nat, n: nat)
    requires DigitsAt(s, i, n) && (i + n == |s| || !IsDigit(s[i + n]))
    ensures RunLength(s, i) == n
    decreases n
  {
    if n > 0 { RunExactly(s, i + 1, n - 1); }
  }

  /** Such a number is what the pattern matches there, whole, unless it continues. */
  lemma GroupedMatches(s: string, a: nat, b: nat, groups: nat, tail: nat)
    requires a <= b <= |s| && GroupedNumber(s, a, b, groups, tail) && Bounded(s, a, b)
    ensures MatchAt(s, a) == Some(b) <==> !Continues(s, b, groups, tail)
  {
    hide RunLength;
    RunExactly(s, a, 4);
    RunExactly(s, a + 5, 4);
    RunExactly(s, a + 10, 4);
    if groups == 4 { RunExactly(s, a + 15, 4); }
    if tail > 0 { RunExactly(s, a + 5 * groups, tail); }
    if groups == 3 && tail == 0 && GroupAt(s, b) && RunLength(s, b + 1) > 4 { InsideRun(s, b + 1, b + 5); }
  }

  // ---------------------------------------------------------------- which matches are considered

  /** A group of four at i, with a separator after it and neither a digit nor a dot before. */
  predicate WholeGroup(s: string, i: nat)
    requires i <= |s|
  {
    DigitsAt(s, i, 4) && SeparatorAt(s, i + 4) && (i > 0 ==> !In(s[i - 1], DigitOrDot))
  }

  /** How many whole groups stand in a row before a. */
  function GroupsBefore(s: string, a: nat): nat
    requires a <= |s|
    decreases a
  {
    if a >= 5 && WholeGroup(s, a - 5) then 1 + GroupsBefore(s, a - 5) else 0
  }

  /** The n groups from i on are whole. */
  predicate WholeGroups(s: string, i: nat, n: nat) {
    i + 5 * n <= |s| && forall k :: 0 <= k < n ==> WholeGroup(s, i + 5 * k)
  }

  lemma {:induction false} GroupsAdd(s: string, i: nat, n: nat)
    requires WholeGroups(s, i, n)
    ensures GroupsBefore(s, i + 5 * n) == n + GroupsBefore(s, i)
    decreases n
  {
    hide WholeGroup;
    if n > 0 {
      assert WholeGroup(s, i + 5 * (n - 1));
      GroupsAdd(s, i, n - 1);
    }
  }

  lemma {:induction false} GroupsAre(s: string, a: nat, n: nat)
    requires a <= |s| && n <= GroupsBefore(s, a)
    ensures 5 * n <= a && WholeGroups(s, a - 5 * n, n)
    decreases n
  {
    hide WholeGroup;
    if n > 0 {
      GroupsAre(s, a - 5, n - 1);
      forall k | 0 <= k < n
        ensures WholeGroup(s, a - 5 * n + 5 * k)
      {
        assert k < n - 1 ==> WholeGroup(s, a - 5 - 5 * (n - 1) + 5 * k);
      }
    }
  }

  lemma {:induction false} DigitsOfRun(s: string, i: nat, n: nat)
    requires i <= |s| && n <= RunLength(s, i)
    ensures DigitsAt(s, i, n)
  {
    forall k | i <= k < i + n
      ensures IsDigit(s[k])
    {
      InsideRun(s, i, k);
    }
  }

  lemma GapInGroup(s: string, g: nat, n: nat, p: nat)
    requires SeparatorAt(s, g) && n <= RunLength(s, g + 1) && g <= p < g + 1 + n && !IsDigit(s[p])
    ensures p == g
  {
    hide RunLength;
    if p > g { InsideRun(s, g + 1, p); }
  }

  /** A place inside a grouped match without a digit is one of its one to four separators. */
  lemma GapInMatch(s: string, i: nat, e: nat, p: nat) returns (n: nat)
    requires i <= |s| && MatchGrouped(s, i) == Some(e) && i <= p < e <= |s| && !IsDigit(s[p])
    ensures 1 <= n <= 4 && p == i + 5 * n - 1
    ensures n == 4 ==> GroupAt(s, i + 14)
  {
    hide RunLength;
    if p < i + 4 { InsideRun(s, i, p); }
    if p < i + 9 {
      GapInGroup(s, i + 4, 4, p);
      return 1;
    }
    if p < i + 14 {
      GapInGroup(s, i + 9, 4, p);
      return 2;
    }
    if After(s, i + 14) == Some(e) {
      GapInGroup(s, i + 14, RunLength(s, i + 15), p);
      return 3;
    }
    if p < i + 19 {
      GapInGroup(s, i + 14, 4, p);
      return 3;
    }
    GapInGroup(s, i + 19, RunLength(s, i + 20), p);
    return 4;
  }

  lemma GroupsOfMatch(s: string, i: nat, n: nat)
    requires i <= |s| && MatchGrouped(s, i).Some? && (i > 0 ==> !In(s[i - 1], DigitOrDot))
    requires n <= 4 && (n > 2 ==> SeparatorAt(s, i + 14)) && (n == 4 ==> GroupAt(s, i + 14) && SeparatorAt(s, i + 19))
    ensures WholeGroups(s, i, n)
  {
    hide RunLength;
    DigitsOfRun(s, i, 4);
    DigitsOfRun(s, i + 5, 4);
    DigitsOfRun(s, i + 10, 4);
    if n == 4 { DigitsOfRun(s, i + 15, 4); }
  }

  /** A place that a match runs past, with no digit before it, is reached from the start of the match by one
      to four whole groups. */
  lemma CoveredByGroups(s: string, i: nat, e: nat, a: nat) returns (n: nat)
    requires i < a < e <= |s| && MatchAt(s, i) == Some(e) && !IsDigit(s[a - 1])
    ensures 1 <= n <= 4 && a == i + 5 * n && WholeGroups(s, i, n)
    ensures MatchGrouped(s, i) == Some(e)
  {
    hide RunLength, MatchGrouped, WholeGroups, DigitOrSeparator, After;
    if a - 1 < i + RunLength(s, i) { InsideRun(s, i, a - 1); }
    n := GapInMatch(s, i, e, a - 1);
    MatchChars(s, i, e, a - 1);
    NoDigitIsSeparator(s[a - 1]);
    GroupsOfMatch(s, i, n);
  }

  lemma NoDigitIsSeparator(c: char)
    requires DigitOrSeparator(c) && !IsDigit(c)
    ensures In(c, Separator)
  {
  }

  /** Three groups, a separator between any two, and neither a digit nor a dot after them: that is enough. */
  lemma MatchesGrouped(s: string, i: nat)
    requires i <= |s|
    ensures MatchGrouped(s, i).Some? <==>
      RunLength(s, i) >= 4 && GroupAt(s, i + 4) && GroupAt(s, i + 9) && Clear(s, i + 14)
    ensures MatchGrouped(s, i).Some? ==> MatchGrouped(s, i).value >= i + 14 && SeparatorAt(s, i + 4)
    ensures MatchGrouped(s, i).Some? && GroupAt(s, i + 14) && Clear(s, i + 19) ==>
      MatchGrouped(s, i) == After(s, i + 19)
  {
    hide RunLength;
  }

  /** One to four whole groups before a grouped match make a match that runs past its start. */
  lemma GroupsRunPast(s: string, i: nat, n: nat)
    requires 1 <= n <= 4 && WholeGroups(s, i, n)
    requires MatchAt(s, i + 5 * n).Some? && MatchGrouped(s, i + 5 * n).Some?
    ensures MatchAt(s, i).Some? && MatchAt(s, i) == MatchGrouped(s, i) && MatchAt(s, i).value > i + 5 * n
  {
    hide RunLength, MatchGrouped;
    var a := i + 5 * n;
    forall k | 0 <= k < n
      ensures RunLength(s, i + 5 * k) == 4 && SeparatorAt(s, i + 5 * k + 4) && WholeGroup(s, i + 5 * k)
    {
      assert WholeGroup(s, i + 5 * k);
      RunExactly(s, i + 5 * k, 4);
    }
    assert WholeGroup(s, i + 5 * 0);
    MatchesGrouped(s, a);
    if RunLength(s, a) > 4 { InsideRun(s, a, a + 4); }
    GroupsReach(s, i, n);
  }

  lemma GroupsReach(s: string, i: nat, n: nat)
    requires 1 <= n <= 4 && i + 5 * n <= |s| && (i > 0 ==> !In(s[i - 1], DigitOrDot))
    requires forall k :: 0 <= k < n ==> RunLength(s, i + 5 * k) == 4 && SeparatorAt(s, i + 5 * k + 4)
    requires RunLength(s, i + 5 * n) == 4 && MatchGrouped(s, i + 5 * n).Some?
    ensures MatchAt(s, i).Some? && MatchAt(s, i) == MatchGrouped(s, i) && MatchAt(s, i).value > i + 5 * n
  {
    hide RunLength;
    assert RunLength(s, i + 5 * 0) == 4 && SeparatorAt(s, i + 5 * 0 + 4);
    assert n > 1 ==> RunLength(s, i + 5 * 1) == 4 && SeparatorAt(s, i + 5 * 1 + 4);
    assert n > 2 ==> RunLength(s, i + 5 * 2) == 4 && SeparatorAt(s, i + 5 * 2 + 4);
    assert n > 3 ==> RunLength(s, i + 5 * 3) == 4 && SeparatorAt(s, i + 5 * 3 + 4);
    MatchesGrouped(s, i + 5 * n);
    MatchesGrouped(s, i);
  }

  /** Five groups make a match of their own, so what counts is how many are left over. */
  lemma {:induction false} OverlappedByCount(s: string, a: nat)
    requires a <= |s| && MatchAt(s, a).Some? && MatchGrouped(s, a).Some?
    ensures Overlapped(MatchAll(PAN, s, 0), a) <==> GroupsBefore(s, a) % 5 != 0
    decreases a
  {
    hide MatchAt, MatchGrouped, MatchAll, Ends, GroupsBefore, WholeGroups;
    var spans, n := MatchAll(PAN, s, 0), GroupsBefore(s, a);
    if Overlapped(spans, a) {
      var m :| m in spans && m.start < a < m.end;
      EveryMatch(PAN, s, 0, m);
      ScannerMatchesPattern(s, m.start);
      ClearBefore(s, a);
      MatchIsLong(s, m.start);
      var k := CoveredByGroups(s, m.start, m.end, a);
      GroupsAdd(s, m.start, k);
      OverlappedByCount(s, m.start);
      ConsideredUnlessOverlapped(s, m.start, m.end);
    }
    if n % 5 != 0 {
      GroupsAre(s, a, n % 5);
      var i := a - 5 * (n % 5);
      GroupsAdd(s, i, n % 5);
      GroupsRunPast(s, i, n % 5);
      OverlappedByCount(s, i);
      ConsideredUnlessOverlapped(s, i, MatchAt(s, i).value);
      assert Span(i, MatchAt(s, i).value) in spans;
    }
  }

  lemma ClearBefore(s: string, i: nat)
    requires i <= |s| && MatchAt(s, i).Some?
    ensures i > 0 ==> !In(s[i - 1], DigitOrDot) && !IsDigit(s[i - 1])
  {
    hide RunLength, MatchGrouped;
  }

  // ---------------------------------------------------------------- the matches, from the text alone

  /** Thirteen to nineteen digits, with neither a digit nor a dot on either side. */
  ghost predicate PlainNumber(s: string, a: nat, b: nat) {
    MaximalRun(s, a, b) && 13 <= b - a <= 19 && !DotBeside(s, a, b)
  }

  /** A number in groups that ends where it says, by itself. */
  predicate GroupedAlone(s: string, a: nat, b: nat, groups: nat, tail: nat) {
    a <= b <= |s| && GroupedNumber(s, a, b, groups, tail) && Bounded(s, a, b) && !Continues(s, b, groups, tail)
  }

  /** What the pattern matches is a plain number or a grouped one. */
  lemma MatchShape(s: string, a: nat, b: nat)
    requires a <= |s|
    ensures MatchAt(s, a) == Some(b) <==>
      PlainNumber(s, a, b) || exists groups: nat, tail: nat :: GroupedAlone(s, a, b, groups, tail)
    ensures PlainNumber(s, a, b) ==> !SeparatorAt(s, a + 4)
    ensures forall groups: nat, tail: nat :: GroupedAlone(s, a, b, groups, tail) ==> MatchGrouped(s, a) == Some(b)
  {
    hide MatchAt, MatchGrouped, MaximalRun, DotBeside, GroupedNumber, Bounded, Continues;
    if PlainNumber(s, a, b) { RunMatches(s, a, b); PlainHasNoGap(s, a, b); }
    forall groups: nat, tail: nat | GroupedAlone(s, a, b, groups, tail)
      ensures MatchAt(s, a) == Some(b) && MatchGrouped(s, a) == Some(b)
    {
      GroupedMatches(s, a, b, groups, tail);
      GroupedNotPlain(s, a, b, groups, tail);
    }
    if MatchAt(s, a) == Some(b) {
      MatchIsLong(s, a);
      if MatchGrouped(s, a) == Some(b) {
        var groups, tail := ShapeOfMatch(s, a, b);
        GroupedMatches(s, a, b, groups, tail);
        assert GroupedAlone(s, a, b, groups, tail);
      } else {
        RunOfMatch(s, a, b);
      }
    }
  }

  lemma PlainHasNoGap(s: string, a: nat, b: nat)
    requires PlainNumber(s, a, b)
    ensures !SeparatorAt(s, a + 4)
  {
    assert IsDigit(s[a + 4]);
  }

  lemma GroupedNotPlain(s: string, a: nat, b: nat, groups: nat, tail: nat)
    requires a <= b <= |s| && GroupedNumber(s, a, b, groups, tail) && MatchAt(s, a) == Some(b)
    ensures MatchGrouped(s, a) == Some(b)
  {
    hide MatchGrouped;
    RunExactly(s, a, 4);
  }

  lemma RunOfMatch(s: string, a: nat, b: nat)
    requires a <= b <= |s| && MatchAt(s, a) == Some(b) && MatchGrouped(s, a) != Some(b)
    ensures PlainNumber(s, a, b)
  {
    hide MatchGrouped, RunLength;
    DigitsOfRun(s, a, b - a);
  }

  lemma ShapeOfMatch(s: string, a: nat, b: nat) returns (groups: nat, tail: nat)
    requires a <= b <= |s| && MatchAt(s, a) == Some(b) && MatchGrouped(s, a) == Some(b)
    ensures GroupedNumber(s, a, b, groups, tail) && Bounded(s, a, b)
  {
    hide RunLength;
    DigitsOfRun(s, a, 4);
    DigitsOfRun(s, a + 5, 4);
    DigitsOfRun(s, a + 10, 4);
    groups := if GroupAt(s, a + 14) && After(s, a + 19) == Some(b) then 4 else 3;
    var g := a + 5 * groups - 1;
    tail := if TailAt(s, g) then RunLength(s, g + 1) else 0;
    if groups == 4 { DigitsOfRun(s, a + 15, 4); }
    if tail > 0 { DigitsOfRun(s, g + 1, tail); }
  }

  /** Which stretches of a text are considered, for every text: plain numbers, wherever they stand, and grouped
      ones with a multiple of five whole groups before them. */
  ghost predicate Considered(s: string, a: nat, b: nat) {
    || PlainNumber(s, a, b)
    || (a <= |s| && GroupsBefore(s, a) % 5 == 0 && exists groups: nat, tail: nat :: GroupedAlone(s, a, b, groups, tail))
  }

  lemma MatchConsidered(s: string, a: nat, b: nat)
    requires a <= |s|
    ensures Span(a, b) in MatchAll(PAN, s, 0) <==> Considered(s, a, b)
  {
    hide MatchAt, MatchGrouped, MatchAll, Ends, PlainNumber, GroupedAlone, GroupsBefore;
    MatchShape(s, a, b);
    ScannerMatchesPattern(s, a);
    if Span(a, b) in MatchAll(PAN, s, 0) { EveryMatch(PAN, s, 0, Span(a, b)); }
    if PlainNumber(s, a, b) {
      PlainIsConsidered(s, a, b);
    } else if MatchAt(s, a) == Some(b) {
      ConsideredUnlessOverlapped(s, a, b);
      OverlappedByCount(s, a);
    }
  }

  lemma PlainIsConsidered(s: string, a: nat, b: nat)
    requires PlainNumber(s, a, b)
    ensures Span(a, b) in MatchAll(PAN, s, 0)
  {
    RunConsidered(s, a, b);
  }

  /** Of a number in three or four groups of four, with or without more digits: it is considered exactly when no
      digit or dot is beside it, it does not continue, and a multiple of five whole groups comes before it; and
      then it is reported if it is a card. */
  lemma GroupedCardReported(s: string, a: nat, b: nat, groups: nat, tail: nat)
    requires a <= b <= |s| && GroupedNumber(s, a, b, groups, tail)
    ensures Span(a, b) in MatchAll(PAN, s, 0) <==>
      Bounded(s, a, b) && !Continues(s, b, groups, tail) && GroupsBefore(s, a) % 5 == 0
    ensures Span(a, b) in MatchAll(PAN, s, 0) && Card(Strip(s[a..b])) ==>
      PanMatch(Strip(s[a..b]), Masked(Strip(s[a..b]))) in Candidates(s)
  {
    hide MatchAt, MatchGrouped, MatchAll, Ends, GroupedNumber, Bounded, Continues, GroupsBefore;
    hide Candidates, Card, Strip, Masked, Overlapped;
    ScannerMatchesPattern(s, a);
    if Span(a, b) in MatchAll(PAN, s, 0) {
      EveryMatch(PAN, s, 0, Span(a, b));
      MatchIsBounded(s, a, b);
      if Card(Strip(s[a..b])) { SpanReported(s, a, b); }
    }
    if Bounded(s, a, b) { GroupedMatches(s, a, b, groups, tail); }
    if MatchAt(s, a) == Some(b) {
      GroupedNotPlain(s, a, b, groups, tail);
      OverlappedByCount(s, a);
      ConsideredUnlessOverlapped(s, a, b);
    }
  }

  lemma MatchIsBounded(s: string, a: nat, b: nat)
    requires a <= b <= |s| && MatchAt(s, a) == Some(b)
    ensures Bounded(s, a, b)
  {
    hide MatchAt;
    MatchIsLong(s, a);
    ClearBefore(s, a);
  }

  lemma SpanReported(s: string, a: nat, b: nat)
    requires a <= b <= |s| && Span(a, b) in MatchAll(PAN, s, 0) && Card(Strip(s[a..b]))
    ensures PanMatch(Strip(s[a..b]), Masked(Strip(s[a..b]))) in Candidates(s)
  {
    hide MatchAll, Strip, Masked, Constant, Luhn.Valid;
    var spans := MatchAll(PAN, s, 0);
    var k :| 0 <= k < |spans| && spans[k] == Span(a, b);
    var r := PanMatch(Strip(s[a..b]), Masked(Strip(s[a..b])));
    assert r in Report(s, spans[k]);
    ReportsAre(s, spans, r);
  }

  /** The values reported for any text are those of the cards among the stretches that are considered. */
  lemma CandidatesAre(s: string, r: PanMatch)
    ensures r in Candidates(s) <==>
      exists a: nat, b: nat :: a <= b <= |s| && Considered(s, a, b) && CardAt(s, a, b, r)
  {
    hide MatchAll, Considered, Strip, Card, Masked, Luhn.AllDigits, Candidates;
    if r in Candidates(s) {
      ReportedValues(s, r);
      var m: Span :| m in MatchAll(PAN, s, 0) && m.start <= m.end <= |s| && r.raw == Strip(s[m.start..m.end]);
      MatchConsidered(s, m.start, m.end);
      assert Considered(s, m.start, m.end) && CardAt(s, m.start, m.end, r);
    }
    if a: nat, b: nat :| a <= b <= |s| && Considered(s, a, b) && CardAt(s, a, b, r) {
      MatchConsidered(s, a, b);
      SpanReported(s, a, b);
    }
  }

  /** The spans of the cards among some spans. */
  function CardSpans(s: string, spans: seq<Span>): (r: seq<Span>)
    requires forall k :: 0 <= k < |spans| ==> spans[k].start <= spans[k].end <= |s|
    ensures forall m :: m in r <==> m in spans && m.start <= m.end <= |s| && Card(Strip(s[m.start..m.end]))
    decreases |spans|
  {
    if spans == [] then []
    else
      var m := spans[0];
      (if Card(Strip(s[m.start..m.end])) then [m] else []) + CardSpans(s, spans[1..])
  }

  predicate Ascending(spans: seq<Span>) {
    forall j, k :: 0 <= j < k < |spans| ==> spans[j].end <= spans[k].start
  }

  lemma AscendFirst(m: Span, rest: seq<Span>)
    requires Ascending(rest) && forall n :: n in rest ==> m.end <= n.start
    ensures Ascending([m] + rest)
  {
  }

  lemma {:induction false} MatchesAscend(p: Pattern, s: string, i: nat)
    ensures Ascending(MatchAll(p, s, i))
    decreases |s| + 1 - i
  {
    hide Ends, First, Ascending;
    if i > |s| {
      NothingAscends();
    } else {
      match First(Ends(p, s, i))
      case None => MatchesAscend(p, s, i + 1);
      case Some(e) =>
        var next := if e > i then e else i + 1;
        var rest := MatchAll(p, s, next);
        MatchesAscend(p, s, next);
        forall m | m in rest
          ensures e <= m.start
        {
          EveryMatch(p, s, next, m);
          EndsForward(p, s, i);
        }
        AscendFirst(Span(i, e), rest);
    }
  }

  lemma NothingAscends()
    ensures Ascending([])
  {
  }

  /** The report r tells of the card at m. */
  predicate Tells(s: string, m: Span, r: PanMatch) {
    m.start <= m.end <= |s| && CardAt(s, m.start, m.end, r)
  }

  predicate AllTold(s: string, spans: seq<Span>, reports: seq<PanMatch>) {
    |spans| == |reports| && forall k :: 0 <= k < |spans| ==> Tells(s, spans[k], reports[k])
  }

  lemma ToldFirst(s: string, m: Span, r: PanMatch, spans: seq<Span>, reports: seq<PanMatch>)
    requires Tells(s, m, r) && AllTold(s, spans, reports)
    ensures AllTold(s, [m] + spans, [r] + reports)
  {
    hide Tells;
  }

  lemma OneSpanMore(s: string, spans: seq<Span>)
    requires spans != [] && forall k :: 0 <= k < |spans| ==> spans[k].start <= spans[k].end <= |s|
    ensures var m, rest := spans[0], spans[1..];
      if Card(Strip(s[m.start..m.end])) then
        && CardSpans(s, spans) == [m] + CardSpans(s, rest)
        && |Report(s, m)| == 1 && Reports(s, spans) == [Report(s, m)[0]] + Reports(s, rest)
      else
        CardSpans(s, spans) == CardSpans(s, rest) && Reports(s, spans) == Reports(s, rest)
  {
    hide Card, Strip, Masked, Tells, Report;
    ReportTells(s, spans[0]);
    var cards, reports := CardSpans(s, spans[1..]), Reports(s, spans[1..]);
    assert [] + cards == cards && [] + reports == reports;
    assert |Report(s, spans[0])| == 1 ==> Report(s, spans[0]) == [Report(s, spans[0])[0]];
  }

  lemma {:induction false} ReportsInTurn(s: string, spans: seq<Span>)
    requires Ascending(spans) && forall k :: 0 <= k < |spans| ==> spans[k].start <= spans[k].end <= |s|
    ensures Ascending(CardSpans(s, spans)) && AllTold(s, CardSpans(s, spans), Reports(s, spans))
    decreases |spans|
  {
    hide Card, Strip, Masked, Tells, AllTold, Ascending, Report, CardSpans, Reports;
    if spans == [] {
      NothingTold(s);
    } else {
      var m, rest := spans[0], spans[1..];
      RestAscends(spans);
      ReportsInTurn(s, rest);
      OneSpanMore(s, spans);
      ReportTells(s, m);
      if Card(Strip(s[m.start..m.end])) {
        ToldFirst(s, m, Report(s, m)[0], CardSpans(s, rest), Reports(s, rest));
        AscendFirst(m, CardSpans(s, rest));
      }
    }
  }

  lemma NothingTold(s: string)
    ensures Ascending(CardSpans(s, [])) && AllTold(s, CardSpans(s, []), Reports(s, []))
  {
  }

  lemma RestAscends(spans: seq<Span>)
    requires Ascending(spans) && spans != []
    ensures Ascending(spans[1..]) && forall n :: n in spans[1..] ==> spans[0].end <= n.start
  {
  }

  lemma ReportTells(s: string, m: Span)
    requires m.start <= m.end <= |s|
    ensures if Card(Strip(s[m.start..m.end])) then |Report(s, m)| == 1 && Tells(s, m, Report(s, m)[0])
            else Report(s, m) == []
  {
    hide Strip, Masked, Luhn.Valid, Constant;
  }

  /** And they are reported in the order in which they stand in the text, each as often as it stands there: one
      report for every considered card, from left to right. */
  lemma CandidatesInOrder(s: string)
    ensures exists spans: seq<Span> ::
      && Ascending(spans) && AllTold(s, spans, Candidates(s))
      && forall m: Span :: m in spans <==>
           m.start <= m.end <= |s| && Considered(s, m.start, m.end) && Card(Strip(s[m.start..m.end]))
  {
    hide MatchAll, Considered, Card, Strip, Masked, Ascending, Reports, AllTold;
    var all := MatchAll(PAN, s, 0);
    MatchesAscend(PAN, s, 0);
    ReportsInTurn(s, all);
    forall m: Span | m.start <= m.end <= |s|
      ensures m in all <==> Considered(s, m.start, m.end)
    {
      MatchConsidered(s, m.start, m.end);
    }
    assert forall m: Span :: m in CardSpans(s, all) <==>
      m.start <= m.end <= |s| && Considered(s, m.start, m.end) && Card(Strip(s[m.start..m.end]));
  }

  /** The stretch from a up to b is a card, and r its report. */
  predicate CardAt(s: string, a: nat, b: nat, r: PanMatch)
    requires a <= b <= |s|
  {
    Card(Strip(s[a..b])) && r == PanMatch(Strip(s[a..b]), Masked(Strip(s[a..b])))
  }

  // ---------------------------------------------------------------- a card that is overlapped

  const CROWDED: string := "1234 5555 4444 3333 1111"

  lemma {:induction false} StripBoth(a: string, b: string)
    ensures Strip(a + b) == Strip(a) + Strip(b)
  {
    if a == "" {
      assert a + b == b;
    } else {
      assert (a + b)[1..] == a[1..] + b;
      StripBoth(a[1..], b);
    }
  }

  lemma StripGroup(group: string, rest: string)
    requires |group| == 4 && forall k :: 0 <= k < 4 ==> IsDigit(group[k])
    ensures Strip(group + " " + rest) == group + Strip(rest)
  {
    StripBoth(group + " ", rest);
    StripBoth(group, " ");
    StripDigits(group);
    assert Strip(" ") == "" + Strip("") && group + "" == group;
  }

  lemma StrippedCard()
    ensures Strip("5555 4444 3333 1111") == "5555444433331111"
  {
    hide Strip;
    StripDigits("1111");
    StripGroup("3333", "1111");
    StripGroup("4444", "3333 1111");
    StripGroup("5555", "4444 3333 1111");
    assert "5555" + " " + "4444 3333 1111" == "5555 4444 3333 1111";
    assert "4444" + " " + "3333 1111" == "4444 3333 1111";
    assert "3333" + " " + "1111" == "3333 1111";
  }

  lemma SumOf(c: char, rest: string)
    ensures Luhn.Sum([c] + rest) == Luhn.Term(c, Luhn.Doubles(|rest|)) + Luhn.Sum(rest)
  {
    assert ([c] + rest)[1..] == rest;
  }

  /** Four digits in front of an even number of digits: the first and the third count double. */
  lemma SumOfFour(a: char, b: char, c: char, d: char, rest: string)
    requires |rest| % 2 == 0
    ensures Luhn.Sum([a, b, c, d] + rest)
         == Luhn.Term(a, true) + Luhn.Term(b, false) + Luhn.Term(c, true) + Luhn.Term(d, false) + Luhn.Sum(rest)
  {
    hide Luhn.Term, Luhn.Sum;
    var r1, r2, r3 := [d] + rest, [c, d] + rest, [b, c, d] + rest;
    SumOf(d, rest);
    SumOf(c, r1);
    assert r2 == [c] + r1;
    SumOf(b, r2);
    assert r3 == [b] + r2;
    SumOf(a, r3);
    assert [a, b, c, d] + rest == [a] + r3;
  }

  lemma CrowdedSum()
    ensures Luhn.Sum("5555444433331111") == 60
  {
    hide Luhn.Sum;
    SumOfNothing();
    SumOfFour('1', '1', '1', '1', "");
    assert ['1', '1', '1', '1'] + "" == "1111";
    SumOfFour('3', '3', '3', '3', "1111");
    assert ['3', '3', '3', '3'] + "1111" == "33331111";
    SumOfFour('4', '4', '4', '4', "33331111");
    assert ['4', '4', '4', '4'] + "33331111" == "444433331111";
    SumOfFour('5', '5', '5', '5', "444433331111");
    assert ['5', '5', '5', '5'] + "444433331111" == "5555444433331111";
  }

  lemma SumOfNothing()
    ensures Luhn.Sum("") == 0
  {
  }

  lemma CrowdedIsCard()
    ensures Card("5555444433331111")
  {
    hide Luhn.Sum;
    var t := "5555444433331111";
    CrowdedSum();
    assert t[0] == '5' && t[4] == '4' && t[8] == '3';
    forall n | n in ALLOWLIST && |n| == 16
      ensures n[4] != '4' || n[8] != '3'
    {
    }
  }

  // ---------------------------------------------------------------- characters, and two known cards

  /** The characters of the pattern. */
  lemma CharactersAre(c: char)
    ensures In(c, Digit) <==> c in "0123456789"
    ensures In(c, Separator) <==> c in " -"
    ensures In(c, DigitOrDot) <==> c in "0123456789."
  {
  }

  /** What `Strip` does: it leaves digits alone, drops separators, and works on every part by itself. */
  lemma StripIs(a: string, b: string)
    ensures (forall k :: 0 <= k < |a| ==> a[k] in "0123456789") ==> Strip(a) == a
    ensures Strip(" ") == "" && Strip("-") == "" && Strip(a + b) == Strip(a) + Strip(b)
  {
    StripBoth(a, b);
    if forall k :: 0 <= k < |a| ==> a[k] in "0123456789" { StripDigits(a); }
  }

  lemma VisaSum()
    ensures Luhn.Sum("4242424242424242") == 80
  {
    hide Luhn.Sum;
    SumOfNothing();
    SumOfFour('4', '2', '4', '2', "");
    assert ['4', '2', '4', '2'] + "" == "4242";
    SumOfFour('4', '2', '4', '2', "4242");
    assert ['4', '2', '4', '2'] + "4242" == "42424242";
    SumOfFour('4', '2', '4', '2', "42424242");
    assert ['4', '2', '4', '2'] + "42424242" == "424242424242";
    SumOfFour('4', '2', '4', '2', "424242424242");
    assert ['4', '2', '4', '2'] + "424242424242" == "4242424242424242";
  }

  lemma AmexSum()
    ensures Luhn.Sum("378282246310005") == 60
  {
    hide Luhn.Sum;
    SumOfNothing();
    SumOfFour('0', '0', '0', '5', "");
    assert ['0', '0', '0', '5'] + "" == "0005";
    SumOfFour('4', '6', '3', '1', "0005");
    assert ['4', '6', '3', '1'] + "0005" == "46310005";
    SumOfFour('2', '8', '2', '2', "46310005");
    assert ['2', '8', '2', '2'] + "46310005" == "282246310005";
    SumOf('8', "282246310005");
    assert ['8'] + "282246310005" == "8282246310005";
    SumOf('7', "8282246310005");
    assert ['7'] + "8282246310005" == "78282246310005";
    SumOf('3', "78282246310005");
    assert ['3'] + "78282246310005" == "378282246310005";
  }

  /** Two of the public test cards, one of sixteen digits and one of fifteen: both pass the check, so that only
      the list keeps them from being reported. */
  lemma TestCardsAreValid()
    ensures Luhn.Valid("4242424242424242") && Luhn.Valid("378282246310005")
    ensures "4242424242424242" in ALLOWLIST && "378282246310005" in ALLOWLIST
  {
    hide Luhn.Sum;
    VisaSum();
    AmexSum();
  }

  /** With a group of four in front, the match takes in both and has twenty digits, which is no card: the card
      after it is not reported, although by itself it would be. */
  lemma OverlappedCardMissed()
    ensures GroupedNumber(CROWDED, 5, 24, 4, 0) && Bounded(CROWDED, 5, 24) && !Continues(CROWDED, 24, 4, 0)
    ensures Card(Strip(CROWDED[5..24])) && GroupsBefore(CROWDED, 5) == 1 && Overlapped(MatchAll(PAN, CROWDED, 0), 5)
    ensures Candidates(CROWDED) == []
  {
    hide MatchAll, Strip, MatchAt, Card, Ends, Candidates, Overlapped, GroupedNumber, Bounded;
    CrowdedShape();
    assert WholeGroup(CROWDED, 0) && GroupsBefore(CROWDED, 0) == 0;
    GroupedMatches(CROWDED, 0, 24, 4, 4);
    CrowdedMatches();
    CrowdedIsCard();
    CrowdedStripped();
    OneSpan(CROWDED, 0, 24, 5);
  }

  lemma CrowdedShape()
    ensures |CROWDED| == 24
    ensures GroupedNumber(CROWDED, 0, 24, 4, 4) && Bounded(CROWDED, 0, 24) && !Continues(CROWDED, 24, 4, 4)
    ensures GroupedNumber(CROWDED, 5, 24, 4, 0) && Bounded(CROWDED, 5, 24) && !Continues(CROWDED, 24, 4, 0)
  {
  }

  lemma CrowdedStripped()
    ensures |CROWDED| == 24 && Strip(CROWDED[5..24]) == "5555444433331111" && |Strip(CROWDED[0..24])| == 20
  {
    hide Strip;
    var card := "5555 4444 3333 1111";
    StrippedCard();
    StripGroup("1234", card);
    assert CROWDED == "1234" + " " + card;
    assert CROWDED[5..24] == card && CROWDED[0..24] == CROWDED;
  }

  lemma OneSpan(s: string, i: nat, e: nat, a: nat)
    requires MatchAll(PAN, s, 0) == [Span(i, e)] && i <= e <= |s|
    ensures i < a < e ==> Overlapped(MatchAll(PAN, s, 0), a)
    ensures |Strip(s[i..e])| == 20 ==> Candidates(s) == []
  {
    hide MatchAll, Strip, Constant, Luhn.Valid;
    var spans := MatchAll(PAN, s, 0);
    assert spans[0] == Span(i, e) && spans[1..] == [] && Span(i, e) in spans;
    assert Reports(s, spans) == Report(s, spans[0]) + Reports(s, []);
  }

  lemma CrowdedMatches()
    requires MatchAt(CROWDED, 0) == Some(24)
    ensures MatchAll(PAN, CROWDED, 0) == [Span(0, 24)]
  {
    hide Ends, MatchGrouped, RunLength;
    var s := CROWDED;
    ScannerMatchesPattern(s, 0);
    ScannerMatchesPattern(s, 24);
    assert MatchAll(PAN, s, 25) == [];
    assert MatchAt(s, 24) == None;
    assert MatchAll(PAN, s, 24) == MatchAll(PAN, s, 25);
  }
}
