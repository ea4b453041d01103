/**
 The UPSERT number allocators of the demo seeder: interleaved callers, and the numbers they print.
 */
module Allocator {
  import opened Decimals

  type Counters = map<string, nat>

  function Last(c: Counters, key: string): nat {
    if key in c then c[key] else 0
  }

  class Sequences {
    var last: Counters

    constructor ()
      ensures last == map[]
    {
      last := map[];
    }

    /** INSERT ... ON CONFLICT DO UPDATE SET last_seq = last_seq + 1 RETURNING last_seq: one atomic step. */
    method Upsert(key: string) returns (n: nat)
      modifies this
      ensures n == Last(old(last), key) + 1
      ensures last == old(last)[key := n]
    {
      if key in last {
        last := last[key := last[key] + 1];
      } else {
        last := last[key := 1];
      }
      n := last[key];
    }

    method NextInvoiceNumber(year: string) returns (number: string)
      modifies this
      ensures number == InvoiceNumber(year, Last(old(last), year) + 1)
      ensures last == old(last)[year := Last(old(last), year) + 1]
    {
      var n := Upsert(year);
      number := "INV" + "-" + year + "-" + PadStart(Decimal(n), 5);
    }

    method NextJobNumber(day: Day) returns (number: string)
      modifies this
      ensures number == JobNumber(day, Last(old(last), DayKey(day)) + 1)
      ensures last == old(last)[DayKey(day) := Last(old(last), DayKey(day)) + 1]
    {
      var n := Upsert(DayKey(day));
      number := DayKey(day) + "-" + PadStart(Decimal(n), 4);
    }

    /** Any interleaving of callers is some order of their calls, each an atomic step. */
    method Serve(calls: seq<string>) returns (answers: seq<nat>)
      modifies this
      ensures answers == Answers(old(last), calls)
    {
      answers := [];
      for i := 0 to |calls|
        invariant answers + Answers(last, calls[i..]) == Answers(old(last), calls)
      {
        assert calls[i..][1..] == calls[i + 1..];
        var n := Upsert(calls[i]);
        answers := answers + [n];
      }
    }
  }

  function Answers(last: Counters, calls: seq<string>): (r: seq<nat>)
    ensures |r| == |calls|
    decreases |calls|
  {
    if calls == [] then []
    else
      var n := Last(last, calls[0]) + 1;
      [n] + Answers(last[calls[0] := n], calls[1..])
  }

  function Count(calls: seq<string>, key: string): nat {
    if calls == [] then 0 else Count(calls[1..], key) + (if calls[0] == key then 1 else 0)
  }

  /** Call i gets the next number of its own key, whatever the others do in between. */
  lemma {:induction false} AnswerIs(last: Counters, calls: seq<string>, i: nat)
    requires i < |calls|
    ensures Answers(last, calls)[i] == Last(last, calls[i]) + Count(calls[..i], calls[i]) + 1
    decreases |calls|
  {
    if i > 0 {
      var n := Last(last, calls[0]) + 1;
      AnswerIs(last[calls[0] := n], calls[1..], i - 1);
      assert calls[..i][1..] == calls[1..][..i - 1];
    }
  }

  lemma {:induction false} CountGrows(calls: seq<string>, key: string, i: nat, j: nat)
    requires i <= j <= |calls|
    ensures Count(calls[..i], key) <= Count(calls[..j], key)
    ensures i < j && calls[i] == key ==> Count(calls[..i], key) < Count(calls[..j], key)
    decreases |calls|
  {
    if i > 0 {
      CountGrows(calls[1..], key, i - 1, j - 1);
      assert calls[..i][1..] == calls[1..][..i - 1] && calls[..j][1..] == calls[1..][..j - 1];
    }
  }

  lemma {:induction false} CountReaches(calls: seq<string>, key: string, n: nat) returns (i: nat)
    requires 1 <= n <= Count(calls, key)
    ensures i < |calls| && calls[i] == key && Count(calls[..i], key) == n - 1
    decreases |calls|
  {
    if calls[0] == key && n == 1 { return 0; }
    var m := if calls[0] == key then n - 1 else n;
    var j := CountReaches(calls[1..], key, m);
    i := j + 1;
    assert calls[..i][1..] == calls[1..][..j];
  }

  /** From an empty table, the callers of a key get exactly the numbers 1 to n, each once: two calls with
      the same key never get the same number, and no number up to the number of calls is left out. */
  lemma ExactlyOneToN(calls: seq<string>, key: string)
    ensures var answers := Answers(map[], calls);
      && (forall i :: 0 <= i < |calls| && calls[i] == key ==> 1 <= answers[i] <= Count(calls, key))
      && (forall i, j :: 0 <= i < j < |calls| && calls[i] == key && calls[j] == key ==> answers[i] != answers[j])
      && (forall n :: 1 <= n <= Count(calls, key) ==> Given(calls, answers, key, n))
  {
    hide Answers, Count;
    var answers := Answers(map[], calls);
    assert calls[..|calls|] == calls;
    forall i | 0 <= i < |calls| && calls[i] == key
      ensures answers[i] == Count(calls[..i], key) + 1
      ensures answers[i] <= Count(calls, key)
    {
      AnswerIs(map[], calls, i);
      CountGrows(calls, key, i, |calls|);
    }
    forall i, j | 0 <= i < j < |calls| && calls[i] == key && calls[j] == key
      ensures answers[i] != answers[j]
    {
      CountGrows(calls, key, i, j);
    }
    forall n | 1 <= n <= Count(calls, key)
      ensures Given(calls, answers, key, n)
    {
      var i := CountReaches(calls, key, n);
      assert answers[i] == n;
    }
  }

  /** Some caller of the key got n. */
  ghost predicate Given(calls: seq<string>, answers: seq<nat>, key: string, n: int)
    requires |answers| == |calls|
  {
    exists i :: 0 <= i < |calls| && calls[i] == key && answers[i] == n
  }

  // ---------------------------------------------------------------- the printed numbers

  function InvoiceNumber(year: string, n: nat): string {
    "INV" + "-" + year + "-" + PadStart(Decimal(n), 5)
  }

  datatype Day = Day(year: nat, month: nat, day: nat)

  predicate ValidDay(d: Day) {
    1 <= d.month <= 12 && 1 <= d.day <= 31
  }

  function DayKey(d: Day): string {
    Decimal(d.year) + PadStart(Decimal(d.month), 2) + PadStart(Decimal(d.day), 2)
  }

  function JobNumber(d: Day, n: nat): string {
    DayKey(d) + "-" + PadStart(Decimal(n), 4)
  }

  /** Padding stops at its width, but the numbers go on being distinct beyond it. */
  lemma InvoiceNumbersDiffer(year: string, m: nat, n: nat)
    ensures InvoiceNumber(year, m) == InvoiceNumber(year, n) <==> m == n
  {
    hide PadStart, Decimal;
    if InvoiceNumber(year, m) == InvoiceNumber(year, n) {
      var before := "INV" + "-" + year + "-";
      assert before + PadStart(Decimal(m), 5) + "" == before + PadStart(Decimal(n), 5) + "";
      AroundInjective(before, PadStart(Decimal(m), 5), PadStart(Decimal(n), 5), "");
      PaddedInjective(m, n, 5);
    }
  }

  lemma DayKeysDiffer(d: Day, e: Day)
    requires ValidDay(d) && ValidDay(e) && DayKey(d) == DayKey(e)
    ensures d == e
  {
    hide PadStart, Decimal;
    var k, l := DayKey(d), DayKey(e);
    TwoDigits(d.month);
    TwoDigits(d.day);
    TwoDigits(e.month);
    TwoDigits(e.day);
    var n := |k| - 4;
    assert k[..n] == Decimal(d.year);
    assert k[n..n + 2] == PadStart(Decimal(d.month), 2) && k[n + 2..] == PadStart(Decimal(d.day), 2);
    assert l[..n] == Decimal(e.year);
    assert l[n..n + 2] == PadStart(Decimal(e.month), 2) && l[n + 2..] == PadStart(Decimal(e.day), 2);
    DecimalInjective(d.year, e.year);
    PaddedInjective(d.month, e.month, 2);
    PaddedInjective(d.day, e.day, 2);
  }

  /** Job numbers of different days, or of one day with different sequence numbers, differ. */
  lemma JobNumbersDiffer(d: Day, m: nat, e: Day, n: nat)
    requires ValidDay(d) && ValidDay(e)
    ensures JobNumber(d, m) == JobNumber(e, n) <==> d == e && m == n
  {
    hide PadStart, Decimal;
    if JobNumber(d, m) == JobNumber(e, n) {
      NotInDecimal(d.year, '-');
      NotInPadded(d.month, 2, '-');
      NotInPadded(d.day, 2, '-');
      NotInDecimal(e.year, '-');
      NotInPadded(e.month, 2, '-');
      NotInPadded(e.day, 2, '-');
      SplitOnce(DayKey(d), DayKey(e), PadStart(Decimal(m), 4), PadStart(Decimal(n), 4), '-');
      DayKeysDiffer(d, e);
      PaddedInjective(m, n, 4);
    }
  }

  /** An invoice number is its year between `INV-` and a dash, and then the number itself, in five digits as long
      as it has no more. */
  lemma InvoiceNumberIs(year: string, n: nat)
    ensures var s, k := InvoiceNumber(year, n), 5 + |year|;
      && |s| >= k + 5 && s[..4] == "INV-" && s[4..k - 1] == year && s[k - 1] == '-'
      && Parse(s[k..]) == n && (n < 100000 <==> |s| == k + 5)
  {
    hide PadStart, Decimal, Parse;
    DecimalLength(n);
    ParsePadStart(n, 5);
    var tail := PadStart(Decimal(n), 5);
    assert InvoiceNumber(year, n) == "INV-" + year + "-" + tail;
  }

  /** A day key is the day as a number: year, month, day. */
  lemma DayKeyIs(d: Day)
    requires ValidDay(d)
    ensures Parse(DayKey(d)) == 10000 * d.year + 100 * d.month + d.day
    ensures |DayKey(d)| == |Decimal(d.year)| + 4
  {
    hide PadStart, Decimal, Parse;
    TwoDigits(d.month);
    TwoDigits(d.day);
    ParseDecimal(d.year);
    ParsePadStart(d.month, 2);
    ParsePadStart(d.day, 2);
    ParseTwoMore(Decimal(d.year), PadStart(Decimal(d.month), 2));
    ParseTwoMore(Decimal(d.year) + PadStart(Decimal(d.month), 2), PadStart(Decimal(d.day), 2));
  }

  /** A job number is its day key, a dash, and the number itself, in four digits as long as it has no more. */
  lemma JobNumberIs(d: Day, n: nat)
    requires ValidDay(d)
    ensures var s, k := JobNumber(d, n), |Decimal(d.year)| + 4;
      && |s| >= k + 5 && Parse(s[..k]) == 10000 * d.year + 100 * d.month + d.day && s[k] == '-'
      && Parse(s[k + 1..]) == n && (n < 10000 <==> |s| == k + 5)
  {
    hide PadStart, Decimal, Parse, DayKey;
    DayKeyIs(d);
    DecimalLength(n);
    ParsePadStart(n, 4);
    var tail := PadStart(Decimal(n), 4);
    assert JobNumber(d, n) == DayKey(d) + "-" + tail;
    assert JobNumber(d, n)[..|DayKey(d)|] == DayKey(d) && JobNumber(d, n)[|DayKey(d)| + 1..] == tail;
  }
}
