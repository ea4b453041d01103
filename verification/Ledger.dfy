/**
 The invoice arithmetic of the demo seeder, over exact numbers: each line total is rounded to cents on its
 own before it is added.
 */
module Ledger {

  datatype Line = Line(quantity: real, unitPriceCents: int, taxable: bool)

  /** `Math.round`: halves go up. */
  function Round(x: real): int {
    (x + 0.5).Floor
  }

  function Exact(l: Line): real {
    l.quantity * l.unitPriceCents as real
  }

  function LineTotal(l: Line): int {
    Round(Exact(l))
  }

  const TAX_RATE: real := 0.0725

  function LineTax(l: Line): int {
    if l.taxable then Round(Exact(l) * TAX_RATE) else 0
  }

  function Subtotal(lines: seq<Line>): int {
    if lines == [] then 0 else Subtotal(lines[..|lines| - 1]) + LineTotal(lines[|lines| - 1])
  }

  function Tax(lines: seq<Line>): int {
    if lines == [] then 0 else Tax(lines[..|lines| - 1]) + LineTax(lines[|lines| - 1])
  }

  function Paid(payments: seq<int>): int {
    if payments == [] then 0 else Paid(payments[..|payments| - 1]) + payments[|payments| - 1]
  }

  function ExactTotal(lines: seq<Line>): real {
    if lines == [] then 0.0 else ExactTotal(lines[..|lines| - 1]) + Exact(lines[|lines| - 1])
  }

  /** The reductions of the seeder, as the loops they are. */
  method Reduce(lines: seq<Line>, payments: seq<int>) returns (subtotal: int, tax: int, paid: int)
    ensures subtotal == Subtotal(lines) && tax == Tax(lines) && paid == Paid(payments)
  {
    subtotal, tax, paid := 0, 0, 0;
    for i := 0 to |lines|
      invariant subtotal == Subtotal(lines[..i])
    {
      assert lines[..i + 1][..i] == lines[..i];
      subtotal := subtotal + Round(lines[i].quantity * lines[i].unitPriceCents as real);
    }
    for i := 0 to |lines|
      invariant tax == Tax(lines[..i])
    {
      assert lines[..i + 1][..i] == lines[..i];
      tax := tax
             + if lines[i].taxable then Round(lines[i].quantity * lines[i].unitPriceCents as real * TAX_RATE) else 0;
    }
    for i := 0 to |payments|
      invariant paid == Paid(payments[..i])
    {
      assert payments[..i + 1][..i] == payments[..i];
      paid := paid + payments[i];
    }
    assert lines[..|lines|] == lines && payments[..|payments|] == payments;
  }

  lemma RoundIsNearest(x: real, n: int)
    ensures n == Round(x) <==> -0.5 < n as real - x <= 0.5
  {
    var y := x + 0.5;
    if -0.5 < n as real - x <= 0.5 { assert n as real <= y < (n + 1) as real; }
  }

  /** Rounding each line costs at most half a cent a line. */
  lemma {:induction false} SubtotalNearExact(lines: seq<Line>)
    ensures -(|lines| as real) / 2.0 <= Subtotal(lines) as real - ExactTotal(lines) <= |lines| as real / 2.0
    ensures lines != [] ==> Subtotal(lines) as real - ExactTotal(lines) > -(|lines| as real) / 2.0
  {
    if lines != [] {
      SubtotalNearExact(lines[..|lines| - 1]);
      RoundIsNearest(Exact(lines[|lines| - 1]), LineTotal(lines[|lines| - 1]));
    }
  }

  predicate WholeQuantities(lines: seq<Line>) {
    forall i :: 0 <= i < |lines| ==> lines[i].quantity.Floor as real == lines[i].quantity
  }

  /** Nothing is lost by rounding when all quantities are whole. */
  lemma {:induction false} WholeQuantitiesAreExact(lines: seq<Line>)
    requires WholeQuantities(lines)
    ensures Subtotal(lines) as real == ExactTotal(lines)
  {
    if lines != [] {
      var l := lines[|lines| - 1];
      WholeQuantitiesAreExact(lines[..|lines| - 1]);
      var n := l.quantity.Floor * l.unitPriceCents;
      assert n as real == Exact(l);
      RoundIsNearest(Exact(l), n);
    }
  }

  /** The bound is reached: n half-cent lines are n/2 cents too high. */
  lemma {:induction false} HalfCentLines(lines: seq<Line>)
    requires forall i :: 0 <= i < |lines| ==> lines[i].quantity == 0.5 && lines[i].unitPriceCents == 1
    ensures Subtotal(lines) as real - ExactTotal(lines) == |lines| as real / 2.0
  {
    if lines != [] {
      HalfCentLines(lines[..|lines| - 1]);
      assert LineTotal(lines[|lines| - 1]) == 1;
    }
  }

  /** The cents of a line are the integer nearest to quantity times unit price, halves going up. */
  lemma LineTotalIs(l: Line)
    ensures -0.5 < LineTotal(l) as real - l.quantity * l.unitPriceCents as real <= 0.5
  {
    RoundIsNearest(Exact(l), LineTotal(l));
  }

  /** The exact amount of the taxable lines, and how many there are. */
  function TaxableTotal(lines: seq<Line>): real {
    if lines == [] then 0.0
    else
      var l := lines[|lines| - 1];
      TaxableTotal(lines[..|lines| - 1]) + if l.taxable then l.quantity * l.unitPriceCents as real else 0.0
  }

  function TaxableCount(lines: seq<Line>): nat {
    if lines == [] then 0 else TaxableCount(lines[..|lines| - 1]) + if lines[|lines| - 1].taxable then 1 else 0
  }

  /** The tax is within half a cent a taxable line of 7.25 percent of their exact amount. */
  lemma {:induction false} TaxNearExact(lines: seq<Line>)
    ensures -(TaxableCount(lines) as real) / 2.0
         <= Tax(lines) as real - 0.0725 * TaxableTotal(lines)
         <= TaxableCount(lines) as real / 2.0
  {
    hide Round;
    if lines != [] {
      TaxNearExact(lines[..|lines| - 1]);
      RoundIsNearest(Exact(lines[|lines| - 1]) * TAX_RATE, Round(Exact(lines[|lines| - 1]) * TAX_RATE));
    }
  }

  lemma {:induction false} NothingTaxable(lines: seq<Line>)
    requires forall i :: 0 <= i < |lines| ==> !lines[i].taxable
    ensures Tax(lines) == 0 && TaxableCount(lines) == 0
  {
    if lines != [] { NothingTaxable(lines[..|lines| - 1]); }
  }
}
