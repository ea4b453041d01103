/**
 The job and invoice loops of the demo seeder: find or create by a deterministic id, number what is
 created, book its ledger. Ids are taken to be free of collisions, so an id is what it is computed from;
 a run that is cut short is not modelled, only complete ones.
 */
module Seeding {
  import opened Allocator
  import opened Ledger

  datatype LineId = LineId(invoice: string, number: nat)

  datatype PaymentId = PaymentId(invoice: string, number: nat)

  datatype InvoiceRow = InvoiceRow(number: string, subtotalCents: int, taxCents: int, totalCents: int,
                                   paidCents: int, balanceCents: int)

  datatype LineRow = LineRow(lineTotalCents: int, taxable: bool)

  datatype InvoiceSpec = InvoiceSpec(jobKey: string, customerKey: string, hasJob: bool,
                                     lines: seq<Line>, payments: seq<int>)

  datatype JobSpec = JobSpec(key: string, day: Day)

  const INVOICE_YEAR: string := "2026"

  /** The key of an invoice: its job's, or that of the customer it was written off for. */
  function InvoiceKey(spec: InvoiceSpec): string {
    if spec.hasJob then spec.jobKey else "writeoff:" + spec.customerKey
  }

  /** Two specifications share an invoice exactly when they have the same job, or neither has one and the
      customer is the same; or the job of one goes by the very key of the other's write-off. */
  lemma KeysAgree(a: InvoiceSpec, b: InvoiceSpec)
    ensures InvoiceKey(a) == InvoiceKey(b) <==>
      if a.hasJob && b.hasJob then a.jobKey == b.jobKey
      else if !a.hasJob && !b.hasJob then a.customerKey == b.customerKey
      else if a.hasJob then a.jobKey == "writeoff:" + b.customerKey
      else b.jobKey == "writeoff:" + a.customerKey
  {
    var w := "writeoff:";
    if InvoiceKey(a) == InvoiceKey(b) && !a.hasJob && !b.hasJob {
      assert a.customerKey == (w + a.customerKey)[|w|..] == (w + b.customerKey)[|w|..] == b.customerKey;
    }
  }

  datatype Books = Books(jobs: map<string, string>, invoices: map<string, InvoiceRow>,
                         lines: map<LineId, LineRow>, payments: map<PaymentId, int>,
                         invoiceSeq: Counters, jobSeq: Counters)

  // ---------------------------------------------------------------- what a run does, as a function

  /** The rows of the first k lines. */
  function WithLines(rows: map<LineId, LineRow>, id: string, lines: seq<Line>, k: nat): map<LineId, LineRow>
    requires k <= |lines|
  {
    if k == 0 then rows
    else WithLines(rows, id, lines, k - 1)[LineId(id, k) := LineRow(LineTotal(lines[k - 1]), lines[k - 1].taxable)]
  }

  function WithPayments(rows: map<PaymentId, int>, id: string, payments: seq<int>, k: nat): map<PaymentId, int>
    requires k <= |payments|
  {
    if k == 0 then rows else WithPayments(rows, id, payments, k - 1)[PaymentId(id, k) := payments[k - 1]]
  }

  function NewInvoice(spec: InvoiceSpec, number: string): InvoiceRow {
    var subtotal, tax, paid := Subtotal(spec.lines), Tax(spec.lines), Paid(spec.payments);
    InvoiceRow(number, subtotal, tax, subtotal + tax, paid, subtotal + tax - paid)
  }

  function SeedInvoice(b: Books, spec: InvoiceSpec): Books {
    var id := InvoiceKey(spec);
    if id in b.invoices then b
    else
      var n := Last(b.invoiceSeq, INVOICE_YEAR) + 1;
      b.(invoiceSeq := b.invoiceSeq[INVOICE_YEAR := n],
         invoices := b.invoices[id := NewInvoice(spec, InvoiceNumber(INVOICE_YEAR, n))],
         lines := WithLines(b.lines, id, spec.lines, |spec.lines|),
         payments := WithPayments(b.payments, id, spec.payments, |spec.payments|))
  }

  function SeedInvoices(b: Books, specs: seq<InvoiceSpec>): Books
    decreases |specs|
  {
    if specs == [] then b else SeedInvoices(SeedInvoice(b, specs[0]), specs[1..])
  }

  function SeedJob(b: Books, spec: JobSpec): Books {
    if spec.key in b.jobs then b
    else
      var n := Last(b.jobSeq, DayKey(spec.day)) + 1;
      b.(jobSeq := b.jobSeq[DayKey(spec.day) := n], jobs := b.jobs[spec.key := JobNumber(spec.day, n)])
  }

  function SeedJobs(b: Books, specs: seq<JobSpec>): Books
    decreases |specs|
  {
    if specs == [] then b else SeedJobs(SeedJob(b, specs[0]), specs[1..])
  }

  function Seed(b: Books, jobs: seq<JobSpec>, invoices: seq<InvoiceSpec>): Books {
    SeedInvoices(SeedJobs(b, jobs), invoices)
  }

  /** The foreign keys: every line and payment belongs to an invoice that exists. */
  ghost predicate NoOrphans(b: Books) {
    && (forall key :: key in b.lines ==> key.invoice in b.invoices)
    && (forall key :: key in b.payments ==> key.invoice in b.invoices)
  }

  lemma {:induction false} WithLinesOwners(rows: map<LineId, LineRow>, id: string, lines: seq<Line>, k: nat)
    requires k <= |lines|
    ensures forall key :: key in WithLines(rows, id, lines, k) ==> key in rows || key.invoice == id
  {
    if k > 0 { WithLinesOwners(rows, id, lines, k - 1); }
  }

  lemma {:induction false} WithPaymentsOwners(rows: map<PaymentId, int>, id: string, payments: seq<int>, k: nat)
    requires k <= |payments|
    ensures forall key :: key in WithPayments(rows, id, payments, k) ==> key in rows || key.invoice == id
  {
    if k > 0 { WithPaymentsOwners(rows, id, payments, k - 1); }
  }

  lemma {:induction false} WithLinesKeeps(rows: map<LineId, LineRow>, id: string, lines: seq<Line>, k: nat, key: LineId)
    requires k <= |lines| && (key.invoice != id || key.number > k)
    ensures key in WithLines(rows, id, lines, k) <==> key in rows
    ensures key in rows ==> WithLines(rows, id, lines, k)[key] == rows[key]
  {
    if k > 0 { WithLinesKeeps(rows, id, lines, k - 1, key); }
  }

  lemma {:induction false} WithPaymentsKeeps(rows: map<PaymentId, int>, id: string, payments: seq<int>, k: nat,
                                             key: PaymentId)
    requires k <= |payments| && (key.invoice != id || key.number > k)
    ensures key in WithPayments(rows, id, payments, k) <==> key in rows
    ensures key in rows ==> WithPayments(rows, id, payments, k)[key] == rows[key]
  {
    if k > 0 { WithPaymentsKeeps(rows, id, payments, k - 1, key); }
  }

  lemma SeedInvoiceLeavesNoOrphans(b: Books, spec: InvoiceSpec)
    requires NoOrphans(b)
    ensures NoOrphans(SeedInvoice(b, spec))
  {
    hide InvoiceKey, NewInvoice, InvoiceNumber;
    WithLinesOwners(b.lines, InvoiceKey(spec), spec.lines, |spec.lines|);
    WithPaymentsOwners(b.payments, InvoiceKey(spec), spec.payments, |spec.payments|);
  }

  // ---------------------------------------------------------------- the seeder

  class SeedDatabase {
    var jobs: map<string, string>
    var invoices: map<string, InvoiceRow>
    var lines: map<LineId, LineRow>
    var payments: map<PaymentId, int>
    const invoiceSeq: Sequences
    const jobSeq: Sequences

    constructor ()
      ensures Contents() == Books(map[], map[], map[], map[], map[], map[])
      ensures fresh(invoiceSeq) && fresh(jobSeq) && invoiceSeq != jobSeq
    {
      jobs, invoices, lines, payments := map[], map[], map[], map[];
      invoiceSeq := new Sequences();
      jobSeq := new Sequences();
    }

    function Contents(): Books
      reads this, invoiceSeq, jobSeq
    {
      Books(jobs, invoices, lines, payments, invoiceSeq.last, jobSeq.last)
    }

    /** One turn of the jobs loop: look first, then take a number. */
    method FindOrCreateJob(spec: JobSpec)
      requires invoiceSeq != jobSeq
      modifies this, jobSeq
      ensures Contents() == SeedJob(old(Contents()), spec)
    {
      if spec.key in jobs { return; }
      var number := jobSeq.NextJobNumber(spec.day);
      jobs := jobs[spec.key := number];
    }

    /** Inserts, so no row may have one of the new ids. */
    method InsertLines(id: string, spec: seq<Line>)
      requires forall k: nat :: LineId(id, k) !in lines
      modifies this`lines
      ensures lines == WithLines(old(lines), id, spec, |spec|)
    {
      for i := 0 to |spec|
        invariant lines == WithLines(old(lines), id, spec, i)
      {
        WithLinesKeeps(old(lines), id, spec, i, LineId(id, i + 1));
        assert LineId(id, i + 1) !in lines;
        var lineTotal := Round(spec[i].quantity * spec[i].unitPriceCents as real);
        assert lineTotal == LineTotal(spec[i]);
        lines := lines[LineId(id, i + 1) := LineRow(lineTotal, spec[i].taxable)];
      }
    }

    method InsertPayments(id: string, spec: seq<int>)
      requires forall k: nat :: PaymentId(id, k) !in payments
      modifies this`payments
      ensures payments == WithPayments(old(payments), id, spec, |spec|)
    {
      for i := 0 to |spec|
        invariant payments == WithPayments(old(payments), id, spec, i)
      {
        WithPaymentsKeeps(old(payments), id, spec, i, PaymentId(id, i + 1));
        assert PaymentId(id, i + 1) !in payments;
        payments := payments[PaymentId(id, i + 1) := spec[i]];
      }
    }

    /** One turn of the invoices loop. */
    method FindOrCreateInvoice(spec: InvoiceSpec)
      requires invoiceSeq != jobSeq && NoOrphans(Contents())
      modifies this, invoiceSeq
      ensures NoOrphans(Contents())
      ensures Contents() == SeedInvoice(old(Contents()), spec)
    {
      hide Subtotal, Tax, Paid, WithLines, WithPayments, InvoiceNumber, InvoiceKey, Last;
      SeedInvoiceLeavesNoOrphans(Contents(), spec);
      var id := InvoiceKey(spec);
      if id in invoices { return; }
      var subtotal, tax, paid := Reduce(spec.lines, spec.payments);
      var total := subtotal + tax;
      var balance := total - paid;
      var number := invoiceSeq.NextInvoiceNumber(INVOICE_YEAR);
      invoices := invoices[id := InvoiceRow(number, subtotal, tax, total, paid, balance)];
      InsertLines(id, spec.lines);
      InsertPayments(id, spec.payments);
    }

    /** Both loops. */
    method Run(jobSpecs: seq<JobSpec>, invoiceSpecs: seq<InvoiceSpec>)
      requires invoiceSeq != jobSeq && NoOrphans(Contents())
      modifies this, invoiceSeq, jobSeq
      ensures NoOrphans(Contents())
      ensures Contents() == Seed(old(Contents()), jobSpecs, invoiceSpecs)
    {
      hide SeedInvoice;
      for i := 0 to |jobSpecs|
        invariant NoOrphans(Contents())
        invariant SeedJobs(Contents(), jobSpecs[i..]) == SeedJobs(old(Contents()), jobSpecs)
      {
        assert jobSpecs[i..][1..] == jobSpecs[i + 1..];
        FindOrCreateJob(jobSpecs[i]);
      }
      for i := 0 to |invoiceSpecs|
        invariant NoOrphans(Contents())
        invariant SeedInvoices(Contents(), invoiceSpecs[i..]) == Seed(old(Contents()), jobSpecs, invoiceSpecs)
      {
        assert invoiceSpecs[i..][1..] == invoiceSpecs[i + 1..];
        FindOrCreateInvoice(invoiceSpecs[i]);
      }
    }
  }

  // ---------------------------------------------------------------- a second run changes nothing

  /** Every row the specifications ask for is there. */
  ghost predicate Seeded(b: Books, jobs: seq<JobSpec>, invoices: seq<InvoiceSpec>) {
    && (forall i :: 0 <= i < |jobs| ==> jobs[i].key in b.jobs)
    && (forall i :: 0 <= i < |invoices| ==> InvoiceKey(invoices[i]) in b.invoices)
  }

  lemma {:induction false} SeedJobsCovers(b: Books, specs: seq<JobSpec>)
    ensures var t := SeedJobs(b, specs);
      && (forall i :: 0 <= i < |specs| ==> specs[i].key in t.jobs)
      && b.jobs.Keys <= t.jobs.Keys && t.invoices == b.invoices
    decreases |specs|
  {
    hide DayKey, JobNumber, Last;
    if specs != [] {
      SeedJobsCovers(SeedJob(b, specs[0]), specs[1..]);
      assert forall i :: 1 <= i < |specs| ==> specs[i] == specs[1..][i - 1];
    }
  }

  lemma {:induction false} SeedInvoicesCovers(b: Books, specs: seq<InvoiceSpec>)
    ensures var t := SeedInvoices(b, specs);
      && (forall i :: 0 <= i < |specs| ==> InvoiceKey(specs[i]) in t.invoices)
      && b.invoices.Keys <= t.invoices.Keys && t.jobs == b.jobs
    decreases |specs|
  {
    hide InvoiceKey, NewInvoice, WithLines, WithPayments, InvoiceNumber, Last;
    if specs != [] {
      SeedInvoicesCovers(SeedInvoice(b, specs[0]), specs[1..]);
      assert forall i :: 1 <= i < |specs| ==> specs[i] == specs[1..][i - 1];
    }
  }

  lemma RunSeeds(b: Books, jobs: seq<JobSpec>, invoices: seq<InvoiceSpec>)
    ensures Seeded(Seed(b, jobs, invoices), jobs, invoices)
  {
    SeedJobsCovers(b, jobs);
    SeedInvoicesCovers(SeedJobs(b, jobs), invoices);
  }

  lemma {:induction false} NothingToSeed(b: Books, jobs: seq<JobSpec>, invoices: seq<InvoiceSpec>)
    requires Seeded(b, jobs, invoices)
    ensures SeedJobs(b, jobs) == b && SeedInvoices(b, invoices) == b
    decreases |jobs| + |invoices|
  {
    if jobs != [] { NothingToSeed(b, jobs[1..], invoices); }
    if invoices != [] { NothingToSeed(b, [], invoices[1..]); }
  }

  /** Later runs find everything and take no number, even if others have added rows in between. */
  lemma SecondRunChangesNothing(b: Books, later: Books, jobs: seq<JobSpec>, invoices: seq<InvoiceSpec>)
    requires Seed(b, jobs, invoices).jobs.Keys <= later.jobs.Keys
    requires Seed(b, jobs, invoices).invoices.Keys <= later.invoices.Keys
    ensures Seed(later, jobs, invoices) == later
  {
    RunSeeds(b, jobs, invoices);
    NothingToSeed(later, jobs, invoices);
  }

  // ---------------------------------------------------------------- the stored ledger

  /** The sum of a value over a set of rows. */
  ghost function Total<K(!new)>(value: K -> int, keys: set<K>): int {
    if keys == {} then 0
    else
      var key :| key in keys;
      value(key) + Total(value, keys - {key})
  }

  lemma {:induction false} TotalAny<K(!new)>(value: K -> int, keys: set<K>, key: K)
    requires key in keys
    ensures Total(value, keys) == value(key) + Total(value, keys - {key})
    decreases |keys|
  {
    var chosen :| chosen in keys && Total(value, keys) == value(chosen) + Total(value, keys - {chosen});
    if chosen != key {
      TotalAny(value, keys - {chosen}, key);
      TotalAny(value, keys - {key}, chosen);
      assert keys - {chosen} - {key} == keys - {key} - {chosen};
    }
  }

  lemma {:induction false} TotalSame<K(!new)>(v: K -> int, w: K -> int, keys: set<K>)
    requires forall key :: key in keys ==> v(key) == w(key)
    ensures Total(v, keys) == Total(w, keys)
    decreases |keys|
  {
    if keys != {} {
      var key :| key in keys;
      TotalAny(v, keys, key);
      TotalAny(w, keys, key);
      TotalSame(v, w, keys - {key});
    }
  }

  function LineValue(rows: map<LineId, LineRow>): LineId -> int {
    key => if key in rows then rows[key].lineTotalCents else 0
  }

  function PaymentValue(rows: map<PaymentId, int>): PaymentId -> int {
    key => if key in rows then rows[key] else 0
  }

  /** All stored lines of an invoice. */
  function LinesOf(rows: map<LineId, LineRow>, id: string): set<LineId> {
    set key | key in rows && key.invoice == id
  }

  function PaymentsOf(rows: map<PaymentId, int>, id: string): set<PaymentId> {
    set key | key in rows && key.invoice == id
  }

  /** The rows of an invoice agree with each other: its stored subtotal is the sum of all its stored line
      totals, what is paid is the sum of all its stored payments, and balance and payments make up subtotal
      and tax. */
  ghost predicate Balanced(b: Books, id: string) {
    && id in b.invoices
    && var row := b.invoices[id];
    && row.subtotalCents == Total(LineValue(b.lines), LinesOf(b.lines, id))
    && row.paidCents == Total(PaymentValue(b.payments), PaymentsOf(b.payments, id))
    && row.balanceCents + row.paidCents == row.subtotalCents + row.taxCents == row.totalCents
  }

  ghost predicate BooksBalanced(b: Books) {
    forall id :: id in b.invoices ==> Balanced(b, id)
  }

  lemma TotalWithLine(rows: map<LineId, LineRow>, key: LineId, row: LineRow)
    requires key !in rows
    ensures var t := rows[key := row];
      Total(LineValue(t), LinesOf(t, key.invoice))
      == Total(LineValue(rows), LinesOf(rows, key.invoice)) + row.lineTotalCents
  {
    hide Total;
    var t, own := rows[key := row], LinesOf(rows, key.invoice);
    assert LinesOf(t, key.invoice) - {key} == own;
    TotalAny(LineValue(t), LinesOf(t, key.invoice), key);
    TotalSame(LineValue(rows), LineValue(t), own);
  }

  lemma TotalWithPayment(rows: map<PaymentId, int>, key: PaymentId, amount: int)
    requires key !in rows
    ensures var t := rows[key := amount];
      Total(PaymentValue(t), PaymentsOf(t, key.invoice))
      == Total(PaymentValue(rows), PaymentsOf(rows, key.invoice)) + amount
  {
    hide Total;
    var t, own := rows[key := amount], PaymentsOf(rows, key.invoice);
    assert PaymentsOf(t, key.invoice) - {key} == own;
    TotalAny(PaymentValue(t), PaymentsOf(t, key.invoice), key);
    TotalSame(PaymentValue(rows), PaymentValue(t), own);
  }

  lemma {:induction false} TotalOfLines(rows: map<LineId, LineRow>, id: string, lines: seq<Line>, k: nat)
    requires k <= |lines| && LinesOf(rows, id) == {}
    ensures var t := WithLines(rows, id, lines, k);
      Total(LineValue(t), LinesOf(t, id)) == Subtotal(lines[..k])
  {
    hide LineValue, LinesOf, LineTotal;
    if k > 0 {
      var before, key := WithLines(rows, id, lines, k - 1), LineId(id, k);
      TotalOfLines(rows, id, lines, k - 1);
      NoLineYet(rows, id, key);
      WithLinesKeeps(rows, id, lines, k - 1, key);
      TotalWithLine(before, key, LineRow(LineTotal(lines[k - 1]), lines[k - 1].taxable));
      assert lines[..k][..k - 1] == lines[..k - 1];
    }
  }

  lemma NoLineYet(rows: map<LineId, LineRow>, id: string, key: LineId)
    requires LinesOf(rows, id) == {} && key.invoice == id
    ensures key !in rows
  {
    assert key in LinesOf(rows, id) <==> key in rows;
  }

  lemma {:induction false} TotalOfPayments(rows: map<PaymentId, int>, id: string, payments: seq<int>, k: nat)
    requires k <= |payments| && PaymentsOf(rows, id) == {}
    ensures var t := WithPayments(rows, id, payments, k);
      Total(PaymentValue(t), PaymentsOf(t, id)) == Paid(payments[..k])
  {
    hide PaymentValue, PaymentsOf;
    if k > 0 {
      var before, key := WithPayments(rows, id, payments, k - 1), PaymentId(id, k);
      TotalOfPayments(rows, id, payments, k - 1);
      NoPaymentYet(rows, id, key);
      WithPaymentsKeeps(rows, id, payments, k - 1, key);
      TotalWithPayment(before, key, payments[k - 1]);
      assert payments[..k][..k - 1] == payments[..k - 1];
    }
  }

  lemma NoPaymentYet(rows: map<PaymentId, int>, id: string, key: PaymentId)
    requires PaymentsOf(rows, id) == {} && key.invoice == id
    ensures key !in rows
  {
    assert key in PaymentsOf(rows, id) <==> key in rows;
  }

  lemma CreatedIsBalanced(b: Books, spec: InvoiceSpec)
    requires NoOrphans(b) && InvoiceKey(spec) !in b.invoices
    ensures Balanced(SeedInvoice(b, spec), InvoiceKey(spec))
  {
    hide InvoiceKey, InvoiceNumber, Subtotal, Tax, Paid, WithLines, WithPayments, Total, LineValue, PaymentValue;
    var id := InvoiceKey(spec);
    TotalOfLines(b.lines, id, spec.lines, |spec.lines|);
    TotalOfPayments(b.payments, id, spec.payments, |spec.payments|);
    assert spec.lines[..|spec.lines|] == spec.lines && spec.payments[..|spec.payments|] == spec.payments;
  }

  lemma OthersKeepRows(b: Books, id: string, other: InvoiceSpec)
    requires id != InvoiceKey(other)
    ensures var t := SeedInvoice(b, other);
      && LinesOf(t.lines, id) == LinesOf(b.lines, id) && PaymentsOf(t.payments, id) == PaymentsOf(b.payments, id)
      && Total(LineValue(t.lines), LinesOf(b.lines, id)) == Total(LineValue(b.lines), LinesOf(b.lines, id))
      && Total(PaymentValue(t.payments), PaymentsOf(b.payments, id))
         == Total(PaymentValue(b.payments), PaymentsOf(b.payments, id))
  {
    hide InvoiceKey, InvoiceNumber, NewInvoice, WithLines, WithPayments, Total;
    var o, t := InvoiceKey(other), SeedInvoice(b, other);
    if o !in b.invoices {
      forall key: LineId | key.invoice == id
        ensures key in t.lines <==> key in b.lines
        ensures key in b.lines ==> t.lines[key] == b.lines[key]
      {
        WithLinesKeeps(b.lines, o, other.lines, |other.lines|, key);
      }
      forall key: PaymentId | key.invoice == id
        ensures key in t.payments <==> key in b.payments
        ensures key in b.payments ==> t.payments[key] == b.payments[key]
      {
        WithPaymentsKeeps(b.payments, o, other.payments, |other.payments|, key);
      }
      TotalSame(LineValue(t.lines), LineValue(b.lines), LinesOf(b.lines, id));
      TotalSame(PaymentValue(t.payments), PaymentValue(b.payments), PaymentsOf(b.payments, id));
    }
  }

  lemma OthersKeepBalance(b: Books, id: string, other: InvoiceSpec)
    requires NoOrphans(b) && Balanced(b, id)
    ensures Balanced(SeedInvoice(b, other), id)
  {
    hide InvoiceKey, InvoiceNumber, NewInvoice, WithLines, WithPayments;
    hide Total, LineValue, PaymentValue, LinesOf, PaymentsOf;
    if id != InvoiceKey(other) { OthersKeepRows(b, id, other); }
  }

  lemma {:induction false} BalanceKept(b: Books, specs: seq<InvoiceSpec>)
    requires NoOrphans(b) && BooksBalanced(b)
    ensures BooksBalanced(SeedInvoices(b, specs))
    decreases |specs|
  {
    hide Balanced, SeedInvoice, NoOrphans;
    if specs != [] {
      var t := SeedInvoice(b, specs[0]);
      SeedInvoiceLeavesNoOrphans(b, specs[0]);
      forall id | id in t.invoices
        ensures Balanced(t, id)
      {
        if id in b.invoices {
          OthersKeepBalance(b, id, specs[0]);
        } else {
          OnlyItsOwnIsNew(b, specs[0], id);
          CreatedIsBalanced(b, specs[0]);
        }
      }
      BalanceKept(t, specs[1..]);
    }
  }

  lemma OnlyItsOwnIsNew(b: Books, spec: InvoiceSpec, id: string)
    requires id in SeedInvoice(b, spec).invoices && id !in b.invoices
    ensures id == InvoiceKey(spec)
  {
  }

  /** Balanced books stay balanced through any run: every invoice in them, seeded before, now or by others. */
  lemma RunKeepsBalance(b: Books, jobs: seq<JobSpec>, invoices: seq<InvoiceSpec>)
    requires NoOrphans(b) && BooksBalanced(b)
    ensures BooksBalanced(Seed(b, jobs, invoices))
  {
    hide Total, LineValue, PaymentValue, LinesOf, PaymentsOf;
    JobsTouchNoLedger(b, jobs);
    BalanceKept(SeedJobs(b, jobs), invoices);
  }

  lemma {:induction false} JobsTouchNoLedger(b: Books, specs: seq<JobSpec>)
    ensures var t := SeedJobs(b, specs);
      t.invoices == b.invoices && t.lines == b.lines && t.payments == b.payments
    decreases |specs|
  {
    if specs != [] { JobsTouchNoLedger(SeedJob(b, specs[0]), specs[1..]); }
  }

  /** What was booked for a specification: its tax, nothing for untaxed lines and otherwise to within half a cent
      a taxable line of 7.25 percent; and its subtotal, exact for whole quantities and otherwise to within half
      a cent a line. */
  ghost predicate Booked(b: Books, spec: InvoiceSpec) {
    && InvoiceKey(spec) in b.invoices
    && var row := b.invoices[InvoiceKey(spec)];
    && row.taxCents == Tax(spec.lines)
    && ((forall k :: 0 <= k < |spec.lines| ==> !spec.lines[k].taxable) ==> row.taxCents == 0)
    && -(TaxableCount(spec.lines) as real) / 2.0
       <= row.taxCents as real - 0.0725 * TaxableTotal(spec.lines)
       <= TaxableCount(spec.lines) as real / 2.0
    && -(|spec.lines| as real) / 2.0 <= row.subtotalCents as real - ExactTotal(spec.lines) <= |spec.lines| as real / 2.0
    && (WholeQuantities(spec.lines) ==> row.subtotalCents as real == ExactTotal(spec.lines))
  }

  lemma {:induction false} RunKeepsInvoice(b: Books, specs: seq<InvoiceSpec>, id: string)
    requires id in b.invoices
    ensures id in SeedInvoices(b, specs).invoices && SeedInvoices(b, specs).invoices[id] == b.invoices[id]
    decreases |specs|
  {
    hide InvoiceKey, NewInvoice, WithLines, WithPayments, InvoiceNumber;
    if specs != [] { RunKeepsInvoice(SeedInvoice(b, specs[0]), specs[1..], id); }
  }

  /** Every invoice the run creates is booked from its own specification. */
  lemma {:induction false} RunBooks(b: Books, specs: seq<InvoiceSpec>, i: nat)
    requires i < |specs| && InvoiceKey(specs[i]) !in b.invoices
    requires forall j :: 0 <= j < i ==> InvoiceKey(specs[j]) != InvoiceKey(specs[i])
    ensures Booked(SeedInvoices(b, specs), specs[i])
    decreases i
  {
    hide InvoiceNumber, WithLines, WithPayments, Subtotal, Tax, ExactTotal, Paid, WholeQuantities;
    hide TaxableTotal, TaxableCount;
    var t := SeedInvoice(b, specs[0]);
    if i == 0 {
      SubtotalNearExact(specs[0].lines);
      TaxNearExact(specs[0].lines);
      if forall k :: 0 <= k < |specs[0].lines| ==> !specs[0].lines[k].taxable { NothingTaxable(specs[0].lines); }
      if WholeQuantities(specs[0].lines) { WholeQuantitiesAreExact(specs[0].lines); }
      RunKeepsInvoice(t, specs[1..], InvoiceKey(specs[0]));
    } else {
      RunBooks(t, specs[1..], i - 1);
    }
  }

  /** The rows under a created invoice: line k has its own number, the cents nearest to quantity times price, and
      the taxable flag of its specification; payment k its own number and amount; and there are no others. */
  ghost predicate RowsBooked(b: Books, spec: InvoiceSpec) {
    var id := InvoiceKey(spec);
    && (forall k: nat :: LineId(id, k) in b.lines <==> 1 <= k <= |spec.lines|)
    && (forall k: nat :: 1 <= k <= |spec.lines| ==>
          && b.lines[LineId(id, k)].taxable == spec.lines[k - 1].taxable
          && -0.5 < b.lines[LineId(id, k)].lineTotalCents as real
                    - spec.lines[k - 1].quantity * spec.lines[k - 1].unitPriceCents as real <= 0.5)
    && (forall k: nat :: PaymentId(id, k) in b.payments <==> 1 <= k <= |spec.payments|)
    && (forall k: nat :: 1 <= k <= |spec.payments| ==> b.payments[PaymentId(id, k)] == spec.payments[k - 1])
  }

  lemma {:induction false} WithLinesHas(rows: map<LineId, LineRow>, id: string, lines: seq<Line>, k: nat, n: nat)
    requires 1 <= n <= k <= |lines|
    ensures var t := WithLines(rows, id, lines, k);
      && LineId(id, n) in t && t[LineId(id, n)] == LineRow(LineTotal(lines[n - 1]), lines[n - 1].taxable)
    decreases k
  {
    hide LineTotal;
    if n < k { WithLinesHas(rows, id, lines, k - 1, n); }
  }

  lemma {:induction false} WithPaymentsHas(rows: map<PaymentId, int>, id: string, payments: seq<int>, k: nat, n: nat)
    requires 1 <= n <= k <= |payments|
    ensures var t := WithPayments(rows, id, payments, k);
      PaymentId(id, n) in t && t[PaymentId(id, n)] == payments[n - 1]
    decreases k
  {
    if n < k { WithPaymentsHas(rows, id, payments, k - 1, n); }
  }

  lemma {:induction false} NoLineZero(rows: map<LineId, LineRow>, id: string, lines: seq<Line>, k: nat)
    requires k <= |lines|
    ensures LineId(id, 0) in WithLines(rows, id, lines, k) <==> LineId(id, 0) in rows
  {
    if k > 0 { NoLineZero(rows, id, lines, k - 1); }
  }

  lemma {:induction false} NoPaymentZero(rows: map<PaymentId, int>, id: string, payments: seq<int>, k: nat)
    requires k <= |payments|
    ensures PaymentId(id, 0) in WithPayments(rows, id, payments, k) <==> PaymentId(id, 0) in rows
  {
    if k > 0 { NoPaymentZero(rows, id, payments, k - 1); }
  }

  lemma CreatedHasRows(b: Books, spec: InvoiceSpec)
    requires NoOrphans(b) && InvoiceKey(spec) !in b.invoices
    ensures RowsBooked(SeedInvoice(b, spec), spec)
  {
    hide InvoiceKey, NewInvoice, InvoiceNumber, WithLines, WithPayments, LineTotal;
    var id, n, m := InvoiceKey(spec), |spec.lines|, |spec.payments|;
    var t := SeedInvoice(b, spec);
    forall k: nat
      ensures LineId(id, k) in t.lines <==> 1 <= k <= n
      ensures 1 <= k <= n ==> t.lines[LineId(id, k)] == LineRow(LineTotal(spec.lines[k - 1]), spec.lines[k - 1].taxable)
    {
      if 1 <= k <= n {
        WithLinesHas(b.lines, id, spec.lines, n, k);
      } else if k == 0 {
        NoLineZero(b.lines, id, spec.lines, n);
      } else {
        WithLinesKeeps(b.lines, id, spec.lines, n, LineId(id, k));
      }
    }
    forall k: nat | 1 <= k <= n
      ensures -0.5 < t.lines[LineId(id, k)].lineTotalCents as real
                     - spec.lines[k - 1].quantity * spec.lines[k - 1].unitPriceCents as real <= 0.5
    {
      LineTotalIs(spec.lines[k - 1]);
    }
    forall k: nat
      ensures PaymentId(id, k) in t.payments <==> 1 <= k <= m
      ensures 1 <= k <= m ==> t.payments[PaymentId(id, k)] == spec.payments[k - 1]
    {
      if 1 <= k <= m {
        WithPaymentsHas(b.payments, id, spec.payments, m, k);
      } else if k == 0 {
        NoPaymentZero(b.payments, id, spec.payments, m);
      } else {
        WithPaymentsKeeps(b.payments, id, spec.payments, m, PaymentId(id, k));
      }
    }
  }

  lemma SameRows(b: Books, t: Books, spec: InvoiceSpec)
    requires RowsBooked(b, spec)
    requires forall k: nat :: LineId(InvoiceKey(spec), k) in t.lines <==> LineId(InvoiceKey(spec), k) in b.lines
    requires forall k: nat :: LineId(InvoiceKey(spec), k) in b.lines ==>
      t.lines[LineId(InvoiceKey(spec), k)] == b.lines[LineId(InvoiceKey(spec), k)]
    requires forall k: nat ::
      PaymentId(InvoiceKey(spec), k) in t.payments <==> PaymentId(InvoiceKey(spec), k) in b.payments
    requires forall k: nat :: PaymentId(InvoiceKey(spec), k) in b.payments ==>
      t.payments[PaymentId(InvoiceKey(spec), k)] == b.payments[PaymentId(InvoiceKey(spec), k)]
    ensures RowsBooked(t, spec)
  {
    hide InvoiceKey;
  }

  lemma OthersKeepRowsBooked(b: Books, spec: InvoiceSpec, other: InvoiceSpec)
    requires InvoiceKey(spec) in b.invoices && RowsBooked(b, spec)
    ensures InvoiceKey(spec) in SeedInvoice(b, other).invoices && RowsBooked(SeedInvoice(b, other), spec)
  {
    hide InvoiceKey, NewInvoice, InvoiceNumber, WithLines, WithPayments, RowsBooked;
    var id, o, t := InvoiceKey(spec), InvoiceKey(other), SeedInvoice(b, other);
    if o !in b.invoices {
      forall k: nat
        ensures LineId(id, k) in t.lines <==> LineId(id, k) in b.lines
        ensures LineId(id, k) in b.lines ==> t.lines[LineId(id, k)] == b.lines[LineId(id, k)]
        ensures PaymentId(id, k) in t.payments <==> PaymentId(id, k) in b.payments
        ensures PaymentId(id, k) in b.payments ==> t.payments[PaymentId(id, k)] == b.payments[PaymentId(id, k)]
      {
        WithLinesKeeps(b.lines, o, other.lines, |other.lines|, LineId(id, k));
        WithPaymentsKeeps(b.payments, o, other.payments, |other.payments|, PaymentId(id, k));
      }
      SameRows(b, t, spec);
    }
  }

  lemma {:induction false} RunKeepsRows(b: Books, specs: seq<InvoiceSpec>, spec: InvoiceSpec)
    requires InvoiceKey(spec) in b.invoices && RowsBooked(b, spec)
    ensures RowsBooked(SeedInvoices(b, specs), spec)
    decreases |specs|
  {
    hide InvoiceKey, SeedInvoice, RowsBooked;
    if specs != [] {
      OthersKeepRowsBooked(b, spec, specs[0]);
      RunKeepsRows(SeedInvoice(b, specs[0]), specs[1..], spec);
    }
  }

  /** Every invoice the run creates has exactly the lines and payments of its specification. */
  lemma {:induction false} RunBooksRows(b: Books, specs: seq<InvoiceSpec>, i: nat)
    requires NoOrphans(b) && i < |specs| && InvoiceKey(specs[i]) !in b.invoices
    requires forall j :: 0 <= j < i ==> InvoiceKey(specs[j]) != InvoiceKey(specs[i])
    ensures RowsBooked(SeedInvoices(b, specs), specs[i])
    decreases i
  {
    hide InvoiceKey, NewInvoice, InvoiceNumber, WithLines, WithPayments, RowsBooked, NoOrphans;
    var t := SeedInvoice(b, specs[0]);
    SeedInvoiceLeavesNoOrphans(b, specs[0]);
    if i == 0 {
      CreatedHasRows(b, specs[0]);
      RunKeepsRows(t, specs[1..], specs[0]);
    } else {
      RunBooksRows(t, specs[1..], i - 1);
    }
  }

  // ---------------------------------------------------------------- the stored numbers

  /** The day keys of a list of jobs. */
  function DayKeys(specs: seq<JobSpec>): (r: seq<string>)
    ensures |r| == |specs|
  {
    seq(|specs|, i requires 0 <= i < |specs| => DayKey(specs[i].day))
  }

  /** Invoices that are all new are numbered in their order, on from the last number of 2026. */
  lemma {:induction false} InvoicesNumberedInOrder(b: Books, specs: seq<InvoiceSpec>, i: nat)
    requires i < |specs|
    requires forall j :: 0 <= j <= i ==> InvoiceKey(specs[j]) !in b.invoices
    requires forall j, k :: 0 <= j < k <= i ==> InvoiceKey(specs[j]) != InvoiceKey(specs[k])
    ensures var t, id := SeedInvoices(b, specs), InvoiceKey(specs[i]);
      id in t.invoices && t.invoices[id].number == InvoiceNumber("2026", Last(b.invoiceSeq, "2026") + i + 1)
    decreases i
  {
    hide InvoiceKey, InvoiceNumber, WithLines, WithPayments, Subtotal, Tax, Paid;
    var t := SeedInvoice(b, specs[0]);
    if i == 0 {
      RunKeepsInvoice(t, specs[1..], InvoiceKey(specs[0]));
    } else {
      InvoicesNumberedInOrder(t, specs[1..], i - 1);
    }
  }

  lemma {:induction false} RunKeepsJob(b: Books, specs: seq<JobSpec>, key: string)
    requires key in b.jobs
    ensures key in SeedJobs(b, specs).jobs && SeedJobs(b, specs).jobs[key] == b.jobs[key]
    decreases |specs|
  {
    hide DayKey, JobNumber;
    if specs != [] { RunKeepsJob(SeedJob(b, specs[0]), specs[1..], key); }
  }

  /** Jobs that are all new are numbered in their order within their day, on from the last number of that day. */
  lemma {:induction false} JobsNumberedInOrder(b: Books, specs: seq<JobSpec>, i: nat)
    requires i < |specs|
    requires forall j :: 0 <= j <= i ==> specs[j].key !in b.jobs
    requires forall j, k :: 0 <= j < k <= i ==> specs[j].key != specs[k].key
    ensures var t, day := SeedJobs(b, specs), specs[i].day;
      && specs[i].key in t.jobs
      && t.jobs[specs[i].key]
         == JobNumber(day, Last(b.jobSeq, DayKey(day)) + Count(DayKeys(specs)[..i], DayKey(day)) + 1)
    decreases i
  {
    hide DayKey, JobNumber, SeedJob, Last, Count;
    var t := SeedJob(b, specs[0]);
    if i == 0 {
      OneJobMore(b, specs[0], "");
      RunKeepsJob(t, specs[1..], specs[0].key);
      CountFirst(DayKeys(specs)[..0], DayKey(specs[0].day));
    } else {
      forall key
        ensures key in t.jobs <==> key in b.jobs || key == specs[0].key
      {
        OneJobMore(b, specs[0], key);
      }
      OneJobMore(b, specs[0], DayKey(specs[i].day));
      JobsNumberedInOrder(t, specs[1..], i - 1);
      assert DayKeys(specs)[..i][1..] == DayKeys(specs[1..])[..i - 1];
      CountFirst(DayKeys(specs)[..i], DayKey(specs[i].day));
    }
  }

  lemma OneJobMore(b: Books, spec: JobSpec, key: string)
    requires spec.key !in b.jobs
    ensures var t, own := SeedJob(b, spec), DayKey(spec.day);
      && (key in t.jobs <==> key in b.jobs || key == spec.key)
      && spec.key in t.jobs && t.jobs[spec.key] == JobNumber(spec.day, Last(b.jobSeq, own) + 1)
      && Last(t.jobSeq, key) == Last(b.jobSeq, key) + (if key == own then 1 else 0)
  {
    hide DayKey, JobNumber;
  }

  lemma CountFirst(calls: seq<string>, key: string)
    ensures Count(calls, key)
         == if calls == [] then 0 else Count(calls[1..], key) + (if calls[0] == key then 1 else 0)
  {
  }

  /** No two invoices share a number, and the counter is never behind a number in use. */
  ghost predicate InvoicesNumbered(b: Books) {
    && (forall id, n: nat :: id in b.invoices && b.invoices[id].number == InvoiceNumber(INVOICE_YEAR, n) ==>
          n <= Last(b.invoiceSeq, INVOICE_YEAR))
    && (forall id1, id2 :: id1 in b.invoices && id2 in b.invoices && id1 != id2 ==>
          b.invoices[id1].number != b.invoices[id2].number)
  }

  ghost predicate JobsNumbered(b: Books) {
    && (forall key, day, n: nat :: key in b.jobs && ValidDay(day) && b.jobs[key] == JobNumber(day, n) ==>
          n <= Last(b.jobSeq, DayKey(day)))
    && (forall k1, k2 :: k1 in b.jobs && k2 in b.jobs && k1 != k2 ==> b.jobs[k1] != b.jobs[k2])
  }

  lemma NextInvoiceIsNew(b: Books, spec: InvoiceSpec)
    requires InvoicesNumbered(b)
    ensures InvoicesNumbered(SeedInvoice(b, spec))
  {
    hide InvoiceNumber, InvoiceKey, WithLines, WithPayments;
    var n := Last(b.invoiceSeq, INVOICE_YEAR) + 1;
    forall m: nat
      ensures InvoiceNumber(INVOICE_YEAR, m) == InvoiceNumber(INVOICE_YEAR, n) <==> m == n
    {
      InvoiceNumbersDiffer(INVOICE_YEAR, m, n);
    }
  }

  lemma NextJobIsNew(b: Books, spec: JobSpec)
    requires JobsNumbered(b) && ValidDay(spec.day)
    ensures JobsNumbered(SeedJob(b, spec))
  {
    hide JobNumber, DayKey, ValidDay;
    var n := Last(b.jobSeq, DayKey(spec.day)) + 1;
    forall day, m: nat | ValidDay(day)
      ensures JobNumber(day, m) == JobNumber(spec.day, n) <==> day == spec.day && m == n
      ensures DayKey(day) == DayKey(spec.day) ==> day == spec.day
    {
      JobNumbersDiffer(day, m, spec.day, n);
      if DayKey(day) == DayKey(spec.day) { DayKeysDiffer(day, spec.day); }
    }
  }

  lemma {:induction false} InvoicesStayNumbered(b: Books, specs: seq<InvoiceSpec>)
    requires InvoicesNumbered(b)
    ensures InvoicesNumbered(SeedInvoices(b, specs)) && SeedInvoices(b, specs).jobs == b.jobs
    ensures SeedInvoices(b, specs).jobSeq == b.jobSeq
    decreases |specs|
  {
    hide InvoicesNumbered;
    if specs != [] {
      NextInvoiceIsNew(b, specs[0]);
      InvoicesStayNumbered(SeedInvoice(b, specs[0]), specs[1..]);
    }
  }

  lemma {:induction false} JobsStayNumbered(b: Books, specs: seq<JobSpec>)
    requires JobsNumbered(b) && forall i :: 0 <= i < |specs| ==> ValidDay(specs[i].day)
    ensures JobsNumbered(SeedJobs(b, specs)) && SeedJobs(b, specs).invoices == b.invoices
    ensures SeedJobs(b, specs).invoiceSeq == b.invoiceSeq
    decreases |specs|
  {
    hide JobsNumbered, ValidDay;
    if specs != [] {
      NextJobIsNew(b, specs[0]);
      JobsStayNumbered(SeedJob(b, specs[0]), specs[1..]);
    }
  }

  /** The numbers stay unique through any run, so the unique indexes on them are never violated. */
  lemma RunKeepsNumbers(b: Books, jobs: seq<JobSpec>, invoices: seq<InvoiceSpec>)
    requires JobsNumbered(b) && InvoicesNumbered(b) && forall i :: 0 <= i < |jobs| ==> ValidDay(jobs[i].day)
    ensures JobsNumbered(Seed(b, jobs, invoices)) && InvoicesNumbered(Seed(b, jobs, invoices))
  {
    JobsStayNumbered(b, jobs);
    InvoicesStayNumbered(SeedJobs(b, jobs), invoices);
  }
}
