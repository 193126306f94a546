/**
 * Invoice-number allocation of the sale transaction: the largest sequence
 * number already used in the year, plus one, printed as `INV-<year>-%04d`.
 */
module InvoiceNumber {
  import opened Decimal
  import opened Schema

  /** `INV-<year>-`, the fixed part of every number of that year. */
  function YearPrefix(year: nat): string {
    "INV-" + Show(year) + "-"
  }

  /** `sprintf("INV-%s-%04d", year, sequence)`. */
  function Format(year: nat, sequence: nat): string {
    YearPrefix(year) + ZeroPad(Show(sequence), 4)
  }

  /** `invoice_number LIKE 'INV-<year>-%'`. */
  predicate InYear(number: string, year: nat) {
    var p := YearPrefix(year);
    |p| <= |number| && number[..|p|] == p
  }

  /** `CAST(SUBSTRING(invoice_number, 10) AS UNSIGNED)`; position 10 counts from 1. */
  function SequenceOf(number: string): nat {
    CastUnsigned(if 9 <= |number| then number[9..] else "")
  }

  /** `MAX(...)` over the invoices of the year, with `?? 0` for a year without invoices. */
  function MaxSequence(invoices: seq<Invoice>, year: nat): (m: nat)
    ensures forall k | 0 <= k < |invoices| && InYear(invoices[k].number, year) ::
              SequenceOf(invoices[k].number) <= m
    ensures (forall k | 0 <= k < |invoices| :: !InYear(invoices[k].number, year)) ==> m == 0
  {
    if invoices == [] then 0
    else
      var init := invoices[..|invoices| - 1];
      var last := invoices[|invoices| - 1];
      var rest := MaxSequence(init, year);
      assert forall k | 0 <= k < |init| :: init[k] == invoices[k];
      if InYear(last.number, year) && SequenceOf(last.number) > rest then SequenceOf(last.number) else rest
  }

  /** `$nextNum`: above every sequence number already used in the year. */
  function NextSequence(invoices: seq<Invoice>, year: nat): (n: nat)
    ensures 1 <= n
    ensures forall k | 0 <= k < |invoices| && InYear(invoices[k].number, year) ::
              SequenceOf(invoices[k].number) < n
  {
    MaxSequence(invoices, year) + 1
  }

  /** `$invoiceNumber`, the number the next invoice of `year` receives. */
  function Allocate(invoices: seq<Invoice>, year: nat): string {
    Format(year, NextSequence(invoices, year))
  }

  /**
   * For a four-digit year the formatted number belongs to its year and reading
   * it back from position 10 gives the sequence number.
   */
  lemma {:induction false} FormatReadsBack(year: nat, sequence: nat)
    requires 1000 <= year <= 9999
    ensures InYear(Format(year, sequence), year)
    ensures |Format(year, sequence)| >= 13
    ensures SequenceOf(Format(year, sequence)) == sequence
  {
    ShowFourDigits(year);
    var number := Format(year, sequence);
    assert |YearPrefix(year)| == 9;
    assert number[9..] == ZeroPad(Show(sequence), 4);
    CastShowPadded(sequence, 4);
  }

  /** A four-digit year's number never matches another four-digit year's pattern. */
  lemma {:induction false} FormatOnlyInItsYear(year: nat, other: nat, sequence: nat)
    requires 1000 <= year <= 9999 && 1000 <= other <= 9999
    requires InYear(Format(year, sequence), other)
    ensures year == other
  {
    ShowFourDigits(year);
    ShowFourDigits(other);
    var number := Format(year, sequence);
    assert number[4..8] == Show(year);
    assert YearPrefix(other)[4..8] == Show(other);
    assert number[..9] == YearPrefix(other);
    ShowInjective(year, other);
  }

  /** The allocated number differs from every number already in the table. */
  lemma {:induction false} AllocatedIsNew(invoices: seq<Invoice>, year: nat)
    requires 1000 <= year <= 9999
    ensures forall k | 0 <= k < |invoices| :: invoices[k].number != Allocate(invoices, year)
  {
    var n := NextSequence(invoices, year);
    FormatReadsBack(year, n);
  }

  /** The maximum is attained: a positive result is the sequence number of an invoice of the year. */
  lemma {:induction false} MaxSequenceAttained(invoices: seq<Invoice>, year: nat)
    requires MaxSequence(invoices, year) > 0
    ensures exists k | 0 <= k < |invoices| ::
              InYear(invoices[k].number, year) && SequenceOf(invoices[k].number) == MaxSequence(invoices, year)
  {
    var init := invoices[..|invoices| - 1];
    var last := invoices[|invoices| - 1];
    if InYear(last.number, year) && SequenceOf(last.number) == MaxSequence(invoices, year) {
      assert InYear(invoices[|invoices| - 1].number, year);
    } else {
      MaxSequenceAttained(init, year);
      var k :| 0 <= k < |init| && InYear(init[k].number, year) && SequenceOf(init[k].number) == MaxSequence(init, year);
      assert invoices[k] == init[k];
    }
  }

  lemma {:induction false} MaxSequenceSkipsLast(invoices: seq<Invoice>, year: nat)
    requires invoices != [] && !InYear(invoices[|invoices| - 1].number, year)
    ensures MaxSequence(invoices, year) == MaxSequence(invoices[..|invoices| - 1], year)
  {
  }

  /** Invoices outside the year, however many, do not change the allocation. */
  lemma {:induction false} OtherYearsIgnored(invoices: seq<Invoice>, others: seq<Invoice>, year: nat)
    requires forall k | 0 <= k < |others| :: !InYear(others[k].number, year)
    ensures MaxSequence(invoices + others, year) == MaxSequence(invoices, year)
  {
    if others != [] {
      var all := invoices + others;
      var init := others[..|others| - 1];
      assert all[..|all| - 1] == invoices + init;
      assert all[|all| - 1] == others[|others| - 1];
      assert !InYear(others[|others| - 1].number, year);
      MaxSequenceSkipsLast(all, year);
      assert forall k | 0 <= k < |init| :: init[k] == others[k];
      OtherYearsIgnored(invoices, init, year);
    } else {
      assert invoices + others == invoices;
    }
  }

  /** Invoices of other years stored before the year's own, as earlier years are, do not change the allocation. */
  lemma {:induction false} EarlierYearsIgnored(others: seq<Invoice>, invoices: seq<Invoice>, year: nat)
    requires forall k | 0 <= k < |others| :: !InYear(others[k].number, year)
    ensures MaxSequence(others + invoices, year) == MaxSequence(invoices, year)
  {
    if invoices == [] {
      assert others + invoices == others;
    } else {
      var init := invoices[..|invoices| - 1];
      var last := invoices[|invoices| - 1];
      assert invoices == init + [last];
      assert others + invoices == (others + init) + [last];
      EarlierYearsIgnored(others, init, year);
      MaxSequenceSnoc(others + init, last, year);
      MaxSequenceSnoc(init, last, year);
    }
  }

  /** `MAX` over the invoices with one more at the end. */
  lemma {:induction false} MaxSequenceSnoc(invoices: seq<Invoice>, last: Invoice, year: nat)
    ensures var rest := MaxSequence(invoices, year);
            MaxSequence(invoices + [last], year) ==
            if InYear(last.number, year) && SequenceOf(last.number) > rest then SequenceOf(last.number) else rest
  {
    assert (invoices + [last])[..|invoices|] == invoices;
  }

  /** With no invoice yet in the year the sequence starts at 1. */
  lemma {:induction false} FirstOfTheYear(invoices: seq<Invoice>, year: nat)
    requires forall k | 0 <= k < |invoices| :: !InYear(invoices[k].number, year)
    ensures Allocate(invoices, year) == Format(year, 1)
  {
  }

  /** Storing the allocated invoice makes the next allocation exactly one higher. */
  lemma {:induction false} NextAfterAllocation(invoices: seq<Invoice>, stored: Invoice, year: nat)
    requires 1000 <= year <= 9999
    requires stored.number == Allocate(invoices, year)
    ensures NextSequence(invoices + [stored], year) == NextSequence(invoices, year) + 1
  {
    var all := invoices + [stored];
    assert all[..|all| - 1] == invoices;
    FormatReadsBack(year, NextSequence(invoices, year));
  }

  /** An invoice row carrying only a number, for the worked examples below. */
  function NumberOnly(number: string): Invoice {
    Invoice(0, number, 0, "", "", "", 0.0, 0.0, 0.0)
  }

  /** `%d` of 2024 and of 2025. */
  lemma {:induction false} ShowOfYears()
    ensures Show(2024) == "2024" && Show(2025) == "2025"
  {
    assert Show(2) == "2";
    assert Show(20) == "20";
    assert Show(202) == "202";
  }

  /** A one-digit sequence number of 2024 prints with three leading zeros. */
  lemma {:induction false} SingleDigitOf2024(n: nat)
    requires 1 <= n <= 9
    ensures Format(2024, n) == "INV-2024-000" + [DigitChar(n)]
  {
    ShowOfYears();
    assert Show(n) == [DigitChar(n)];
    assert Zeros(3) == "000";
  }

  /** A one-digit number of 2024, written out, is of 2024 and reads back as its digit. */
  lemma {:induction false} SingleDigitReadsBack(n: nat, number: string)
    requires 1 <= n <= 9 && number == "INV-2024-000" + [DigitChar(n)]
    ensures InYear(number, 2024) && SequenceOf(number) == n
  {
    SingleDigitOf2024(n);
    FormatReadsBack(2024, n);
  }

  /** `MAX` over two invoices. */
  lemma {:induction false} MaxSequenceOfTwo(a: Invoice, b: Invoice, year: nat)
    ensures var m := if InYear(a.number, year) then SequenceOf(a.number) else 0;
            MaxSequence([a, b], year) == if InYear(b.number, year) && SequenceOf(b.number) > m then SequenceOf(b.number) else m
  {
    assert [a, b][..1] == [a];
    assert [a][..0] == [];
  }

  /** After `INV-2024-0001` and `INV-2024-0007` the next number is `INV-2024-0008`: gaps are not filled. */
  lemma {:induction false} GapsAreNotFilled()
    ensures Allocate([NumberOnly("INV-2024-0001"), NumberOnly("INV-2024-0007")], 2024) == "INV-2024-0008"
  {
    SingleDigitReadsBack(1, "INV-2024-0001");
    SingleDigitReadsBack(7, "INV-2024-0007");
    MaxSequenceOfTwo(NumberOnly("INV-2024-0001"), NumberOnly("INV-2024-0007"), 2024);
    SingleDigitOf2024(8);
  }

  /** The first invoice of 2025 is `INV-2025-0001`, whatever numbers 2024 used. */
  lemma {:induction false} NewYearStartsAtOne()
    ensures Allocate([NumberOnly("INV-2024-0123")], 2025) == "INV-2025-0001"
  {
    NotOf2025();
    FirstOfTheYear([NumberOnly("INV-2024-0123")], 2025);
    FirstOf2025();
  }

  lemma {:induction false} NotOf2025()
    ensures !InYear("INV-2024-0123", 2025)
  {
    ShowOfYears();
    assert YearPrefix(2025) == "INV-2025-";
    assert "INV-2024-0123"[7] != YearPrefix(2025)[7];
  }

  lemma {:induction false} FirstOf2025()
    ensures Format(2025, 1) == "INV-2025-0001"
  {
    ShowOfYears();
    assert Show(1) == "1";
    assert Zeros(3) == "000";
  }
}
