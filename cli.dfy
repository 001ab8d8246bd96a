/**
  The `Calculator` of src/cli.rs with its integer state: the loan, the fixed amortization
  and the list of payments that `calculate_payments` rebuilds, plus the two integer
  summaries read from that list.
*/
module Cli {
  import opened Amortization

  datatype Option<T> = None | Some(value: T)

  /** Rust's `u64`, the width the corrected model gives the loop counter `index`. */
  type u64 = x: int | 0 <= x <= 0xFFFF_FFFF_FFFF_FFFF

  /** `sum + payment.amortization` folded left to right in `u32`, starting from `sum`;
      None stands for the panic on overflow of a build with overflow checks.
      It overflows exactly when the unbounded total would not fit. */
  function FoldInstallments(ps: seq<Payment>, sum: u32): (r: Option<u32>)
    ensures r.Some? <==> sum + Sum(ps) <= U32_MAX
    ensures r.Some? ==> r.value == sum + Sum(ps)
  {
    if ps == [] then Some(sum)
    else if sum + ps[0].amortization > U32_MAX then None
    else FoldInstallments(ps[1..], sum + ps[0].amortization)
  }

  class Calculator {
    var loan: u32
    var amortization: u32
    var payments: seq<Payment>

    /** `Calculator::new`: the parameters are stored and there are no payments yet. */
    constructor (loan: u32, amortization: u32)
      ensures this.loan == loan && this.amortization == amortization
      ensures payments == []
    {
      this.loan := loan;
      this.amortization := amortization;
      payments := [];
    }

    /** The state `calculate_payments` leaves behind. */
    predicate Calculated()
      reads this
    {
      (loan == 0 || amortization > 0) && payments == Schedule(loan, amortization)
    }

    /** `calculate_payments`: rebuilds `payments` from scratch by walking the balance down
        from `loan`. The source does not terminate when `loan > 0 && amortization == 0`
        (see Amortization.ZeroAmortizationNeverTerminates), hence the precondition. */
    method CalculatePayments()
      requires loan == 0 || amortization > 0
      modifies this`payments
      ensures payments == Schedule(loan, amortization)
      ensures Calculated()
      ensures |payments| == Periods(loan, amortization)
      ensures Sum(payments) == loan
      ensures forall i :: 0 <= i < |payments| ==> payments[i].id == i + 1 && payments[i].month == (i + 1) % 12
      ensures forall i :: 0 <= i < |payments| ==> 0 < payments[i].amortization <= amortization
    {
      payments := [];
      var currentLoan: u32 := loan;
      var index: u64 := 1;
      while currentLoan > 0
        invariant index == |payments| + 1
        invariant index + currentLoan <= U32_MAX + 1
        invariant currentLoan == Balance(loan, amortization, |payments|)
        invariant payments + ScheduleFrom(currentLoan, amortization, index) == Schedule(loan, amortization)
        decreases currentLoan
      {
        var currAmortization := if currentLoan < amortization then currentLoan else amortization;
        payments := payments + [Payment(currAmortization, index, index % 12)];
        currentLoan := currentLoan - currAmortization;
        index := index + 1;
      }
      ScheduleLength(loan, amortization);
      Conservation(loan, amortization);
      InstalmentShape(loan, amortization);
      forall i | 0 <= i < |payments|
        ensures payments[i].id == i + 1 && payments[i].month == (i + 1) % 12
      {
        PaymentAt(loan, amortization, i);
      }
    }

    /** `get_total_installments`: the `u32` fold of the amortizations. After
        `calculate_payments` it is the loan; with no payments it is 0. */
    function TotalInstallments(): (r: Option<u32>)
      reads this
      ensures r.Some? <==> Sum(payments) <= U32_MAX
      ensures Calculated() ==> r == Some(loan)
      ensures payments == [] ==> r == Some(0)
    {
      if Calculated() then
        Conservation(loan, amortization);
        FoldInstallments(payments, 0)
      else
        FoldInstallments(payments, 0)
    }

    /** `get_months`, as a count: after `calculate_payments` it is ceil(loan / amortization). */
    function Months(): (n: nat)
      reads this
      ensures Calculated() ==> n == Periods(loan, amortization)
    {
      if Calculated() then
        ScheduleLength(loan, amortization);
        |payments|
      else
        |payments|
    }
  }

  /** Idempotence: `payments` is reset before the loop and the loop reads only `loan` and
      `amortization`, so calculating twice yields the same schedule. */
  method RecalculateIsIdempotent(loan: u32, amortization: u32) returns (first: seq<Payment>, second: seq<Payment>)
    requires loan == 0 || amortization > 0
    ensures first == second
    ensures first == Schedule(loan, amortization)
  {
    var c := new Calculator(loan, amortization);
    c.CalculatePayments();
    first := c.payments;
    c.CalculatePayments();
    second := c.payments;
  }

  /** A zero loan: no months, and a total of 0 instalments, whatever the amortization. */
  method ZeroLoanSummary(amortization: u32) returns (months: nat, total: Option<u32>)
    ensures months == 0 && total == Some(0)
  {
    var c := new Calculator(0, amortization);
    c.CalculatePayments();
    months := c.Months();
    total := c.TotalInstallments();
  }

  // ---------------------------------------------------------------------------
  // The loop counter as written: `index` is a `u32`. `CalculatePayments` counts in `u64`;
  // the lemma below shows the two agree except on the one input where the `u32` step
  // after the final payment would overflow.

  /** `index += 1` on a `u32`: None stands for the overflow panic of a build with overflow checks. */
  function IncrementU32(index: u32): Option<u32>
  {
    if index < U32_MAX then Some(index + 1) else None
  }

  /** In the source, `index += 1` also runs after the final payment is pushed, with `index`
      equal to that payment's id. That increment overflows `u32` for exactly one input:
      a loan of `u32::MAX` paid down by 1. The source never reaches that increment, because
      advancing `year` at src/cli.rs:111 panics after about 3.1 million periods. */
  lemma FinalIncrementOverflows(loan: u32, amortization: u32)
    requires loan == 0 || amortization > 0
    ensures var s := Schedule(loan, amortization);
      (|s| > 0 && IncrementU32(s[|s| - 1].id).None?) <==> (loan == U32_MAX && amortization == 1)
  {
    var s := Schedule(loan, amortization);
    var n := |s|;
    ScheduleLength(loan, amortization);
    if loan > 0 {
      PeriodsBounds(loan, amortization);
      PaymentAt(loan, amortization, n - 1);
      if amortization == 1 {
        assert n == loan;
      } else {
        MulMonotone(2, amortization, n - 1);
        assert n < U32_MAX;
      }
    }
  }
}
