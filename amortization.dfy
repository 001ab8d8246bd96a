/**
  The integer skeleton of the amortization schedule of `Calculator::calculate_payments`
  (src/cli.rs): the instalment taken each period, the outstanding balance the loop walks
  down, and the payment records it emits, as functions of the loan and the fixed
  amortization, together with the lemmas that pin them down in closed form.
*/
module Amortization {

  const U32_MAX: int := 0xFFFF_FFFF

  /** Rust's `u32`: the type of the loan, the amortization and every integer field of a payment. */
  type u32 = x: int | 0 <= x <= U32_MAX

  /** The integer part of a payment record: the principal paid down, the 1-based period
      number and the month `id % 12`. */
  datatype Payment = Payment(amortization: u32, id: u32, month: u32)

  /** The instalment of a period whose opening balance is `remaining`: the smaller of the
      balance and the configured amortization. */
  function Instalment(remaining: u32, amortization: u32): (a: u32)
    ensures a <= remaining && a <= amortization
    ensures a == remaining || a == amortization
  {
    if remaining < amortization then remaining else amortization
  }

  /** One pass of the loop on `current_loan`, or nothing once the guard `current_loan > 0` fails. */
  function Step(balance: u32, amortization: u32): u32
  {
    if balance == 0 then 0 else balance - Instalment(balance, amortization)
  }

  /** `current_loan` after `k` passes of the loop that starts from `loan`: the balance
      outstanding before period `k + 1`. */
  function Balance(loan: u32, amortization: u32, k: nat): u32
  {
    if k == 0 then loan else Step(Balance(loan, amortization, k - 1), amortization)
  }

  /** The payments the loop emits from a state whose balance is `remaining` and whose
      next period number is `index`. */
  function ScheduleFrom(remaining: u32, amortization: u32, index: nat): seq<Payment>
    requires remaining == 0 || amortization > 0
    requires 1 <= index && index + remaining <= U32_MAX + 1
    decreases remaining
  {
    if remaining == 0 then []
    else
      var a := Instalment(remaining, amortization);
      [Payment(a, index, index % 12)] + ScheduleFrom(remaining - a, amortization, index + 1)
  }

  /** The schedule `calculate_payments` leaves in `payments`. */
  function Schedule(loan: u32, amortization: u32): seq<Payment>
    requires loan == 0 || amortization > 0
  {
    ScheduleFrom(loan, amortization, 1)
  }

  /** ceil(loan / amortization): the number of periods the loan runs for. */
  function Periods(loan: nat, amortization: nat): nat
    requires loan == 0 || amortization > 0
  {
    if loan == 0 then 0 else (loan + amortization - 1) / amortization
  }

  /** Total principal paid down by a list of payments (unbounded, no `u32` wrap). */
  function Sum(ps: seq<Payment>): nat
  {
    if ps == [] then 0 else ps[0].amortization + Sum(ps[1..])
  }

  // ---------------------------------------------------------------------------
  // Arithmetic helpers

  lemma MulMonotone(x: nat, y: nat, a: nat)
    requires x <= y
    ensures x * a <= y * a
  {
    assert y * a == x * a + (y - x) * a;
  }

  /** Periods is the ceiling: the loan is not yet paid after `n - 1` full instalments
      and is paid after `n`. */
  lemma {:induction false} PeriodsBounds(loan: nat, amortization: nat)
    requires amortization > 0
    ensures var n := Periods(loan, amortization);
      (loan == 0 <==> n == 0) && (loan > 0 ==> (n - 1) * amortization < loan <= n * amortization)
  {
    if loan > 0 {
      var x := loan + amortization - 1;
      var n := x / amortization;
      var r := x % amortization;
      assert x == n * amortization + r;
      assert n * amortization >= loan;
      assert (n - 1) * amortization == n * amortization - amortization;
    }
  }

  // ---------------------------------------------------------------------------
  // The balance: closed form, termination, non-termination

  /** The balance before period `k + 1` is `loan - k * amortization`, or 0 once that
      is no longer positive. */
  lemma {:induction false} BalanceClosedForm(loan: u32, amortization: u32, k: nat)
    requires amortization > 0
    ensures Balance(loan, amortization, k) == if k * amortization < loan then loan - k * amortization else 0
  {
    if k > 0 {
      BalanceClosedForm(loan, amortization, k - 1);
      assert k * amortization == (k - 1) * amortization + amortization;
    }
  }

  /** With a positive amortization the loop stops after exactly `Periods(loan, amortization)`
      passes: the balance is positive before each of them and 0 after the last. */
  lemma {:induction false} Terminates(loan: u32, amortization: u32)
    requires amortization > 0
    ensures Balance(loan, amortization, Periods(loan, amortization)) == 0
    ensures forall k :: 0 <= k < Periods(loan, amortization) ==> Balance(loan, amortization, k) > 0
  {
    var n := Periods(loan, amortization);
    PeriodsBounds(loan, amortization);
    BalanceClosedForm(loan, amortization, n);
    forall k | 0 <= k < n
      ensures Balance(loan, amortization, k) > 0
    {
      BalanceClosedForm(loan, amortization, k);
      MulMonotone(k, n - 1, amortization);
    }
  }

  /** With a zero amortization and a positive loan the balance never moves, so the guard
      `current_loan > 0` holds on every pass and the source loops forever. */
  lemma {:induction false} ZeroAmortizationNeverTerminates(loan: u32, k: nat)
    requires loan > 0
    ensures Balance(loan, 0, k) == loan
  {
    if k > 0 {
      ZeroAmortizationNeverTerminates(loan, k - 1);
    }
  }

  /** Unrolling the first pass: the balance after `k + 1` passes from `remaining` is the
      balance after `k` passes from the balance the first pass leaves. */
  lemma {:induction false} BalanceShift(remaining: u32, amortization: u32, k: nat)
    ensures Balance(remaining, amortization, k + 1) == Balance(Step(remaining, amortization), amortization, k)
  {
    if k > 0 {
      BalanceShift(remaining, amortization, k - 1);
    }
  }

  // ---------------------------------------------------------------------------
  // The schedule

  /** Payment `k` (0-based) of the schedule is opened by a positive balance `Balance(k)`,
      amortizes `Instalment(Balance(k), amortization)` and is numbered `index + k`. */
  lemma {:induction false} PaymentFromAt(remaining: u32, amortization: u32, index: nat, k: nat)
    requires remaining == 0 || amortization > 0
    requires 1 <= index && index + remaining <= U32_MAX + 1
    requires k < |ScheduleFrom(remaining, amortization, index)|
    ensures var b, p := Balance(remaining, amortization, k), ScheduleFrom(remaining, amortization, index)[k];
      b > 0 && p.amortization == Instalment(b, amortization) && p.id == index + k && p.month == (index + k) % 12
    decreases remaining
  {
    var a := Instalment(remaining, amortization);
    if k > 0 {
      PaymentFromAt(remaining - a, amortization, index + 1, k - 1);
      BalanceShift(remaining, amortization, k - 1);
    }
  }

  /** After all its payments the balance the loop started from is 0. */
  lemma {:induction false} BalanceAfterScheduleFrom(remaining: u32, amortization: u32, index: nat)
    requires remaining == 0 || amortization > 0
    requires 1 <= index && index + remaining <= U32_MAX + 1
    ensures Balance(remaining, amortization, |ScheduleFrom(remaining, amortization, index)|) == 0
    decreases remaining
  {
    if remaining > 0 {
      var a := Instalment(remaining, amortization);
      var rest := ScheduleFrom(remaining - a, amortization, index + 1);
      BalanceAfterScheduleFrom(remaining - a, amortization, index + 1);
      BalanceShift(remaining, amortization, |rest|);
    }
  }

  /** Numbering and instalments: payment `k` of the schedule has id `k + 1`, month
      `(k + 1) % 12` (so 0 at ids 12, 24, ...) and amortizes the smaller of the balance
      before period `k + 1` and the amortization. */
  lemma PaymentAt(loan: u32, amortization: u32, k: nat)
    requires loan == 0 || amortization > 0
    requires k < |Schedule(loan, amortization)|
    ensures Balance(loan, amortization, k) > 0
    ensures Schedule(loan, amortization)[k].amortization == Instalment(Balance(loan, amortization, k), amortization)
    ensures Schedule(loan, amortization)[k].id == k + 1
    ensures Schedule(loan, amortization)[k].month == (k + 1) % 12
  {
    PaymentFromAt(loan, amortization, 1, k);
  }

  /** Number of periods: the schedule has exactly ceil(loan / amortization) payments. */
  lemma ScheduleLength(loan: u32, amortization: u32)
    requires loan == 0 || amortization > 0
    ensures |Schedule(loan, amortization)| == Periods(loan, amortization)
  {
    var s := Schedule(loan, amortization);
    var n := Periods(loan, amortization);
    if loan > 0 {
      Terminates(loan, amortization);
      BalanceAfterScheduleFrom(loan, amortization, 1);
      if |s| > n {
        PaymentAt(loan, amortization, n);
      }
    }
  }

  /** The instalment of period `k + 1`: the full amortization before the last period,
      and what remains, `loan - (n - 1) * amortization`, in the last one. */
  lemma InstalmentOfPeriod(loan: u32, amortization: u32, k: nat)
    requires amortization > 0
    requires k < Periods(loan, amortization)
    ensures var n, i := Periods(loan, amortization), Instalment(Balance(loan, amortization, k), amortization);
      0 < i <= amortization &&
      (k < n - 1 ==> i == amortization) &&
      (k == n - 1 ==> i == loan - (n - 1) * amortization)
  {
    var n := Periods(loan, amortization);
    PeriodsBounds(loan, amortization);
    BalanceClosedForm(loan, amortization, k);
    MulMonotone(k, n - 1, amortization);
    assert (k + 1) * amortization == k * amortization + amortization;
    if k < n - 1 {
      MulMonotone(k + 1, n - 1, amortization);
    } else {
      assert n * amortization == (n - 1) * amortization + amortization;
    }
  }

  /** Every payment amortizes more than 0 and at most `amortization`; all but the last
      amortize exactly `amortization`, and the last amortizes what remained,
      `loan - (n - 1) * amortization`. */
  lemma InstalmentShape(loan: u32, amortization: u32)
    requires loan == 0 || amortization > 0
    ensures var s := Schedule(loan, amortization);
      && (forall k :: 0 <= k < |s| ==> 0 < s[k].amortization <= amortization)
      && (forall k :: 0 <= k < |s| - 1 ==> s[k].amortization == amortization)
      && (|s| > 0 ==> s[|s| - 1].amortization == loan - (|s| - 1) * amortization)
  {
    var s := Schedule(loan, amortization);
    ScheduleLength(loan, amortization);
    forall k | 0 <= k < |s|
      ensures 0 < s[k].amortization <= amortization
      ensures k < |s| - 1 ==> s[k].amortization == amortization
      ensures k == |s| - 1 ==> s[k].amortization == loan - (|s| - 1) * amortization
    {
      PaymentAt(loan, amortization, k);
      InstalmentOfPeriod(loan, amortization, k);
    }
  }

  /** No underflow and strict decrease: each payment amortizes at most the balance it is
      taken from, and the balance after it is the balance before it minus its amortization. */
  lemma BalanceDecreases(loan: u32, amortization: u32, k: nat)
    requires loan == 0 || amortization > 0
    requires k < |Schedule(loan, amortization)|
    ensures Schedule(loan, amortization)[k].amortization <= Balance(loan, amortization, k)
    ensures Balance(loan, amortization, k + 1) ==
      Balance(loan, amortization, k) - Schedule(loan, amortization)[k].amortization
    ensures Balance(loan, amortization, k + 1) < Balance(loan, amortization, k)
  {
    PaymentAt(loan, amortization, k);
  }

  /** Conservation on any suffix of the loop: its payments sum to the balance it starts from. */
  lemma {:induction false} SumScheduleFrom(remaining: u32, amortization: u32, index: nat)
    requires remaining == 0 || amortization > 0
    requires 1 <= index && index + remaining <= U32_MAX + 1
    ensures Sum(ScheduleFrom(remaining, amortization, index)) == remaining
    decreases remaining
  {
    if remaining > 0 {
      var a := Instalment(remaining, amortization);
      var rest := ScheduleFrom(remaining - a, amortization, index + 1);
      SumScheduleFrom(remaining - a, amortization, index + 1);
      assert ([Payment(a, index, index % 12)] + rest)[1..] == rest;
    }
  }

  /** Conservation of principal: the instalments of the schedule add up to the loan. */
  lemma Conservation(loan: u32, amortization: u32)
    requires loan == 0 || amortization > 0
    ensures Sum(Schedule(loan, amortization)) == loan
  {
    SumScheduleFrom(loan, amortization, 1);
  }

  /** A loan of 0 gives no payments, whatever the amortization. */
  lemma ZeroLoan(amortization: u32)
    ensures Schedule(0, amortization) == []
    ensures Periods(0, amortization) == 0 && Sum(Schedule(0, amortization)) == 0
  {
  }

  /** The schedule has a single period exactly when `0 < loan <= amortization`, and that
      period then amortizes the whole loan. */
  lemma SinglePeriod(loan: u32, amortization: u32)
    requires loan == 0 || amortization > 0
    ensures |Schedule(loan, amortization)| == 1 <==> 0 < loan <= amortization
    ensures 0 < loan <= amortization ==> Schedule(loan, amortization) == [Payment(loan, 1, 1)]
  {
    ScheduleLength(loan, amortization);
    if loan > 0 {
      PeriodsBounds(loan, amortization);
      var n := Periods(loan, amortization);
      if n == 1 {
        assert loan <= amortization;
      } else {
        assert n >= 2;
        MulMonotone(1, n - 1, amortization);
      }
    }
  }

  /** A loan of 1200 paid down by 100 a period: twelve payments of 100, the last in month 0. */
  lemma TwelveEqualPeriods()
    ensures |Schedule(1200, 100)| == 12
    ensures forall k :: 0 <= k < 12 ==> Schedule(1200, 100)[k].amortization == 100
    ensures Schedule(1200, 100)[11] == Payment(100, 12, 0)
    ensures Sum(Schedule(1200, 100)) == 1200
  {
    ScheduleLength(1200, 100);
    InstalmentShape(1200, 100);
    PaymentAt(1200, 100, 11);
    Conservation(1200, 100);
  }
}
