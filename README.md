# debt_calculator: the integer amortization schedule

This project models the integer core of the debt calculator's schedule engine (`src/cli.rs`).
`Calculator::calculate_payments` starts from the loan principal and walks the outstanding
balance down to zero. Each period it takes the smaller of the balance and the fixed
amortization as the instalment. It pushes a payment record numbered from 1, whose month is
the period number modulo 12. Two summaries are read from the resulting list:
`get_total_installments`, a `u32` fold of the amortizations, and `get_months`, the number of
payments.

Files:

- `amortization.dfy`, module `Amortization`. It defines `u32` as a subset type and `Payment`
  as the integer part of a payment record (`amortization`, `id`, `month`). It defines the
  loop as functions: `Instalment` (one period's instalment), `Step` (one pass on the balance),
  `Balance` (the balance after `k` passes), `ScheduleFrom`/`Schedule` (the payments emitted),
  `Periods` (ceil(loan / amortization)) and `Sum` (the unbounded total of the amortizations).
  Its lemmas give the closed forms: the balance, the number of periods, each instalment and
  the numbering. They also cover conservation of principal and termination, and show that
  the loop never terminates when the amortization is 0.
- `cli.dfy`, module `Cli`. It holds the `Calculator` class with the fields `loan`,
  `amortization` and `payments`. `CalculatePayments` is the imperative loop, proved against
  `Schedule`. `TotalInstallments` and `Months` are the two read-only summaries. It also has
  a client method that shows recalculation is idempotent, and the as-written model of the
  `u32` loop counter.

Integer widths are explicit. The loan, the amortization and the payment fields are `u32`.
`u32` arithmetic that could overflow in the source (the fold of the amortizations, the
increment of the loop counter) gives `None`. `None` stands for the panic that Rust raises
in a build with overflow checks.

## Model

| member | source | states |
|---|---|---|
| `Amortization.Instalment` | src/cli.rs:95-99 | the instalment is at most the balance and at most the amortization, and equals one of them (it is their minimum) |
| `Amortization.PeriodsBounds` | src/cli.rs:93-113 | `Periods` is the ceiling of loan / amortization: 0 exactly for a zero loan, otherwise `(n-1)*amortization < loan <= n*amortization` |
| `Amortization.BalanceClosedForm` | src/cli.rs:93-108 | the balance after `k` passes of the loop is `loan - k*amortization` while that is positive, and 0 afterwards |
| `Amortization.Terminates` | src/cli.rs:93-113 | with amortization > 0 the balance is positive before each of the first `Periods` passes and 0 after them, so the loop stops after exactly ceil(loan / amortization) passes |
| `Amortization.ZeroAmortizationNeverTerminates` | src/cli.rs:93-108 | with amortization 0 and loan > 0 the balance after any number of passes is still the loan, so the guard `current_loan > 0` never fails |
| `Amortization.PaymentFromAt` | src/cli.rs:93-109 | from any loop state, payment `k` is opened by a positive balance, amortizes the instalment of that balance, and carries id `index + k` and month `(index + k) % 12` |
| `Amortization.BalanceAfterScheduleFrom` | src/cli.rs:93-113 | once all payments from a loop state are emitted, the balance is 0 |
| `Amortization.PaymentAt` | src/cli.rs:90-109 | payment `k` of the schedule has id `k + 1` and month `(k + 1) % 12`, is opened by a positive balance, and amortizes the minimum of that balance and the amortization |
| `Amortization.ScheduleLength` | src/cli.rs:93-113 | the schedule has exactly ceil(loan / amortization) payments |
| `Amortization.InstalmentOfPeriod` | src/cli.rs:95-99 | the instalment of period `k + 1` is in `(0, amortization]`; it is the full amortization before the last period and `loan - (n-1)*amortization` in the last |
| `Amortization.InstalmentShape` | src/cli.rs:95-99 | every payment amortizes more than 0 and at most the amortization; all but the last amortize exactly the amortization; the last amortizes what remained |
| `Amortization.BalanceDecreases` | src/cli.rs:95-108 | no underflow: each instalment is at most the balance it is subtracted from; the balance after a payment is the balance before minus its amortization, and so strictly smaller |
| `Amortization.SumScheduleFrom` | src/cli.rs:95-108 | the payments emitted from any loop state add up to that state's balance |
| `Amortization.Conservation` | src/cli.rs:95-108 | the amortizations of the schedule add up to the loan |
| `Amortization.ZeroLoan` | src/cli.rs:88-93 | a zero loan gives an empty schedule, zero periods and a zero total |
| `Amortization.SinglePeriod` | src/cli.rs:93-113 | the schedule has exactly one payment if and only if `0 < loan <= amortization`, and that payment is `Payment(loan, 1, 1)` |
| `Amortization.TwelveEqualPeriods` | src/cli.rs:87-115 | a loan of 1200 at 100 a period gives 12 payments of 100 that sum to 1200; the twelfth has id 12 and month 0 |
| `Cli.FoldInstallments` | src/cli.rs:131-135 | the left `u32` fold of the amortizations overflows exactly when the unbounded total exceeds `u32::MAX`; otherwise it returns that total |
| `Cli.Calculator.constructor` | src/cli.rs:72-81 | a new calculator stores the loan and the amortization and has no payments |
| `Cli.Calculator.CalculatePayments` | src/cli.rs:87-115 | the loop (with a `u64` counter) leaves `payments == Schedule(loan, amortization)` and changes only `payments`; it has ceil(loan / amortization) payments summing to the loan, numbered `i + 1` with month `(i + 1) % 12`, each amortizing in `(0, amortization]` |
| `Cli.Calculator.TotalInstallments` | src/cli.rs:131-135 | the fold succeeds exactly when the total fits in `u32`; after `calculate_payments` it is the loan; with no payments it is 0 |
| `Cli.Calculator.Months` | src/cli.rs:146-148 | after `calculate_payments` the number of payments is ceil(loan / amortization) |
| `Cli.RecalculateIsIdempotent` | src/cli.rs:87-114 | calculating twice on the same calculator gives the same schedule, which is `Schedule(loan, amortization)` |
| `Cli.ZeroLoanSummary` | src/cli.rs:87-93 | for a zero loan, whatever the amortization, months is 0 and the total of the instalments is 0 |
| `Cli.FinalIncrementOverflows` | src/cli.rs:100-109 | the increment that follows the final push overflows `u32` if and only if the loan is `u32::MAX` and the amortization is 1 |

## Left out

- `Cli.Calculator.CalculatePayments`: requires `loan == 0 || amortization > 0`. This restricts the source, which has no guard: with `loan > 0` and `amortization == 0` it subtracts 0 on every pass and never terminates. `Amortization.ZeroAmortizationNeverTerminates` states that behaviour.
- Interest and its present value (`interest`, `interest_npv`, `discount_rate`, `monthly_discount_rate`, `get_total_interest`, `get_total_interest_npv`, `get_total_installments_npv`): these are `f32` arithmetic with `powf`. `Amortization.Balance` is the balance from which the interest of each period is computed.
- `interest_to_monthly` (src/helpers.rs): `f32` `powf`, floating point only.
- `get_years`: an `f32` division of the month count.
- `Cli.Calculator.Months`: returns the count as a `nat`. The source converts it to `f32`, which rounds counts above 2^24; such a count is never reached in the source, because of the year panic described below.
- The `year` field and its yearly advancement (src/cli.rs:91, src/cli.rs:106, src/cli.rs:110-112): they read the wall clock (`Utc::now()`) and use chrono's `Duration`. Dropping them also drops a panic. Every 12 periods the source adds 365 days to `year`. chrono's `DateTime + Duration` panics once the date passes chrono's last representable year (262143).
- `Cli.Calculator.CalculatePayments`: for schedules longer than about 3.1 million periods (the exact count depends on the start date), the source aborts at src/cli.rs:111, where the model returns the full schedule. For example, loan = 4000000 with amortization = 1 aborts in the source.
- `Cli.Calculator.CalculatePayments`: counts periods in a `u64` where the source uses a `u32`. `Cli.FinalIncrementOverflows` shows the two differ only for loan = `u32::MAX` with amortization 1, where the `u32` increment after the final payment would overflow. The source never gets that far, because of the year panic above.
- The `Display` implementation with currency formatting: presentation over an external crate.
- `new_from_cli` and src/main.rs: command-line parsing and console output.
- `calculate_payments` takes `self` by value and returns it; the model mutates the object in place, which has the same observable effect on the integer fields.
- The float fields of `Calculator` are absent, so the model cannot state that `calculate_payments` leaves them unchanged. The `modifies this`payments` frame says that `loan` and `amortization` are unchanged.
