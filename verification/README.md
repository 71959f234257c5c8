# Trip reimbursement calculator, modelled in Dafny

This project models the pricing function of a small expense-reimbursement
calculator. The function takes a trip's length in days, the miles travelled and
the receipt total, and predicts the refund. The refund has five parts:

- a flat per-diem of 100 per day;
- tiered, cumulative mileage: the first 100 miles at 0.58, the next 400 at
  0.45 and the rest at 0.35. The calculator works this out with a loop that
  takes each tier's share of the remaining miles;
- receipts: one rate, picked from six bands by the receipt total, applied to
  the whole total;
- a bonus factor: 1 plus a duration adjustment (by days) plus an efficiency
  adjustment (by miles per day);
- the refund: (per-diem + mileage + receipts) times the bonus factor.

Amounts are exact `real`s. The calculator's floating-point arithmetic and its
final rounding to cents are not modelled.

Modules:

- `Bands` (`bands.dfy`): ordered range tables, meaning intervals of the real
  line each with a rate, and what it means for a table to partition its domain.
- `Mileage` (`mileage.dfy`): the tier table and the closed form of the tiered
  amount. It also holds the calculator's tier loop as a method, proved to
  compute the closed form.
- `Rates` (`rates.dfy`): `receipt_rate`, `duration_adj` and `efficiency_adj`.
  Each is written as the cascade of tests the calculator performs. Each is
  specified against a band table, and the table is proved to partition the
  inputs.
- `Reimbursement` (`reimbursement.dfy`): per-diem, bonus factor and the refund.
  `Refund` is the functional definition. `CalculateReimbursement` follows the
  calculator step by step and is proved equal to it.

A zero-day trip makes the calculator divide by zero when it computes miles per
day, which raises an exception. `Refund` returns `Err(ZeroDivision)` for it.
The code does not guard against negative inputs, so the model accepts them
too. The non-negativity and bound results assume a trip of at least one day
with non-negative miles and receipts.

## Model

| member | source | states |
|---|---|---|
| `Mileage.Take` | calculate_reimbursement.py:35 | A tier takes no more miles than remain and no more than its cap. It leaves miles over only when it takes its full cap. |
| `Mileage.TierStart` | calculate_reimbursement.py:34 | The tiers start at mile 0, 100 and 500: the caps of the earlier tiers, added up. |
| `Mileage.MileageWithinTier` | calculate_reimbursement.py:34-36 | Within a tier, from its start up to its cap, every extra mile adds exactly that tier's rate to the closed form. The first tier also covers negative mileage. |
| `Mileage.TieredMileage` | calculate_reimbursement.py:32-39 | The tier loop returns the closed-form mileage amount for every mileage, negative mileage included. Its invariant: miles consumed plus miles remaining equals the miles driven. It always leaves by the break, because the last tier has no cap. |
| `Mileage.MileageClosedForm` | calculate_reimbursement.py:32-39 | Zero miles pay nothing. For non-negative miles the amount lies between 0.35 and 0.58 per mile. |
| `Mileage.MileageAsTierShares` | calculate_reimbursement.py:34-39 | The amount equals 0.58·min(m,100) + 0.45·min(max(m−100,0),400) + 0.35·max(m−500,0): each tier's share of the miles, at that tier's rate. |
| `Mileage.MileageMarginalRate` | calculate_reimbursement.py:34-39 | Between any two mileages, the extra amount is at least 0.35 and at most 0.58 per extra mile. |
| `Mileage.MileageStrictlyIncreasing` | calculate_reimbursement.py:34-39 | More miles always pay strictly more. |
| `Mileage.MileageAtTierBoundaries` | calculate_reimbursement.py:34-37 | The first tier ends at 58 and the second at 238. |
| `Rates.ReceiptRate` | calculate_reimbursement.py:44-50 | The rate is the rate of the band that holds the total: below 50 → 0.40, [50,300) → 0.60, [300,600) → 0.75, [600,800] → 0.85, (800,1000] → 0.65, above 1000 → 0.55. It is one of those six values. |
| `Rates.ReceiptBandsPartition` | calculate_reimbursement.py:44-50 | Every receipt total lies in exactly one receipt band. |
| `Rates.ReceiptRateBoundaries` | calculate_reimbursement.py:45-50 | 50 gets 0.60. 600 and 800 get 0.85. Anything above 800 up to 1000 gets 0.65, 1000 included. Anything above 1000 gets 0.55. |
| `Rates.ReceiptReimbursement` | calculate_reimbursement.py:52 | For a non-negative total, the amount lies between 0.40 and 0.85 times the total. |
| `Rates.ReceiptReimbursementDropsPastBands` | calculate_reimbursement.py:48-52 | The rate covers the whole total, so any total above 800 up to 1000 pays less than 800 does. Any total above 1000 up to 1100 pays less than 1000 does. |
| `Rates.DurationAdj` | calculate_reimbursement.py:57-62 | The adjustment is the rate of the duration band that holds the day count: ≤3 → −0.05, 4 → 0.10, 5 → 0.15, 6 → 0.10, 7–8 → 0, ≥9 → −0.10. It is one of those five values. |
| `Rates.DurationBandsPartition` | calculate_reimbursement.py:57-62 | Every whole number of days lies in exactly one duration band. |
| `Rates.DurationAdjCases` | calculate_reimbursement.py:57-62 | Five days gives +0.15, ahead of the 4–6 range. Four and six give +0.10. Three or fewer give −0.05. Seven and eight give 0. Nine or more give −0.10. |
| `Rates.EfficiencyAdj` | calculate_reimbursement.py:64-69 | The adjustment is the rate of the pace band that holds the pace: [180,220] → 0.10, [150,180) and (220,260] → 0.05, [100,150) and (260,300] → 0, otherwise −0.05. It is one of those four values. |
| `Rates.EfficiencyBandsPartition` | calculate_reimbursement.py:64-69 | Every pace lies in exactly one efficiency band. |
| `Rates.EfficiencyAdjBoundaries` | calculate_reimbursement.py:66-69 | 180 and 220 are in the +0.10 band. 260 is in the +0.05 band and 300 in the 0 band. Below 100 or above 300 gives −0.05. |
| `Reimbursement.PerDiem` | calculate_reimbursement.py:26-27 | A trip of one day or more earns at least 100. A trip of zero or fewer days earns nothing or less. |
| `Reimbursement.PerDiemIsFlatRate` | calculate_reimbursement.py:26-27 | One day earns 100. The allowance for a trip split in two is the sum of the two parts' allowances. |
| `Reimbursement.BonusFactor` | calculate_reimbursement.py:71 | The adjustments are read from `Pace(miles, days)`, which is miles divided by days, and the contract is stated in terms of that pace. The factor lies in [0.85, 1.25]. It is 1.25 exactly for a five-day trip at 180 to 220 miles a day. It is 0.85 exactly for a trip of nine or more days at under 100 or over 300 miles a day. |
| `Reimbursement.Refund` | calculate_reimbursement.py:71-79 | It is defined as `Subtotal` (per-diem + mileage + receipts) times `BonusFactor`. Its contract: a zero-day trip is exactly the division-by-zero failure. Any trip of at least one day with non-negative miles and receipts gets a non-negative refund. |
| `Reimbursement.CalculateReimbursement` | calculate_reimbursement.py:4-79 | The step-by-step computation, with the mileage loop and the division by days, gives the same result as `Refund` on every input. |
| `Reimbursement.SubtotalBounds` | calculate_reimbursement.py:27-52 | Before the bonus factor, the amount lies between per-diem + 0.35·miles + 0.40·receipts and per-diem + 0.58·miles + 0.85·receipts. |
| `Reimbursement.RefundBounds` | calculate_reimbursement.py:71-79 | For a valid trip, the refund lies between 0.85 and 1.25 times the subtotal. |
| `Reimbursement.RefundRange` | calculate_reimbursement.py:27-79 | For a valid trip, the refund lies between 0.85·(per-diem + 0.35·miles + 0.40·receipts) and 1.25·(per-diem + 0.58·miles + 0.85·receipts). |
| `Reimbursement.WorkedExample` | calculate_reimbursement.py:27-79 | Five days, 500 miles and 500 in receipts give per-diem 500, mileage 238, receipts 375 and factor 1.15, so the unrounded refund is 1279.95. |

## Left out

- `main` (calculate_reimbursement.py:83-97), the command-line wrapper: it checks the argument count, parses three floats, prints the result and sets the exit code. This is I/O. It also passes the day count as a float; the model takes `days: int`, following the function's annotation.
- The final `round(refund, 2)` (line 80): it rounds the binary floating-point value, which exact reals cannot reproduce. Every refund in the model is unrounded.
- Floating-point arithmetic in general: rates and amounts are exact reals. The `float("inf")` cap of the last mileage tier becomes the `Unlimited` cap.
- The commented-out random noise on the bonus factor (line 74): it is not live code, and it is nondeterministic.
- The alternative formula variant of the calculator (a different per-diem, mileage and receipt policy). It lives in another file, which is not part of this model.
