/**
 The reimbursement calculator: a flat per-diem, tiered mileage and a banded
 receipt rate, summed and scaled by a bonus factor built from the trip's
 duration and its pace in miles per day. Amounts are exact reals; the
 calculator's final rounding to cents is not modelled.
 */
module Reimbursement {
  import opened Mileage
  import opened Rates

  /** The one failure the calculator can meet: a zero-day trip divides by zero. */
  datatype Error = ZeroDivision

  datatype Result<T> = Ok(value: T) | Err(error: Error)

  const BasePerDiem: real := 100.0

  /** The flat daily allowance. */
  function PerDiem(days: int): (amount: real)
    ensures 1 <= days ==> 100.0 <= amount
    ensures days <= 0 ==> amount <= 0.0
  {
    BasePerDiem * days as real
  }

  /**
   A flat rate: one day earns 100, and splitting a trip into two parts
   splits the allowance the same way.
   */
  lemma PerDiemIsFlatRate(d1: int, d2: int)
    ensures PerDiem(1) == 100.0
    ensures PerDiem(d1 + d2) == PerDiem(d1) + PerDiem(d2)
  {
  }

  /** The trip's pace in miles per day. */
  function Pace(miles: real, days: int): (pace: real)
    requires days != 0
  {
    miles / days as real
  }

  /**
   One plus the duration and efficiency adjustments. It is never below 0.85
   nor above 1.25; the top is reached only by a five-day trip at 180 to 220
   miles a day, the bottom only by a trip of nine days or more at under 100
   or over 300 miles a day.
   */
  function BonusFactor(days: int, miles: real): (f: real)
    requires days != 0
    ensures 0.85 <= f <= 1.25
    ensures f == 1.25 <==> days == 5 && 180.0 <= Pace(miles, days) <= 220.0
    ensures f == 0.85 <==> 9 <= days && (Pace(miles, days) < 100.0 || 300.0 < Pace(miles, days))
  {
    1.0 + DurationAdj(days) + EfficiencyAdj(Pace(miles, days))
  }

  /** The part of the refund before the bonus factor is applied. */
  function Subtotal(days: int, miles: real, receipts: real): real {
    PerDiem(days) + MileageClosedForm(miles) + ReceiptReimbursement(receipts)
  }

  /**
   The unrounded refund for a trip, or the division-by-zero failure the
   calculator meets when the trip lasts zero days.
   */
  function Refund(days: int, miles: real, receipts: real): (r: Result<real>)
    ensures r.Err? <==> days == 0
    ensures 1 <= days && 0.0 <= miles && 0.0 <= receipts ==> r.Ok? && 0.0 <= r.value
  {
    if days == 0 then Err(ZeroDivision)
    else
      var subtotal := Subtotal(days, miles, receipts);
      var factor := BonusFactor(days, miles);
      assert 1 <= days && 0.0 <= miles && 0.0 <= receipts ==> 0.0 <= subtotal * factor by {
        if 1 <= days && 0.0 <= miles && 0.0 <= receipts {
          ScaledWithin(Ok(subtotal * factor), subtotal, factor);
        }
      }
      Ok(subtotal * factor)
  }

  /**
   The calculator step by step: per-diem, the tiered mileage loop, the
   receipt rate, the bonus factor (which divides by `days`), the product.
   */
  method CalculateReimbursement(days: int, miles: real, receipts: real) returns (r: Result<real>)
    ensures r == Refund(days, miles, receipts)
  {
    var basePerDiem := BasePerDiem * days as real;
    var mileageReimb := TieredMileage(miles);
    var receiptReimb := receipts * ReceiptRate(receipts);
    if days == 0 {
      return Err(ZeroDivision);
    }
    var bonusFactor := 1.0 + DurationAdj(days) + EfficiencyAdj(miles / days as real);
    r := Ok((basePerDiem + mileageReimb + receiptReimb) * bonusFactor);
  }

  /**
   For a valid trip the subtotal lies between the amount at the lowest
   mileage and receipt rates and the amount at the highest ones.
   */
  lemma SubtotalBounds(days: int, miles: real, receipts: real)
    requires 0.0 <= miles && 0.0 <= receipts
    ensures PerDiem(days) + 0.35 * miles + 0.40 * receipts <= Subtotal(days, miles, receipts)
    ensures Subtotal(days, miles, receipts) <= PerDiem(days) + 0.58 * miles + 0.85 * receipts
  {
  }

  /**
   For a valid trip the bonus factor moves the refund at most 15% below and
   25% above the subtotal.
   */
  lemma RefundBounds(days: int, miles: real, receipts: real)
    requires 1 <= days && 0.0 <= miles && 0.0 <= receipts
    ensures Refund(days, miles, receipts).Ok?
    ensures Subtotal(days, miles, receipts) * 0.85 <= Refund(days, miles, receipts).value
    ensures Refund(days, miles, receipts).value <= Subtotal(days, miles, receipts) * 1.25
  {
    ScaledWithin(Refund(days, miles, receipts), Subtotal(days, miles, receipts), BonusFactor(days, miles));
  }

  /**
   The product step on its own, away from the definitions of the parts.
   The result `r` is taken as a parameter, pinned to `Ok(s * f)`, so that a
   caller can hand over `Refund(...)` itself: stated on `s * f` alone, the
   step leaves the solver to match the product against the unfolded refund,
   and `RefundBounds` then runs out of resource.
   */
  lemma ScaledWithin(r: Result<real>, s: real, f: real)
    requires r == Ok(s * f) && 0.0 <= s && 0.85 <= f <= 1.25
    ensures r.Ok? && s * 0.85 <= r.value <= s * 1.25
  {
  }

  /**
   Put together: the refund of a valid trip is at least 85% of the amount at
   the lowest rates and at most 125% of the amount at the highest rates.
   */
  lemma RefundRange(days: int, miles: real, receipts: real)
    requires 1 <= days && 0.0 <= miles && 0.0 <= receipts
    ensures Refund(days, miles, receipts).Ok?
    ensures (PerDiem(days) + 0.35 * miles + 0.40 * receipts) * 0.85 <= Refund(days, miles, receipts).value
    ensures Refund(days, miles, receipts).value <= (PerDiem(days) + 0.58 * miles + 0.85 * receipts) * 1.25
  {
    SubtotalBounds(days, miles, receipts);
    RefundBounds(days, miles, receipts);
  }

  /**
   A five-day, 500-mile trip with 500 in receipts: per-diem 500, mileage
   238, receipts 375 at the 0.75 rate, factor 1.15 (five days, pace 100).
   */
  lemma WorkedExample()
    ensures PerDiem(5) == 500.0
    ensures MileageClosedForm(500.0) == 238.0
    ensures ReceiptReimbursement(500.0) == 375.0
    ensures BonusFactor(5, 500.0) == 1.15
    ensures Refund(5, 500.0, 500.0) == Ok(1279.95)
  {
  }
}
