/**
 The three banded lookups of the calculator: the receipt rate, the
 trip-duration adjustment and the travel-efficiency adjustment. Each is
 written as the cascade of tests the calculator performs, and specified
 against a table of bands; the table lemmas show that every input falls in
 exactly one band, so the cascade's order of tests decides nothing that the
 table does not already say.
 */
module Rates {
  import opened Bands

  // ---------------------------------------------------------------------------
  // Receipts
  // ---------------------------------------------------------------------------

  /** The receipt bands: one rate, applied to the whole receipt total. */
  const ReceiptBands: seq<Band> := [
    Band(Interval(Unbounded, Open(50.0)), 0.40),
    Band(Interval(Closed(50.0), Open(300.0)), 0.60),
    Band(Interval(Closed(300.0), Open(600.0)), 0.75),
    Band(Interval(Closed(600.0), Closed(800.0)), 0.85),
    Band(Interval(Open(800.0), Closed(1000.0)), 0.65),
    Band(Interval(Open(1000.0), Unbounded), 0.55)
  ]

  /** The rate paid on a receipt total: the rate of the band the total lies in. */
  function ReceiptRate(total: real): (r: real)
    ensures RateFromTable(ReceiptBands, total, r)
    ensures r in {0.40, 0.60, 0.75, 0.85, 0.65, 0.55}
  {
    if total < 50.0 then 0.40
    else if total < 300.0 then 0.60
    else if total < 600.0 then 0.75
    else if total <= 800.0 then 0.85
    else if total <= 1000.0 then 0.65
    else 0.55
  }

  lemma ReceiptBandsPartition()
    ensures PartitionsReals(ReceiptBands)
  {
    forall x: real
      ensures InExactlyOneBand(ReceiptBands, x)
    {
      var i := if x < 50.0 then 0 else if x < 300.0 then 1 else if x < 600.0 then 2
               else if x <= 800.0 then 3 else if x <= 1000.0 then 4 else 5;
      assert ReceiptBands[i].span.Contains(x);
    }
  }

  /** The band edges: 50 opens the second band, 800 and 1000 close theirs. */
  lemma ReceiptRateBoundaries()
    ensures ReceiptRate(50.0) == 0.60
    ensures ReceiptRate(600.0) == 0.85
    ensures ReceiptRate(800.0) == 0.85
    ensures forall t: real :: 800.0 < t <= 1000.0 ==> ReceiptRate(t) == 0.65
    ensures ReceiptRate(1000.0) == 0.65
    ensures forall t: real :: 1000.0 < t ==> ReceiptRate(t) == 0.55
  {
  }

  /** The amount reimbursed for a receipt total. */
  function ReceiptReimbursement(receipts: real): (amount: real)
    ensures 0.0 <= receipts ==> 0.40 * receipts <= amount <= 0.85 * receipts
  {
    receipts * ReceiptRate(receipts)
  }

  /**
   Because one rate covers the whole total, the reimbursement is not monotone:
   crossing 800 or 1000 lowers the amount paid.
   */
  lemma ReceiptReimbursementDropsPastBands()
    ensures forall t: real :: 800.0 < t <= 1000.0 ==> ReceiptReimbursement(t) < ReceiptReimbursement(800.0)
    ensures forall t: real :: 1000.0 < t <= 1100.0 ==> ReceiptReimbursement(t) < ReceiptReimbursement(1000.0)
  {
  }

  // ---------------------------------------------------------------------------
  // Trip duration
  // ---------------------------------------------------------------------------

  /**
   The duration bands over whole days. A five-day trip is tested before the
   four-to-six range, so that range is split around it.
   */
  const DurationBands: seq<Band> := [
    Band(Interval(Unbounded, Closed(3.0)), -0.05),
    Band(Interval(Closed(4.0), Closed(4.0)), 0.10),
    Band(Interval(Closed(5.0), Closed(5.0)), 0.15),
    Band(Interval(Closed(6.0), Closed(6.0)), 0.10),
    Band(Interval(Closed(7.0), Closed(8.0)), 0.0),
    Band(Interval(Closed(9.0), Unbounded), -0.10)
  ]

  /** The additive adjustment for the trip's length in days. */
  function DurationAdj(d: int): (r: real)
    ensures RateFromTable(DurationBands, d as real, r)
    ensures r in {0.15, 0.10, -0.05, -0.10, 0.0}
  {
    if d == 5 then 0.15
    else if 4 <= d <= 6 then 0.10
    else if d <= 3 then -0.05
    else if d >= 9 then -0.10
    else 0.0
  }

  lemma DurationBandsPartition()
    ensures PartitionsInts(DurationBands)
  {
    forall n: int
      ensures WholeInExactlyOneBand(DurationBands, n)
    {
      var i := if n <= 3 then 0 else if n == 4 then 1 else if n == 5 then 2
               else if n == 6 then 3 else if n <= 8 then 4 else 5;
      assert DurationBands[i].span.Contains(n as real);
    }
  }

  /** Day by day: five beats the four-to-six range; seven and eight are neutral. */
  lemma DurationAdjCases()
    ensures DurationAdj(5) == 0.15
    ensures DurationAdj(4) == 0.10 && DurationAdj(6) == 0.10
    ensures forall d :: d <= 3 ==> DurationAdj(d) == -0.05
    ensures DurationAdj(7) == 0.0 && DurationAdj(8) == 0.0
    ensures forall d :: d >= 9 ==> DurationAdj(d) == -0.10
  {
  }

  // ---------------------------------------------------------------------------
  // Efficiency (miles per day)
  // ---------------------------------------------------------------------------

  /** The efficiency bands over the pace in miles per day. */
  const EfficiencyBands: seq<Band> := [
    Band(Interval(Unbounded, Open(100.0)), -0.05),
    Band(Interval(Closed(100.0), Open(150.0)), 0.0),
    Band(Interval(Closed(150.0), Open(180.0)), 0.05),
    Band(Interval(Closed(180.0), Closed(220.0)), 0.10),
    Band(Interval(Open(220.0), Closed(260.0)), 0.05),
    Band(Interval(Open(260.0), Closed(300.0)), 0.0),
    Band(Interval(Open(300.0), Unbounded), -0.05)
  ]

  /** The additive adjustment for the pace of the trip. */
  function EfficiencyAdj(eff: real): (r: real)
    ensures RateFromTable(EfficiencyBands, eff, r)
    ensures r in {0.10, 0.05, 0.0, -0.05}
  {
    if 180.0 <= eff <= 220.0 then 0.10
    else if 150.0 <= eff < 180.0 || 220.0 < eff <= 260.0 then 0.05
    else if 100.0 <= eff < 150.0 || 260.0 < eff <= 300.0 then 0.0
    else -0.05
  }

  lemma EfficiencyBandsPartition()
    ensures PartitionsReals(EfficiencyBands)
  {
    forall x: real
      ensures InExactlyOneBand(EfficiencyBands, x)
    {
      var i := if x < 100.0 then 0 else if x < 150.0 then 1 else if x < 180.0 then 2
               else if x <= 220.0 then 3 else if x <= 260.0 then 4 else if x <= 300.0 then 5 else 6;
      assert EfficiencyBands[i].span.Contains(x);
    }
  }

  /** The band edges: 180 and 220 are both in the best band, 260 and 300 close theirs. */
  lemma EfficiencyAdjBoundaries()
    ensures EfficiencyAdj(180.0) == 0.10 && EfficiencyAdj(220.0) == 0.10
    ensures EfficiencyAdj(260.0) == 0.05
    ensures EfficiencyAdj(300.0) == 0.0
    ensures forall e: real :: e < 100.0 || 300.0 < e ==> EfficiencyAdj(e) == -0.05
  {
  }
}
