/**
 Tiered, cumulative mileage reimbursement: the first 100 miles are paid at
 0.58, the next 400 at 0.45 and every mile after that at 0.35. The
 calculator computes it with a loop that takes each tier's share of the
 remaining miles in turn; this module gives the closed form and proves the
 loop computes it.
 */
module Mileage {

  function Min(a: real, b: real): real { if a <= b then a else b }

  function Max(a: real, b: real): real { if a >= b then a else b }

  /** How many miles a tier can absorb: a fixed number, or all that remain. */
  datatype Cap = Miles(n: real) | Unlimited

  datatype Tier = Tier(cap: Cap, rate: real)

  /** The tier table, in the order the tiers are consumed. */
  const MileageTiers: seq<Tier> := [
    Tier(Miles(100.0), 0.58),
    Tier(Miles(400.0), 0.45),
    Tier(Unlimited, 0.35)
  ]

  /**
   The share of `remaining` miles a tier with cap `cap` takes: never more
   than remains nor more than the cap, and it leaves miles over only when
   the tier is full. The loop below relies on the last fact to know where
   the next tier starts.
   */
  function Take(cap: Cap, remaining: real): (take: real)
    ensures take <= remaining
    ensures cap.Miles? ==> take <= cap.n
    ensures take < remaining ==> cap.Miles? && take == cap.n
  {
    match cap
    case Miles(n) => Min(remaining, n)
    case Unlimited => remaining
  }

  /** The mile at which tier `i` starts: the caps of the tiers before it, added up. */
  function TierStart(i: nat): (start: real)
    requires i < |MileageTiers|
    ensures i == 0 ==> start == 0.0
    ensures i == 1 ==> start == 100.0
    ensures i == 2 ==> start == 500.0
  {
    if i == 0 then 0.0 else TierStart(i - 1) + MileageTiers[i - 1].cap.n
  }

  /**
   The closed form of the tiered mileage reimbursement: the amount earned
   up to the start of the tier `m` falls in, plus that tier's rate on the
   miles past its start.
   */
  function MileageClosedForm(m: real): (amount: real)
    ensures m == 0.0 ==> amount == 0.0
    ensures 0.0 <= m ==> 0.35 * m <= amount <= 0.58 * m
  {
    if m <= 100.0 then 0.58 * m
    else if m <= 500.0 then 58.0 + 0.45 * (m - 100.0)
    else 238.0 + 0.35 * (m - 500.0)
  }

  /** The same amount as a sum of per-tier shares: each tier's miles at its rate. */
  lemma MileageAsTierShares(m: real)
    ensures MileageClosedForm(m) == 0.58 * Min(m, 100.0) + 0.45 * Min(Max(m - 100.0, 0.0), 400.0) + 0.35 * Max(m - 500.0, 0.0)
  {
  }

  /**
   Inside a tier every mile is paid at that tier's rate: past the tier's
   start, the closed form grows by the rate times the extra miles, up to the
   tier's cap. The first tier also covers negative mileage.
   */
  lemma MileageWithinTier(i: nat, t: real)
    requires i < |MileageTiers|
    requires 0 < i ==> 0.0 <= t
    requires MileageTiers[i].cap.Miles? ==> t <= MileageTiers[i].cap.n
    ensures MileageClosedForm(TierStart(i) + t) == MileageClosedForm(TierStart(i)) + MileageTiers[i].rate * t
  {
  }

  /**
   The calculator's loop. It always leaves by the `break`: the last tier has
   no cap, so it takes everything that remains.
   */
  method TieredMileage(miles: real) returns (total: real)
    ensures total == MileageClosedForm(miles)
  {
    total := 0.0;
    var remaining := miles;
    ghost var consumed := 0.0;
    var i := 0;
    while i < |MileageTiers|
      invariant i < |MileageTiers|
      invariant consumed + remaining == miles
      invariant consumed == TierStart(i)
      invariant 0 < i ==> 0.0 < remaining
      invariant total == MileageClosedForm(consumed)
    {
      var tier := MileageTiers[i];
      var take := Take(tier.cap, remaining);
      MileageWithinTier(i, take);
      total := total + take * tier.rate;
      remaining := remaining - take;
      consumed := consumed + take;
      if remaining <= 0.0 {
        break;
      }
      i := i + 1;
    }
  }

  /**
   Each extra mile is paid at least the lowest tier rate and at most the
   highest, wherever it falls; in particular the amount strictly grows with
   the miles driven.
   */
  lemma MileageMarginalRate(m1: real, m2: real)
    requires m1 <= m2
    ensures 0.35 * (m2 - m1) <= MileageClosedForm(m2) - MileageClosedForm(m1) <= 0.58 * (m2 - m1)
  {
  }

  lemma MileageStrictlyIncreasing(m1: real, m2: real)
    requires m1 < m2
    ensures MileageClosedForm(m1) < MileageClosedForm(m2)
  {
    MileageMarginalRate(m1, m2);
  }

  /** The amounts at the tier boundaries. */
  lemma MileageAtTierBoundaries()
    ensures MileageClosedForm(100.0) == 58.0
    ensures MileageClosedForm(500.0) == 238.0
  {
  }
}
