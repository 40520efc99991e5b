/** The static tiered price table: per plan, the monthly fee and the
    enrollment fee per person, indexed by the number of dependents (index 0
    means no dependents); counts past the table use the last, cheapest tier. */
module PricingData {
  import opened Basics

  datatype PricingTier = PricingTier(monthly: seq<real>, enrollment: seq<real>)

  /** `PRICING_TABLE[planId]`, `None` for an id that is not a key. */
  function PricingTable(planId: string): (t: Option<PricingTier>)
    ensures t.Some? <==> planId in {"quality", "quality-plus", "smart", "kids", "light-plus"}
  {
    if planId == "quality" then
      Some(PricingTier([72.0, 66.0, 62.0, 60.0], [18.0, 16.0, 14.0, 13.0]))
    else if planId == "quality-plus" then
      Some(PricingTier([48.0, 44.0, 42.0, 40.0], [16.0, 14.0, 12.0, 11.0]))
    else if planId == "smart" then
      Some(PricingTier([30.0, 28.0, 27.0, 26.0], [14.0, 12.0, 10.0, 9.0]))
    else if planId == "kids" then
      Some(PricingTier([22.0, 21.0, 20.0, 20.0], [12.0, 10.0, 8.0, 8.0]))
    else if planId == "light-plus" then
      Some(PricingTier([10.0, 9.0, 8.0, 7.0], [5.0, 5.0, 5.0, 5.0]))
    else
      None
  }

  predicate NonIncreasing(s: seq<real>)
  {
    forall i, j :: 0 <= i <= j < |s| ==> s[j] <= s[i]
  }

  predicate AllPositive(s: seq<real>)
  {
    forall i :: 0 <= i < |s| ==> s[i] > 0.0
  }

  /** What every row of the table satisfies: both fee lists are non-empty,
      equally long, positive and non-increasing. */
  predicate WellFormedTier(t: PricingTier)
  {
    && |t.monthly| > 0
    && |t.monthly| == |t.enrollment|
    && AllPositive(t.monthly) && AllPositive(t.enrollment)
    && NonIncreasing(t.monthly) && NonIncreasing(t.enrollment)
  }

  /** A four-tier row whose entries descend step by step is well formed. */
  lemma FourTiersWellFormed(m0: real, m1: real, m2: real, m3: real,
                                               e0: real, e1: real, e2: real, e3: real)
    requires m0 >= m1 >= m2 >= m3 > 0.0
    requires e0 >= e1 >= e2 >= e3 > 0.0
    ensures WellFormedTier(PricingTier([m0, m1, m2, m3], [e0, e1, e2, e3]))
  {
  }

  /** Every row of the table is well formed, with exactly four tiers. */
  lemma {:induction false} TableWellFormed(planId: string)
    ensures PricingTable(planId).Some? ==>
      WellFormedTier(PricingTable(planId).value) && |PricingTable(planId).value.monthly| == 4
  {
    if planId == "quality" {
      FourTiersWellFormed(72.0, 66.0, 62.0, 60.0, 18.0, 16.0, 14.0, 13.0);
    } else if planId == "quality-plus" {
      FourTiersWellFormed(48.0, 44.0, 42.0, 40.0, 16.0, 14.0, 12.0, 11.0);
    } else if planId == "smart" {
      FourTiersWellFormed(30.0, 28.0, 27.0, 26.0, 14.0, 12.0, 10.0, 9.0);
    } else if planId == "kids" {
      FourTiersWellFormed(22.0, 21.0, 20.0, 20.0, 12.0, 10.0, 8.0, 8.0);
    } else if planId == "light-plus" {
      FourTiersWellFormed(10.0, 9.0, 8.0, 7.0, 5.0, 5.0, 5.0, 5.0);
    }
  }

  /** `Math.min(dependentsCount, length - 1)`. */
  function TierIndex(dependentsCount: nat, length: nat): (k: nat)
    requires length > 0
    ensures k < length
    ensures k <= dependentsCount
    ensures k == dependentsCount || k == length - 1
  {
    if dependentsCount < length - 1 then dependentsCount else length - 1
  }

  /** `TableWellFormed` at one index, free of quantifiers, for use inside the
      fee lookups below. */
  lemma TierEntryPositive(planId: string, k: nat)
    requires PricingTable(planId).Some?
    ensures |PricingTable(planId).value.monthly| == |PricingTable(planId).value.enrollment| == 4
    ensures k < 4 ==>
      PricingTable(planId).value.monthly[k] > 0.0 && PricingTable(planId).value.enrollment[k] > 0.0
  {
    TableWellFormed(planId);
  }

  /** `getTieredFee`: the monthly fee per person. */
  function GetTieredFee(planId: string, dependentsCount: nat): (fee: real)
    ensures fee >= 0.0
    ensures PricingTable(planId).None? ==> fee == 0.0
  {
    match PricingTable(planId)
    case None => 0.0
    case Some(plan) =>
      var k := TierIndex(dependentsCount, 4);
      TierEntryPositive(planId, k);
      plan.monthly[TierIndex(dependentsCount, |plan.monthly|)]
  }

  /** `getEnrollmentFee`: the enrollment fee per person. */
  function GetEnrollmentFee(planId: string, dependentsCount: nat): (fee: real)
    ensures fee >= 0.0
    ensures PricingTable(planId).None? ==> fee == 0.0
  {
    match PricingTable(planId)
    case None => 0.0
    case Some(plan) =>
      var k := TierIndex(dependentsCount, 4);
      TierEntryPositive(planId, k);
      plan.enrollment[TierIndex(dependentsCount, |plan.enrollment|)]
  }

  /** Below the last tier, a lookup is the table entry at the dependent count;
      at or beyond it, it is the last entry. */
  lemma LookupIsClampedEntry(planId: string, dependentsCount: nat)
    requires PricingTable(planId).Some?
    ensures var plan := PricingTable(planId).value;
      && (dependentsCount < |plan.monthly| ==>
            GetTieredFee(planId, dependentsCount) == plan.monthly[dependentsCount] &&
            GetEnrollmentFee(planId, dependentsCount) == plan.enrollment[dependentsCount])
      && (dependentsCount >= |plan.monthly| - 1 ==>
            GetTieredFee(planId, dependentsCount) == plan.monthly[|plan.monthly| - 1] &&
            GetEnrollmentFee(planId, dependentsCount) == plan.enrollment[|plan.enrollment| - 1])
  {
  }

  /** Any count at or past the last tier prices like the last tier: with four
      tiers, every count from 3 on is priced as 3. */
  lemma ClampsToLastTier(planId: string, dependentsCount: nat)
    requires dependentsCount >= 3
    ensures GetTieredFee(planId, dependentsCount) == GetTieredFee(planId, 3)
    ensures GetEnrollmentFee(planId, dependentsCount) == GetEnrollmentFee(planId, 3)
  {
  }

  /** Volume discount: more dependents never raise the per-person fees. */
  lemma FeesNonIncreasing(planId: string, fewer: nat, more: nat)
    requires fewer <= more
    ensures GetTieredFee(planId, more) <= GetTieredFee(planId, fewer)
    ensures GetEnrollmentFee(planId, more) <= GetEnrollmentFee(planId, fewer)
  {
  }

  /** A known plan charges a positive monthly fee for any count. */
  lemma KnownPlanFeesPositive(planId: string, dependentsCount: nat)
    requires PricingTable(planId).Some?
    ensures GetTieredFee(planId, dependentsCount) > 0.0
    ensures GetEnrollmentFee(planId, dependentsCount) > 0.0
  {
  }
}
