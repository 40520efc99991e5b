/** `calculateCheckout`: the quote for a plan, a dependent count and a billing
    cycle. The source reads today's date from the clock; here the day of the
    month and the month (1 = January) are parameters. */
module PricingEngine {
  import opened PricingData

  datatype BillingCycle = Monthly | Yearly

  /** `CalculationResult`: all amounts in reais, exact. */
  datatype CalculationResult = CalculationResult(
    baseFee: real,        // monthly fee per person, after the volume discount
    enrollmentFee: real,  // enrollment fee per person
    proRataAmount: real,  // the partial first month
    monthlyTotal: real,   // recurring monthly total for everyone
    annualTotal: real,    // first year, 10% off
    totalDueNow: real,    // what is charged now, by cycle
    peopleCount: nat      // holder plus dependents
  )

  /** The simplified month length: 28 in February, 30 in every other month. */
  function DaysBase(month: int): (base: int)
    ensures base == 28 <==> month == 2
    ensures base == 30 <==> month != 2
  {
    if month == 2 then 28 else 30
  }

  /** Days left in the month, never negative (on the 31st it is 0). */
  function DaysToEndOfMonth(day: int, month: int): (days: int)
    ensures days >= 0
    ensures days >= DaysBase(month) - day
    ensures days == 0 || days == DaysBase(month) - day
    ensures day >= 1 ==> days <= DaysBase(month) - 1
  {
    var d := DaysBase(month) - day;
    if d < 0 then 0 else d
  }

  /** `(days * (fee / daysBase)) * peopleCount`: the share of one month's
      charge for everyone that the remaining days make up. */
  function ProRata(fee: real, peopleCount: nat, day: int, month: int): (amount: real)
    requires fee >= 0.0
    requires day >= 1
    ensures 0.0 <= amount <= fee * peopleCount as real
    ensures amount * DaysBase(month) as real
         == DaysToEndOfMonth(day, month) as real * (fee * peopleCount as real)
  {
    var days := DaysToEndOfMonth(day, month);
    var base := DaysBase(month);
    ProRataBounded(days, base, fee, peopleCount);
    (days as real * (fee / base as real)) * peopleCount as real
  }

  lemma ProRataBounded(days: int, base: int, fee: real, people: nat)
    requires 0 <= days <= base && base > 0 && fee >= 0.0
    ensures 0.0 <= (days as real * (fee / base as real)) * people as real <= fee * people as real
    ensures (days as real * (fee / base as real)) * people as real * base as real
         == days as real * (fee * people as real)
  {
  }

  /** The arithmetic of the quote, given the two per-person fees read from
      the table. */
  function Quote(fee: real, enrollment: real, dependentsCount: nat, billingCycle: BillingCycle,
                 day: int, month: int): (r: CalculationResult)
    requires fee >= 0.0
    requires 1 <= day <= 31 && 1 <= month <= 12
    ensures r.peopleCount == dependentsCount + 1
    ensures r.baseFee == fee && r.enrollmentFee == enrollment
    ensures r.monthlyTotal == r.baseFee * r.peopleCount as real
    ensures 0.0 <= r.proRataAmount <= r.monthlyTotal
    ensures r.proRataAmount * DaysBase(month) as real
         == DaysToEndOfMonth(day, month) as real * r.monthlyTotal
    ensures r.annualTotal == 0.9 * (r.monthlyTotal * 11.0 + r.proRataAmount)
    ensures r.totalDueNow ==
      (if billingCycle == Yearly then r.annualTotal else r.proRataAmount)
      + r.enrollmentFee * r.peopleCount as real
  {
    var peopleCount := dependentsCount + 1;
    var monthlyTotal := fee * peopleCount as real;
    var costProRata := ProRata(fee, peopleCount, day, month);
    var annualBasePrice := monthlyTotal * 11.0 + costProRata;
    var annualPriceWithDiscount := annualBasePrice * 0.9;
    var totalEnrollment := enrollment * peopleCount as real;
    var totalDueNow :=
      if billingCycle == Yearly then annualPriceWithDiscount + totalEnrollment
      else costProRata + totalEnrollment;
    CalculationResult(fee, enrollment, costProRata, monthlyTotal,
                      annualPriceWithDiscount, totalDueNow, peopleCount)
  }

  /** The quote. `day` and `month` are today's date as the clock gives it
      (`getDate()` and `getMonth() + 1`). */
  function CalculateCheckout(planId: string, dependentsCount: nat, billingCycle: BillingCycle,
                             day: int, month: int): (r: CalculationResult)
    requires 1 <= day <= 31 && 1 <= month <= 12
    ensures r.peopleCount == dependentsCount + 1
    ensures r.baseFee == GetTieredFee(planId, dependentsCount)
    ensures r.enrollmentFee == GetEnrollmentFee(planId, dependentsCount)
    ensures r == Quote(r.baseFee, r.enrollmentFee, dependentsCount, billingCycle, day, month)
  {
    Quote(GetTieredFee(planId, dependentsCount), GetEnrollmentFee(planId, dependentsCount),
          dependentsCount, billingCycle, day, month)
  }

  /** With non-negative fees every amount of a quote is non-negative; the
      table's fees are (`GetTieredFee`, `GetEnrollmentFee`), so every quote
      `CalculateCheckout` gives is. */
  lemma QuoteNonNegative(fee: real, enrollment: real, dependentsCount: nat,
                         billingCycle: BillingCycle, day: int, month: int)
    requires fee >= 0.0 && enrollment >= 0.0
    requires 1 <= day <= 31 && 1 <= month <= 12
    ensures var r := Quote(fee, enrollment, dependentsCount, billingCycle, day, month);
      && r.proRataAmount >= 0.0 && r.monthlyTotal >= 0.0 && r.annualTotal >= 0.0
      && r.totalDueNow >= 0.0
  {
  }

  /** The billing cycle changes only the amount due now: the per-person fees,
      the pro-rata, the monthly and the annual totals are the same for both. */
  lemma CycleOnlyAffectsTotalDueNow(planId: string, dependentsCount: nat, day: int, month: int)
    requires 1 <= day <= 31 && 1 <= month <= 12
    ensures var m := CalculateCheckout(planId, dependentsCount, Monthly, day, month);
            var y := CalculateCheckout(planId, dependentsCount, Yearly, day, month);
      m.(totalDueNow := 0.0) == y.(totalDueNow := 0.0)
  {
  }

  /** Paying monthly never costs more up front than paying for the year, for
      the same plan, dependents and date. */
  lemma MonthlyDueNowAtMostYearly(planId: string, dependentsCount: nat, day: int, month: int)
    requires 1 <= day <= 31 && 1 <= month <= 12
    ensures CalculateCheckout(planId, dependentsCount, Monthly, day, month).totalDueNow
         <= CalculateCheckout(planId, dependentsCount, Yearly, day, month).totalDueNow
  {
  }

  /** Plan "quality", one dependent, the 20th of a 30-day month, monthly:
      10 days of 66/30 for two people is 44, plus 2 x 16 enrollment. */
  lemma QualityOneDependentMonthly(month: int)
    requires 1 <= month <= 12 && month != 2
    ensures var r := CalculateCheckout("quality", 1, Monthly, 20, month);
      && r.baseFee == 66.0 && r.enrollmentFee == 16.0 && r.peopleCount == 2
      && r.proRataAmount == 44.0 && r.monthlyTotal == 132.0 && r.totalDueNow == 76.0
  {
  }

  /** The same order paid yearly: (66 x 2 x 11 + 44) x 0.9 = 1346.4, plus 32. */
  lemma QualityOneDependentYearly(month: int)
    requires 1 <= month <= 12 && month != 2
    ensures var r := CalculateCheckout("quality", 1, Yearly, 20, month);
      r.annualTotal == 1346.4 && r.totalDueNow == 1378.4
  {
  }

  /** Five dependents on "kids" are priced like three: the fee lookups clamp
      to the last tier, so only the head count differs. */
  lemma KidsFiveDependentsUsesLastTier(billingCycle: BillingCycle, day: int, month: int)
    requires 1 <= day <= 31 && 1 <= month <= 12
    ensures var five := CalculateCheckout("kids", 5, billingCycle, day, month);
            var three := CalculateCheckout("kids", 3, billingCycle, day, month);
      five.baseFee == three.baseFee == 20.0 && five.enrollmentFee == three.enrollmentFee == 8.0
      && five.peopleCount == 6
  {
  }
}
