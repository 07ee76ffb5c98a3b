/** Coupons as the checkout page reads them: only percentage coupons are honoured. */
module Coupons {
  import opened Wrappers

  /** The coupon's `discount_type`. Only `percentage` is implemented; any other
      stored type (such as `amount`) is kept as an explicit unsupported arm. */
  datatype DiscountType = Percentage | Unsupported(name: string)

  datatype Coupon = Coupon(code: string, discountType: DiscountType, discountValue: real)

  /** `data && data.discount_type === 'percentage'`. */
  predicate IsPercentage(found: Option<Coupon>) {
    found.Some? && found.value.discountType == Percentage
  }

  /** The discount rate after a coupon lookup whose answer is `found` (None when the
      code is unknown): a percentage coupon sets the rate to value / 100, anything
      else leaves the current rate as it was. */
  function RateAfterLookup(found: Option<Coupon>, current: real): (rate: real)
    ensures rate != current ==> IsPercentage(found)
    ensures IsPercentage(found) ==> rate * 100.0 == found.value.discountValue
  {
    if IsPercentage(found) then found.value.discountValue / 100.0
    else current
  }

  /** A missing code or an unsupported coupon type is not an error: the rate stays. */
  lemma NonPercentageKeepsRate(found: Option<Coupon>, current: real)
    requires found.None? || found.value.discountType.Unsupported?
    ensures RateAfterLookup(found, current) == current
  {
  }

  /** Applying the same lookup answer twice gives the same rate as applying it once,
      and a percentage coupon's rate does not depend on the rate before it. */
  lemma RateAfterLookupIdempotent(found: Option<Coupon>, current: real, other: real)
    ensures RateAfterLookup(found, RateAfterLookup(found, current)) == RateAfterLookup(found, current)
    ensures IsPercentage(found) ==> RateAfterLookup(found, current) == RateAfterLookup(found, other)
  {
  }

  /** A percentage between 0 and 100 yields a rate between 0 and 1, the range in which
      the price estimate never falls below the shipping fee. */
  lemma PercentageRateInUnitRange(found: Option<Coupon>, current: real)
    requires 0.0 <= current <= 1.0
    requires found.Some? ==> 0.0 <= found.value.discountValue <= 100.0
    ensures 0.0 <= RateAfterLookup(found, current) <= 1.0
  {
  }
}
