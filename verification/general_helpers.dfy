/** `GET_DISCOUNTED_AMOUNTS` of src/helpers/general_helpers.js: a discount
    applied to an (initial, installment) pair of amounts, each result floored
    at zero. The payment handlers do not use it. */
module GeneralHelpers {

  /** The part of `amount` a discount removes: a percentage of it, or the flat
      discount itself (any `discountType` other than "percentage" is flat). */
  function DiscountOff(discount: real, discountType: string, amount: real): real
  {
    if discountType == "percentage" then amount * (discount / 100.0) else discount
  }

  /** `x` after the discount, or 0 when the discount would take it to 0 or below. */
  predicate IsFlooredDiscount(result: real, x: real, off: real)
  {
    if x - off > 0.0 then result == x - off else result == 0.0
  }

  /** Returns `(discounted_initial_amount, discounted_installment_amount)`. */
  function GetDiscountedAmounts(discount: real, discountType: string, initialAmount: real,
                                installmentAmount: real): (r: (real, real))
    ensures r.0 >= 0.0 && r.1 >= 0.0
    ensures IsFlooredDiscount(r.0, initialAmount, DiscountOff(discount, discountType, initialAmount))
    ensures IsFlooredDiscount(r.1, installmentAmount, DiscountOff(discount, discountType, installmentAmount))
  {
    var (discountInitialAmount, discountInstallmentAmount) :=
      if discountType == "percentage" then
        var discountValue := discount / 100.0;
        (initialAmount * discountValue, installmentAmount * discountValue)
      else
        (discount, discount);
    var initialAfterDiscount := initialAmount - discountInitialAmount;
    var installmentAfterDiscount := installmentAmount - discountInstallmentAmount;
    (if initialAfterDiscount > 0.0 then initialAfterDiscount else 0.0,
     if installmentAfterDiscount > 0.0 then installmentAfterDiscount else 0.0)
  }

  /** A discount never raises an amount: with non-negative inputs and discount,
      each result lies between 0 and its input. */
  lemma DiscountNeverRaises(discount: real, discountType: string, initialAmount: real, installmentAmount: real)
    requires discount >= 0.0 && initialAmount >= 0.0 && installmentAmount >= 0.0
    ensures var r := GetDiscountedAmounts(discount, discountType, initialAmount, installmentAmount);
      0.0 <= r.0 <= initialAmount && 0.0 <= r.1 <= installmentAmount
  {
    assert initialAmount * (discount / 100.0) >= 0.0;
    assert installmentAmount * (discount / 100.0) >= 0.0;
  }

  /** A zero discount returns positive amounts unchanged. */
  lemma ZeroDiscountKeepsAmounts(discountType: string, initialAmount: real, installmentAmount: real)
    requires initialAmount > 0.0 && installmentAmount > 0.0
    ensures GetDiscountedAmounts(0.0, discountType, initialAmount, installmentAmount) == (initialAmount, installmentAmount)
  {
  }

  /** A 100% discount makes both amounts zero. */
  lemma FullPercentageIsFree(initialAmount: real, installmentAmount: real)
    ensures GetDiscountedAmounts(100.0, "percentage", initialAmount, installmentAmount) == (0.0, 0.0)
  {
  }

  /** A flat discount is not pro-rated: whenever neither result is floored,
      both amounts lose exactly the same `discount`. */
  lemma FlatDiscountNotProRated(discount: real, discountType: string, initialAmount: real, installmentAmount: real)
    requires discountType != "percentage"
    requires initialAmount - discount > 0.0 && installmentAmount - discount > 0.0
    ensures var r := GetDiscountedAmounts(discount, discountType, initialAmount, installmentAmount);
      initialAmount - r.0 == discount && installmentAmount - r.1 == discount
  {
  }

  /** The two results are independent: the first depends only on the initial
      amount, the second only on the installment amount. */
  lemma ResultsIndependent(discount: real, discountType: string, initialAmount: real, installmentAmount: real,
                           otherInitial: real, otherInstallment: real)
    ensures GetDiscountedAmounts(discount, discountType, initialAmount, installmentAmount).0
         == GetDiscountedAmounts(discount, discountType, initialAmount, otherInstallment).0
    ensures GetDiscountedAmounts(discount, discountType, initialAmount, installmentAmount).1
         == GetDiscountedAmounts(discount, discountType, otherInitial, installmentAmount).1
  {
  }
}
