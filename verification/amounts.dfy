/** The amount arithmetic of the four `createPayment*` handlers of
    src/paypal-handler.js, as functions of the body fields they read.

    Two discount formulas exist and are kept apart:
    - the one written out identically in the one-time, recurring and fixed
      handlers: a percentage or a flat amount taken off `amount`, the result
      kept to one decimal (`DiscountStep`), then tax (`TaxStep`) and, for
      fixed plans, the division over the cycles (`CycleStep`);
    - the installment one: a flat discount is first turned into the
      equivalent percentage of the whole price, which then scales both the
      up-front `initial_amount` and the rest of the price
      (`InstallmentDiscount`), followed by tax kept to two decimals
      (`InstallmentTax`) and the division of the regular amount over the
      cycles (`InstallmentCycles`). */
module Amounts {
  import opened Money
  import opened Wrappers

  /** The only `discount_type` the handlers treat as a percentage; any other value is flat. */
  const PERCENTAGE: string := "percentage"

  // ---------------------------------------------------------------------------
  // One-time, recurring and fixed plans
  // ---------------------------------------------------------------------------

  /** The exact price after a discount, before any rounding. */
  function Discounted(amount: real, discountType: string, discount: real): real
  {
    if discountType == PERCENTAGE then amount - amount * discount / 100.0 else amount - discount
  }

  /** The discount block shared by the one-time, recurring and fixed handlers:
      skipped unless `discount > 0`, otherwise the discounted price read back
      through `toFixed(1)`. */
  function DiscountStep(amount: real, discountType: string, discount: real): (r: real)
    ensures discount <= 0.0 ==> r == amount
    ensures discount > 0.0 ==> -0.05 <= r - Discounted(amount, discountType, discount) <= 0.05
    ensures discount > 0.0 ==> OnGrid(r, 1)
  {
    if discount > 0.0 then
      if discountType == PERCENTAGE then
        var discountAmount := (discount / 100.0) * amount;
        RoundTenthsError(amount - discountAmount);
        Round(amount - discountAmount, 1)
      else
        RoundTenthsError(amount - discount);
        Round(amount - discount, 1)
    else
      amount
  }

  /** With `discount > 0` the discount block yields exactly the discounted
      price rounded to one decimal, for either discount type. */
  lemma DiscountStepRoundsDiscounted(amount: real, discountType: string, discount: real)
    requires discount > 0.0
    ensures DiscountStep(amount, discountType, discount) == Round(Discounted(amount, discountType, discount), 1)
  {
    if discountType == PERCENTAGE {
      assert amount - (discount / 100.0) * amount == amount - amount * discount / 100.0;
    }
  }

  /** The tax block: adds `tax` percent of the amount once, or nothing when `tax <= 0`. */
  function TaxStep(amount: real, tax: real): (r: real)
    ensures tax <= 0.0 ==> r == amount
    ensures tax > 0.0 ==> r - amount == amount * tax / 100.0
    ensures amount >= 0.0 && tax >= 0.0 ==> r >= amount
  {
    if tax > 0.0 then
      var taxAmount := amount * (tax / 100.0);
      taxAmount + amount
    else
      amount
  }

  /** The per-cycle charge of a fixed plan: `cycles` such charges make up the amount. */
  function CycleStep(amount: real, cycles: int): (r: real)
    ensures cycles > 0 ==> r * cycles as real == amount
    ensures cycles <= 0 ==> r == amount
  {
    if cycles > 0 then amount / cycles as real else amount
  }

  lemma CycleStepSpreads(amount: real, cycles: int)
    ensures SpreadsOver(CycleStep(amount, cycles), if cycles > 0 then cycles as real else 1.0, amount)
  {
  }

  /** The charge of a one-time payment or of each period of a recurring plan:
      tax is charged on the discounted price, not on the list price. */
  function StandardAmount(amount: real, discountType: string, discount: real, tax: real): (r: real)
    ensures var d := DiscountStep(amount, discountType, discount);
      && (tax <= 0.0 ==> r == d)
      && (tax > 0.0 ==> r - d == d * tax / 100.0)
    ensures discount <= 0.0 && tax <= 0.0 ==> r == amount
  {
    TaxStep(DiscountStep(amount, discountType, discount), tax)
  }

  /** The charge of each cycle of a fixed recurring plan: `cycles` such
      charges make up the charge of a recurring plan with the same body. */
  function FixedAmount(amount: real, discountType: string, discount: real, tax: real, cycles: int): (r: real)
    ensures SpreadsOver(r, if cycles > 0 then cycles as real else 1.0, StandardAmount(amount, discountType, discount, tax))
  {
    var charge := StandardAmount(amount, discountType, discount, tax);
    CycleStepSpreads(charge, cycles);
    CycleStep(charge, cycles)
  }

  /** A 100% discount makes the charge exactly zero, whatever the amount. */
  lemma FullPercentageIsFree(amount: real)
    ensures DiscountStep(amount, PERCENTAGE, 100.0) == 0.0
  {
    assert amount - (100.0 / 100.0) * amount == 0.0;
    RoundZero(1);
  }

  /** A percentage discount of at most 100 of a non-negative amount never goes below zero. */
  lemma PercentageNotNegative(amount: real, discount: real)
    requires amount >= 0.0 && discount <= 100.0
    ensures DiscountStep(amount, PERCENTAGE, discount) >= 0.0
  {
    if discount > 0.0 {
      var cut := (discount / 100.0) * amount;
      ShareAtMostWhole(discount / 100.0, amount);
      assert amount - cut >= 0.0;
    }
  }

  lemma ShareAtMostWhole(share: real, whole: real)
    requires share <= 1.0 && whole >= 0.0
    ensures share * whole <= whole && whole * share <= whole
  {
  }

  /** Unlike the helper `GET_DISCOUNTED_AMOUNTS`, the flat path has no zero floor:
      a flat discount larger than the price leaves a negative charge. */
  lemma FlatHasNoFloor()
    ensures DiscountStep(10.0, "flat", 15.0) == -5.0
  {
    assert OnGrid(-5.0, 1) by {
      assert Scale(1) == 10.0;
      assert GridValue(-50, 1) == -5.0;
    }
    RoundOnGrid(-5.0, 1);
  }

  /** 100 with 10% off and no tax is charged 90. */
  lemma TenPercentOffHundred()
    ensures StandardAmount(100.0, PERCENTAGE, 10.0, 0.0) == 90.0
  {
    assert (10.0 / 100.0) * 100.0 == 10.0;
    assert OnGrid(90.0, 1) by {
      assert Scale(1) == 10.0;
      assert GridValue(900, 1) == 90.0;
    }
    RoundOnGrid(90.0, 1);
  }

  // ---------------------------------------------------------------------------
  // Installment plans
  // ---------------------------------------------------------------------------

  /** The amounts an installment plan carries: the per-period `regular`
      charge and the up-front `initial` charge (the plan's setup fee). */
  datatype InstallmentAmounts = InstallmentAmounts(regular: real, initial: real)

  /** The discount as a percentage of the whole price: a percentage as given, a
      flat discount as its share of `amount`. */
  function EffectivePercentage(amount: real, discountType: string, discount: real): (p: real)
    requires discountType != PERCENTAGE ==> amount != 0.0
    ensures discountType == PERCENTAGE ==> p == discount
  {
    if discountType == PERCENTAGE then discount else (discount / amount) * 100.0
  }

  /** The share of the price the payer still pays after the discount. */
  function Kept(amount: real, discountType: string, discount: real): real
    requires discountType != PERCENTAGE ==> amount != 0.0
  {
    1.0 - EffectivePercentage(amount, discountType, discount) / 100.0
  }

  lemma DivideThenMultiply(n: real, d: real)
    requires d != 0.0
    ensures (n / d) * d == n
  {
  }

  lemma DivideBySelf(d: real)
    requires d != 0.0
    ensures d / d == 1.0
  {
  }

  /** What the divisions of the installment discount block need: with
      `discount > 0`, a non-zero price for a flat discount and a non-zero
      `interval_count`. Without a discount neither field is read. */
  predicate DiscountDivisible(amount: real, discountType: string, discount: real, intervalCount: real)
  {
    discount > 0.0 ==> (discountType != PERCENTAGE ==> amount != 0.0) && intervalCount != 0.0
  }

  /** The installment discount block. With `discount > 0` the initial payment
      and the rest of the price are each scaled by the kept share; the rest is
      spread over `intervalCount` periods and the initial payment kept to two
      decimals. With `discount <= 0` nothing changes: the regular amount stays
      the whole price. */
  function InstallmentDiscount(amount: real, initial: real, discountType: string, discount: real,
                               intervalCount: real): (r: InstallmentAmounts)
    requires DiscountDivisible(amount, discountType, discount, intervalCount)
    ensures discount <= 0.0 ==> r == InstallmentAmounts(amount, initial)
  {
    if discount > 0.0 then
      ScaleByShare(amount, initial, Kept(amount, discountType, discount), intervalCount)
    else
      InstallmentAmounts(amount, initial)
  }

  /** The `discount > 0` guard makes the regular charge jump. With no discount
      it is the whole price; with any positive percentage discount, however
      small, `interval_count` regular charges add up to at most the price less
      the initial payment. */
  lemma DiscountGuardJump(amount: real, initial: real, discount: real, intervalCount: real)
    requires 0.0 < discount <= 100.0 && intervalCount >= 1.0 && 0.0 <= initial <= amount
    ensures InstallmentDiscount(amount, initial, PERCENTAGE, 0.0, intervalCount).regular == amount
    ensures InstallmentDiscount(amount, initial, PERCENTAGE, discount, intervalCount).regular * intervalCount
            <= amount - initial
  {
    var keep := 1.0 - discount / 100.0;
    PercentageInstallmentShares(amount, initial, discount, intervalCount, keep);
    var regular := InstallmentDiscount(amount, initial, PERCENTAGE, discount, intervalCount).regular;
    assert regular * intervalCount == (amount - initial) * keep;
    ShareAtMostWhole(keep, amount - initial);
  }

  /** 1200 with 200 up front over 10 periods: without a discount the regular
      charge is 1200, with 1% off it is 99. */
  lemma DiscountGuardJumpExample()
    ensures InstallmentDiscount(1200.0, 200.0, PERCENTAGE, 0.0, 10.0).regular == 1200.0
    ensures InstallmentDiscount(1200.0, 200.0, PERCENTAGE, 1.0, 10.0).regular == 99.0
  {
    PercentageInstallmentShares(1200.0, 200.0, 1.0, 10.0, 0.99);
  }

  /** `count` charges of `share` add up to `total`. */
  predicate SpreadsOver(share: real, count: real, total: real)
  {
    share * count == total
  }

  /** `r` is within half a cent of `x`. */
  predicate WithinHalfCent(r: real, x: real)
  {
    -0.005 <= r - x <= 0.005
  }

  /** `discountedInstallmentTotal / body.interval_count`: the discounted rest of the price per period. */
  function SpreadRest(amount: real, initial: real, keep: real, intervalCount: real): (r: real)
    requires intervalCount != 0.0
    ensures SpreadsOver(r, intervalCount, (amount - initial) * keep)
  {
    var discountedInstallmentTotal := (amount - initial) * keep;
    DivideThenMultiply(discountedInstallmentTotal, intervalCount);
    discountedInstallmentTotal / intervalCount
  }

  /** `discountedInitial.toFixed(2)`: the discounted initial payment to the cent. */
  function DiscountedInitial(initial: real, keep: real): (r: real)
    ensures WithinHalfCent(r, initial * keep)
    ensures OnGrid(r, 2)
  {
    var discountedInitial := initial * keep;
    RoundCentsError(discountedInitial);
    Round(discountedInitial, 2)
  }

  /** The discounted pair when the payer keeps the share `keep` of the price. */
  function ScaleByShare(amount: real, initial: real, keep: real, intervalCount: real): (r: InstallmentAmounts)
    requires intervalCount != 0.0
    ensures SpreadsOver(r.regular, intervalCount, (amount - initial) * keep)
    ensures WithinHalfCent(r.initial, initial * keep)
    ensures OnGrid(r.initial, 2)
  {
    InstallmentAmounts(SpreadRest(amount, initial, keep, intervalCount), DiscountedInitial(initial, keep))
  }

  /** With a percentage discount `d > 0`, the payer keeps the share
      `keep = 1 - d/100` of the price: the rest of the price, scaled by that
      share, is spread over `intervalCount` periods, and the initial payment,
      scaled by the same share, is kept to the cent. */
  lemma PercentageInstallmentShares(amount: real, initial: real, discount: real, intervalCount: real, keep: real)
    requires intervalCount != 0.0
    requires discount > 0.0
    requires keep == 1.0 - discount / 100.0
    ensures var r := InstallmentDiscount(amount, initial, PERCENTAGE, discount, intervalCount);
      && SpreadsOver(r.regular, intervalCount, (amount - initial) * keep)
      && WithinHalfCent(r.initial, initial * keep)
      && OnGrid(r.initial, 2)
  {
    assert InstallmentDiscount(amount, initial, PERCENTAGE, discount, intervalCount)
        == ScaleByShare(amount, initial, keep, intervalCount);
  }

  /** With a flat discount `d > 0`, the payer keeps the share
      `keep = 1 - d/amount` of the price, and both parts of it are scaled by
      that share as for a percentage. */
  lemma FlatInstallmentShares(amount: real, initial: real, discountType: string, discount: real,
                              intervalCount: real, keep: real)
    requires discountType != PERCENTAGE && amount != 0.0
    requires intervalCount != 0.0
    requires discount > 0.0
    requires keep == 1.0 - discount / amount
    ensures var r := InstallmentDiscount(amount, initial, discountType, discount, intervalCount);
      && SpreadsOver(r.regular, intervalCount, (amount - initial) * keep)
      && WithinHalfCent(r.initial, initial * keep)
      && OnGrid(r.initial, 2)
  {
    assert InstallmentDiscount(amount, initial, discountType, discount, intervalCount)
        == ScaleByShare(amount, initial, keep, intervalCount);
  }

  /** A flat discount is `discount` as a share of the whole price, in percent. */
  lemma FlatPercentageIsShareOfPrice(amount: real, discountType: string, discount: real)
    requires discountType != PERCENTAGE && amount != 0.0
    ensures EffectivePercentage(amount, discountType, discount) * amount == discount * 100.0
  {
    var q := discount / amount;
    DivideThenMultiply(discount, amount);
    assert (q * 100.0) * amount == (q * amount) * 100.0;
  }

  /** A flat installment discount takes exactly `discount` off the whole price,
      shared between the initial payment and the rest in proportion to their size. */
  lemma FlatInstallmentKeepsPriceMinusDiscount(amount: real, initial: real, discount: real)
    requires amount != 0.0
    ensures initial * Kept(amount, "flat", discount) + (amount - initial) * Kept(amount, "flat", discount)
            == amount - discount
  {
    var k := Kept(amount, "flat", discount);
    var p := EffectivePercentage(amount, "flat", discount);
    assert initial * k + (amount - initial) * k == amount * k;
    assert amount * k == amount - p * amount / 100.0;
  }

  /** A flat discount and the percentage it amounts to give the same installment amounts. */
  lemma FlatMatchesEquivalentPercentage(amount: real, initial: real, discount: real, intervalCount: real)
    requires amount > 0.0 && discount > 0.0 && intervalCount != 0.0
    ensures var p := discount / amount * 100.0;
      p > 0.0 &&
      InstallmentDiscount(amount, initial, "flat", discount, intervalCount)
      == InstallmentDiscount(amount, initial, PERCENTAGE, p, intervalCount)
  {
    var p := discount / amount * 100.0;
    assert p > 0.0;
    assert EffectivePercentage(amount, "flat", discount) == p;
    assert EffectivePercentage(amount, PERCENTAGE, p) == p;
  }

  /** A flat discount equal to the whole price makes the initial and the regular charge zero. */
  lemma FlatDiscountOfWholePriceIsFree(amount: real, initial: real, intervalCount: real)
    requires amount > 0.0 && intervalCount != 0.0
    ensures InstallmentDiscount(amount, initial, "flat", amount, intervalCount) == InstallmentAmounts(0.0, 0.0)
  {
    assert Kept(amount, "flat", amount) == 0.0 by {
      DivideBySelf(amount);
    }
    assert initial * 0.0 == 0.0;
    RoundZero(2);
  }

  /** `taxed` is `x` with `tax` percent added, to within half a cent. */
  predicate TaxedToCent(taxed: real, x: real, tax: real)
  {
    -0.005 <= taxed - (x + x * tax / 100.0) <= 0.005
  }

  /** The installment tax block: with `tax > 0` both charges get `tax` percent
      added once and are kept to two decimals; otherwise nothing changes. */
  function InstallmentTax(a: InstallmentAmounts, tax: real): (r: InstallmentAmounts)
    ensures tax <= 0.0 ==> r == a
    ensures tax > 0.0 ==> TaxedToCent(r.regular, a.regular, tax) && TaxedToCent(r.initial, a.initial, tax)
    ensures tax > 0.0 ==> OnGrid(r.regular, 2) && OnGrid(r.initial, 2)
  {
    if tax > 0.0 then
      var regularTax := a.regular * (tax / 100.0);
      var initialTax := a.initial * (tax / 100.0);
      RoundCentsError(regularTax + a.regular);
      RoundCentsError(initialTax + a.initial);
      InstallmentAmounts(Round(regularTax + a.regular, 2), Round(initialTax + a.initial, 2))
    else
      a
  }

  /** The cycle block: the regular charge is spread over `cycles`; the initial
      payment is charged once, whole. */
  function InstallmentCycles(a: InstallmentAmounts, cycles: int): (r: InstallmentAmounts)
    ensures r.initial == a.initial
    ensures cycles > 0 ==> r.regular * cycles as real == a.regular
    ensures cycles <= 0 ==> r.regular == a.regular
  {
    InstallmentAmounts(CycleStep(a.regular, cycles), a.initial)
  }

  /** The amounts an installment plan is created with. Without a discount or
      a tax the setup fee is the initial payment and `cycles` regular charges
      make up the whole price. */
  function InstallmentPlanAmounts(amount: real, initial: real, discountType: string, discount: real,
                                  intervalCount: real, tax: real, cycles: int): (r: InstallmentAmounts)
    requires DiscountDivisible(amount, discountType, discount, intervalCount)
    ensures r.initial == InstallmentTax(InstallmentDiscount(amount, initial, discountType, discount, intervalCount), tax).initial
    ensures discount <= 0.0 && tax <= 0.0 ==> r.initial == initial
    ensures discount <= 0.0 && tax <= 0.0 && cycles > 0 ==> r.regular * cycles as real == amount
    ensures discount <= 0.0 && tax <= 0.0 && cycles <= 0 ==> r.regular == amount
    ensures SpreadsOver(r.regular, if cycles > 0 then cycles as real else 1.0,
                        InstallmentTax(InstallmentDiscount(amount, initial, discountType, discount, intervalCount), tax).regular)
  {
    var taxed := InstallmentTax(InstallmentDiscount(amount, initial, discountType, discount, intervalCount), tax);
    InstallmentCyclesSpreads(taxed, cycles);
    InstallmentCycles(taxed, cycles)
  }

  lemma InstallmentCyclesSpreads(a: InstallmentAmounts, cycles: int)
    ensures SpreadsOver(InstallmentCycles(a, cycles).regular, if cycles > 0 then cycles as real else 1.0, a.regular)
  {
  }

  /** The setup fee of an installment plan does not depend on the number of cycles. */
  lemma SetupFeeIgnoresCycles(amount: real, initial: real, discountType: string, discount: real,
                              intervalCount: real, tax: real, cycles: int, otherCycles: int)
    requires DiscountDivisible(amount, discountType, discount, intervalCount)
    ensures InstallmentPlanAmounts(amount, initial, discountType, discount, intervalCount, tax, cycles).initial
         == InstallmentPlanAmounts(amount, initial, discountType, discount, intervalCount, tax, otherCycles).initial
  {
  }

  /** With both a discount and a tax, the setup fee is the discounted initial
      amount, itself kept to the cent, with `tax` percent added once, to the
      cent. */
  lemma DiscountedInitialIsTaxed(amount: real, initial: real, discountType: string, discount: real,
                                 intervalCount: real, tax: real, cycles: int)
    requires DiscountDivisible(amount, discountType, discount, intervalCount)
    requires discount > 0.0 && tax > 0.0
    ensures var d := InstallmentDiscount(amount, initial, discountType, discount, intervalCount);
      var a := InstallmentPlanAmounts(amount, initial, discountType, discount, intervalCount, tax, cycles);
      && OnGrid(d.initial, 2)
      && TaxedToCent(a.initial, d.initial, tax)
      && OnGrid(a.initial, 2)
  {
    if discountType == PERCENTAGE {
      PercentageInstallmentShares(amount, initial, discount, intervalCount, 1.0 - discount / 100.0);
    } else {
      FlatInstallmentShares(amount, initial, discountType, discount, intervalCount, 1.0 - discount / amount);
    }
    var d := InstallmentDiscount(amount, initial, discountType, discount, intervalCount);
    var t := InstallmentTax(d, tax);
    assert InstallmentCycles(t, cycles).initial == t.initial;
  }

  // ---------------------------------------------------------------------------
  // The installment blocks as written: `toFixed(2)` returns a string
  // ---------------------------------------------------------------------------

  /** What `body.initial_amount` holds: a number, or the string `toFixed(2)`
      produced, which spells `value`. */
  datatype HeldAmount = Number(value: real) | FixedText(value: real)

  /** An exception thrown by the handler before it builds a payload. */
  datatype Thrown = TypeError(message: string)

  /** The installment discount block as written: `body.initial_amount` is left
      holding the string `discountedInitial.toFixed(2)`. */
  function InstallmentDiscountAsWritten(amount: real, initial: real, discountType: string, discount: real,
                                        intervalCount: real): (r: (real, HeldAmount))
    requires DiscountDivisible(amount, discountType, discount, intervalCount)
    ensures discount > 0.0 <==> r.1.FixedText?
    ensures r.0 == InstallmentDiscount(amount, initial, discountType, discount, intervalCount).regular
    ensures r.1.value == InstallmentDiscount(amount, initial, discountType, discount, intervalCount).initial
  {
    var a := InstallmentDiscount(amount, initial, discountType, discount, intervalCount);
    (a.regular, if discount > 0.0 then FixedText(a.initial) else Number(a.initial))
  }

  /** The installment tax block as written. `tax + body.initial_amount` is a
      string concatenation when the initial amount is a string, and the string
      that results has no `toFixed` method, so the block throws. */
  function InstallmentTaxAsWritten(regular: real, initial: HeldAmount, tax: real): (r: Result<InstallmentAmounts, Thrown>)
    ensures r.Failure? <==> tax > 0.0 && initial.FixedText?
    ensures r.Success? ==> r.value == InstallmentTax(InstallmentAmounts(regular, initial.value), tax)
  {
    if tax > 0.0 then
      match initial
      case Number(v) => Success(InstallmentTax(InstallmentAmounts(regular, v), tax))
      case FixedText(_) => Failure(TypeError("body.initial_amount.toFixed is not a function"))
    else
      Success(InstallmentAmounts(regular, initial.value))
  }

  /** The installment amounts as the handler computes them, exception
      included: with both a discount and a tax it throws; in every other case
      it computes what `InstallmentPlanAmounts` computes. */
  function InstallmentPlanAmountsAsWritten(amount: real, initial: real, discountType: string, discount: real,
                                           intervalCount: real, tax: real, cycles: int): (r: Result<InstallmentAmounts, Thrown>)
    requires DiscountDivisible(amount, discountType, discount, intervalCount)
    ensures r.Failure? <==> discount > 0.0 && tax > 0.0
    ensures r.Success? ==> r.value == InstallmentPlanAmounts(amount, initial, discountType, discount, intervalCount, tax, cycles)
  {
    var (regular, held) := InstallmentDiscountAsWritten(amount, initial, discountType, discount, intervalCount);
    assert InstallmentAmounts(regular, held.value) == InstallmentDiscount(amount, initial, discountType, discount, intervalCount);
    match InstallmentTaxAsWritten(regular, held, tax)
    case Success(a) => Success(InstallmentCycles(a, cycles))
    case Failure(e) => Failure(e)
  }

  /** The input that shows it: 100 with 20 up front, 10 off flat, 5% tax. */
  lemma InstallmentAsWrittenCounterexample()
    ensures InstallmentPlanAmountsAsWritten(100.0, 20.0, "flat", 10.0, 1.0, 5.0, 1).Failure?
  {
  }
}
