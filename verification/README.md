# paypal-handler-node: amount normalisation and plan payloads

This project models the self-contained logic of the paypal-handler-node
library in Dafny. It covers two things.

1. What `src/paypal-handler.js` does to a caller's request body before it
   hands the body to the PayPal SDK, in each of its four handlers:
   - `createPaymentPlanOneTime`
   - `createPaymentPlanRecurring`
   - `createPaymentFixedRecurring`
   - `createPaymentInstallments`

   Each handler upper-cases the currency and applies the discount and the tax
   to the amounts in place. The fixed and installment handlers also divide the
   regular amount over `cycles`; the one-time and recurring handlers do not.
   The plan handlers then resolve the billing frequency and build the
   billing-plan payload with its TRIAL and REGULAR payment definitions. Every
   handler scans the returned links for the last `approval_url`.
2. `GET_DISCOUNTED_AMOUNTS` of `src/helpers/general_helpers.js`. It applies a
   discount, with a zero floor, to an (initial, installment) pair of amounts.
   The handlers do not import it.

Modules:

- `Money`: money is an exact `real`. `toFixed(p)` read back as a number is
  `Round(x, p)`, which rounds half away from zero to `p` decimals. It is
  proved to be within half a unit of the last place, to preserve sign, to
  land on the `p`-decimal grid, and to be idempotent.
- `Text`: ASCII upper-casing and the decimal rendering of integers.
- `Amounts`: the two discount formulas, tax and cycle division, as
  functions of the body fields.
  - The one-time, recurring and fixed handlers share `DiscountStep` and
    `TaxStep`; only the fixed handler then divides over the cycles with
    `CycleStep`.
  - The installment handler uses `InstallmentDiscount`, `InstallmentTax`
    and `InstallmentCycles`.
- `GeneralHelpers`: `GET_DISCOUNTED_AMOUNTS`.
- `Approval`: the approval-link loop, proved against `LastApproval`.
- `Payloads`: frequency resolution and the payload records. This includes
  the `unshift` and `push` construction of the phase list.
- `Handlers`: the body as a class (`PaymentBody`) whose methods update its
  fields in place, and the four handlers.
  - The validator's verdict, the clock and each SDK call's outcome are
    parameters.
  - Each handler's contract states the whole new body, the payload sent (the
    whole one-time payment; for a plan, its name, type, phases, setup fee and
    redirect URLs; the agreement request) and the envelope
    `{error, message, response}` returned, or that a plan handler never
    settles. In that last case the catch block's own TypeError rejects the
    async executor's promise unhandled, which under Node's default
    unhandled-rejection mode (since Node 15) ends the process; the model
    records only that no envelope is produced.

## Model

| member | source | states |
|---|---|---|
| Money.Round | src/paypal-handler.js:66-67 | `toFixed(p)` read back as a number: off by at most half a unit in the last place, same sign as the input, on the `p`-decimal grid |
| Money.RoundOnGrid | src/paypal-handler.js:527 | a value that already has at most `p` decimals is unchanged by rounding to `p` decimals |
| Money.RoundIdempotent | src/paypal-handler.js:536 | rounding twice to the same number of decimals is rounding once |
| Money.RoundTenthsError | src/paypal-handler.js:66-67 | `toFixed(1)` is within 0.05 of its input and has one decimal |
| Money.RoundCentsError | src/paypal-handler.js:527 | `toFixed(2)` is within 0.005 of its input and has two decimals |
| Text.Upper | src/paypal-handler.js:62 | ASCII upper-casing keeps the length and maps each character to its upper-case form |
| Text.UpperIsUpper | src/paypal-handler.js:62 | an upper-cased string has no lower-case letter |
| Text.UpperFixesUpper | src/paypal-handler.js:186 | upper-casing a string without lower-case letters changes nothing |
| Text.UpperIdempotent | src/paypal-handler.js:163 | normalising the currency twice gives the same code as normalising it once |
| Text.DecimalText | src/paypal-handler.js:209 | `toString` of a non-negative integer is a non-empty digit string without a leading zero |
| Text.DecimalRoundTrip | src/paypal-handler.js:396 | reading the decimal text of `n` back gives `n` |
| Text.DecimalInjective | src/paypal-handler.js:563 | distinct trial lengths are rendered as distinct cycle strings |
| Payloads.IntText | src/paypal-handler.js:193 | `String(n)` of a non-negative integer is its decimal text |
| Amounts.DiscountStep | src/paypal-handler.js:63-72 | no change when `discount <= 0`; otherwise within 0.05 of the exactly discounted price, with one decimal |
| Amounts.DiscountStepRoundsDiscounted | src/paypal-handler.js:164-173 | a positive discount gives exactly the discounted price (`amount - amount*d/100` or `amount - d`) rounded to one decimal |
| Amounts.TaxStep | src/paypal-handler.js:73-76 | no change when `tax <= 0`; otherwise exactly `amount*tax/100` is added, once; a non-negative tax never lowers a non-negative amount |
| Amounts.CycleStep | src/paypal-handler.js:362-364 | with `cycles > 0`, `cycles` charges of the result add up to the amount; otherwise the amount is unchanged |
| Amounts.StandardAmount | src/paypal-handler.js:62-76 | tax is charged on the discounted price, once; with neither a discount nor a tax the charge is the price |
| Amounts.FixedAmount | src/paypal-handler.js:347-364 | `cycles > 0` charges of a fixed plan add up to the charge of a recurring plan with the same body; otherwise the two are equal |
| Amounts.FullPercentageIsFree | src/paypal-handler.js:64-67 | a 100% discount makes the charge exactly 0 |
| Amounts.PercentageNotNegative | src/paypal-handler.js:348-352 | a percentage of at most 100 taken off a non-negative amount leaves a non-negative charge |
| Amounts.FlatHasNoFloor | src/paypal-handler.js:68-71 | the flat path has no zero floor: 10 with 15 off flat is charged -5 |
| Amounts.TenPercentOffHundred | src/paypal-handler.js:62-76 | 100 with 10% off and no tax is charged 90 |
| Amounts.EffectivePercentage | src/paypal-handler.js:510-517 | a percentage discount is its own effective percentage |
| Amounts.InstallmentDiscount | src/paypal-handler.js:509-528 | with `discount <= 0` both the regular amount (the whole price) and the initial amount are unchanged, for any `interval_count` and price; only a positive discount needs a non-zero `interval_count` (and, when flat, a non-zero price) |
| Amounts.DiscountGuardJump | src/paypal-handler.js:509-525 | the regular charge jumps at the `discount > 0` guard: without a discount it is the whole price, with any positive percentage `interval_count` regular charges add up to at most the price less the initial payment |
| Amounts.DiscountGuardJumpExample | src/paypal-handler.js:509-525 | 1200 with 200 up front over 10 periods: the regular charge is 1200 without a discount and 99 with 1% off |
| Amounts.SpreadRest | src/paypal-handler.js:522-525 | `interval_count` regular charges add up to the discounted rest of the price `(amount - initial)*keep` |
| Amounts.DiscountedInitial | src/paypal-handler.js:520-527 | the new initial amount is within half a cent of `initial*keep` and has two decimals |
| Amounts.ScaleByShare | src/paypal-handler.js:520-527 | for a kept share `keep`, the regular charges over `interval_count` periods add up to `(amount - initial)*keep`, and the initial charge is `initial*keep` to the cent |
| Amounts.PercentageInstallmentShares | src/paypal-handler.js:509-528 | a percentage discount `d > 0` keeps the share `1 - d/100`: the regular charge is `(amount - initial)*(1 - d/100)/interval_count` and the initial charge `initial*(1 - d/100)` to the cent |
| Amounts.FlatInstallmentShares | src/paypal-handler.js:509-528 | a flat discount `d > 0` keeps the share `1 - d/amount`, applied to both charges in the same way |
| Amounts.FlatPercentageIsShareOfPrice | src/paypal-handler.js:516 | a flat discount's effective percentage `p` satisfies `p*amount == discount*100` |
| Amounts.FlatInstallmentKeepsPriceMinusDiscount | src/paypal-handler.js:516-523 | with a flat discount, the discounted initial amount and the discounted rest together are the price minus the discount |
| Amounts.FlatMatchesEquivalentPercentage | src/paypal-handler.js:513-517 | a flat discount gives the same installment amounts as the percentage `discount/amount*100` |
| Amounts.FlatDiscountOfWholePriceIsFree | src/paypal-handler.js:516-527 | a flat discount equal to `amount` makes both the regular and the initial charge 0 |
| Amounts.InstallmentTax | src/paypal-handler.js:533-540 | no change when `tax <= 0`; otherwise both charges get `tax` percent added once and are kept to two decimals (within 0.005) |
| Amounts.InstallmentCycles | src/paypal-handler.js:541-543 | the regular charge is spread over `cycles > 0`; the initial charge (the setup fee) is never divided |
| Amounts.InstallmentPlanAmounts | src/paypal-handler.js:508-543 | the setup fee is the discounted and taxed initial payment, untouched by the cycle division; `cycles > 0` regular charges add up to the discounted and taxed regular amount (equal to it when `cycles <= 0`); without discount or tax the setup fee is the initial payment and the regular charges add up to the whole price |
| Amounts.SetupFeeIgnoresCycles | src/paypal-handler.js:599 | the setup fee of an installment plan does not depend on `cycles` |
| Amounts.DiscountedInitialIsTaxed | src/paypal-handler.js:527-539 | with both a discount and a tax, the setup fee is the discounted initial amount (to the cent) with `tax` percent added once, to the cent |
| Amounts.InstallmentDiscountAsWritten | src/paypal-handler.js:527 | the discount leaves `initial_amount` holding a `toFixed(2)` string exactly when `discount > 0` |
| Amounts.InstallmentTaxAsWritten | src/paypal-handler.js:537-539 | the tax block throws exactly when `tax > 0` and `initial_amount` holds a string; otherwise it computes `InstallmentTax` |
| Amounts.InstallmentPlanAmountsAsWritten | src/paypal-handler.js:509-543 | the installment amounts as written throw exactly when both the discount and the tax are positive, and agree with `InstallmentPlanAmounts` otherwise |
| Amounts.InstallmentAsWrittenCounterexample | src/paypal-handler.js:527-539 | a price of 100 with 20 up front, 10 off flat and 5% tax throws |
| GeneralHelpers.GetDiscountedAmounts | src/helpers/general_helpers.js:1-29 | both outputs are at least 0; each is its input minus its discount when that is positive and exactly 0 otherwise; a percentage discount is `x*d/100` of each input and a flat one is `discount` |
| GeneralHelpers.DiscountNeverRaises | src/helpers/general_helpers.js:11-27 | with non-negative inputs and discount, each output lies between 0 and its input |
| GeneralHelpers.ZeroDiscountKeepsAmounts | src/helpers/general_helpers.js:19-27 | a zero discount returns positive inputs unchanged |
| GeneralHelpers.FullPercentageIsFree | src/helpers/general_helpers.js:11-14 | a 100% discount makes both outputs 0 |
| GeneralHelpers.FlatDiscountNotProRated | src/helpers/general_helpers.js:15-18 | a flat discount takes the same `discount` off both inputs when neither is floored |
| GeneralHelpers.ResultsIndependent | src/helpers/general_helpers.js:19-21 | the initial output depends only on `initial_amount` and the installment output only on `installment_amount` |
| Approval.LastApprovalNoneIffNoMatch | src/paypal-handler.js:303-307 | there is no approval link exactly when no link has `rel == "approval_url"` |
| Approval.LastApprovalIsLastMatch | src/paypal-handler.js:485-489 | a found approval link is a link of the list with `rel == "approval_url"` after which no other link matches |
| Approval.FindApprovalLink | src/paypal-handler.js:124-129 | the loop returns the last link whose `rel` is `approval_url`, and nothing (the empty string) exactly when none matches |
| Payloads.ResolveFrequency | src/paypal-handler.js:179-186 | `custom` gives `DAY` every `custom_days` days; any other frequency gives its upper-case form every 1 period; the result is never `custom` and has no lower-case letter |
| Payloads.ResolveFrequencyIdempotent | src/paypal-handler.js:366-374 | resolving an already resolved frequency leaves it unchanged |
| Payloads.CustomIsNotUpper | src/paypal-handler.js:180 | the custom marker is compared before upper-casing, so no upper-cased frequency equals it |
| Payloads.UnshiftTrial | src/paypal-handler.js:188-215 | the phase list has 2 entries iff `trial_period_days > 0`, else 1; the TRIAL phase comes first (DAY, interval "1", trial days, "0.00"), named "Trial Period"; the REGULAR phase comes last |
| Payloads.PushPhases | src/paypal-handler.js:554-586 | the same phase order when built with `push`; the trial phase is named after the plan |
| Payloads.OneTimePayment | src/paypal-handler.js:78-112 | one item priced at the amount, quantity 1; total and subtotal are the amount; the tax and shipping details are "0.00"; both redirect URLs are the return URL |
| Payloads.RecurringAgreement | src/paypal-handler.js:274-284 | the agreement starts 60000 ms after now, for the created plan, paid with paypal |
| Payloads.InstallmentAgreement | src/paypal-handler.js:650-668 | the agreement starts one day (86400000 ms) after now, is named after the plan, for the created plan, paid with paypal |
| Payloads.RecurringPlan | src/paypal-handler.js:188-233 | an INFINITE plan named `plan_name` whose regular phase has cycles "0", whose trial phase is named "Trial Period" and whose setup fee is "0.00"; cancel and return URL are both the return URL |
| Payloads.FixedPlan | src/paypal-handler.js:375-420 | a FIXED plan named `plan_name` whose regular phase has the number `cycles`, whose trial phase is named "Trial Period", with setup fee "0.00" and the return URL as both redirect URLs |
| Payloads.InstallmentPlan | src/paypal-handler.js:554-607 | a FIXED plan named `plan_name` whose trial phase is named after the plan, whose regular phase charges the regular amount for `String(cycles)` cycles, whose setup fee is the initial amount, and whose redirect URLs are both the return URL |
| Handlers.PaymentBody.UpperCaseCurrency | src/paypal-handler.js:508 | the currency is replaced by its upper-case form and no other field changes |
| Handlers.PaymentBody.ApplyDiscount | src/paypal-handler.js:348-357 | the amount becomes `DiscountStep` of the old amount and no other field changes |
| Handlers.PaymentBody.ApplyTax | src/paypal-handler.js:358-361 | the amount becomes `TaxStep` of the old amount and no other field changes |
| Handlers.PaymentBody.SpreadOverCycles | src/paypal-handler.js:541-543 | the amount becomes `CycleStep` of the old amount and no other field changes |
| Handlers.PaymentBody.ApplyInstallmentDiscount | src/paypal-handler.js:509-528 | amount and initial amount become the `InstallmentDiscount` pair and no other field changes |
| Handlers.PaymentBody.ApplyInstallmentTax | src/paypal-handler.js:533-540 | amount and initial amount become the `InstallmentTax` pair and no other field changes |
| Handlers.PaymentBody.ResolveCustomFrequency | src/paypal-handler.js:545-553 | a `custom` frequency field is overwritten with `DAY`; the cadence returned is `ResolveFrequency` of the old frequency |
| Handlers.SettlePayment | src/paypal-handler.js:114-132 | a failed payment rejects with the gateway's details (undefined when the response has none) or "Could not make payment"; a created one answers with the payment and its last approval link |
| Handlers.RunPlanSequence | src/paypal-handler.js:236-316 | the agreement is requested iff the plan was created and activated; the handler never settles exactly when plan or agreement creation fails with a response that has no details; otherwise any failed step rejects without a response, and only a failed activation carries a message |
| Handlers.CreatePaymentPlanOneTime | src/paypal-handler.js:56-134 | a rejected body is untouched; otherwise the currency is upper-cased, the amount is `StandardAmount` of the old one, the payment sent charges it, and the envelope follows `payment.create` |
| Handlers.CreatePaymentPlanRecurring | src/paypal-handler.js:156-318 | a rejected body is untouched; otherwise the whole new body: currency upper-cased, amount `StandardAmount` of the old fields, a `custom` frequency overwritten with `DAY`, nothing else changed; then an INFINITE plan named `plan_name`, with the return URL as both redirect URLs, the resolved cadence, phases in order and a trial phase named "Trial Period", an agreement starting a minute later, and the plan-sequence outcome |
| Handlers.CreatePaymentFixedRecurring | src/paypal-handler.js:340-499 | as the recurring handler (plan name, redirect URLs, trial phase name, phases, agreement, outcome), with the amount `FixedAmount` of the old fields (divided over the cycles) and a FIXED plan with `cycles` cycles |
| Handlers.CreatePaymentInstallments | src/paypal-handler.js:501-700 | a rejected body is untouched; otherwise the whole new body: currency upper-cased, amount and initial amount the `InstallmentPlanAmounts` pair of the old fields, a `custom` frequency overwritten with `DAY`, nothing else changed, on the corrected amounts path (see "## Left out"); a FIXED plan named `plan_name` with the return URL as both redirect URLs, the trial phase named after the plan, and the initial amount as setup fee; the agreement starts a day later and is named after the plan |

## Left out

- The `paypal.*` SDK calls are not modelled. These are `payment.create`, `billingPlan.create`, `billingPlan.update` and `billingAgreement.create`. What each reports to its callback is a parameter of the handler. Their Promise wrapping is flattened into a sequence of steps.
- `configurePaypal`, `executePayment` and `billingAgreementExecute` are not modelled. They only forward to the SDK. The same goes for their `console.log` calls.
- The Joi validators in `../validation/paypal` are not part of this model. Their verdict is a parameter.
- CreatePaymentInstallments: with `discount > 0` it requires what the discount block's divisions need, a non-zero `amount` for a flat discount and a non-zero `interval_count`. With such a discount and a zero or missing `interval_count` (callers that send only `custom_days`) or a zero flat-discounted `amount`, the source computes `Infinity` or `NaN`, which exact reals cannot express. Without a discount neither field is read and nothing is required.
- CreatePaymentInstallments: follows the corrected amounts path `InstallmentPlanAmounts` (see "## Findings"), not the code as written. With both `discount > 0` and `tax > 0` the source throws a TypeError at the tax block, before any SDK call: its promise rejects, no plan or agreement is sent, and the body is left holding string amounts. The model instead creates the plan with the intended amounts; `InstallmentPlanAmountsAsWritten` states when the code as written throws.
- The clock is a parameter (`nowMillis`). The agreement's start date is kept in milliseconds, and its ISO-8601 rendering is not modelled.
- Amounts are exact reals, not IEEE-754 doubles. `toFixed` is exact round-half-away-from-zero rather than rounding on the binary value.
- JavaScript string/number coercions are not modelled. The payloads carry numbers where the source, after `toFixed`, sends a string:
  - the installment setup fee after a discount;
  - the installment setup fee after a tax without a discount (with a discount as well, the source throws instead, as the line on `CreatePaymentInstallments` above says);
  - the installment regular amount after a tax with `cycles <= 0` (with `cycles > 0` the division turns it back into a number).
- Text.Upper: upper-casing is ASCII only. Non-ASCII case mappings of `toUpperCase` are not modelled, including those that change the length ("ß" becomes "SS").
- The assignment to the undeclared global `tax` in the non-installment tax blocks is not modelled; only its effect on `amount` is.
- Exceptions thrown inside a handler's `try` block other than SDK failures are not modelled, for example a missing `frequency`.
- `index.js` and `src/example/index.js` are not part of this model. One is a re-export and the other a usage demo.

## Findings

| source | as written | input that shows it | evidently intended | confidence | as-written member | corrected member |
|---|---|---|---|---|---|---|
| src/paypal-handler.js:527-539 | the installment discount stores `discountedInitial.toFixed(2)`, a string, in `initial_amount`; with a tax, `tax + body.initial_amount` concatenates strings and `.toFixed(2)` on the result throws a TypeError | amount 100, initial_amount 20, discount_type "flat", discount 10, interval_count 1, tax 5, cycles 1 | the initial amount stays a number, so tax is added to the discounted initial amount and kept to two decimals; `Amounts.InstallmentPlanAmounts` computes this and the installment handler uses it | not executed | Amounts.InstallmentAsWrittenCounterexample | Amounts.DiscountedInitialIsTaxed |
