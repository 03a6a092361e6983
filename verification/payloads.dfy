/** The request bodies the handlers of src/paypal-handler.js send to the
    gateway: the one-time payment, the billing plan with its payment
    definitions (an optional TRIAL phase, then the REGULAR phase) and the
    billing agreement. Fields whose JavaScript value is a string or a number
    depending on the handler are `Scalar`s. */
module Payloads {
  import opened Text

  /** A JSON leaf that is a string in some payloads and a number in others. */
  datatype Scalar = Str(text: string) | Num(num: real)

  /** `{ currency, value }` */
  datatype Charge = Charge(currency: string, value: Scalar)

  datatype PhaseType = Trial | Regular

  /** One entry of `payment_definitions`. */
  datatype PaymentDefinition = PaymentDefinition(
    name: string,
    phaseType: PhaseType,
    frequency: string,
    frequencyInterval: string,
    cycles: Scalar,
    amount: Charge)

  datatype PlanType = Infinite | Fixed

  datatype MerchantPreferences = MerchantPreferences(
    setupFee: Charge,
    cancelUrl: string,
    returnUrl: string,
    maxFailAttempts: string,
    autoBillAmount: string,
    initialFailAmountAction: string)

  /** The body of `billingPlan.create`. */
  datatype BillingPlan = BillingPlan(
    name: string,
    description: string,
    planType: PlanType,
    definitions: seq<PaymentDefinition>,
    preferences: MerchantPreferences)

  /** The one item of a one-time payment. */
  datatype Item = Item(name: string, sku: string, price: real, currency: string, quantity: int)

  /** The body of `payment.create`. */
  datatype PaymentRequest = PaymentRequest(
    intent: string,
    payerMethod: string,
    returnUrl: string,
    cancelUrl: string,
    items: seq<Item>,
    currency: string,
    total: real,
    subtotal: real,
    taxDetail: string,
    shipping: string,
    description: string)

  /** The body of `billingAgreement.create`; the start date is a time in
      milliseconds (its ISO rendering is not modelled). */
  datatype AgreementRequest = AgreementRequest(
    name: string,
    description: string,
    startMillis: int,
    planId: string,
    payerMethod: string)

  /** The billing frequency sent to the gateway and its interval multiplier. */
  datatype Cadence = Cadence(frequency: string, interval: int)

  /** `String(n)` for any integer `n`. */
  function IntText(n: int): (s: string)
    ensures n >= 0 ==> s == DecimalText(n)
  {
    if n < 0 then "-" + DecimalText(-n) else DecimalText(n)
  }

  const CUSTOM: string := "custom"
  const DAY: string := "DAY"

  /** Frequency resolution: "custom" bills every `customDays` days; any other
      frequency is upper-cased and bills every period. The comparison with
      "custom" is made before upper-casing, so "CUSTOM" is not custom. */
  function ResolveFrequency(frequency: string, customDays: int): (c: Cadence)
    ensures IsUpper(c.frequency) && c.frequency != CUSTOM
    ensures frequency == CUSTOM ==> c == Cadence(DAY, customDays)
    ensures frequency != CUSTOM ==> c == Cadence(Upper(frequency), 1)
  {
    CustomIsNotUpper();
    if frequency == CUSTOM then
      assert IsUpper(DAY);
      UpperFixesUpper(DAY);
      Cadence(Upper(DAY), customDays)
    else
      UpperIsUpper(frequency);
      Cadence(Upper(frequency), 1)
  }

  /** Resolving a resolved frequency again does not change it. */
  lemma ResolveFrequencyIdempotent(frequency: string, customDays: int, otherDays: int)
    ensures var c := ResolveFrequency(frequency, customDays);
      ResolveFrequency(c.frequency, otherDays).frequency == c.frequency
  {
    var c := ResolveFrequency(frequency, customDays);
    UpperFixesUpper(c.frequency);
  }

  lemma CustomIsNotUpper()
    ensures !IsUpper(CUSTOM)
  {
    assert IsLower(CUSTOM[0]);
  }

  /** The free trial phase: `days` cycles of one DAY each, charged "0.00". */
  function TrialPhase(name: string, days: int, currency: string): PaymentDefinition
  {
    PaymentDefinition(name, Trial, DAY, "1", Str(IntText(days)), Charge(currency, Str("0.00")))
  }

  /** The REGULAR phase charging `amount` every `cadence`. */
  function RegularPhase(name: string, cadence: Cadence, cycles: Scalar, currency: string, amount: real): PaymentDefinition
  {
    PaymentDefinition(name, Regular, cadence.frequency, IntText(cadence.interval), cycles, Charge(currency, Num(amount)))
  }

  /** The phase list of a plan: a free one-day trial phase of `trialDays`
      cycles first when `trialDays > 0`, and the given regular phase last. */
  predicate PhasesInOrder(defs: seq<PaymentDefinition>, trialDays: int, currency: string, regular: PaymentDefinition)
  {
    && |defs| == (if trialDays > 0 then 2 else 1)
    && defs[|defs| - 1] == regular
    && (trialDays > 0 ==>
         && defs[0].phaseType == Trial
         && defs[0].frequency == DAY
         && defs[0].frequencyInterval == "1"
         && defs[0].cycles == Str(DecimalText(trialDays))
         && defs[0].amount == Charge(currency, Str("0.00")))
  }

  /** The recurring and fixed handlers: the list starts with the regular phase
      and the trial phase is `unshift`ed in front of it. */
  method UnshiftTrial(regular: PaymentDefinition, trialDays: int, currency: string)
    returns (defs: seq<PaymentDefinition>)
    ensures PhasesInOrder(defs, trialDays, currency, regular)
    ensures trialDays > 0 ==> defs[0].name == "Trial Period"
  {
    defs := [regular];
    if trialDays > 0 {
      defs := [TrialPhase("Trial Period", trialDays, currency)] + defs;
    }
  }

  /** The installment handler: the trial phase, if any, is pushed first and the
      regular phase after it. */
  method PushPhases(regular: PaymentDefinition, trialDays: int, planName: string, currency: string)
    returns (defs: seq<PaymentDefinition>)
    ensures PhasesInOrder(defs, trialDays, currency, regular)
    ensures trialDays > 0 ==> defs[0].name == planName + " Trial Period"
  {
    defs := [];
    if trialDays > 0 {
      defs := defs + [TrialPhase(planName + " Trial Period", trialDays, currency)];
    }
    defs := defs + [regular];
  }

  /** The merchant preferences every plan carries; the gateway returns to
      `returnUrl` whether the payer approves or cancels. */
  function Preferences(setupFee: Charge, returnUrl: string): MerchantPreferences
  {
    MerchantPreferences(setupFee, returnUrl, returnUrl, "1", "YES", "CONTINUE")
  }

  /** The billing plan of `createPaymentPlanRecurring`. */
  method RecurringPlan(planName: string, currency: string, amount: real, cadence: Cadence,
                       trialDays: int, returnUrl: string) returns (plan: BillingPlan)
    ensures plan.planType == Infinite
    ensures PhasesInOrder(plan.definitions, trialDays, currency,
                          RegularPhase("Regular Payments", cadence, Str("0"), currency, amount))
    ensures trialDays > 0 ==> plan.definitions[0].name == "Trial Period"
    ensures plan.preferences.setupFee == Charge(currency, Str("0.00"))
    ensures plan.preferences.cancelUrl == plan.preferences.returnUrl == returnUrl
    ensures plan.name == planName
  {
    var regular := RegularPhase("Regular Payments", cadence, Str("0"), currency, amount);
    var defs := UnshiftTrial(regular, trialDays, currency);
    plan := BillingPlan(planName, "Monthly subscription", Infinite, defs,
                        Preferences(Charge(currency, Str("0.00")), returnUrl));
  }

  /** The billing plan of `createPaymentFixedRecurring`; the regular phase's
      cycle count is the number `cycles`, not a string. */
  method FixedPlan(planName: string, currency: string, amount: real, cadence: Cadence, cycles: int,
                   trialDays: int, returnUrl: string) returns (plan: BillingPlan)
    ensures plan.planType == Fixed
    ensures PhasesInOrder(plan.definitions, trialDays, currency,
                          RegularPhase("Regular Payments", cadence, Num(cycles as real), currency, amount))
    ensures trialDays > 0 ==> plan.definitions[0].name == "Trial Period"
    ensures plan.preferences.setupFee == Charge(currency, Str("0.00"))
    ensures plan.preferences.cancelUrl == plan.preferences.returnUrl == returnUrl
    ensures plan.name == planName
  {
    var regular := RegularPhase("Regular Payments", cadence, Num(cycles as real), currency, amount);
    var defs := UnshiftTrial(regular, trialDays, currency);
    plan := BillingPlan(planName, "Monthly subscription plan description", Fixed, defs,
                        Preferences(Charge(currency, Str("0.00")), returnUrl));
  }

  /** The name of the installment plan's regular phase. */
  function InstallmentRegularName(planName: string, trialDays: int): string
  {
    planName + (if trialDays > 0 then " Initial Charge" else " Regular Payments")
  }

  /** The billing plan of `createPaymentInstallments`: the initial amount is
      charged as the setup fee, the regular amount over `cycles` periods. */
  method InstallmentPlan(planName: string, currency: string, amount: real, initialAmount: real,
                         cadence: Cadence, cycles: int, trialDays: int, returnUrl: string)
    returns (plan: BillingPlan)
    ensures plan.planType == Fixed
    ensures PhasesInOrder(plan.definitions, trialDays, currency,
                          RegularPhase(InstallmentRegularName(planName, trialDays), cadence,
                                       Str(IntText(cycles)), currency, amount))
    ensures trialDays > 0 ==> plan.definitions[0].name == planName + " Trial Period"
    ensures plan.preferences.setupFee == Charge(currency, Num(initialAmount))
    ensures plan.preferences.cancelUrl == plan.preferences.returnUrl == returnUrl
    ensures plan.name == planName
  {
    var regular := RegularPhase(InstallmentRegularName(planName, trialDays), cadence,
                                Str(IntText(cycles)), currency, amount);
    var defs := PushPhases(regular, trialDays, planName, currency);
    var description := if trialDays > 0 then "Subscription plan with trial, initial, and recurring payments"
                       else "Plan with initial payment and recurring payments";
    plan := BillingPlan(planName, description, Fixed, defs,
                        Preferences(Charge(currency, Num(initialAmount)), returnUrl));
  }

  /** The one-time payment: a single item priced at the whole amount. Both
      redirect URLs are the return URL, and the tax detail is "0.00" even when
      tax was added to the amount. */
  function OneTimePayment(amount: real, currency: string, returnUrl: string, description: string): (r: PaymentRequest)
    ensures r.items == [Item("item", "item", amount, currency, 1)]
    ensures r.total == r.subtotal == amount && r.currency == currency
    ensures r.taxDetail == "0.00" && r.shipping == "0.00"
    ensures r.returnUrl == r.cancelUrl == returnUrl
    ensures r.intent == "sale" && r.payerMethod == "paypal"
  {
    PaymentRequest("sale", "paypal", returnUrl, returnUrl, [Item("item", "item", amount, currency, 1)],
                   currency, amount, amount, "0.00", "0.00", description)
  }

  /** One minute, the delay before a recurring or fixed agreement starts. */
  const MINUTE_MILLIS: int := 60000
  /** One day, the delay before an installment agreement starts. */
  const DAY_MILLIS: int := 24 * 60 * 60 * 1000

  /** The agreement of the recurring and fixed handlers, starting a minute after `nowMillis`. */
  function RecurringAgreement(planId: string, nowMillis: int): (r: AgreementRequest)
    ensures r.startMillis - nowMillis == 60 * 1000
    ensures r.planId == planId && r.payerMethod == "paypal"
  {
    AgreementRequest("Recurring Agreement Name", "Recurring Agreement Description",
                     nowMillis + MINUTE_MILLIS, planId, "paypal")
  }

  /** The agreement of the installment handler, starting a day after `nowMillis`. */
  function InstallmentAgreement(planName: string, trialDays: int, planId: string, nowMillis: int): (r: AgreementRequest)
    ensures r.startMillis - nowMillis == 86400000
    ensures r.name == planName + " Agreement"
    ensures r.planId == planId && r.payerMethod == "paypal"
  {
    AgreementRequest(planName + " Agreement",
                     if trialDays > 0 then "Agreement for trial and recurring payments"
                     else "Agreement with initial payment and recurring payments",
                     nowMillis + DAY_MILLIS, planId, "paypal")
  }
}
