/** The four `createPayment*` handlers of src/paypal-handler.js. Each takes
    the caller's `body`, rejects it when the validator does, rewrites its
    amount, currency and frequency fields in place, builds the request
    payload and hands it to the gateway SDK. The validator's verdict and what
    each SDK call reports back are parameters; the calls themselves are not
    modelled. Every handler answers with the envelope `{error, message, response}`. */
module Handlers {
  import opened Wrappers
  import opened Text
  import opened Money
  import opened Amounts
  import opened Approval
  import opened Payloads

  /** All fields of a body, as one value. */
  datatype BodyState = BodyState(
    amount: real,
    initialAmount: real,
    currency: string,
    discountType: string,
    discount: real,
    tax: real,
    cycles: int,
    frequency: string,
    customDays: int,
    trialPeriodDays: int,
    intervalCount: real,
    planName: string,
    returnUrl: string,
    description: string)

  /** The request body a caller passes to a handler, which the handler updates in place. */
  class PaymentBody {
    var amount: real
    var initialAmount: real
    var currency: string
    var discountType: string
    var discount: real
    var tax: real
    var cycles: int
    var frequency: string
    var customDays: int
    var trialPeriodDays: int
    var intervalCount: real
    var planName: string
    var returnUrl: string
    var description: string

    function State(): BodyState
      reads this
    {
      BodyState(amount, initialAmount, currency, discountType, discount, tax, cycles, frequency,
                customDays, trialPeriodDays, intervalCount, planName, returnUrl, description)
    }

    constructor (s: BodyState)
      ensures State() == s
    {
      amount, initialAmount, currency := s.amount, s.initialAmount, s.currency;
      discountType, discount, tax := s.discountType, s.discount, s.tax;
      cycles, frequency, customDays := s.cycles, s.frequency, s.customDays;
      trialPeriodDays, intervalCount := s.trialPeriodDays, s.intervalCount;
      planName, returnUrl, description := s.planName, s.returnUrl, s.description;
    }

    /** Currency normalisation: the code is replaced by its upper-case form. */
    method UpperCaseCurrency()
      modifies this
      ensures State() == old(State()).(currency := Upper(old(currency)))
      ensures IsUpper(currency)
    {
      UpperIsUpper(currency);
      currency := Upper(currency);
    }

    /** The discount block shared by the one-time, recurring and fixed handlers. */
    method ApplyDiscount()
      modifies this
      ensures State() == old(State()).(amount := DiscountStep(old(amount), discountType, discount))
    {
      if discount > 0.0 {
        if discountType == PERCENTAGE {
          var discountAmount := (discount / 100.0) * amount;
          assert DiscountStep(amount, discountType, discount) == Round(amount - discountAmount, 1);
          amount := Round(amount - discountAmount, 1);
        } else {
          assert DiscountStep(amount, discountType, discount) == Round(amount - discount, 1);
          amount := Round(amount - discount, 1);
        }
      }
    }

    /** The tax block of the one-time, recurring and fixed handlers. */
    method ApplyTax()
      modifies this
      ensures State() == old(State()).(amount := TaxStep(old(amount), tax))
    {
      if tax > 0.0 {
        var taxAmount := amount * (tax / 100.0);
        amount := taxAmount + amount;
      }
    }

    /** The cycle block: a positive cycle count divides the amount. */
    method SpreadOverCycles()
      modifies this
      ensures State() == old(State()).(amount := CycleStep(old(amount), cycles))
    {
      if cycles > 0 {
        amount := amount / cycles as real;
      }
    }

    /** The installment discount block (with the initial amount kept a number). */
    method ApplyInstallmentDiscount()
      requires DiscountDivisible(amount, discountType, discount, intervalCount)
      modifies this
      ensures var a := InstallmentDiscount(old(amount), old(initialAmount), old(discountType), old(discount),
                                           old(intervalCount));
        State() == old(State()).(amount := a.regular, initialAmount := a.initial)
    {
      if discount > 0.0 {
        var a := InstallmentDiscount(amount, initialAmount, discountType, discount, intervalCount);
        amount, initialAmount := a.regular, a.initial;
      }
    }

    /** The installment tax block. */
    method ApplyInstallmentTax()
      modifies this
      ensures var a := InstallmentTax(InstallmentAmounts(old(amount), old(initialAmount)), tax);
        State() == old(State()).(amount := a.regular, initialAmount := a.initial)
    {
      if tax > 0.0 {
        var a := InstallmentTax(InstallmentAmounts(amount, initialAmount), tax);
        amount, initialAmount := a.regular, a.initial;
      }
    }

    /** Frequency resolution as the handlers do it: a "custom" frequency is
        overwritten with "DAY" and takes `custom_days` as its interval, any
        other keeps the interval 1; the frequency sent is the upper-case form
        of the field. Returns the cadence the plan is billed at. */
    method ResolveCustomFrequency() returns (cadence: Cadence)
      modifies this
      ensures State() == old(State()).(frequency := if old(frequency) == CUSTOM then DAY else old(frequency))
      ensures cadence == ResolveFrequency(old(frequency), customDays)
    {
      var interval := 1;
      if frequency == CUSTOM {
        frequency := DAY;
        interval := customDays;
      }
      cadence := Cadence(Upper(frequency), interval);
      UpperFixesUpper(DAY);
    }
  }

  // ---------------------------------------------------------------------------
  // What the validator and the SDK report
  // ---------------------------------------------------------------------------

  /** The validator's answer: `{ error, message }`. */
  datatype Verdict = Verdict(error: bool, message: string)

  /** The `response` of an SDK error: absent, or present with `details`
      that may themselves be missing. */
  datatype ErrorResponse = NoResponse | Response(details: Option<string>)

  /** An error passed to an SDK callback: its `response` and its `message`. */
  datatype SdkError = SdkError(response: ErrorResponse, message: string)

  /** What an SDK call passes to its callback. */
  datatype SdkResult<+T> = Ok(value: T) | Err(error: SdkError)

  /** A created payment or billing agreement: its id and its links. */
  datatype GatewayObject = GatewayObject(id: string, links: seq<Link>)

  /** `{ payment, link }` or `{ billingAgreement, link }`. */
  datatype Approved = Approved(created: GatewayObject, link: Option<Link>)

  /** The handlers' answer. `message` is `None` where it is undefined: read
      from a value that has no such property, or from missing details. */
  datatype Envelope = Envelope(error: bool, message: Option<string>, response: Option<Approved>)

  /** How a plan handler's promise ends: resolved with an envelope, or never,
      when its catch block itself throws before it can resolve. That throw
      rejects the async executor's own promise, which nothing handles; under
      Node's default unhandled-rejection mode (since Node 15) this ends the
      process. */
  datatype Settlement = Settled(env: Envelope) | Unsettled

  function Rejected(message: Option<string>): Envelope
  {
    Envelope(true, message, None)
  }

  /** The message of a failed one-time payment: the gateway's details when
      the error has a response (undefined when those are missing), or a
      fallback text. */
  function PaymentFailureMessage(e: SdkError): Option<string>
  {
    match e.response
    case NoResponse => Some("Could not make payment")
    case Response(details) => details
  }

  /** A plan or agreement callback rejects with `error.response.details`, or
      with a fallback text when there is no response; the catch block then
      reads `.message` of that value. Missing details make that read throw,
      so the handler never settles; a text has no `message`, so it is
      undefined. */
  function CaughtRejection(e: SdkError): Settlement
  {
    if e.response == Response(None) then Unsettled else Settled(Rejected(None))
  }

  /** The envelope the one-time handler answers with once its payload is built. */
  predicate PaymentEnvelope(env: Envelope, created: SdkResult<GatewayObject>)
  {
    && (env.error <==> created.Err?)
    && (env.error ==> env == Rejected(PaymentFailureMessage(created.error)))
    && (!env.error ==>
          env == Envelope(false, Some(""), Some(Approved(created.value, LastApproval(created.value.links)))))
  }

  /** `payment.create` and its callback. */
  method SettlePayment(created: SdkResult<GatewayObject>) returns (env: Envelope)
    ensures PaymentEnvelope(env, created)
  {
    match created
    case Err(e) =>
      env := Rejected(PaymentFailureMessage(e));
    case Ok(payment) =>
      var link := FindApprovalLink(payment.links);
      env := Envelope(false, Some(""), Some(Approved(payment, link)));
  }

  /** How a plan handler ends once its payload is built. */
  predicate PlanEnvelope(answer: Settlement, created: SdkResult<string>, activated: SdkResult<()>,
                         agreed: SdkResult<GatewayObject>)
  {
    && (answer.Unsettled? <==>
          || (created.Err? && created.error.response == Response(None))
          || (created.Ok? && activated.Ok? && agreed.Err? && agreed.error.response == Response(None)))
    && (answer.Settled? ==>
          && (answer.env.error <==> created.Err? || activated.Err? || agreed.Err?)
          && (answer.env.error ==> answer.env.response.None?)
          && (created.Err? || (activated.Ok? && agreed.Err?) ==> answer.env == Rejected(None))
          && (created.Ok? && activated.Err? ==> answer.env == Rejected(Some(activated.error.message)))
          && (!answer.env.error ==>
                answer.env == Envelope(false, Some(""), Some(Approved(agreed.value, LastApproval(agreed.value.links))))))
  }

  /** The fixed sequence of the plan handlers: create the plan, activate it,
      create the agreement, then look up its approval link. A failed step ends
      the sequence; nothing done before it is undone. A failed plan or
      agreement creation ends as `CaughtRejection` says; activation rejects
      with the SDK error itself, whose `message` the envelope carries. Returns
      the agreement request, sent only when the plan was created and
      activated. */
  method RunPlanSequence(created: SdkResult<string>, activated: SdkResult<()>,
                         agreed: SdkResult<GatewayObject>, agreementFor: string -> AgreementRequest)
    returns (answer: Settlement, agreement: Option<AgreementRequest>)
    ensures agreement.Some? <==> created.Ok? && activated.Ok?
    ensures agreement.Some? ==> agreement.value == agreementFor(created.value)
    ensures PlanEnvelope(answer, created, activated, agreed)
  {
    agreement := None;
    if created.Err? {
      answer := CaughtRejection(created.error);
    } else if activated.Err? {
      answer := Settled(Rejected(Some(activated.error.message)));
    } else {
      agreement := Some(agreementFor(created.value));
      if agreed.Err? {
        answer := CaughtRejection(agreed.error);
      } else {
        var link := FindApprovalLink(agreed.value.links);
        answer := Settled(Envelope(false, Some(""), Some(Approved(agreed.value, link))));
      }
    }
  }

  // ---------------------------------------------------------------------------
  // The handlers
  // ---------------------------------------------------------------------------

  /** `createPaymentPlanOneTime`. Returns the envelope and the payment request
      sent to the gateway. */
  method CreatePaymentPlanOneTime(body: PaymentBody, verdict: Verdict, created: SdkResult<GatewayObject>)
    returns (env: Envelope, sent: Option<PaymentRequest>)
    modifies body
    ensures verdict.error ==> env == Rejected(Some(verdict.message)) && sent.None? && body.State() == old(body.State())
    ensures !verdict.error ==>
      && body.State() == old(body.State()).(
           currency := Upper(old(body.currency)),
           amount := StandardAmount(old(body.amount), old(body.discountType), old(body.discount), old(body.tax)))
      && sent == Some(OneTimePayment(body.amount, body.currency, body.returnUrl, body.description))
      && PaymentEnvelope(env, created)
  {
    if verdict.error {
      return Rejected(Some(verdict.message)), None;
    }
    body.UpperCaseCurrency();
    body.ApplyDiscount();
    body.ApplyTax();
    sent := Some(OneTimePayment(body.amount, body.currency, body.returnUrl, body.description));
    env := SettlePayment(created);
  }

  /** `createPaymentPlanRecurring`. Returns the envelope, the billing plan and
      the agreement request sent to the gateway. */
  method CreatePaymentPlanRecurring(body: PaymentBody, verdict: Verdict, nowMillis: int,
                                    created: SdkResult<string>, activated: SdkResult<()>,
                                    agreed: SdkResult<GatewayObject>)
    returns (answer: Settlement, plan: Option<BillingPlan>, agreement: Option<AgreementRequest>)
    modifies body
    ensures verdict.error ==> answer == Settled(Rejected(Some(verdict.message))) && plan.None? && agreement.None?
                              && body.State() == old(body.State())
    ensures !verdict.error ==>
      && body.State() == old(body.State()).(
           currency := Upper(old(body.currency)),
           amount := StandardAmount(old(body.amount), old(body.discountType), old(body.discount), old(body.tax)),
           frequency := if old(body.frequency) == CUSTOM then DAY else old(body.frequency))
      && plan.Some?
      && plan.value.planType == Infinite
      && PhasesInOrder(plan.value.definitions, body.trialPeriodDays, body.currency,
                       RegularPhase("Regular Payments", ResolveFrequency(old(body.frequency), body.customDays),
                                    Str("0"), body.currency, body.amount))
      && plan.value.preferences.setupFee == Charge(body.currency, Str("0.00"))
      && plan.value.name == body.planName
      && plan.value.preferences.cancelUrl == plan.value.preferences.returnUrl == body.returnUrl
      && (body.trialPeriodDays > 0 ==> plan.value.definitions[0].name == "Trial Period")
      && (agreement.Some? <==> created.Ok? && activated.Ok?)
      && (agreement.Some? ==> agreement.value == RecurringAgreement(created.value, nowMillis))
      && PlanEnvelope(answer, created, activated, agreed)
  {
    if verdict.error {
      return Settled(Rejected(Some(verdict.message))), None, None;
    }
    body.UpperCaseCurrency();
    body.ApplyDiscount();
    body.ApplyTax();
    var cadence := body.ResolveCustomFrequency();
    var p := RecurringPlan(body.planName, body.currency, body.amount, cadence, body.trialPeriodDays, body.returnUrl);
    plan := Some(p);
    answer, agreement := RunPlanSequence(created, activated, agreed, id => RecurringAgreement(id, nowMillis));
  }

  /** `createPaymentFixedRecurring`: as the recurring handler, but the charge is
      spread over `cycles` and the plan is FIXED with that many cycles. */
  method CreatePaymentFixedRecurring(body: PaymentBody, verdict: Verdict, nowMillis: int,
                                     created: SdkResult<string>, activated: SdkResult<()>,
                                     agreed: SdkResult<GatewayObject>)
    returns (answer: Settlement, plan: Option<BillingPlan>, agreement: Option<AgreementRequest>)
    modifies body
    ensures verdict.error ==> answer == Settled(Rejected(Some(verdict.message))) && plan.None? && agreement.None?
                              && body.State() == old(body.State())
    ensures !verdict.error ==>
      && body.State() == old(body.State()).(
           currency := Upper(old(body.currency)),
           amount := FixedAmount(old(body.amount), old(body.discountType), old(body.discount), old(body.tax),
                                 old(body.cycles)),
           frequency := if old(body.frequency) == CUSTOM then DAY else old(body.frequency))
      && plan.Some?
      && plan.value.planType == Fixed
      && PhasesInOrder(plan.value.definitions, body.trialPeriodDays, body.currency,
                       RegularPhase("Regular Payments", ResolveFrequency(old(body.frequency), body.customDays),
                                    Num(body.cycles as real), body.currency, body.amount))
      && plan.value.preferences.setupFee == Charge(body.currency, Str("0.00"))
      && plan.value.name == body.planName
      && plan.value.preferences.cancelUrl == plan.value.preferences.returnUrl == body.returnUrl
      && (body.trialPeriodDays > 0 ==> plan.value.definitions[0].name == "Trial Period")
      && (agreement.Some? <==> created.Ok? && activated.Ok?)
      && (agreement.Some? ==> agreement.value == RecurringAgreement(created.value, nowMillis))
      && PlanEnvelope(answer, created, activated, agreed)
  {
    if verdict.error {
      return Settled(Rejected(Some(verdict.message))), None, None;
    }
    body.UpperCaseCurrency();
    body.ApplyDiscount();
    body.ApplyTax();
    body.SpreadOverCycles();
    var cadence := body.ResolveCustomFrequency();
    var p := FixedPlan(body.planName, body.currency, body.amount, cadence, body.cycles, body.trialPeriodDays,
                       body.returnUrl);
    plan := Some(p);
    answer, agreement := RunPlanSequence(created, activated, agreed, id => RecurringAgreement(id, nowMillis));
  }

  /** `createPaymentInstallments`, with the initial amount kept a number after
      the discount (see `Amounts.InstallmentPlanAmountsAsWritten`).
      The setup fee is the initial amount; the regular phase charges the
      rest per cycle. */
  method CreatePaymentInstallments(body: PaymentBody, verdict: Verdict, nowMillis: int,
                                   created: SdkResult<string>, activated: SdkResult<()>,
                                   agreed: SdkResult<GatewayObject>)
    returns (answer: Settlement, plan: Option<BillingPlan>, agreement: Option<AgreementRequest>)
    requires !verdict.error ==> DiscountDivisible(body.amount, body.discountType, body.discount, body.intervalCount)
    modifies body
    ensures verdict.error ==> answer == Settled(Rejected(Some(verdict.message))) && plan.None? && agreement.None?
                              && body.State() == old(body.State())
    ensures !verdict.error ==>
      var a := InstallmentPlanAmounts(old(body.amount), old(body.initialAmount), old(body.discountType),
                                      old(body.discount), old(body.intervalCount), old(body.tax), old(body.cycles));
      && body.State() == old(body.State()).(
           currency := Upper(old(body.currency)),
           amount := a.regular,
           initialAmount := a.initial,
           frequency := if old(body.frequency) == CUSTOM then DAY else old(body.frequency))
      && plan.Some?
      && plan.value.planType == Fixed
      && PhasesInOrder(plan.value.definitions, body.trialPeriodDays, body.currency,
                       RegularPhase(InstallmentRegularName(body.planName, body.trialPeriodDays),
                                    ResolveFrequency(old(body.frequency), body.customDays),
                                    Str(IntText(body.cycles)), body.currency, a.regular))
      && plan.value.preferences.setupFee == Charge(body.currency, Num(a.initial))
      && plan.value.name == body.planName
      && plan.value.preferences.cancelUrl == plan.value.preferences.returnUrl == body.returnUrl
      && (body.trialPeriodDays > 0 ==> plan.value.definitions[0].name == body.planName + " Trial Period")
      && (agreement.Some? <==> created.Ok? && activated.Ok?)
      && (agreement.Some? ==>
            agreement.value == InstallmentAgreement(body.planName, body.trialPeriodDays, created.value, nowMillis))
      && PlanEnvelope(answer, created, activated, agreed)
  {
    if verdict.error {
      return Settled(Rejected(Some(verdict.message))), None, None;
    }
    body.UpperCaseCurrency();
    body.ApplyInstallmentDiscount();
    body.ApplyInstallmentTax();
    body.SpreadOverCycles();
    var cadence := body.ResolveCustomFrequency();
    var p := InstallmentPlan(body.planName, body.currency, body.amount, body.initialAmount, cadence, body.cycles,
                             body.trialPeriodDays, body.returnUrl);
    plan := Some(p);
    var planName, trialDays := body.planName, body.trialPeriodDays;
    answer, agreement := RunPlanSequence(created, activated, agreed,
                                      id => InstallmentAgreement(planName, trialDays, id, nowMillis));
  }
}
