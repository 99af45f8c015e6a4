/** Step 5 of the wizard: the price table, the plan and period selection, and
    the completion handler that hands the selection to the wizard, dispatches
    `registerArtist` and follows its result. */
module PlanStep {

  import opened Types
  import opened Registration
  import opened Wizard
  import opened Backend
  import opened ArtistActions

  /** One entry of `PLAN_PRICING`, in CLP. */
  datatype PlanPricing = PlanPricing(monthlyPrice: nat, quarterlyPrice: nat, quarterlyDiscountPercentage: nat)

  /** `PLAN_PRICING`. */
  function Pricing(plan: PlanType): (p: PlanPricing)
    // every plan has a price, and one quarter costs less than three months
    ensures 0 < p.monthlyPrice && p.quarterlyPrice < 3 * p.monthlyPrice
    ensures 0 < p.quarterlyDiscountPercentage < 100
  {
    match plan
    case Silver => PlanPricing(80000, 200000, 17)
    case Gold => PlanPricing(150000, 350000, 22)
    case Premium => PlanPricing(300000, 600000, 33)
  }

  /** `selectedPrice`: the monthly price for a monthly period, the quarterly one otherwise. */
  function SelectedPrice(plan: PlanType, period: BillingPeriod): (price: nat)
    ensures price > 0
    ensures period == Monthly ==> price == Pricing(plan).monthlyPrice
    ensures period == Quarterly ==> price == Pricing(plan).quarterlyPrice && price < 3 * Pricing(plan).monthlyPrice
  {
    if period == Monthly then Pricing(plan).monthlyPrice else Pricing(plan).quarterlyPrice
  }

  /** `monthlySavings`: three monthly payments against one quarterly one; nothing
      when paying monthly. */
  function MonthlySavings(plan: PlanType, period: BillingPeriod): (savings: int)
    ensures savings >= 0
    ensures savings > 0 <==> period == Quarterly
    ensures period == Quarterly ==> savings + Pricing(plan).quarterlyPrice == 3 * Pricing(plan).monthlyPrice
  {
    if period == Quarterly then Pricing(plan).monthlyPrice * 3 - Pricing(plan).quarterlyPrice else 0
  }

  /** Paying quarterly saves money on every plan: the savings are the difference
      between three monthly prices and the quarterly price, and are positive. */
  lemma QuarterlySavesOnEveryPlan(plan: PlanType)
    ensures MonthlySavings(plan, Quarterly) == 3 * SelectedPrice(plan, Monthly) - SelectedPrice(plan, Quarterly)
    ensures MonthlySavings(plan, Quarterly) > 0
    ensures MonthlySavings(plan, Monthly) == 0
  {
  }

  /** Each listed discount is the savings as a percentage of three monthly
      payments, rounded to the nearest whole percent. */
  lemma DiscountMatchesSavings(plan: PlanType)
    ensures var three := 3 * Pricing(plan).monthlyPrice;
      2 * (100 * MonthlySavings(plan, Quarterly) - Pricing(plan).quarterlyDiscountPercentage * three) <= three
    ensures var three := 3 * Pricing(plan).monthlyPrice;
      2 * (Pricing(plan).quarterlyDiscountPercentage * three - 100 * MonthlySavings(plan, Quarterly)) <= three
  {
  }

  /** The largest discount is 33%, as the quarterly toggle advertises. */
  lemma LargestDiscountIs33(plan: PlanType)
    ensures Pricing(plan).quarterlyDiscountPercentage <= 33
    ensures Pricing(Premium).quarterlyDiscountPercentage == 33
  {
  }

  const PAYMENT_INSTRUCTIONS_ROUTE := "/register-artist/payment-instructions?artist_id="

  /** The patch `{ selectedPlan, billingPeriod }`. */
  function PlanSelection(plan: PlanType, period: BillingPeriod): (p: Record)
    ensures p.Keys == StepFields(5) && Conforms(p)
    ensures p[SelectedPlan] == PlanValue(plan) && p[SelectedPeriod] == PeriodValue(period)
  {
    map[SelectedPlan := PlanValue(plan), SelectedPeriod := PeriodValue(period)]
  }

  /** `data.selectedPlan || 'silver'`: every plan name is a non-empty text. */
  function InitialPlan(data: Record): (plan: PlanType)
    ensures SelectedPlan in data && data[SelectedPlan].PlanValue? ==> plan == data[SelectedPlan].plan
    ensures !(SelectedPlan in data && data[SelectedPlan].PlanValue?) ==> plan == Silver
  {
    if SelectedPlan in data && data[SelectedPlan].PlanValue? then data[SelectedPlan].plan else Silver
  }

  /** `data.billingPeriod || 'monthly'`. */
  function InitialPeriod(data: Record): (period: BillingPeriod)
    ensures SelectedPeriod in data && data[SelectedPeriod].PeriodValue? ==> period == data[SelectedPeriod].period
    ensures !(SelectedPeriod in data && data[SelectedPeriod].PeriodValue?) ==> period == Monthly
  {
    if SelectedPeriod in data && data[SelectedPeriod].PeriodValue? then data[SelectedPeriod].period else Monthly
  }

  /** `{ ...data, selectedPlan, billingPeriod } as ArtistRegistrationData`, for a
      record holding the keys of steps 1 to 4. */
  function FinalData(data: Record, plan: PlanType, period: BillingPeriod): (d: ArtistRegistrationData)
    requires Conforms(data)
    requires forall k | 1 <= k < TOTAL_STEPS :: StepFields(k) <= data.Keys
    ensures d.selectedPlan == plan && d.billingPeriod == period
  {
    PopulatedAtLastStepIsComplete(data, PlanSelection(plan, period));
    ToRegistrationData(Merge(data, PlanSelection(plan, period)))
  }

  /** The dispatched data is the data as entered, with the local selection in
      place of any earlier one. */
  lemma FinalDataAsEntered(data: Record, plan: PlanType, period: BillingPeriod)
    requires Conforms(data)
    requires forall k | 1 <= k < TOTAL_STEPS :: StepFields(k) <= data.Keys
    ensures var d := FinalData(data, plan, period);
      && Email in data && data[Email] == Text(d.email)
      && Password in data && data[Password] == Text(d.password)
      && FullName in data && data[FullName] == Text(d.fullName)
      && Age in data && data[Age] == Number(d.age)
      && Bio in data && data[Bio] == Text(d.bio)
      && Country in data && data[Country] == Text(d.country)
      && City in data && data[City] == Text(d.city)
      && d.profilePhoto == OptionalFile(data, ProfilePhoto) && d.whatsapp == OptionalText(data, Whatsapp)
  {
    var selection := PlanSelection(plan, period);
    EarlierStepsTyped(data);
    PopulatedAtLastStepIsComplete(data, selection);
    MergeOutsidePatch(data, selection, Email);
    MergeOutsidePatch(data, selection, Password);
    MergeOutsidePatch(data, selection, FullName);
    MergeOutsidePatch(data, selection, Age);
    MergeOutsidePatch(data, selection, Bio);
    MergeOutsidePatch(data, selection, Country);
    MergeOutsidePatch(data, selection, City);
    MergeOutsidePatch(data, selection, ProfilePhoto);
    MergeOutsidePatch(data, selection, Whatsapp);
  }

  /** Where the handler goes once `registerArtist` answers: it stays when the
      result has a non-empty `error`, and otherwise goes to the payment
      instructions of `artistId`. An error with an empty message is falsy and
      leads there too, with the id written `undefined`. */
  function CompletionTarget(result: RegisterResult): (nav: Navigation)
    ensures nav == Stay <==> result.RegisterFailed? && result.error != ""
    ensures result.Registered? ==> nav == NavigateTo(PAYMENT_INSTRUCTIONS_ROUTE + result.artistId)
  {
    match result
    case Registered(artistId) => NavigateTo(PAYMENT_INSTRUCTIONS_ROUTE + artistId)
    case RegisterFailed(message) =>
      if message != "" then Stay else NavigateTo(PAYMENT_INSTRUCTIONS_ROUTE + "undefined")
  }

  /** After a full registration, the handler goes to the payment instructions
      of the new user. */
  lemma SuccessShowsPaymentInstructions(d: ArtistRegistrationData, rp: RegisterReplies)
    requires AllStagesSucceed(rp)
    ensures CompletionTarget(RegisterArtistRun(d, rp).result)
      == NavigateTo(PAYMENT_INSTRUCTIONS_ROUTE + rp.signUp.reply.userId)
  {
  }

  /** Every failure `registerArtist` reports except a credential error without
      message keeps the user on the plan step. */
  lemma FailureStaysOnPlanStep(d: ArtistRegistrationData, rp: RegisterReplies)
    requires !AllStagesSucceed(rp)
    requires !(rp.signUp.Returned? && rp.signUp.reply.AuthFailed? && rp.signUp.reply.message == "")
    ensures CompletionTarget(RegisterArtistRun(d, rp).result) == Stay
  {
  }

  class Step5Plan {
    const data: Record
    var selectedPlan: PlanType
    var billingPeriod: BillingPeriod
    var loading: bool
    var error: string

    /** The selection starts from the record's values, or silver and monthly. */
    constructor (data: Record)
      ensures this.data == data
      ensures selectedPlan == InitialPlan(data) && billingPeriod == InitialPeriod(data)
      ensures !loading && error == ""
    {
      this.data := data;
      selectedPlan := InitialPlan(data);
      billingPeriod := InitialPeriod(data);
      loading := false;
      error := "";
    }

    /** A click on a plan card. */
    method SelectPlan(plan: PlanType)
      modifies this`selectedPlan
      ensures selectedPlan == plan
    {
      selectedPlan := plan;
    }

    /** A click on the monthly or quarterly toggle. */
    method SelectPeriod(period: BillingPeriod)
      modifies this`billingPeriod
      ensures billingPeriod == period
    {
      billingPeriod := period;
    }

    /** The price shown for the current selection, in CLP. */
    function Price(): (price: nat)
      reads this
      ensures price > 0
      ensures billingPeriod == Monthly ==> price == Pricing(selectedPlan).monthlyPrice
      ensures billingPeriod == Quarterly ==> price == Pricing(selectedPlan).quarterlyPrice
    {
      SelectedPrice(selectedPlan, billingPeriod)
    }

    /** The savings shown for the current selection, in CLP; the savings line
        appears exactly when they are positive, that is, for a quarterly period. */
    function Savings(): (savings: int)
      reads this
      ensures savings >= 0
      ensures savings > 0 <==> billingPeriod == Quarterly
    {
      MonthlySavings(selectedPlan, billingPeriod)
    }

    /** `handleComplete`, wired to the wizard's `onComplete`. The wizard receives
        the selection and stays at step 5; `registerArtist` receives the record
        with that selection merged in. On a result with an error message the
        message is shown and loading ends; otherwise the browser goes to the
        payment instructions with loading still on. */
    method HandleComplete(wizard: ArtistRegistrationWizard, client: Client, rp: RegisterReplies)
      returns (nav: Navigation)
      requires wizard.Valid() && wizard.Populated() && wizard.currentStep == 5
      requires wizard.formData == data
      modifies this`loading, this`error, wizard, client
      ensures wizard.Valid() && wizard.Populated() && wizard.currentStep == 5
      ensures wizard.formData == Merge(data, PlanSelection(selectedPlan, billingPeriod))
      ensures var run := RegisterArtistRun(FinalData(data, selectedPlan, billingPeriod), rp);
        client.log == old(client.log) + run.requests
        && nav == CompletionTarget(run.result)
        && (nav == Stay ==> error == run.result.error && !loading)
        && (nav != Stay ==> error == "" && loading)
    {
      loading := true;
      error := "";
      wizard.OnComplete(PlanSelection(selectedPlan, billingPeriod));
      nav := Dispatch(client, FinalData(data, selectedPlan, billingPeriod), rp);
    }

    /** The second half of `handleComplete`, with loading on and no message:
        `registerArtist` on `d`, then the message or the navigation its result
        calls for. */
    method Dispatch(client: Client, d: ArtistRegistrationData, rp: RegisterReplies) returns (nav: Navigation)
      requires loading && error == ""
      modifies this`loading, this`error, client
      ensures var run := RegisterArtistRun(d, rp);
        client.log == old(client.log) + run.requests
        && nav == CompletionTarget(run.result)
        && (nav == Stay ==> error == run.result.error && !loading)
        && (nav != Stay ==> error == "" && loading)
    {
      var result := RegisterArtist(client, d, rp);
      nav := CompletionTarget(result);
      if nav == Stay {
        error := result.error;
        loading := false;
      }
    }
  }
}
