/** The checkout page: the three-step wizard (coverage, identification,
    payment), the guard that sends a visitor without a plan back to the plan
    list, the progress bar, and the order summary computed from the cart. */
module CheckoutPage {
  import opened Basics
  import opened PricingData
  import opened PricingEngine
  import opened CartStore

  /** Where "back" from the first step and a missing plan lead. */
  const PlansAnchor := "/#planos"

  /** `STEPS`: id and label of each step, in order. */
  const Steps: seq<(int, string)> := [(1, "Cobertura"), (2, "Identificação"), (3, "Pagamento")]

  datatype Action = Next | Back

  /** The outcome of a step's button: another step, leaving the wizard, or
      nothing (the payment step has no "next"). */
  datatype Navigation = Stay | GoTo(step: int) | Leave(path: string)

  /** The `onNext`/`onBack` callbacks handed to each step. */
  function Navigate(step: int, action: Action): (nav: Navigation)
    requires 1 <= step <= 3
    ensures nav.GoTo? ==> 1 <= nav.step <= 3
    ensures nav.GoTo? && action == Next ==> nav.step == step + 1
    ensures nav.GoTo? && action == Back ==> nav.step == step - 1
    ensures nav.Leave? <==> step == 1 && action == Back
    ensures nav.Leave? ==> nav.path == PlansAnchor
    ensures nav.Stay? <==> step == 3 && action == Next
  {
    match action
    case Next => if step == 1 then GoTo(2) else if step == 2 then GoTo(3) else Stay
    case Back => if step == 1 then Leave(PlansAnchor) else GoTo(step - 1)
  }

  /** "Back" undoes "next" and "next" undoes "back", inside the wizard. */
  lemma NextAndBackAreInverse(step: int)
    requires 1 <= step <= 3
    ensures step < 3 ==> Navigate(step, Next) == GoTo(step + 1) && Navigate(step + 1, Back) == GoTo(step)
    ensures step > 1 ==> Navigate(step, Back) == GoTo(step - 1) && Navigate(step - 1, Next) == GoTo(step)
  {
  }

  /** One entry of the progress bar. */
  datatype StepIndicator = StepIndicator(id: int, name: string, isActive: bool, isCompleted: bool)

  /** `STEPS.map(...)` with `isActive = id === currentStep` and
      `isCompleted = id < currentStep`. */
  function StepIndicators(currentStep: int): (bar: seq<StepIndicator>)
    ensures |bar| == |Steps|
    ensures forall i :: 0 <= i < |bar| ==> bar[i].id == Steps[i].0 && bar[i].name == Steps[i].1
  {
    seq(|Steps|, i requires 0 <= i < |Steps| =>
      StepIndicator(Steps[i].0, Steps[i].1, Steps[i].0 == currentStep, Steps[i].0 < currentStep))
  }

  /** On any step of the wizard exactly one indicator is active, the one at
      position `currentStep - 1`, and the completed ones are exactly those
      before it. */
  lemma ProgressBarShape(currentStep: int)
    requires 1 <= currentStep <= 3
    ensures var bar := StepIndicators(currentStep);
      && bar[currentStep - 1].isActive
      && (forall i :: 0 <= i < |bar| && bar[i].isActive ==> i == currentStep - 1)
      && (forall i :: 0 <= i < |bar| ==> (bar[i].isCompleted <==> i < currentStep - 1))
  {
  }

  /** The order summary panel. Lines that only one cycle shows are `None`
      for the other. */
  datatype Summary = Summary(
    planName: string,
    beneficiaries: nat,
    discountBadge: bool,            // "-10% OFF", yearly only
    feePerPerson: real,
    enrollmentLine: real,           // enrollment fee times people
    proRataLine: Option<real>,      // monthly only
    totalDueNow: real,
    nextInstallments: Option<real>  // monthly only
  )

  datatype PageView = Redirect(path: string) | Checkout(progress: seq<StepIndicator>, summary: Summary)

  /** The summary panel for a plan, a cycle and the quote `q` (the page's
      `financials`). The holder plus each dependent is a beneficiary, the
      enrollment line is the per-person fee times that count, the pro-rata
      and next-installment lines appear only on the monthly cycle, and the
      discount badge only on the yearly one. */
  function SummaryOf(plan: Plan, cycle: BillingCycle, q: CalculationResult): (s: Summary)
    ensures s.planName == plan.name
    ensures s.beneficiaries == q.peopleCount && s.feePerPerson == q.baseFee
    ensures s.enrollmentLine == q.enrollmentFee * q.peopleCount as real
    ensures s.totalDueNow == q.totalDueNow
    ensures s.discountBadge <==> cycle == Yearly
    ensures cycle == Monthly ==> s.proRataLine == Some(q.proRataAmount) && s.nextInstallments == Some(q.monthlyTotal)
    ensures cycle == Yearly ==> s.proRataLine.None? && s.nextInstallments.None?
  {
    var monthly := cycle == Monthly;
    Summary(plan.name, q.peopleCount, !monthly, q.baseFee, q.enrollmentFee * q.peopleCount as real,
            if monthly then Some(q.proRataAmount) else None,
            q.totalDueNow,
            if monthly then Some(q.monthlyTotal) else None)
  }

  /** What the page shows for a cart and a step; `day` and `month` are the
      date the quote is computed for. Without a plan it only redirects;
      with one, the summary is the engine's quote for the cart's plan,
      dependent count and cycle. */
  function RenderPage(cart: CartState, currentStep: int, day: int, month: int): (v: PageView)
    requires 1 <= day <= 31 && 1 <= month <= 12
    ensures v.Redirect? <==> cart.selectedPlan.None?
    ensures v.Redirect? ==> v.path == PlansAnchor
    ensures v.Checkout? ==> v.progress == StepIndicators(currentStep)
    ensures v.Checkout? ==>
      v.summary == SummaryOf(cart.selectedPlan.value, cart.billingCycle,
        CalculateCheckout(cart.selectedPlan.value.id, cart.dependentsCount, cart.billingCycle, day, month))
  {
    match cart.selectedPlan
    case None => Redirect(PlansAnchor)
    case Some(plan) =>
      var financials := CalculateCheckout(plan.id, cart.dependentsCount, cart.billingCycle, day, month);
      Checkout(StepIndicators(currentStep), SummaryOf(plan, cart.billingCycle, financials))
  }

  /** `currentStep`, the page's one piece of mutable state. */
  class Wizard {
    var currentStep: int

    ghost predicate Valid()
      reads this
    {
      1 <= currentStep <= 3
    }

    /** The wizard opens on the coverage step. */
    constructor ()
      ensures Valid() && currentStep == 1
    {
      currentStep := 1;
    }

    /** A step's "next" or "back" button: `setCurrentStep` when it leads to
        another step; leaving for the plan list does not change the step. */
    method Dispatch(action: Action) returns (nav: Navigation)
      requires Valid()
      modifies this
      ensures Valid()
      ensures nav == Navigate(old(currentStep), action)
      ensures currentStep == (if nav.GoTo? then nav.step else old(currentStep))
      ensures nav.GoTo? ==> currentStep - old(currentStep) == 1 || old(currentStep) - currentStep == 1
    {
      if action == Next {
        if currentStep == 1 {
          currentStep := 2;
          nav := GoTo(2);
        } else if currentStep == 2 {
          currentStep := 3;
          nav := GoTo(3);
        } else {
          nav := Stay;
        }
      } else {
        if currentStep == 1 {
          nav := Leave(PlansAnchor);
        } else {
          currentStep := currentStep - 1;
          nav := GoTo(currentStep);
        }
      }
    }
  }
}
