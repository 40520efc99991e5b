/** The session cart (`useCartStore`): the chosen plan and billing cycle, the
    dependent count the personal-data step keeps in sync, and who pays. */
module CartStore {
  import opened Basics
  import opened PricingEngine

  /** `IPlan`, reduced to the fields the checkout reads. */
  datatype Plan = Plan(id: string, name: string)

  /** `PayerInfo`: either the holder pays (no other field), or another person
      whose four fields are all given. */
  datatype PayerInfo = PayerInfo(isHolder: bool, fullName: Option<string>, cpf: Option<string>,
                                 email: Option<string>, phone: Option<string>)

  /** `{ isHolder: true }`. */
  const HolderPays := PayerInfo(true, None, None, None, None)

  /** A payer record is never partial. */
  predicate WellFormedPayer(p: PayerInfo)
  {
    if p.isHolder then p == HolderPays
    else p.fullName.Some? && p.cpf.Some? && p.email.Some? && p.phone.Some?
  }

  /** A snapshot of the four store fields. */
  datatype CartState = CartState(selectedPlan: Option<Plan>, billingCycle: BillingCycle,
                                 dependentsCount: nat, payer: PayerInfo)

  /** The store as created for a new session. */
  const InitialCart := CartState(None, Monthly, 0, HolderPays)

  /** `setPlan`: plan and cycle are replaced together. */
  function WithPlan(s: CartState, plan: Plan, cycle: BillingCycle): (t: CartState)
    ensures t.selectedPlan == Some(plan) && t.billingCycle == cycle
    ensures t.dependentsCount == s.dependentsCount && t.payer == s.payer
  {
    s.(selectedPlan := Some(plan), billingCycle := cycle)
  }

  /** `setDependentsCount`: the count is replaced outright. */
  function WithDependentsCount(s: CartState, count: nat): (t: CartState)
    ensures t.dependentsCount == count
    ensures t.selectedPlan == s.selectedPlan && t.billingCycle == s.billingCycle && t.payer == s.payer
  {
    s.(dependentsCount := count)
  }

  /** `setPayer`: the payer record is replaced as a whole. */
  function WithPayer(s: CartState, payer: PayerInfo): (t: CartState)
    ensures t.payer == payer
    ensures t.selectedPlan == s.selectedPlan && t.billingCycle == s.billingCycle
    ensures t.dependentsCount == s.dependentsCount
  {
    s.(payer := payer)
  }

  /** `clearCart`: plan, count and payer go back to their defaults; the
      billing cycle is kept. */
  function Cleared(s: CartState): (t: CartState)
    ensures t.selectedPlan == None && t.dependentsCount == 0 && t.payer == HolderPays
    ensures t.billingCycle == s.billingCycle
  {
    CartState(None, s.billingCycle, 0, HolderPays)
  }

  /** Setting the count twice to the same value is setting it once, and a
      later count overrides an earlier one. */
  lemma DependentsCountOverrides(s: CartState, first: nat, second: nat)
    ensures WithDependentsCount(WithDependentsCount(s, first), second) == WithDependentsCount(s, second)
    ensures WithDependentsCount(WithDependentsCount(s, first), first) == WithDependentsCount(s, first)
  {
  }

  /** Clearing forgets everything but the cycle: it agrees with the initial
      cart up to the billing cycle, and clearing twice is clearing once. */
  lemma ClearedIsInitialButCycle(s: CartState)
    ensures Cleared(s) == InitialCart.(billingCycle := s.billingCycle)
    ensures Cleared(s) == InitialCart <==> s.billingCycle == Monthly
    ensures Cleared(Cleared(s)) == Cleared(s)
  {
  }

  /** The operations keep the payer record well formed when what they store
      is well formed. */
  lemma OperationsKeepPayerWellFormed(s: CartState, plan: Plan, cycle: BillingCycle, count: nat,
                                      payer: PayerInfo)
    requires WellFormedPayer(s.payer) && WellFormedPayer(payer)
    ensures WellFormedPayer(WithPlan(s, plan, cycle).payer)
    ensures WellFormedPayer(WithDependentsCount(s, count).payer)
    ensures WellFormedPayer(WithPayer(s, payer).payer)
    ensures WellFormedPayer(Cleared(s).payer)
  {
  }

  /** The plan card's choice: the annual toggle picks the yearly cycle. */
  function CycleForToggle(isAnnual: bool): (cycle: BillingCycle)
    ensures cycle == Yearly <==> isAnnual
  {
    if isAnnual then Yearly else Monthly
  }

  /** The store object: four fields updated in place by four actions. */
  class Cart {
    var selectedPlan: Option<Plan>
    var billingCycle: BillingCycle
    var dependentsCount: nat
    var payer: PayerInfo

    /** What a reader of the store sees. */
    function State(): CartState
      reads this
    {
      CartState(selectedPlan, billingCycle, dependentsCount, payer)
    }

    constructor ()
      ensures State() == InitialCart
    {
      selectedPlan := None;
      billingCycle := Monthly;
      dependentsCount := 0;
      payer := HolderPays;
    }

    method SetPlan(plan: Plan, cycle: BillingCycle)
      modifies this
      ensures State() == WithPlan(old(State()), plan, cycle)
    {
      selectedPlan, billingCycle := Some(plan), cycle;
    }

    method SetDependentsCount(count: nat)
      modifies this
      ensures State() == WithDependentsCount(old(State()), count)
    {
      dependentsCount := count;
    }

    method SetPayer(p: PayerInfo)
      modifies this
      ensures State() == WithPayer(old(State()), p)
    {
      payer := p;
    }

    method ClearCart()
      modifies this
      ensures State() == Cleared(old(State()))
    {
      selectedPlan, dependentsCount, payer := None, 0, HolderPays;
    }
  }

  /** The plan card's button: store the plan with the cycle its toggle shows. */
  method SelectPlan(cart: Cart, plan: Plan, isAnnual: bool)
    modifies cart
    ensures cart.State() == WithPlan(old(cart.State()), plan, CycleForToggle(isAnnual))
  {
    cart.SetPlan(plan, if isAnnual then Yearly else Monthly);
  }
}
