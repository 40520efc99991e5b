/** The payment step: whether the holder pays, the other payer's form with a
    registry lookup on CPF blur, and the payer record stored in the cart on
    submit. */
module PaymentStep {
  import opened Basics
  import opened UserInfo
  import opened CartStore
  import PersonalDataStep

  datatype PayerForm = PayerForm(fullName: string, cpf: string, email: string, phone: string)

  /** `payerSchema`; `isEmail` is the validation library's e-mail check. */
  predicate PayerFormValid(f: PayerForm, isEmail: string -> bool)
  {
    |f.fullName| >= 5 && |f.cpf| >= 11 && isEmail(f.email) && |f.phone| >= 10
  }

  /** The form's initial values: the stored payer's fields, "" where absent. */
  function FormDefaults(p: PayerInfo): (f: PayerForm)
    ensures p.fullName.Some? ==> f.fullName == p.fullName.value
    ensures p.fullName.None? ==> f.fullName == ""
    ensures p.cpf.Some? ==> f.cpf == p.cpf.value
    ensures p.cpf.None? ==> f.cpf == ""
    ensures p.email.Some? ==> f.email == p.email.value
    ensures p.email.None? ==> f.email == ""
    ensures p.phone.Some? ==> f.phone == p.phone.value
    ensures p.phone.None? ==> f.phone == ""
  {
    PayerForm(p.fullName.GetOr(""), p.cpf.GetOr(""), p.email.GetOr(""), p.phone.GetOr(""))
  }

  /** `{ isHolder: false, ...data }`. */
  function PayerFromForm(f: PayerForm): (p: PayerInfo)
    ensures !p.isHolder && WellFormedPayer(p)
  {
    PayerInfo(false, Some(f.fullName), Some(f.cpf), Some(f.email), Some(f.phone))
  }

  /** Reopening the step after a non-holder submit shows the same form. */
  lemma FormDefaultsAfterSubmit(f: PayerForm)
    ensures FormDefaults(PayerFromForm(f)) == f
  {
  }

  /** What the "Finalizar" button stores: as holder, `{ isHolder: true }`
      without validating the form; otherwise the four fields, only when the
      form validates (`None`: the form shows its errors and nothing is
      stored). */
  function SubmittedPayer(isHolderPayer: bool, f: PayerForm, isEmail: string -> bool): (p: Option<PayerInfo>)
    ensures isHolderPayer ==> p == Some(HolderPays)
    ensures !isHolderPayer ==> (p.Some? <==> PayerFormValid(f, isEmail))
    ensures p.Some? ==> WellFormedPayer(p.value)
    ensures p.Some? && !isHolderPayer ==>
      p.value.fullName == Some(f.fullName) && p.value.cpf == Some(f.cpf)
      && p.value.email == Some(f.email) && p.value.phone == Some(f.phone)
  {
    if isHolderPayer then Some(HolderPays)
    else if PayerFormValid(f, isEmail) then Some(PayerFromForm(f))
    else None
  }

  const PayerNotFound := PersonalDataStep.Feedback(PersonalDataStep.ErrorFeedback, "CPF não encontrado. Preencha manualmente.")

  function PayerFoundFeedback(name: string): PersonalDataStep.Feedback
  {
    PersonalDataStep.Feedback(PersonalDataStep.SuccessFeedback, "Cadastro encontrado: " + name)
  }

  class Payment {
    var isHolderPayer: bool
    var form: PayerForm
    var cpfFeedback: Option<PersonalDataStep.Feedback>
    const cart: Cart

    /** Mounting: the toggle and the form start from what the cart holds. */
    constructor (cart: Cart)
      ensures this.cart == cart
      ensures isHolderPayer == cart.payer.isHolder
      ensures form == FormDefaults(cart.payer) && cpfFeedback == None
    {
      this.cart := cart;
      isHolderPayer := cart.payer.isHolder;
      form := FormDefaults(cart.payer);
      cpfFeedback := None;
    }

    /** A click on the "holder pays" switch. */
    method ToggleHolderPayer()
      modifies this
      ensures isHolderPayer == !old(isHolderPayer)
      ensures form == old(form) && cpfFeedback == old(cpfFeedback)
    {
      isHolderPayer := !isHolderPayer;
    }

    /** `handleCpfBlur`: only an 11-digit CPF is looked up; success fills the
        name and nothing else. */
    method HandleCpfBlur(response: UserInfoResponse)
      modifies this
      ensures isHolderPayer == old(isHolderPayer)
      ensures PersonalDataStep.CpfForLookup(old(form).cpf).None? ==>
        form == old(form) && cpfFeedback == old(cpfFeedback)
      ensures PersonalDataStep.CpfForLookup(old(form).cpf).Some? ==>
        var result := GetUserInfo(PersonalDataStep.CpfForLookup(old(form).cpf).value, response);
        match result
        case Failure(_) => form == old(form) && cpfFeedback == Some(PayerNotFound)
        case Success(data) =>
          form == old(form).(fullName := data.name) && cpfFeedback == Some(PayerFoundFeedback(data.name))
    {
      var clean := PersonalDataStep.CpfForLookup(form.cpf);
      if clean.None? {
        return;
      }
      cpfFeedback := None;
      var result := GetUserInfo(clean.value, response);
      if result.Success? {
        form := form.(fullName := result.data.name);
        cpfFeedback := Some(PayerFoundFeedback(result.data.name));
      } else {
        cpfFeedback := Some(PayerNotFound);
      }
    }

    /** "Finalizar Contratação": store the payer (before the hand-off to the
        payment gateway, which is not modelled). */
    method Submit(isEmail: string -> bool) returns (stored: bool)
      modifies cart
      ensures stored == SubmittedPayer(isHolderPayer, form, isEmail).Some?
      ensures stored ==>
        cart.State() == WithPayer(old(cart.State()), SubmittedPayer(isHolderPayer, form, isEmail).value)
      ensures !stored ==> cart.State() == old(cart.State())
    {
      if isHolderPayer {
        cart.SetPayer(HolderPays);
        stored := true;
      } else if PayerFormValid(form, isEmail) {
        cart.SetPayer(PayerFromForm(form));
        stored := true;
      } else {
        stored := false;
      }
    }
  }
}
