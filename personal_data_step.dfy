/** The personal-data step: the holder's form, the dependents list whose
    length is mirrored into the cart, and the registry autofill on CPF blur.
    Fields that start undefined in the form are "" here: every check the step
    makes treats the two alike. */
module PersonalDataStep {
  import opened Basics
  import opened JsText
  import opened UserInfo
  import opened CartStore

  datatype Dependent = Dependent(fullName: string, cpf: string, birthDate: string, sex: string,
                                 relationship: string)

  datatype HolderForm = HolderForm(fullName: string, cpf: string, email: string, phone: string,
                                   birthDate: string, motherName: string, sex: string)

  datatype FeedbackKind = SuccessFeedback | ErrorFeedback
  datatype Feedback = Feedback(kind: FeedbackKind, msg: string)

  /** The row the "Adicionar" button appends. */
  const EmptyDependent := Dependent("", "", "", "", "")
  const EmptyHolder := HolderForm("", "", "", "", "", "", "")
  const NotFoundFeedback := Feedback(ErrorFeedback, "Cadastro não localizado. Preencha manualmente.")

  /** `dependentSchema`. */
  predicate DependentValid(d: Dependent)
  {
    |d.fullName| >= 5 && |d.cpf| >= 11 && |d.birthDate| >= 1 && |d.sex| >= 1
    && |d.relationship| >= 1
  }

  /** `personalDataSchema`; the mother's name is optional and `isEmail` is the
      validation library's e-mail check. */
  predicate PersonalDataValid(h: HolderForm, dependents: seq<Dependent>, isEmail: string -> bool)
  {
    && |h.fullName| >= 5 && |h.cpf| >= 11 && isEmail(h.email) && |h.phone| >= 10
    && |h.birthDate| >= 1 && |h.sex| >= 1
    && forall i :: 0 <= i < |dependents| ==> DependentValid(dependents[i])
  }

  /** The form as first shown (holder fields empty, no dependents) never
      passes validation, whatever the e-mail check says. */
  lemma EmptyFormInvalid(isEmail: string -> bool)
    ensures !PersonalDataValid(EmptyHolder, [], isEmail)
    ensures !DependentValid(EmptyDependent)
  {
  }

  /** A freshly added, still blank dependent keeps the form from validating
      until it is filled in or removed. */
  lemma BlankDependentBlocksSubmit(h: HolderForm, dependents: seq<Dependent>, isEmail: string -> bool)
    ensures !PersonalDataValid(h, dependents + [EmptyDependent], isEmail)
  {
    var extended := dependents + [EmptyDependent];
    assert extended[|dependents|] == EmptyDependent;
  }

  /** Removing a dependent never makes a valid form invalid. */
  lemma RemovingKeepsValid(h: HolderForm, dependents: seq<Dependent>, index: nat, isEmail: string -> bool)
    requires index < |dependents|
    requires PersonalDataValid(h, dependents, isEmail)
    ensures PersonalDataValid(h, dependents[..index] + dependents[index + 1..], isEmail)
  {
  }

  /** The blur guard: the cleaned CPF when it has exactly 11 digits. */
  function CpfForLookup(cpf: string): (clean: Option<string>)
    ensures clean.Some? <==> |DigitsOnly(cpf)| == 11
    ensures clean.Some? ==> clean.value == DigitsOnly(cpf)
    ensures clean.Some? ==> |clean.value| == 11 && AllDigits(clean.value)
  {
    var c := DigitsOnly(cpf);
    if |c| == 11 then Some(c) else None
  }

  /** The sex select after a lookup: code 1 is "M", code 2 is "F", any other
      code keeps what was there. */
  function SexAfterLookup(code: int, current: string): (sex: string)
    ensures code == 1 ==> sex == "M"
    ensures code == 2 ==> sex == "F"
    ensures code != 1 && code != 2 ==> sex == current
  {
    if code == 1 then "M" else if code == 2 then "F" else current
  }

  /** The greeting, with the first space-separated word of the name. */
  function GreetingFeedback(name: string): Feedback
  {
    Feedback(SuccessFeedback, "Olá, " + FirstWord(name) + "! Encontramos seu cadastro.")
  }

  /** The step's state: the holder form, the dependents field array, the
      lookup feedback, and the cart it writes the dependent count into. */
  class PersonalData {
    var holder: HolderForm
    var dependents: seq<Dependent>
    var cpfFeedback: Option<Feedback>
    const cart: Cart

    /** The cart's count mirrors the list. */
    ghost predicate Valid()
      reads this, cart
    {
      cart.dependentsCount == |dependents|
    }

    /** Mounting: no dependents yet, and the effect writes 0 into the cart. */
    constructor (cart: Cart)
      modifies cart
      ensures this.cart == cart && Valid()
      ensures holder == EmptyHolder && dependents == [] && cpfFeedback == None
      ensures cart.State() == WithDependentsCount(old(cart.State()), 0)
    {
      this.cart := cart;
      holder := EmptyHolder;
      dependents := [];
      cpfFeedback := None;
      new;
      cart.SetDependentsCount(0);
    }

    /** "Adicionar": a blank dependent at the end, and the new length into
        the cart. */
    method AddDependent()
      requires Valid()
      modifies this, cart
      ensures Valid()
      ensures dependents == old(dependents) + [EmptyDependent]
      ensures holder == old(holder) && cpfFeedback == old(cpfFeedback)
      ensures cart.State() == WithDependentsCount(old(cart.State()), |dependents|)
    {
      dependents := dependents + [EmptyDependent];
      cart.SetDependentsCount(|dependents|);
    }

    /** The trash button of row `index`: that row alone goes, and the new
        length goes into the cart. */
    method RemoveDependent(index: nat)
      requires Valid() && index < |dependents|
      modifies this, cart
      ensures Valid()
      ensures |dependents| == |old(dependents)| - 1
      ensures dependents == old(dependents)[..index] + old(dependents)[index + 1..]
      ensures forall k :: 0 <= k < index ==> dependents[k] == old(dependents)[k]
      ensures forall k :: index <= k < |dependents| ==> dependents[k] == old(dependents)[k + 1]
      ensures holder == old(holder) && cpfFeedback == old(cpfFeedback)
      ensures cart.State() == WithDependentsCount(old(cart.State()), |dependents|)
    {
      dependents := dependents[..index] + dependents[index + 1..];
      cart.SetDependentsCount(|dependents|);
    }

    /** `handleCpfBlur`: when the holder's CPF has 11 digits, ask the registry
        (its answer is `response`) and autofill on success; on failure only
        the feedback changes. */
    method HandleCpfBlur(response: UserInfoResponse)
      modifies this
      ensures dependents == old(dependents)
      ensures CpfForLookup(old(holder).cpf).None? ==>
        holder == old(holder) && cpfFeedback == old(cpfFeedback)
      ensures CpfForLookup(old(holder).cpf).Some? ==>
        var result := GetUserInfo(CpfForLookup(old(holder).cpf).value, response);
        match result
        case Failure(_) => holder == old(holder) && cpfFeedback == Some(NotFoundFeedback)
        case Success(data) =>
          && holder.fullName == data.name && holder.birthDate == data.birthDate
          && holder.motherName == (if data.motherName != "" then data.motherName else old(holder).motherName)
          && holder.sex == SexAfterLookup(data.sex, old(holder).sex)
          && holder.cpf == old(holder).cpf && holder.email == old(holder).email
          && holder.phone == old(holder).phone
          && cpfFeedback == Some(GreetingFeedback(data.name))
    {
      var clean := CpfForLookup(holder.cpf);
      if clean.None? {
        return;
      }
      cpfFeedback := None;
      var result := GetUserInfo(clean.value, response);
      if result.Success? {
        var data := result.data;
        holder := holder.(fullName := data.name);
        holder := holder.(birthDate := data.birthDate);
        if data.motherName != "" {
          holder := holder.(motherName := data.motherName);
        }
        if data.sex == 1 {
          holder := holder.(sex := "M");
        }
        if data.sex == 2 {
          holder := holder.(sex := "F");
        }
        cpfFeedback := Some(GreetingFeedback(data.name));
      } else {
        cpfFeedback := Some(NotFoundFeedback);
      }
    }

    /** `handleDependentCpfBlur(index)`: the same lookup for one dependent;
        success fills that row's name, birth date and sex, and failure
        changes nothing. */
    method HandleDependentCpfBlur(index: nat, response: UserInfoResponse)
      requires index < |dependents|
      modifies this
      ensures holder == old(holder) && cpfFeedback == old(cpfFeedback)
      ensures |dependents| == |old(dependents)|
      ensures forall k :: 0 <= k < |dependents| && k != index ==> dependents[k] == old(dependents)[k]
      ensures var before := old(dependents)[index];
        var clean := CpfForLookup(before.cpf);
        if clean.Some? && GetUserInfo(clean.value, response).Success? then
          var data := GetUserInfo(clean.value, response).data;
          dependents[index] == before.(fullName := data.name, birthDate := data.birthDate,
                                       sex := SexAfterLookup(data.sex, before.sex))
        else
          dependents[index] == before
    {
      var clean := CpfForLookup(dependents[index].cpf);
      if clean.None? {
        return;
      }
      var result := GetUserInfo(clean.value, response);
      if result.Success? {
        var data := result.data;
        dependents := dependents[index := dependents[index].(fullName := data.name)];
        dependents := dependents[index := dependents[index].(birthDate := data.birthDate)];
        if data.sex == 1 {
          dependents := dependents[index := dependents[index].(sex := "M")];
        }
        if data.sex == 2 {
          dependents := dependents[index := dependents[index].(sex := "F")];
        }
      }
    }
  }
}
