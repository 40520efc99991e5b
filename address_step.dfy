/** The address step: the CEP blur handler that checks coverage and fills
    the address, the address schema and the confirm button's gate. */
module AddressStep {
  import opened Basics
  import opened AddressService

  datatype AddressForm = AddressForm(cep: string, street: string, number: string,
                                     neighborhood: string, city: string, uf: string,
                                     complement: string)

  const UnknownError := "Erro desconhecido"

  /** `addressSchema`: the complement is optional. */
  predicate AddressValid(f: AddressForm)
  {
    |f.cep| >= 8 && |f.street| >= 1 && |f.number| >= 1 && |f.neighborhood| >= 1
    && |f.city| >= 1 && |f.uf| >= 2
  }

  /** `disabled={isSubmitting || !!cepError}`: an empty string is falsy. */
  predicate SubmitDisabled(isSubmitting: bool, cepError: Option<string>)
  {
    isSubmitting || (cepError.Some? && cepError.value != "")
  }

  /** `result.error || "Erro desconhecido"`. */
  function ErrorShown(error: Option<string>): (msg: string)
    ensures msg != ""
    ensures error.Some? && error.value != "" ==> msg == error.value
    ensures !(error.Some? && error.value != "") ==> msg == UnknownError
  {
    if error.Some? && error.value != "" then error.value else UnknownError
  }

  class Address {
    var isLoadingCep: bool
    var cepError: Option<string>
    var coverageSuccess: bool
    var form: AddressForm

    /** A shown error is never the empty string, and no lookup is pending
        between events. */
    ghost predicate Valid()
      reads this
    {
      !isLoadingCep && (cepError.Some? ==> cepError.value != "")
    }

    constructor (form: AddressForm)
      ensures Valid() && this.form == form && cepError == None && !coverageSuccess
    {
      isLoadingCep := false;
      cepError := None;
      coverageSuccess := false;
      this.form := form;
    }

    /** `handleCepBlur`, with the ViaCEP exchange as `fetch`. A raw CEP
        shorter than 8 characters is ignored. Otherwise an invalid result
        shows its error and blanks the four address fields, and a valid one
        marks coverage and fills them from the response. */
    method HandleCepBlur(fetch: ViaCepFetch, allowedCities: map<string, int>,
                         streetTypes: map<string, int>)
      requires Valid()
      modifies this
      ensures Valid()
      ensures |old(form).cep| < 8 ==>
        form == old(form) && cepError == old(cepError) && coverageSuccess == old(coverageSuccess)
      ensures |old(form).cep| >= 8 ==>
        var r := ValidateZipCode(old(form).cep, fetch, allowedCities, streetTypes);
        && (!r.isValid ==>
              && cepError == Some(ErrorShown(r.error)) && !coverageSuccess
              && form == old(form).(street := "", neighborhood := "", city := "", uf := ""))
        && (r.isValid ==>
              && cepError == None && coverageSuccess
              && form == (if r.data.Some? then
                            old(form).(street := r.data.value.logradouro,
                                       neighborhood := r.data.value.bairro,
                                       city := r.data.value.localidade, uf := r.data.value.uf)
                          else old(form)))
    {
      var cep := form.cep;
      if cep == "" || |cep| < 8 {
        return;
      }
      isLoadingCep := true;
      cepError := None;
      coverageSuccess := false;
      var result := ValidateZipCode(cep, fetch, allowedCities, streetTypes);
      isLoadingCep := false;
      if !result.isValid {
        cepError := Some(ErrorShown(result.error));
        form := form.(street := "");
        form := form.(neighborhood := "");
        form := form.(city := "");
        form := form.(uf := "");
      } else {
        coverageSuccess := true;
        if result.data.Some? {
          var data := result.data.value;
          form := form.(street := data.logradouro);
          form := form.(neighborhood := data.bairro);
          form := form.(city := data.localidade);
          form := form.(uf := data.uf);
        }
      }
    }

    /** Whether "Confirmar Endereço" is disabled right now. */
    method ConfirmDisabled(isSubmitting: bool) returns (disabled: bool)
      requires Valid()
      ensures disabled == SubmitDisabled(isSubmitting, cepError)
      ensures disabled <==> isSubmitting || cepError.Some?
    {
      disabled := SubmitDisabled(isSubmitting, cepError);
    }
  }

  /** Any invalid lookup is a hard stop: out of coverage, unknown CEP, bad
      CEP or a failed request alike leave the confirm button disabled and
      the address fields blank. */
  method InvalidLookupBlocksConfirm(step: Address, fetch: ViaCepFetch,
                                    allowedCities: map<string, int>, streetTypes: map<string, int>)
    returns (disabled: bool)
    requires step.Valid() && |step.form.cep| >= 8
    requires !ValidateZipCode(step.form.cep, fetch, allowedCities, streetTypes).isValid
    modifies step
    ensures disabled && !step.coverageSuccess
    ensures step.form.street == step.form.neighborhood == step.form.city == step.form.uf == ""
    ensures !AddressValid(step.form)
  {
    step.HandleCepBlur(fetch, allowedCities, streetTypes);
    disabled := step.ConfirmDisabled(false);
  }
}
