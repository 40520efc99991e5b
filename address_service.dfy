/** `validateZipCode`: resolve a postal code (CEP) with ViaCEP and decide
    whether the city is served. The HTTP exchange is an input, and so are the
    coverage tables `ALLOWED_CITIES` (city name to city code) and
    `STREET_TYPES` (upper-case street-type word to its code). */
module AddressService {
  import opened Basics
  import opened JsText

  /** The ViaCEP body; `erro` is true when the code does not exist. */
  datatype ViaCepResponse = ViaCepResponse(cep: string, logradouro: string, complemento: string,
                                           bairro: string, localidade: string, uf: string,
                                           erro: bool)

  datatype ViaCepFetch = Threw | Answered(data: ViaCepResponse)

  datatype AddressValidationResult = AddressValidationResult(
    isValid: bool, data: Option<ViaCepResponse>, cityId: Option<int>, streetTypeId: Option<int>,
    error: Option<string>)

  const InvalidCep := "CEP inválido."
  const CepNotFound := "CEP não encontrado."
  const LookupFailed := "Erro ao consultar CEP. Tente novamente."

  function NoCoverageMessage(city: string, uf: string): string
  {
    "Infelizmente, ainda não temos cobertura em " + city + " - " + uf + "."
  }

  function Invalid(error: string): AddressValidationResult
  {
    AddressValidationResult(false, None, None, None, Some(error))
  }

  /** `ALLOWED_CITIES[city]` is truthy: present, and not the code 0. */
  predicate Covered(allowedCities: map<string, int>, city: string)
  {
    city in allowedCities && allowedCities[city] != 0
  }

  /** `STREET_TYPES[firstWord] || STREET_TYPES["OUTRO"]`, where `firstWord`
      is the upper-cased text before the first space. */
  function StreetTypeId(logradouro: string, streetTypes: map<string, int>): (id: Option<int>)
    ensures var w := ToUpperCase(FirstWord(logradouro));
      && (w in streetTypes && streetTypes[w] != 0 ==> id == Some(streetTypes[w]))
      && (!(w in streetTypes && streetTypes[w] != 0) ==>
            id == if "OUTRO" in streetTypes then Some(streetTypes["OUTRO"]) else None)
  {
    var firstWord := ToUpperCase(FirstWord(logradouro));
    if firstWord in streetTypes && streetTypes[firstWord] != 0 then Some(streetTypes[firstWord])
    else if "OUTRO" in streetTypes then Some(streetTypes["OUTRO"])
    else None
  }

  /** The street type of `word + " " + rest` is decided by `word` alone,
      whatever the case of its letters. */
  lemma {:induction false} StreetTypeFromFirstWord(word: string, rest: string, streetTypes: map<string, int>)
    requires ' ' !in word
    ensures StreetTypeId(word + " " + rest, streetTypes) == StreetTypeId(word, streetTypes)
    ensures StreetTypeId(word, streetTypes) == StreetTypeId(ToUpperCase(word), streetTypes)
  {
    SplitPrefix(word, ' ', rest);
    SplitNoSeparator(word, ' ');
    ToUpperCaseIdempotent(word);
    assert ' ' !in ToUpperCase(word);
    SplitNoSeparator(ToUpperCase(word), ' ');
  }

  function ValidateZipCode(cep: string, fetch: ViaCepFetch, allowedCities: map<string, int>,
                           streetTypes: map<string, int>): (r: AddressValidationResult)
    ensures |DigitsOnly(cep)| != 8 ==> r == Invalid(InvalidCep)
    ensures r.isValid <==>
      && |DigitsOnly(cep)| == 8 && fetch.Answered? && !fetch.data.erro
      && Covered(allowedCities, fetch.data.localidade)
    ensures r.isValid ==>
      && r.data == Some(fetch.data) && r.error == None
      && r.cityId == Some(allowedCities[fetch.data.localidade])
      && r.streetTypeId == StreetTypeId(fetch.data.logradouro, streetTypes)
    ensures !r.isValid ==> r.error.Some? && r.error.value != "" && r.data == None
    ensures |DigitsOnly(cep)| == 8 && fetch.Threw? ==> r == Invalid(LookupFailed)
    ensures |DigitsOnly(cep)| == 8 && fetch.Answered? && fetch.data.erro ==> r == Invalid(CepNotFound)
    ensures |DigitsOnly(cep)| == 8 && fetch.Answered? && !fetch.data.erro
            && !Covered(allowedCities, fetch.data.localidade) ==>
      r == Invalid(NoCoverageMessage(fetch.data.localidade, fetch.data.uf))
  {
    var cleanCep := DigitsOnly(cep);
    if |cleanCep| != 8 then Invalid(InvalidCep)
    else
      match fetch
      case Threw => Invalid(LookupFailed)
      case Answered(data) =>
        if data.erro then Invalid(CepNotFound)
        else if !Covered(allowedCities, data.localidade) then
          Invalid(NoCoverageMessage(data.localidade, data.uf))
        else
          AddressValidationResult(true, Some(data), Some(allowedCities[data.localidade]),
                                  StreetTypeId(data.logradouro, streetTypes), None)
  }

  /** Coverage is by exact city name: a city served under one spelling is
      refused under any spelling that is not a key of the table. */
  lemma CoverageIsExactKey(cep: string, data: ViaCepResponse, allowedCities: map<string, int>,
                           streetTypes: map<string, int>)
    requires |DigitsOnly(cep)| == 8 && !data.erro
    requires data.localidade !in allowedCities
    ensures ValidateZipCode(cep, Answered(data), allowedCities, streetTypes)
         == Invalid(NoCoverageMessage(data.localidade, data.uf))
  {
  }
}
