/** `getUserInfo`: look a person up in the public health registry by CPF.
    The HTTP exchange is an input: what the server answered, or that the
    request threw. */
module UserInfo {
  import opened JsText

  /** One entry of `cadSus.data`. */
  datatype CadSusRecord = CadSusRecord(resultado: int, cns: string, nome: string, mae: string,
                                       pai: string, sexo: int, dataNascimento: string,
                                       mensagem: string)

  /** What the request produced. `records` is `cadSus.data`, empty when the
      body has no `cadSus` or no `data`. */
  datatype UserInfoResponse =
    | Threw
    | Answered(ok: bool, records: seq<CadSusRecord>)

  /** The fields handed to the form; `sex` is the registry's numeric code. */
  datatype UserData = UserData(name: string, motherName: string, birthDate: string, cns: string,
                               sex: int)

  datatype UserInfoResult = Success(data: UserData) | Failure(message: string)

  const InvalidCpf := "CPF inválido"
  const QueryFailed := "Erro ao consultar base de dados."
  const NotFound := "CPF não encontrado na base."
  const CommunicationFailed := "Falha na comunicação com o servidor."

  /** Element `i` of a destructured array, as a template literal prints it:
      a missing element is `undefined`. */
  function PartOrUndefined(parts: seq<string>, i: nat): string
  {
    if i < |parts| then parts[i] else "undefined"
  }

  /** `const [day, month, year] = d.split("/")` then `${year}-${month}-${day}`. */
  function FormatBirthDate(d: string): string
  {
    var parts := Split(d, '/');
    PartOrUndefined(parts, 2) + "-" + PartOrUndefined(parts, 1) + "-" + PartOrUndefined(parts, 0)
  }

  /** A registry date `DD/MM/YYYY` becomes the HTML date `YYYY-MM-DD`: the
      same three parts in reverse order. */
  lemma {:induction false} FormatBirthDateReverses(dd: string, mm: string, yyyy: string)
    requires '/' !in dd && '/' !in mm && '/' !in yyyy
    ensures FormatBirthDate(dd + "/" + mm + "/" + yyyy) == yyyy + "-" + mm + "-" + dd
  {
    var parts := [dd, mm, yyyy];
    assert Join(parts[1..][1..], '/') == yyyy by {
      assert parts[1..][1..] == [yyyy];
    }
    assert Join(parts[1..], '/') == mm + "/" + yyyy;
    assert Join(parts, '/') == dd + "/" + (mm + "/" + yyyy);
    assert dd + "/" + (mm + "/" + yyyy) == dd + "/" + mm + "/" + yyyy;
    SplitJoin(parts, '/');
  }

  /** The lookup. A CPF that does not strip to 11 digits is refused before any
      request; then a failed status, a missing record or `resultado != 1`
      are "not found"-style failures; otherwise the record's fields are
      mapped, with the birth date reformatted. */
  function GetUserInfo(cpf: string, response: UserInfoResponse): (r: UserInfoResult)
    ensures |DigitsOnly(cpf)| != 11 ==> r == Failure(InvalidCpf)
    ensures r.Success? <==>
      && |DigitsOnly(cpf)| == 11 && response.Answered? && response.ok
      && |response.records| > 0 && response.records[0].resultado == 1
    ensures r.Success? ==>
      var rec := response.records[0];
      && r.data.name == rec.nome && r.data.motherName == rec.mae && r.data.cns == rec.cns
      && r.data.sex == rec.sexo && r.data.birthDate == FormatBirthDate(rec.dataNascimento)
    ensures |DigitsOnly(cpf)| == 11 && response.Threw? ==> r == Failure(CommunicationFailed)
    ensures |DigitsOnly(cpf)| == 11 && response.Answered? && !response.ok ==> r == Failure(QueryFailed)
    ensures |DigitsOnly(cpf)| == 11 && response.Answered? && response.ok && !r.Success? ==>
      r == Failure(NotFound)
  {
    var cleanCpf := DigitsOnly(cpf);
    if |cleanCpf| != 11 then Failure(InvalidCpf)
    else
      match response
      case Threw => Failure(CommunicationFailed)
      case Answered(ok, records) =>
        if !ok then Failure(QueryFailed)
        else if |records| == 0 || records[0].resultado != 1 then Failure(NotFound)
        else
          var userData := records[0];
          Success(UserData(userData.nome, userData.mae, FormatBirthDate(userData.dataNascimento),
                           userData.cns, userData.sexo))
  }

  /** Formatting in the CPF does not change the answer: only its digits
      matter. */
  lemma OnlyDigitsOfCpfMatter(cpf: string, response: UserInfoResponse)
    ensures GetUserInfo(cpf, response) == GetUserInfo(DigitsOnly(cpf), response)
  {
  }
}
