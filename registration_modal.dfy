/**
 * The course registration form (src/components/RegistrationModal.jsx): the
 * form record, the person payload with its CPF normalisation, the three
 * requests of a submission and the choice of the error message.  The
 * backend is an oracle: the reply to each request is a parameter.
 */
module RegistrationModal {
  import opened Wrappers
  import Seqs
  import Text

  // ------------------------------------------------------------------
  // The form
  // ------------------------------------------------------------------

  datatype FormData = FormData(
    nomeCompleto: string,
    email: string,
    cpf: string,
    telefone: string,
    dataNascimento: string,
    escolaridade: string,
    profissao: string,
    interesses: string,
    senha: string)

  /** The `name` attributes of the form's inputs. */
  datatype Field = NomeCompleto | Email | Cpf | Telefone | DataNascimento | Escolaridade | Profissao | Interesses | Senha

  function Get(form: FormData, field: Field): string {
    match field
    case NomeCompleto => form.nomeCompleto
    case Email => form.email
    case Cpf => form.cpf
    case Telefone => form.telefone
    case DataNascimento => form.dataNascimento
    case Escolaridade => form.escolaridade
    case Profissao => form.profissao
    case Interesses => form.interesses
    case Senha => form.senha
  }

  /** `{ ...prev, [name]: value }`: the named field takes the value, every other field is kept. */
  function WithField(form: FormData, field: Field, value: string): (r: FormData)
    ensures Get(r, field) == value
    ensures forall other :: other != field ==> Get(r, other) == Get(form, other)
  {
    match field
    case NomeCompleto => form.(nomeCompleto := value)
    case Email => form.(email := value)
    case Cpf => form.(cpf := value)
    case Telefone => form.(telefone := value)
    case DataNascimento => form.(dataNascimento := value)
    case Escolaridade => form.(escolaridade := value)
    case Profissao => form.(profissao := value)
    case Interesses => form.(interesses := value)
    case Senha => form.(senha := value)
  }

  /** A form is determined by its fields. */
  lemma FormExtensionality(a: FormData, b: FormData)
    requires forall field :: Get(a, field) == Get(b, field)
    ensures a == b
  {
    assert Get(a, NomeCompleto) == Get(b, NomeCompleto);
    assert Get(a, Email) == Get(b, Email);
    assert Get(a, Cpf) == Get(b, Cpf);
    assert Get(a, Telefone) == Get(b, Telefone);
    assert Get(a, DataNascimento) == Get(b, DataNascimento);
    assert Get(a, Escolaridade) == Get(b, Escolaridade);
    assert Get(a, Profissao) == Get(b, Profissao);
    assert Get(a, Interesses) == Get(b, Interesses);
    assert Get(a, Senha) == Get(b, Senha);
  }

  /** Writing a field back with its own value changes nothing; a second write overrides the first. */
  lemma WithFieldLaws(form: FormData, field: Field, v: string, w: string)
    ensures WithField(form, field, Get(form, field)) == form
    ensures WithField(WithField(form, field, v), field, w) == WithField(form, field, w)
  {
    FormExtensionality(WithField(form, field, Get(form, field)), form);
    FormExtensionality(WithField(WithField(form, field, v), field, w), WithField(form, field, w));
  }

  /** Writes to two different fields commute. */
  lemma WithFieldCommutes(form: FormData, f: Field, g: Field, v: string, w: string)
    requires f != g
    ensures WithField(WithField(form, f, v), g, w) == WithField(WithField(form, g, w), f, v)
  {
    FormExtensionality(WithField(WithField(form, f, v), g, w), WithField(WithField(form, g, w), f, v));
  }

  const DefaultEscolaridade: string := "ensino_medio"

  /** The values of the schooling select. */
  const EscolaridadeOptions: seq<string> := [
    "sem_escolaridade", "ensino_fundamental", "ensino_medio",
    "ensino_tecnico", "ensino_superior", "pos_graduacao"
  ]

  const InitialFormData: FormData := FormData("", "", "", "", "", DefaultEscolaridade, "", "", "")

  /** The initial form: every field empty except the schooling, which is a valid option. */
  lemma InitialFormShape()
    ensures forall field :: Get(InitialFormData, field) == if field == Escolaridade then DefaultEscolaridade else ""
    ensures DefaultEscolaridade in EscolaridadeOptions
  {
  }

  // ------------------------------------------------------------------
  // The person payload
  // ------------------------------------------------------------------

  /** `cpf.replace(/\D/g, '')`: the digits of the input, in order. */
  function StripNonDigits(s: string): (r: string)
    ensures forall i :: 0 <= i < |r| ==> Text.IsDigit(r[i])
    ensures forall i :: 0 <= i < |s| && Text.IsDigit(s[i]) ==> s[i] in r
    ensures forall i :: 0 <= i < |r| ==> r[i] in s
  {
    Seqs.Filter(s, Text.IsDigit)
  }

  /** Exactly the digits survive: in order, and together with the removed characters they make up the input. */
  lemma StripNonDigitsExact(s: string)
    ensures Seqs.IsSubsequence(StripNonDigits(s), s)
    ensures multiset(StripNonDigits(s)) + multiset(Seqs.Filter(s, Seqs.Not(Text.IsDigit))) == multiset(s)
    ensures forall i :: 0 <= i < |Seqs.Filter(s, Seqs.Not(Text.IsDigit))| ==>
              !Text.IsDigit(Seqs.Filter(s, Seqs.Not(Text.IsDigit))[i])
  {
    Seqs.FilterIsSubsequence(s, Text.IsDigit);
    Seqs.FilterPartition(s, Text.IsDigit);
  }

  /** Stripping twice is stripping once; a digits-only CPF is sent as typed. */
  lemma StripNonDigitsIdempotent(s: string)
    ensures StripNonDigits(StripNonDigits(s)) == StripNonDigits(s)
    ensures (forall i :: 0 <= i < |s| ==> Text.IsDigit(s[i])) ==> StripNonDigits(s) == s
  {
    Seqs.FilterIdempotent(s, Text.IsDigit);
    Seqs.FilterKeepsAllIff(s, Text.IsDigit);
  }

  /** The `pessoaData` object, with the backend's key names. */
  datatype Pessoa = Pessoa(
    nome_completo: string,
    email: string,
    cpf: string,
    telefone: string,
    data_nascimento: string,
    escolaridade: string,
    profissao: string,
    ocupacao_atual: string)

  function PessoaData(form: FormData): (p: Pessoa)
    ensures p.nome_completo == form.nomeCompleto && p.email == form.email
    ensures p.cpf == StripNonDigits(form.cpf)
    ensures p.telefone == form.telefone && p.data_nascimento == form.dataNascimento
    ensures p.escolaridade == form.escolaridade && p.profissao == form.profissao
    ensures p.ocupacao_atual == form.interesses
  {
    Pessoa(form.nomeCompleto, form.email, StripNonDigits(form.cpf), form.telefone,
           form.dataNascimento, form.escolaridade, form.profissao, form.interesses)
  }

  /** The password never reaches the person payload. */
  lemma PessoaIgnoresSenha(form: FormData, senha: string)
    ensures PessoaData(WithField(form, Senha, senha)) == PessoaData(form)
  {
  }

  /** Two CPFs with the same digits give the same payload, however they are punctuated. */
  lemma PessoaIgnoresCpfPunctuation(form: FormData, cpf: string)
    requires StripNonDigits(cpf) == StripNonDigits(form.cpf)
    ensures PessoaData(WithField(form, Cpf, cpf)) == PessoaData(form)
  {
  }

  // ------------------------------------------------------------------
  // Errors
  // ------------------------------------------------------------------

  /** `err.response.data` as the handler sees it. */
  datatype ResponseData = NoData | TextData(text: string) | ObjectData(message: Option<string>)

  /** A rejected request: no response at all, or an HTTP response with a body. */
  datatype ApiError = NoResponse | HttpError(data: ResponseData)

  const DefaultErrorDetail: string := "Ocorreu um erro. Verifique os dados e tente novamente."
  const ErrorPrefix: string := "Falha na inscrição: "
  /** How a template string renders a plain object. */
  const ObjectRendering: string := "[object Object]"

  /** `err.response?.data?.message`, as a string; a string body has no `message`. */
  function MessageCandidate(e: ApiError): Option<string> {
    if e.HttpError? && e.data.ObjectData? then e.data.message else None
  }

  /** `err.response?.data`, as the template string would render it. */
  function DataCandidate(e: ApiError): Option<string> {
    match e
    case NoResponse => None
    case HttpError(NoData) => None
    case HttpError(TextData(t)) => Some(t)
    case HttpError(ObjectData(_)) => Some(ObjectRendering)
  }

  /** A candidate JavaScript treats as true: present and not the empty string. */
  predicate Truthy(o: Option<string>) {
    o.Some? && o.value != ""
  }

  /**
   * JavaScript's `a || b || c`: the first truthy candidate wins, and the
   * fallback appears only when no candidate is truthy.
   */
  function FirstTruthy(candidates: seq<Option<string>>, fallback: string): (r: string)
    ensures r == fallback || exists i :: 0 <= i < |candidates| && candidates[i] == Some(r) && r != ""
    ensures forall k :: 0 <= k < |candidates| && Truthy(candidates[k]) && (forall j :: 0 <= j < k ==> !Truthy(candidates[j])) ==>
              r == candidates[k].value
    ensures (forall j :: 0 <= j < |candidates| ==> !Truthy(candidates[j])) ==> r == fallback
    decreases |candidates|
  {
    if candidates == [] then fallback
    else if Truthy(candidates[0]) then candidates[0].value
    else FirstTruthy(candidates[1..], fallback)
  }

  /** The detail of the error banner, decided by the shape of the error. */
  function ErrorDetail(e: ApiError): string {
    match e
    case NoResponse => DefaultErrorDetail
    case HttpError(NoData) => DefaultErrorDetail
    case HttpError(TextData(t)) => if t != "" then t else DefaultErrorDetail
    case HttpError(ObjectData(m)) => if m.Some? && m.value != "" then m.value else ObjectRendering
  }

  /** The case analysis agrees with the `||` chain at lines 73-74. */
  lemma ErrorDetailIsFallbackChain(e: ApiError)
    ensures ErrorDetail(e) == FirstTruthy([MessageCandidate(e), DataCandidate(e)], DefaultErrorDetail)
  {
    var cs := [MessageCandidate(e), DataCandidate(e)];
    assert cs[1..] == [DataCandidate(e)];
    assert cs[1..][1..] == [];
  }

  /**
   * A backend message wins; with no response or an empty body the default
   * sentence is shown; an object body without a message renders as
   * "[object Object]".
   */
  lemma ErrorDetailPriorities(e: ApiError)
    ensures MessageCandidate(e).Some? && MessageCandidate(e).value != "" ==> ErrorDetail(e) == MessageCandidate(e).value
    ensures DataCandidate(e).None? || DataCandidate(e) == Some("") ==> ErrorDetail(e) == DefaultErrorDetail
    ensures e.HttpError? && e.data.TextData? && e.data.text != "" ==> ErrorDetail(e) == e.data.text
    ensures e.HttpError? && e.data.ObjectData? && (e.data.message.None? || e.data.message == Some("")) ==>
              ErrorDetail(e) == ObjectRendering
  {
  }

  function ErrorText(e: ApiError): string {
    ErrorPrefix + ErrorDetail(e)
  }

  // ------------------------------------------------------------------
  // Submission
  // ------------------------------------------------------------------

  /** The course the modal was opened for. */
  datatype CourseRef = CourseRef(id_curso: int, nome: string)

  /** The backend's answer to one request: the new record's id, or an error. */
  datatype Reply = Created(id: int) | Rejected(error: ApiError)

  datatype Request =
    | PostPessoa(pessoa: Pessoa)
    | PostUsuario(id_pessoa: int, senha: string)
    | PostInscricao(idUsuario: int, idCurso: int)

  const SuccessOpening: string := "Inscrição para o curso \""
  const SuccessClosing: string := "\" realizada com sucesso! No prazo de 30 dias enviaremos mais informações."

  function SuccessText(course: CourseRef): string {
    SuccessOpening + course.nome + SuccessClosing
  }

  /** The requests sent, and the error or success banner at the end. */
  datatype Submission = Submission(requests: seq<Request>, error: Option<string>, success: Option<string>)

  /** `handleSubmit` as a function of the backend's three replies. */
  function Submit(form: FormData, course: CourseRef, r1: Reply, r2: Reply, r3: Reply): (s: Submission)
    ensures 1 <= |s.requests| <= 3
    ensures s.error.Some? != s.success.Some?
  {
    var first := [PostPessoa(PessoaData(form))];
    if r1.Rejected? then Submission(first, Some(ErrorText(r1.error)), None)
    else
      var second := first + [PostUsuario(r1.id, form.senha)];
      if r2.Rejected? then Submission(second, Some(ErrorText(r2.error)), None)
      else
        var third := second + [PostInscricao(r2.id, course.id_curso)];
        if r3.Rejected? then Submission(third, Some(ErrorText(r3.error)), None)
        else Submission(third, None, Some(SuccessText(course)))
  }

  /**
   * The steps run person, user, enrolment; each uses the id the previous
   * one returned; the first failure ends the submission with its error.
   */
  lemma SubmitSteps(form: FormData, course: CourseRef, r1: Reply, r2: Reply, r3: Reply)
    ensures var s := Submit(form, course, r1, r2, r3);
            && s.requests[0] == PostPessoa(PessoaData(form))
            && (r1.Rejected? ==> |s.requests| == 1 && s.error == Some(ErrorText(r1.error)))
            && (r1.Created? ==> |s.requests| >= 2 && s.requests[1] == PostUsuario(r1.id, form.senha))
            && (r1.Created? && r2.Rejected? ==> |s.requests| == 2 && s.error == Some(ErrorText(r2.error)))
            && (r1.Created? && r2.Created? ==>
                  |s.requests| == 3 && s.requests[2] == PostInscricao(r2.id, course.id_curso))
            && (r1.Created? && r2.Created? && r3.Rejected? ==> s.error == Some(ErrorText(r3.error)))
  {
  }

  /** Success is announced exactly when all three requests succeed. */
  lemma SuccessIffAllCreated(form: FormData, course: CourseRef, r1: Reply, r2: Reply, r3: Reply)
    ensures var s := Submit(form, course, r1, r2, r3);
            (s.success.Some? <==> r1.Created? && r2.Created? && r3.Created?)
            && (s.success.Some? ==> s.success == Some(SuccessText(course)))
  {
  }

  /** The password goes only to the user request. */
  lemma SenhaOnlyInUserRequest(form: FormData, course: CourseRef, r1: Reply, r2: Reply, r3: Reply, senha: string)
    ensures var a := Submit(form, course, r1, r2, r3);
            var b := Submit(WithField(form, Senha, senha), course, r1, r2, r3);
            |a.requests| == |b.requests| &&
            forall i :: 0 <= i < |a.requests| && !a.requests[i].PostUsuario? ==> a.requests[i] == b.requests[i]
  {
    PessoaIgnoresSenha(form, senha);
  }

  // ------------------------------------------------------------------
  // The modal's state
  // ------------------------------------------------------------------

  class Modal {
    /** The `course` prop. */
    const course: CourseRef
    var formData: FormData
    var loading: bool
    var error: Option<string>
    var success: Option<string>

    constructor (course: CourseRef)
      ensures this.course == course
      ensures formData == InitialFormData && !loading && error == None && success == None
    {
      this.course := course;
      formData := InitialFormData;
      loading := false;
      error := None;
      success := None;
    }

    /** `handleChange` on the input named `name`. */
    method HandleChange(name: Field, value: string)
      modifies this`formData
      ensures formData == WithField(old(formData), name, value)
    {
      formData := WithField(formData, name, value);
    }

    /**
     * `handleSubmit`: clears the banners, sends the three requests in order
     * until one fails, sets the error or success banner, and clears the
     * loading flag in every case.
     */
    method HandleSubmit(r1: Reply, r2: Reply, r3: Reply) returns (requests: seq<Request>)
      modifies this`loading, this`error, this`success
      ensures requests == Submit(formData, course, r1, r2, r3).requests
      ensures error == Submit(formData, course, r1, r2, r3).error
      ensures success == Submit(formData, course, r1, r2, r3).success
      ensures !loading
    {
      loading := true;
      error := None;
      success := None;
      requests := [PostPessoa(PessoaData(formData))];
      if r1.Rejected? {
        error := Some(ErrorText(r1.error));
        loading := false;
        return;
      }
      requests := requests + [PostUsuario(r1.id, formData.senha)];
      if r2.Rejected? {
        error := Some(ErrorText(r2.error));
        loading := false;
        return;
      }
      requests := requests + [PostInscricao(r2.id, course.id_curso)];
      if r3.Rejected? {
        error := Some(ErrorText(r3.error));
        loading := false;
        return;
      }
      success := Some(SuccessText(course));
      loading := false;
    }
  }
}
