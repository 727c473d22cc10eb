/** The cooperative registration form: validation of the name and the
    state code, the digits-only capacity field, and the payload that trims
    the text fields and drops the empty ones. */
module CadastraCooperativa {
  import opened Api
  import opened Text
  import Routes
  import Store

  /** The 27 state codes the UF field accepts. */
  const Estados: seq<string> := [
    "AC", "AL", "AP", "AM", "BA", "CE", "DF", "ES", "GO", "MA",
    "MT", "MS", "MG", "PA", "PB", "PR", "PE", "PI", "RJ", "RN",
    "RS", "RO", "RR", "SC", "SP", "SE", "TO"]

  datatype Field = Nome | Rua | Numero | Bairro | Cidade | Uf | Capacidade

  /** The text fields of the form (the capacity is a number). */
  const TextFields: set<Field> := {Nome, Rua, Numero, Bairro, Cidade, Uf}

  /** The initial (and reset) value of every text field. */
  const Blank: map<Field, string> := map f | f in TextFields :: ""

  datatype Issue = Required | TooShort | InvalidUf | SubmitFailed

  /** What `creatCooperativa` posts; `None` is a property left undefined,
      which the JSON body omits. */
  datatype Payload = Payload(
    nome: string, endereco_rua: Option<string>, endereco_numero: Option<string>,
    endereco_bairro: Option<string>, endereco_cidade: Option<string>, endereco_uf: Option<string>,
    capacidade_processamento: Option<nat>)

  /** `handleNumberChange`: the typed digits as a number, none as undefined. */
  function CapacityOf(typed: string): (c: Option<nat>)
    ensures c == None <==> Digits(typed) == ""
    ensures c.Some? ==> c.value == ParseNat(Digits(typed))
  {
    ParseDigits(typed)
  }

  /** The errors `validateForm` records: the trimmed name must have three
      characters, and a state code, when given, must be listed. */
  function FormErrors(nome: string, uf: string): (errs: map<Field, Issue>)
    ensures Nome in errs <==> |Trim(nome)| < 3
    ensures Nome in errs ==> errs[Nome] == (if Trim(nome) == "" then Required else TooShort)
    ensures Uf in errs <==> uf != "" && uf !in Estados
    ensures Uf in errs ==> errs[Uf] == InvalidUf
    ensures errs.Keys <= {Nome, Uf}
  {
    var t := Trim(nome);
    var n := if t == "" then map[Nome := Required] else if |t| < 3 then map[Nome := TooShort] else map[];
    if uf != "" && uf !in Estados then n[Uf := InvalidUf] else n
  }

  /** `x?.trim() || undefined` */
  function TrimmedOrNone(s: string): (r: Option<string>)
    ensures r == None <==> Trim(s) == ""
    ensures r.Some? ==> r.value == Trim(s) && !IsSpace(r.value[0]) && !IsSpace(r.value[|r.value| - 1])
  {
    var t := Trim(s);
    if t == "" then None else Some(t)
  }

  /** The payload of `handleSubmit`: trimmed name, trimmed optional text or
      nothing, the state code untrimmed or nothing, the capacity or nothing
      (zero counts as nothing). */
  function PayloadOf(text: map<Field, string>, capacidade: Option<nat>): (p: Payload)
    requires TextFields <= text.Keys
    ensures p.nome == Trim(text[Nome])
    ensures p.endereco_rua == TrimmedOrNone(text[Rua]) && p.endereco_numero == TrimmedOrNone(text[Numero])
    ensures p.endereco_bairro == TrimmedOrNone(text[Bairro]) && p.endereco_cidade == TrimmedOrNone(text[Cidade])
    ensures p.endereco_uf == None <==> text[Uf] == ""
    ensures p.endereco_uf.Some? ==> p.endereco_uf.value == text[Uf]
    ensures p.capacidade_processamento == None <==> capacidade == None || capacidade == Some(0)
    ensures p.capacidade_processamento.Some? ==> p.capacidade_processamento == capacidade
  {
    Payload(Trim(text[Nome]), TrimmedOrNone(text[Rua]), TrimmedOrNone(text[Numero]),
            TrimmedOrNone(text[Bairro]), TrimmedOrNone(text[Cidade]),
            if text[Uf] == "" then None else Some(text[Uf]),
            if capacidade == None || capacidade == Some(0) then None else capacidade)
  }

  // ------------------------------------------------------------ against the back end

  function Json(v: Option<string>): JsValue
  {
    match v
    case None => Undefined
    case Some(s) => Str(s)
  }

  /** The body the cooperativa POST handler receives for a payload. */
  function BodyOf(p: Payload): (b: Routes.CooperativaBody)
    ensures b.nome == p.nome
  {
    Routes.CooperativaBody(
      p.nome, Json(p.endereco_rua), Json(p.endereco_numero), Json(p.endereco_bairro),
      Json(p.endereco_cidade), Json(p.endereco_uf),
      match p.capacidade_processamento
      case None => Undefined
      case Some(n) => Num(n))
  }

  /** A payload reaches the handler with an optional field undefined
      exactly when the payload leaves that property out. */
  lemma BodyOfMissing(p: Payload)
    ensures Routes.MissingOptional(BodyOf(p)) <==>
              p.endereco_rua == None || p.endereco_numero == None || p.endereco_bairro == None
              || p.endereco_cidade == None || p.endereco_uf == None || p.capacidade_processamento == None
  {
  }

  /** As written, the back end binds every optional field without `safe`, so
      a registration that leaves any of them blank reaches the driver with an
      undefined parameter and fails. */
  lemma BlankFieldRefused(text: map<Field, string>, capacidade: Option<nat>)
    requires TextFields <= text.Keys
    ensures var b := BodyOf(PayloadOf(text, capacidade));
            Undefined in Routes.CooperativaParams(b) <==>
              Trim(text[Rua]) == "" || Trim(text[Numero]) == "" || Trim(text[Bairro]) == ""
              || Trim(text[Cidade]) == "" || text[Uf] == "" || capacidade == None || capacidade == Some(0)
  {
    var p := PayloadOf(text, capacidade);
    BodyOfMissing(p);
  }

  /** With `safe` applied to the optional fields, every valid form is stored. */
  lemma BlankFieldAccepted(text: map<Field, string>, capacidade: Option<nat>)
    requires TextFields <= text.Keys
    ensures Undefined !in Routes.CooperativaParamsSafe(BodyOf(PayloadOf(text, capacidade)))
  {
  }

  lemma NameOnlyPayload()
    ensures PayloadOf(Blank[Nome := "Recicla"], None) == Payload("Recicla", None, None, None, None, None, None)
  {
    var text := Blank[Nome := "Recicla"];
    assert text[Rua] == "" && text[Numero] == "" && text[Bairro] == "" && text[Cidade] == "" && text[Uf] == "";
    assert Trim("") == "";
    assert TrimmedOrNone("") == None;
    assert !IsSpace("Recicla"[0]);
    assert Trim("Recicla") == "Recicla";
  }

  /** A cooperative registered by name only (the payload of
      `NameOnlyPayload`): the handler as written answers 500. */
  method NameOnlyAsWritten() returns (sent: Payload, r: Reply)
    ensures sent == Payload("Recicla", None, None, None, None, None, None)
    ensures r == ServerError
  {
    sent := Payload("Recicla", None, None, None, None, None, None);
    var body := BodyOf(sent);
    assert body.rua == Undefined;
    var cache := new Store.Cache();
    var res := new Store.Resource(Routes.Cooperativas, cache, map[]);
    r := Routes.CreateCooperativa(res, body, "1");
  }

  /** The same registration against the handler with `safe` is stored. */
  method NameOnlyCorrected() returns (sent: Payload, r: Reply)
    ensures sent == Payload("Recicla", None, None, None, None, None, None)
    ensures r == Created(None)
  {
    sent := Payload("Recicla", None, None, None, None, None, None);
    var cache := new Store.Cache();
    var res := new Store.Resource(Routes.Cooperativas, cache, map[]);
    r := Routes.CreateCooperativaSafe(res, BodyOf(sent), "1");
  }

  // ------------------------------------------------------------ the form

  class CooperativaForm {
    var text: map<Field, string>
    var capacidade: Option<nat>
    var errors: map<Field, Issue>
    var success: bool

    predicate Valid()
      reads this
    {
      TextFields <= text.Keys
    }

    constructor ()
      ensures Valid()
      ensures text == Blank && capacidade == None && errors == map[] && !success
    {
      text := Blank;
      capacidade := None;
      errors := map[];
      success := false;
    }

    /** `handleChange`: set one text field and clear that field's error only. */
    method HandleChange(field: Field, value: string)
      requires Valid() && field in TextFields
      modifies this`text, this`errors
      ensures Valid()
      ensures text == old(text)[field := value]
      ensures errors == old(errors) - {field}
    {
      text := text[field := value];
      errors := errors - {field};
    }

    /** `handleNumberChange` on the capacity; errors are left as they are. */
    method HandleNumberChange(value: string)
      modifies this`capacidade
      ensures capacidade == CapacityOf(value)
    {
      capacidade := ParseDigits(value);
    }

    /** `validateForm` */
    method ValidateForm() returns (valid: bool)
      requires Valid()
      modifies this`errors
      ensures errors == FormErrors(text[Nome], text[Uf])
      ensures valid <==> errors == map[]
    {
      var newErrors: map<Field, Issue> := map[];
      var t := Trim(text[Nome]);
      if t == "" {
        newErrors := newErrors[Nome := Required];
      } else if |t| < 3 {
        newErrors := newErrors[Nome := TooShort];
      }
      if text[Uf] != "" && text[Uf] !in Estados {
        newErrors := newErrors[Uf := InvalidUf];
      }
      assert newErrors == FormErrors(text[Nome], text[Uf]);
      errors := newErrors;
      valid := newErrors == map[];
    }

    /** `handleSubmit`. `apiOk` is whether the POST succeeded. An invalid
        form sends nothing; success resets the form, failure records an
        error on the name. */
    method HandleSubmit(apiOk: bool) returns (sent: Option<Payload>)
      requires Valid()
      modifies this
      ensures Valid()
      ensures sent == None <==> old(FormErrors(text[Nome], text[Uf])) != map[]
      ensures sent == None ==> errors == old(FormErrors(text[Nome], text[Uf])) && text == old(text)
                               && capacidade == old(capacidade) && success == old(success)
      ensures sent.Some? ==> sent.value == old(PayloadOf(text, capacidade))
      ensures sent.Some? ==> |sent.value.nome| >= 3
      ensures sent.Some? && apiOk ==>
                success && text == Blank && capacidade == None && errors == map[]
      ensures sent.Some? && !apiOk ==>
                errors == map[Nome := SubmitFailed] && text == old(text) && capacidade == old(capacidade)
                && success == old(success)
    {
      var valid := ValidateForm();
      if !valid {
        return None;
      }
      sent := Some(PayloadOf(text, capacidade));
      if apiOk {
        success := true;
        text := Blank;
        capacidade := None;
      } else {
        errors := map[Nome := SubmitFailed];
      }
    }
  }
}
