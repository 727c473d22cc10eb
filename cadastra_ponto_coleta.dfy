/** The collection-point registration form: the location check, the
    digits-only capacity, the waste type chosen from a list, and the payload
    that sends the type's id. */
module CadastraPontoColeta {
  import opened Api
  import opened Text
  import Routes

  /** A waste type as the type list returns it. */
  datatype TipoResiduo = TipoResiduo(id_tipo: Option<nat>, nome: string)

  datatype Field = Localizacao | Capacidade | Tipo

  datatype Issue = Required | TooShort | SubmitFailed

  /** What `creatPontoColeta` posts. */
  datatype Payload = Payload(localizacao: string, capacidade: Option<nat>, tipo: string)

  /** `handleCapacidadeChange`: empty gives undefined, otherwise the typed
      digits as a number, or undefined when there are none. */
  function CapacityOf(typed: string): (c: Option<nat>)
    ensures c == None <==> Digits(typed) == ""
    ensures c.Some? ==> c.value == ParseNat(Digits(typed))
  {
    if typed == "" then None else ParseDigits(typed)
  }

  /** The empty-input branch is the digit parse's own result on "". */
  lemma CapacityIsParse(typed: string)
    ensures CapacityOf(typed) == ParseDigits(typed)
  {
  }

  /** `String(id_tipo)`: the decimal id, or "undefined" when the type has none. */
  function TipoString(id: Option<nat>): (s: string)
    ensures s != ""
    ensures id.Some? ==> AllDigits(s) && ParseNat(s) == id.value
  {
    match id
    case None => "undefined"
    case Some(n) => ParseNatToString(n); NatToString(n)
  }

  /** The errors `validateForm` records: the trimmed location must have five
      characters; the type selection is not checked. */
  function FormErrors(localizacao: string): (errs: map<Field, Issue>)
    ensures Localizacao in errs <==> |Trim(localizacao)| < 5
    ensures Localizacao in errs ==> errs[Localizacao] == (if Trim(localizacao) == "" then Required else TooShort)
    ensures errs.Keys <= {Localizacao}
  {
    var t := Trim(localizacao);
    if t == "" then map[Localizacao := Required]
    else if |t| < 5 then map[Localizacao := TooShort]
    else map[]
  }

  /** What the POST handler receives for a payload. */
  function CapacityJson(c: Option<nat>): JsValue
  {
    match c
    case None => Undefined
    case Some(n) => Num(n)
  }

  /** A payload that passed `validateForm` always gets past the handler's
      required-field check, and a missing or zero capacity reaches the
      procedure as null. */
  lemma PayloadAccepted(p: Payload, procedureOk: bool)
    requires |p.localizacao| >= 5 && p.tipo != ""
    ensures var o := Routes.CadastraPonto(Str(p.localizacao), CapacityJson(p.capacidade), Str(p.tipo), procedureOk);
            && o.call.Some?
            && o.call.value.args[0] == Str(p.localizacao) && o.call.value.args[2] == Str(p.tipo)
            && (o.call.value.args[1] == Null <==> p.capacidade == None || p.capacidade == Some(0))
  {
  }

  class PontoForm {
    var localizacao: string
    var capacidade: Option<nat>
    var tipo: string
    var selected: Option<TipoResiduo>
    var errors: map<Field, Issue>
    var success: bool

    /** The effect on `selectedTipo`: `tipo` mirrors the selected type's name. */
    predicate Valid()
      reads this
    {
      tipo == if selected.Some? then selected.value.nome else ""
    }

    constructor ()
      ensures Valid()
      ensures localizacao == "" && capacidade == None && tipo == "" && selected == None
      ensures errors == map[] && !success
    {
      localizacao, capacidade, tipo := "", None, "";
      selected := None;
      errors := map[];
      success := false;
    }

    /** `handleChange('localizacao')` */
    method HandleChange(value: string)
      modifies this`localizacao, this`errors
      ensures localizacao == value
      ensures errors == old(errors) - {Localizacao}
    {
      localizacao := value;
      errors := errors - {Localizacao};
    }

    /** `handleCapacidadeChange` */
    method HandleCapacidadeChange(value: string)
      modifies this`capacidade
      ensures capacidade == CapacityOf(value)
    {
      if value == "" {
        capacidade := None;
      } else {
        capacidade := ParseDigits(value);
      }
    }

    /** Choosing a type in the list, followed by the effect that copies its
        name into `tipo`. */
    method SelectTipo(t: Option<TipoResiduo>)
      modifies this`selected, this`tipo
      ensures Valid()
      ensures selected == t
    {
      selected := t;
      tipo := if t.Some? then t.value.nome else "";
    }

    /** `validateForm` */
    method ValidateForm() returns (valid: bool)
      modifies this`errors
      ensures errors == FormErrors(localizacao)
      ensures valid <==> errors == map[]
    {
      var newErrors: map<Field, Issue> := map[];
      var t := Trim(localizacao);
      if t == "" {
        newErrors := newErrors[Localizacao := Required];
      } else if |t| < 5 {
        newErrors := newErrors[Localizacao := TooShort];
      }
      errors := newErrors;
      valid := newErrors == map[];
    }

    /** `handleSubmit`. `apiOk` is whether the POST succeeded. With no type
        selected, reading its id throws before anything is sent and the
        error lands on the location; success clears the form and the
        selection. */
    method HandleSubmit(apiOk: bool) returns (sent: Option<Payload>)
      requires Valid()
      modifies this
      ensures Valid()
      ensures old(FormErrors(localizacao)) != map[] ==>
                sent == None && errors == old(FormErrors(localizacao)) && localizacao == old(localizacao)
                && capacidade == old(capacidade) && selected == old(selected) && success == old(success)
      ensures old(FormErrors(localizacao)) == map[] && old(selected) == None ==>
                sent == None && errors == map[Localizacao := SubmitFailed] && localizacao == old(localizacao)
                && capacidade == old(capacidade) && selected == old(selected) && success == old(success)
      ensures sent.Some? <==> old(FormErrors(localizacao)) == map[] && old(selected).Some?
      ensures sent.Some? ==>
                sent.value == Payload(Trim(old(localizacao)), old(capacidade), TipoString(old(selected).value.id_tipo))
      ensures sent.Some? ==> |sent.value.localizacao| >= 5 && sent.value.tipo != ""
      ensures sent.Some? && apiOk ==>
                success && localizacao == "" && capacidade == None && selected == None && errors == map[]
      ensures sent.Some? && !apiOk ==>
                errors == map[Localizacao := SubmitFailed] && localizacao == old(localizacao)
                && capacidade == old(capacidade) && selected == old(selected) && success == old(success)
    {
      var valid := ValidateForm();
      if !valid {
        return None;
      }
      if selected == None {
        errors := map[Localizacao := SubmitFailed];
        return None;
      }
      sent := Some(Payload(Trim(localizacao), capacidade, TipoString(selected.value.id_tipo)));
      if apiOk {
        success := true;
        localizacao, capacidade := "", None;
        selected, tipo := None, "";
      } else {
        errors := map[Localizacao := SubmitFailed];
      }
    }
  }
}
