/** The waste-receiving form: the input handlers, the body posted to
    `/api/residuos/registrar` (with the collection id taken from the route)
    and the reset after a successful post. */
module ReceberColeta {
  import opened Api
  import opened Text
  import Routes

  datatype Field = IdTipo | Peso | IdCoop | CnpjEmpresa | IdColeta | PesoColetado

  /** The origin radio buttons. */
  datatype Origem = Cooperativa | Empresa | Nenhuma

  /** The initial (and reset) form: every field null, the company's cnpj empty. */
  const Initial: map<Field, JsValue> :=
    map[IdTipo := Null, Peso := Null, IdCoop := Null, CnpjEmpresa := Str(""), IdColeta := Null,
        PesoColetado := Null]

  /** `handleChange`: an empty input is null, anything else the raw text. */
  function TextValue(value: string): (v: JsValue)
    ensures v == Null <==> value == ""
    ensures v != Null ==> v == Str(value)
  {
    if value == "" then Null else Str(value)
  }

  /** `handleNumberChange`: empty is null, otherwise the typed digits as a
      number, or null when there are none. */
  function NumberValue(value: string): (v: JsValue)
    ensures v == Null <==> Digits(value) == ""
    ensures v != Null ==> v == Num(ParseNat(Digits(value)))
  {
    if value == "" then Null
    else match ParseDigits(value)
      case None => Null
      case Some(n) => Num(n)
  }

  /** A decimal weight loses its point: "2.5" is posted as 25. */
  lemma DecimalWeight()
    ensures NumberValue("2.5") == Num(25)
  {
    ParseDecimalPoint();
  }

  /** The body `handleSubmit` posts: the form's fields, the route's id as the
      collection (undefined when the route has none, so the key is dropped),
      and the weight again as the collected weight. */
  function BodyOf(form: map<Field, JsValue>, routeId: Option<string>): (b: Routes.ResiduoBody)
    requires Initial.Keys <= form.Keys
    ensures b.id_tipo == form[IdTipo] && b.peso == form[Peso] && b.id_coop == form[IdCoop]
    ensures b.cnpj_empresa == form[CnpjEmpresa]
    ensures b.id_coleta == if routeId.Some? then Str(routeId.value) else Undefined
    ensures b.peso_coletado == b.peso
  {
    Routes.ResiduoBody(form[IdTipo], form[Peso], form[IdCoop], form[CnpjEmpresa],
                       if routeId.Some? then Str(routeId.value) else Undefined, form[Peso])
  }

  /** The procedure always receives the form's weight as the collected
      weight; the form's own collected-weight field is never sent. */
  lemma CollectedWeightIsWeight(form: map<Field, JsValue>, routeId: Option<string>, procedureOk: bool)
    requires Initial.Keys <= form.Keys
    ensures var o := Routes.Registrar(BodyOf(form, routeId), procedureOk);
            o.call.Some? ==> o.call.value.args[5] == o.call.value.args[1] == form[Peso]
  {
  }

  /** A company cleared from its list leaves `''` in the form, which the
      handler's `|| null` turns into null, as it does the initial value. */
  lemma ClearedEmpresaSentAsNull(form: map<Field, JsValue>, routeId: Option<string>, procedureOk: bool)
    requires Initial.Keys <= form.Keys && form[CnpjEmpresa] == Str("")
    ensures var o := Routes.Registrar(BodyOf(form, routeId), procedureOk);
            o.call.Some? ==> o.call.value.args[3] == Null
  {
  }

  class ReceberForm {
    var form: map<Field, JsValue>
    var origem: Origem
    var success: bool
    /** The routes navigated to so far. */
    var visited: seq<string>

    predicate Valid()
      reads this
    {
      Initial.Keys <= form.Keys
    }

    constructor ()
      ensures Valid()
      ensures form == Initial && origem == Nenhuma && !success && visited == []
    {
      form := Initial;
      origem := Nenhuma;
      success := false;
      visited := [];
    }

    method HandleChange(field: Field, value: string)
      requires Valid()
      modifies this`form
      ensures Valid()
      ensures form == old(form)[field := TextValue(value)]
    {
      form := form[field := TextValue(value)];
    }

    /** `handleNumberChange`, used by the weight fields. */
    method HandleNumberChange(field: Field, value: string)
      requires Valid()
      modifies this`form
      ensures Valid()
      ensures form == old(form)[field := NumberValue(value)]
    {
      if value == "" {
        form := form[field := Null];
      } else {
        var digits := Digits(value);
        form := form[field := if digits != "" then Num(ParseNat(digits)) else Null];
      }
    }

    /** `handleOrigemChange`: only the radio changes; the chosen cooperative
        or company stays in the form. */
    method HandleOrigemChange(o: Origem)
      modifies this`origem
      ensures origem == o
    {
      origem := o;
    }

    /** The waste-type list: the chosen type's numeric id, null when cleared. */
    method SelectTipo(id: Option<int>)
      requires Valid()
      modifies this`form
      ensures Valid()
      ensures form == old(form)[IdTipo := if id.Some? then Num(id.value) else Null]
    {
      form := form[IdTipo := if id.Some? then Num(id.value) else Null];
    }

    /** The cooperative list: the chosen cooperative's numeric id, null when cleared. */
    method SelectCooperativa(id: Option<int>)
      requires Valid()
      modifies this`form
      ensures Valid()
      ensures form == old(form)[IdCoop := if id.Some? then Num(id.value) else Null]
    {
      form := form[IdCoop := if id.Some? then Num(id.value) else Null];
    }

    /** The company list: the chosen company's cnpj, `''` (not null) when cleared. */
    method SelectEmpresa(cnpj: Option<string>)
      requires Valid()
      modifies this`form
      ensures Valid()
      ensures form == old(form)[CnpjEmpresa := if cnpj.Some? then Str(cnpj.value) else Str("")]
    {
      form := form[CnpjEmpresa := if cnpj.Some? then Str(cnpj.value) else Str("")];
    }

    /** `handleSubmit`, against the registering handler: there is no check
        before the post; when the handler answers 201 the form is reset, the
        origin goes back to none and the page navigates to `/receber`; any
        other answer changes nothing. */
    method HandleSubmit(routeId: Option<string>, procedureOk: bool) returns (sent: Routes.ResiduoBody, reply: Reply)
      requires Valid()
      modifies this
      ensures Valid()
      ensures sent == BodyOf(old(form), routeId)
      ensures reply == Routes.Registrar(sent, procedureOk).reply
      ensures reply.Created? <==>
                Truthy(old(form)[IdTipo]) && Truthy(old(form)[Peso]) && routeId.Some? && routeId.value != ""
                && procedureOk
      ensures reply.Created? ==>
                form == Initial && origem == Nenhuma && success && visited == old(visited) + ["/receber"]
      ensures !reply.Created? ==>
                form == old(form) && origem == old(origem) && success == old(success) && visited == old(visited)
    {
      sent := BodyOf(form, routeId);
      reply := Routes.Registrar(sent, procedureOk).reply;
      if reply.Created? {
        success := true;
        form := Initial;
        origem := Nenhuma;
        visited := visited + ["/receber"];
      }
    }
  }
}
