/** The six resource routers: their schemas (table, key, cache prefix,
    PATCH allow-list, DELETE invalidation), the parameters each POST handler
    binds, and the arguments of the two stored procedures. */
module Routes {
  import opened Api
  import opened Text
  import opened Store

  // ------------------------------------------------------------ schemas

  const Pessoas: Schema :=
    Schema("pessoa", "cpf", "pessoa", ["nome", "email", "idade", "endereco_numero"], "pessoa")

  const Empresas: Schema :=
    Schema("empresa", "cnpj", "empresa", ["razao_social", "area_atuacao"], "empresa")

  /** As written: the DELETE handler drops `pessoa:<id>`. */
  const Cooperativas: Schema :=
    Schema("cooperativa", "id_coop", "cooperativa",
           ["nome", "endereco_rua", "endereco_numero", "endereco_bairro",
            "endereco_cidade", "endereco_uf", "capacidade_processamento"],
           "pessoa")

  /** The cooperativa router with its DELETE dropping its own key. */
  const CooperativasCorrected: Schema := Cooperativas.(deletePrefix := "cooperativa")

  const PontosColeta: Schema :=
    Schema("ponto_coleta", "id_ponto", "ponto-coleta", ["localizacao", "capacidade"], "ponto-coleta")

  const Residuos: Schema :=
    Schema("residuo", "id_residuo", "residuo", ["id_tipo", "peso", "id_coop", "cnpj_empresa"], "residuo")

  const Coletas: Schema :=
    Schema("coleta", "id_coleta", "coleta", ["data", "status"], "coleta")

  /** Every router's names are free of `?` and none lets PATCH rewrite its
      primary key. */
  lemma PessoasWellFormed()
    ensures WellFormed(Pessoas)
  {
    assert "cpf"[0] == 'c';
    assert forall k :: k in Pessoas.allowed ==> k[0] != 'c';
  }

  lemma EmpresasWellFormed()
    ensures WellFormed(Empresas)
  {
    assert "cnpj"[0] == 'c';
    assert forall k :: k in Empresas.allowed ==> k[0] != 'c';
  }

  lemma CooperativasWellFormed()
    ensures WellFormed(Cooperativas) && WellFormed(CooperativasCorrected)
  {
    CooperativaColumnsPlain();
    assert "id_coop" !in Cooperativas.allowed by {
      assert forall k :: k in Cooperativas.allowed ==> k[0] != 'i';
    }
  }

  lemma CooperativaColumnsPlain()
    ensures forall k :: k in Cooperativas.allowed ==> '?' !in k
  {
    assert '?' !in "nome" && '?' !in "endereco_rua" && '?' !in "endereco_numero";
    assert '?' !in "endereco_bairro" && '?' !in "endereco_cidade" && '?' !in "endereco_uf";
    assert '?' !in "capacidade_processamento";
  }

  lemma PontosColetaWellFormed()
    ensures WellFormed(PontosColeta)
  {
    assert "id_ponto"[0] == 'i';
    assert forall k :: k in PontosColeta.allowed ==> k[0] != 'i';
  }

  lemma ResiduosWellFormed()
    ensures WellFormed(Residuos)
  {
    assert '?' !in "id_tipo" && '?' !in "peso" && '?' !in "id_coop" && '?' !in "cnpj_empresa";
    assert "id_residuo" != "id_tipo" by { assert "id_residuo"[3] != "id_tipo"[3]; }
    assert "id_residuo" != "id_coop" by { assert "id_residuo"[3] != "id_coop"[3]; }
    assert "id_residuo" != "peso" by { assert "id_residuo"[0] != "peso"[0]; }
    assert "id_residuo" != "cnpj_empresa" by { assert "id_residuo"[0] != "cnpj_empresa"[0]; }
  }

  lemma ColetasWellFormed()
    ensures WellFormed(Coletas)
  {
    assert "id_coleta"[0] == 'i';
    assert forall k :: k in Coletas.allowed ==> k[0] != 'i';
  }

  /** All routers but the cooperativa one invalidate on DELETE the key their
      GET fills. */
  lemma DeletePrefixes()
    ensures Pessoas.deletePrefix == Pessoas.prefix && Empresas.deletePrefix == Empresas.prefix
    ensures PontosColeta.deletePrefix == PontosColeta.prefix && Residuos.deletePrefix == Residuos.prefix
    ensures Coletas.deletePrefix == Coletas.prefix
    ensures Cooperativas.deletePrefix != Cooperativas.prefix
    ensures CooperativasCorrected.deletePrefix == CooperativasCorrected.prefix
  {
    assert "pessoa"[0] != "cooperativa"[0];
  }

  /** The coleta guard checks names only: any status value, inside the four
      statuses or not, passes it. */
  lemma ColetaStatusUnchecked(v: JsValue)
    ensures FirstOutside([("status", v)], Coletas.allowed) == None
  {
    assert "status" in Coletas.allowed;
  }

  /** The ponto-coleta guard refuses the type the POST accepts. */
  lemma PontoTipoRefused(v: JsValue)
    ensures FirstOutside([("tipo", v)], PontosColeta.allowed) == Some("tipo")
  {
    assert "tipo"[0] != "localizacao"[0] && "tipo"[0] != "capacidade"[0];
  }

  /** The pessoa guard lets `idade` through. */
  lemma PessoaIdadeAccepted(v: JsValue)
    ensures FirstOutside([("idade", v)], Pessoas.allowed) == None
  {
    assert "idade" in Pessoas.allowed;
  }

  // ------------------------------------------------------------ POST bodies

  /** `POST /api/pessoas/cadastra`: the `Pessoa` body; `cpf` and `nome` are
      declared strings, the rest optional. */
  datatype PessoaBody = PessoaBody(
    cpf: string, nome: string,
    rua: JsValue, numero: JsValue, bairro: JsValue, cidade: JsValue, uf: JsValue,
    nascimento: JsValue, telefone: JsValue, email: JsValue)

  const PessoaColumns: seq<string> :=
    ["cpf", "nome", "endereco_rua", "endereco_numero", "endereco_bairro", "endereco_cidade",
     "endereco_uf", "data_nascimento", "telefone", "email"]

  /** Every optional column goes through `safe` except `data_nascimento`,
      so a body without a birth date is the one body the driver refuses. */
  function PessoaParams(b: PessoaBody): (ps: seq<JsValue>)
    ensures |ps| == |PessoaColumns|
    ensures Undefined in ps <==> b.nascimento == Undefined
    ensures ps[0] == Str(b.cpf) && ps[1] == Str(b.nome)
    ensures forall i :: 2 <= i < |ps| && i != 7 ==> ps[i] != Undefined
  {
    [Str(b.cpf), Str(b.nome), Nullish(b.rua), Nullish(b.numero), Nullish(b.bairro),
     Nullish(b.cidade), Nullish(b.uf), b.nascimento, Nullish(b.telefone), Nullish(b.email)]
  }

  /** `POST /api/empresas/cadastra` */
  datatype EmpresaBody = EmpresaBody(cnpj: string, razao_social: string, area_atuacao: JsValue)

  const EmpresaColumns: seq<string> := ["cnpj", "razao_social", "area_atuacao"]

  /** Exactly `(cnpj, razao_social, area_atuacao)`, the last one unguarded. */
  function EmpresaParams(b: EmpresaBody): (ps: seq<JsValue>)
    ensures |ps| == |EmpresaColumns|
    ensures Undefined in ps <==> b.area_atuacao == Undefined
    ensures ps[0] == Str(b.cnpj) && ps[1] == Str(b.razao_social) && ps[2] == b.area_atuacao
  {
    [Str(b.cnpj), Str(b.razao_social), b.area_atuacao]
  }

  /** `POST /api/cooperativas/cadastra`; `id_coop` comes from AUTO_INCREMENT. */
  datatype CooperativaBody = CooperativaBody(
    nome: string, rua: JsValue, numero: JsValue, bairro: JsValue, cidade: JsValue, uf: JsValue,
    capacidade: JsValue)

  const CooperativaColumns: seq<string> :=
    ["nome", "endereco_rua", "endereco_numero", "endereco_bairro", "endereco_cidade",
     "endereco_uf", "capacidade_processamento"]

  /** Some optional field of the body is undefined. */
  predicate MissingOptional(b: CooperativaBody)
  {
    b.rua == Undefined || b.numero == Undefined || b.bairro == Undefined
    || b.cidade == Undefined || b.uf == Undefined || b.capacidade == Undefined
  }

  /** No column goes through `safe`: any missing optional field is refused. */
  function CooperativaParams(b: CooperativaBody): (ps: seq<JsValue>)
    ensures |ps| == |CooperativaColumns|
    ensures Undefined in ps <==> MissingOptional(b)
    ensures ps[0] == Str(b.nome)
  {
    [Str(b.nome), b.rua, b.numero, b.bairro, b.cidade, b.uf, b.capacidade]
  }

  /** The cooperativa parameters with `safe` on every optional field, as the
      pessoa handler binds its own. */
  function CooperativaParamsSafe(b: CooperativaBody): (ps: seq<JsValue>)
    ensures |ps| == |CooperativaColumns|
    ensures Undefined !in ps
    ensures ps[0] == Str(b.nome)
    ensures forall i :: 1 <= i < |ps| ==> (ps[i] == Null <==> CooperativaParams(b)[i] in {Undefined, Null})
  {
    [Str(b.nome), Nullish(b.rua), Nullish(b.numero), Nullish(b.bairro), Nullish(b.cidade),
     Nullish(b.uf), Nullish(b.capacidade)]
  }

  /** `POST /api/coletas/coleta-cadastro`. */
  datatype ColetaBody = ColetaBody(data: string, status: string, cpf: string, id_ponto: JsValue)

  const ColetaColumns: seq<string> := ["data", "status", "cpf", "id_ponto"]

  /** The date converted by `isoToMySQL` (given here as `mysqlDate`), the
      fixed status, the person and the point, bound raw: the body's status
      is ignored, and a body without a point is the one the driver refuses. */
  function ColetaParams(b: ColetaBody, mysqlDate: string): (ps: seq<JsValue>)
    ensures |ps| == |ColetaColumns|
    ensures Undefined in ps <==> b.id_ponto == Undefined
    ensures ps[3] == b.id_ponto
  {
    [Str(mysqlDate), Str("agendada"), Str(b.cpf), b.id_ponto]
  }

  /** Whatever status the body carries, a created coleta is `agendada`. */
  lemma ColetaCreatedScheduled(b: ColetaBody, mysqlDate: string)
    ensures "status" in RowOf(ColetaColumns, ColetaParams(b, mysqlDate))
    ensures RowOf(ColetaColumns, ColetaParams(b, mysqlDate))["status"] == Str("agendada")
    ensures RowOf(ColetaColumns, ColetaParams(b, mysqlDate))["cpf"] == Str(b.cpf)
    ensures RowOf(ColetaColumns, ColetaParams(b, mysqlDate))["id_ponto"] == b.id_ponto
  {
    assert forall j, k :: 0 <= j < k < |ColetaColumns| ==> ColetaColumns[j][0] != ColetaColumns[k][0];
    RowOfAt(ColetaColumns, ColetaParams(b, mysqlDate), 1);
    RowOfAt(ColetaColumns, ColetaParams(b, mysqlDate), 2);
    RowOfAt(ColetaColumns, ColetaParams(b, mysqlDate), 3);
  }

  /** The POST handlers: bind the parameters, insert, reply 201. The pessoa
      handler's 201 carries the new cpf. */
  method CreatePessoa(res: Resource, b: PessoaBody) returns (r: Reply)
    requires res.schema == Pessoas
    modifies res`table, res`log
    ensures b.nascimento == Undefined ==> r == ServerError && res.table == old(res.table)
    ensures b.nascimento != Undefined && b.cpf in old(res.table) ==> r == ServerError && res.table == old(res.table)
    ensures b.nascimento != Undefined && b.cpf !in old(res.table) ==>
              && r == Created(Some(map["cpf" := Str(b.cpf)]))
              && res.table == old(res.table)[b.cpf := RowOf(PessoaColumns, PessoaParams(b))]
  {
    r := res.Insert(b.cpf, PessoaColumns, PessoaParams(b));
    if r.Created? {
      r := Created(Some(map["cpf" := Str(b.cpf)]));
    }
  }

  method CreateEmpresa(res: Resource, b: EmpresaBody) returns (r: Reply)
    requires res.schema == Empresas
    modifies res`table, res`log
    ensures b.area_atuacao == Undefined ==> r == ServerError && res.table == old(res.table)
    ensures b.area_atuacao != Undefined && b.cnpj in old(res.table) ==> r == ServerError && res.table == old(res.table)
    ensures b.area_atuacao != Undefined && b.cnpj !in old(res.table) ==>
              r == Created(None) && res.table == old(res.table)[b.cnpj := RowOf(EmpresaColumns, EmpresaParams(b))]
  {
    r := res.Insert(b.cnpj, EmpresaColumns, EmpresaParams(b));
  }

  /** `newId` is the id AUTO_INCREMENT assigns. */
  method CreateCooperativa(res: Resource, b: CooperativaBody, newId: string) returns (r: Reply)
    requires res.schema == Cooperativas
    modifies res`table, res`log
    ensures Undefined in CooperativaParams(b) ==> r == ServerError && res.table == old(res.table)
    ensures Undefined !in CooperativaParams(b) && newId in old(res.table) ==>
              r == ServerError && res.table == old(res.table)
    ensures Undefined !in CooperativaParams(b) && newId !in old(res.table) ==>
              r == Created(None) && res.table == old(res.table)[newId := RowOf(CooperativaColumns, CooperativaParams(b))]
  {
    r := res.Insert(newId, CooperativaColumns, CooperativaParams(b));
  }

  /** The cooperativa POST with `safe` on the optional fields: any body
      with a name is stored under a fresh id. */
  method CreateCooperativaSafe(res: Resource, b: CooperativaBody, newId: string) returns (r: Reply)
    requires res.schema == Cooperativas
    modifies res`table, res`log
    ensures newId !in old(res.table) ==>
              r == Created(None) && res.table == old(res.table)[newId := RowOf(CooperativaColumns, CooperativaParamsSafe(b))]
    ensures newId in old(res.table) ==> r == ServerError && res.table == old(res.table)
  {
    r := res.Insert(newId, CooperativaColumns, CooperativaParamsSafe(b));
  }

  /** A body without a point is 500; otherwise the fresh id gets the row,
      scheduled whatever status the body asked for. */
  method CreateColeta(res: Resource, b: ColetaBody, mysqlDate: string, newId: string) returns (r: Reply)
    requires res.schema == Coletas
    modifies res`table, res`log
    ensures b.id_ponto == Undefined ==> r == ServerError && res.table == old(res.table)
    ensures b.id_ponto != Undefined && newId in old(res.table) ==> r == ServerError && res.table == old(res.table)
    ensures b.id_ponto != Undefined && newId !in old(res.table) ==>
              && r == Created(None)
              && res.table == old(res.table)[newId := RowOf(ColetaColumns, ColetaParams(b, mysqlDate))]
              && "status" in res.table[newId] && res.table[newId]["status"] == Str("agendada")
  {
    ColetaCreatedScheduled(b, mysqlDate);
    r := res.Insert(newId, ColetaColumns, ColetaParams(b, mysqlDate));
  }

  // ------------------------------------------------------------ stored procedures

  /** A call of a stored procedure; what the procedure does is not modelled. */
  datatype Call = Call(procedure: string, args: seq<JsValue>)

  /** A handler's reply and the procedure it called, if any. */
  datatype Outcome = Outcome(reply: Reply, call: Option<Call>)

  /** `POST /api/pontos-coleta/cadastra`. `procedureOk` is whether the
      procedure succeeded. */
  function CadastraPonto(localizacao: JsValue, capacidade: JsValue, tipo: JsValue, procedureOk: bool): (o: Outcome)
    ensures o.call == None <==> !Truthy(localizacao) || !Truthy(tipo)
    ensures o.call == None ==> o.reply == BadRequest(MissingFields)
    ensures o.call.Some? ==>
              && o.call.value.procedure == "cadastrar_ponto_com_tipo"
              && |o.call.value.args| == 3
              && o.call.value.args[0] == localizacao && o.call.value.args[2] == tipo
              && (o.call.value.args[1] == Null <==> !Truthy(capacidade))
              && (Truthy(capacidade) ==> o.call.value.args[1] == capacidade)
              && Undefined !in o.call.value.args
    ensures o.call.Some? && procedureOk ==>
              o.reply == Created(Some(map["localizacao" := localizacao, "capacidade" := capacidade, "tipo" := tipo]))
    ensures o.call.Some? && !procedureOk ==> o.reply == ServerError
  {
    if !Truthy(localizacao) || !Truthy(tipo) then
      Outcome(BadRequest(MissingFields), None)
    else
      var call := Call("cadastrar_ponto_com_tipo", [localizacao, Or(capacidade, Null), tipo]);
      if procedureOk then
        Outcome(Created(Some(map["localizacao" := localizacao, "capacidade" := capacidade, "tipo" := tipo])), Some(call))
      else
        Outcome(ServerError, Some(call))
  }

  /** The body of `POST /api/residuos/registrar`. */
  datatype ResiduoBody = ResiduoBody(
    id_tipo: JsValue, peso: JsValue, id_coop: JsValue, cnpj_empresa: JsValue,
    id_coleta: JsValue, peso_coletado: JsValue)

  /** `POST /api/residuos/registrar`: 400 unless `id_tipo`, `peso` and
      `id_coleta` are all truthy (so 0 is refused); otherwise the procedure
      gets null for a falsy `id_coop` or `cnpj_empresa` and `peso` for a falsy
      `peso_coletado`. It takes no cache, so it reads and drops no cache key. */
  function Registrar(b: ResiduoBody, procedureOk: bool): (o: Outcome)
    ensures o.call == None <==> !Truthy(b.id_tipo) || !Truthy(b.peso) || !Truthy(b.id_coleta)
    ensures o.call == None ==> o.reply == BadRequest(MissingFields)
    ensures o.call.Some? ==>
              && o.call.value.procedure == "cadastrar_residuo_e_finalizar_coleta"
              && |o.call.value.args| == 6
              && o.call.value.args[0] == b.id_tipo && o.call.value.args[1] == b.peso
              && o.call.value.args[4] == b.id_coleta
              && (o.call.value.args[2] == Null <==> !Truthy(b.id_coop))
              && (Truthy(b.id_coop) ==> o.call.value.args[2] == b.id_coop)
              && (o.call.value.args[3] == Null <==> !Truthy(b.cnpj_empresa))
              && (Truthy(b.cnpj_empresa) ==> o.call.value.args[3] == b.cnpj_empresa)
              && o.call.value.args[5] == (if Truthy(b.peso_coletado) then b.peso_coletado else b.peso)
              && Truthy(o.call.value.args[5])
              && Undefined !in o.call.value.args
    ensures o.call.Some? ==> o.reply == (if procedureOk then Created(None) else ServerError)
  {
    if !Truthy(b.id_tipo) || !Truthy(b.peso) || !Truthy(b.id_coleta) then
      Outcome(BadRequest(MissingFields), None)
    else
      var args := [b.id_tipo, b.peso, Or(b.id_coop, Null), Or(b.cnpj_empresa, Null), b.id_coleta,
                   Or(b.peso_coletado, b.peso)];
      Outcome(if procedureOk then Created(None) else ServerError,
              Some(Call("cadastrar_residuo_e_finalizar_coleta", args)))
  }

  // ------------------------------------------------------------ the cooperativa DELETE

  /** As written, a cooperativa that was read (and so cached) before its
      DELETE is still served by GET afterwards, although its row is gone. */
  method StaleCooperativaAfterDelete() returns (before: Reply, deleted: Reply, after: Reply, rowGone: bool)
    ensures before == Ok(Some(map["nome" := Str("Recicla")]))
    ensures deleted == Ok(None)
    ensures after == before
    ensures rowGone
  {
    var cache := new Cache();
    var row := map["nome" := Str("Recicla")];
    var res := new Resource(Cooperativas, cache, map["7" := row]);
    before := res.Get("7", 0);
    deleted := res.Delete("7");
    assert "pessoa:7" != "cooperativa:7" by { assert "pessoa:7"[0] != "cooperativa:7"[0]; }
    after := res.Get("7", 1);
    rowGone := "7" !in res.table;
  }

  /** With the DELETE dropping `cooperativa:<id>`, the same sequence ends in 404. */
  method CorrectedCooperativaDelete() returns (before: Reply, deleted: Reply, after: Reply)
    ensures before == Ok(Some(map["nome" := Str("Recicla")]))
    ensures deleted == Ok(None)
    ensures after == NotFound
  {
    var cache := new Cache();
    var row := map["nome" := Str("Recicla")];
    var res := new Resource(CooperativasCorrected, cache, map["7" := row]);
    before := res.Get("7", 0);
    deleted, after := DeleteThenGet(res, "7", 1);
  }
}
