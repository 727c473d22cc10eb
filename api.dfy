/** JavaScript values as they travel through the request bodies and the SQL
    driver, and the HTTP replies the route handlers send. */
module Api {

  datatype Option<+T> = None | Some(value: T)

  /** A JSON-ish JavaScript value. Numbers are integers here; objects and
      arrays never occur in the fields the handlers read. */
  datatype JsValue =
    | Undefined
    | Null
    | Bool(b: bool)
    | Num(n: int)
    | Str(s: string)

  /** JavaScript truthiness (`!v` is `!Truthy(v)`). */
  predicate Truthy(v: JsValue)
  {
    match v
    case Undefined => false
    case Null => false
    case Bool(b) => b
    case Num(n) => n != 0
    case Str(s) => s != ""
  }

  /** `v ?? null`, which the routes call `safe`. */
  function Nullish(v: JsValue): (r: JsValue)
    ensures r != Undefined
    ensures r == Null <==> v == Undefined || v == Null
    ensures v != Undefined && v != Null ==> r == v
  {
    if v == Undefined then Null else v
  }

  /** `v || fallback`. */
  function Or(v: JsValue, fallback: JsValue): (r: JsValue)
    ensures Truthy(v) ==> r == v
    ensures !Truthy(v) ==> r == fallback
  {
    if Truthy(v) then v else fallback
  }

  /** A parsed request body: its entries in `Object.entries` order. */
  type Body = seq<(string, JsValue)>

  function Keys(body: Body): (ks: seq<string>)
    ensures |ks| == |body|
    ensures forall i :: 0 <= i < |body| ==> ks[i] == body[i].0
  {
    if body == [] then [] else [body[0].0] + Keys(body[1..])
  }

  /** `body.field`: the value of the entry named `field`, undefined when absent. */
  function Field(body: Body, field: string): (v: JsValue)
    ensures field !in Keys(body) ==> v == Undefined
  {
    if body == [] then Undefined
    else if body[0].0 == field then body[0].1
    else Field(body[1..], field)
  }

  /** Why a request was answered 400. */
  datatype Rejection =
    | EmptyBody                   // "Nenhum campo enviado para atualização"
    | FieldNotAllowed(key: string) // "Campo não permitido: <key>"
    | MissingFields               // "Campos obrigatórios: ..."
    | MissingLevel                // "Novo nível de acesso é obrigatório"
    | InvalidLevel                // "Nível de acesso inválido ..."

  /** The reply of a route handler. `Ok` carries the `data` of the envelope
      when there is one. */
  datatype Reply =
    | Ok(data: Option<map<string, JsValue>>)
    | Created(data: Option<map<string, JsValue>>)
    | BadRequest(reason: Rejection)
    | Unauthorized
    | NotFound
    | ServerError

  function Status(r: Reply): (code: nat)
    ensures 200 <= code <= 500
  {
    match r
    case Ok(_) => 200
    case Created(_) => 201
    case BadRequest(_) => 400
    case Unauthorized => 401
    case NotFound => 404
    case ServerError => 500
  }
}
