/** `POST /login` and `PATCH /nivel-acesso/:cpf`: the login decision over
    the `grupos_usuarios` table (joined with `pessoa` for the name) and the
    closed-enum access-level update. */
module Auth {
  import opened Api
  import opened Text

  /** A row of `grupos_usuarios`, keyed by the digits of its cpf. */
  datatype Account = Account(id: int, nivel: string, senha: string)

  /** The `user` object of a successful login. */
  datatype UserData = UserData(
    id: int, cpf: string, nome: string,
    isAdm: bool, isUser: bool, isExterno: bool, nivel: string)

  /** The reply of `POST /login`: a refusal, or the user. */
  datatype LoginOutcome = Refused(reply: Reply) | LoggedIn(user: UserData)

  /** The three access levels `nivel-acesso` accepts. */
  const Levels: seq<string> := ["adm", "usuario", "externo"]

  /** The user object built from a row: one flag per level, set by equality. */
  function UserOf(cpf: string, account: Account, nome: string): (u: UserData)
    ensures u.id == account.id && u.cpf == cpf && u.nome == nome && u.nivel == account.nivel
    ensures u.isAdm <==> account.nivel == "adm"
    ensures u.isUser <==> account.nivel == "usuario"
    ensures u.isExterno <==> account.nivel == "externo"
    ensures !(u.isAdm && u.isUser) && !(u.isAdm && u.isExterno) && !(u.isUser && u.isExterno)
    ensures (u.isAdm || u.isUser || u.isExterno) <==> account.nivel in Levels
  {
    assert "adm"[0] != "usuario"[0] && "adm"[0] != "externo"[0] && "usuario"[0] != "externo"[0];
    UserData(account.id, cpf, nome, account.nivel == "adm", account.nivel == "usuario",
             account.nivel == "externo", account.nivel)
  }

  /** `POST /login`. `accounts` is `grupos_usuarios`, `names` the `nome`
      column of `pessoa`; the INNER JOIN finds a cpf only when both hold it.
      A truthy cpf that is not a string makes `cpf.replace` throw (500). */
  function Login(accounts: map<string, Account>, names: map<string, string>, cpf: JsValue, password: JsValue)
    : (o: LoginOutcome)
    ensures !Truthy(cpf) || !Truthy(password) ==> o == Refused(BadRequest(MissingFields))
    ensures Truthy(cpf) && Truthy(password) && !cpf.Str? ==> o == Refused(ServerError)
    ensures o.LoggedIn? <==>
              && Truthy(cpf) && Truthy(password) && cpf.Str?
              && Digits(cpf.s) in accounts && Digits(cpf.s) in names
              && password == Str(accounts[Digits(cpf.s)].senha)
    ensures o.Refused? ==> o.reply in {BadRequest(MissingFields), ServerError, Unauthorized}
    ensures Truthy(cpf) && Truthy(password) && cpf.Str? && !o.LoggedIn? ==> o == Refused(Unauthorized)
    ensures o.LoggedIn? ==> o.user == UserOf(Digits(cpf.s), accounts[Digits(cpf.s)], names[Digits(cpf.s)])
  {
    if !Truthy(cpf) || !Truthy(password) then Refused(BadRequest(MissingFields))
    else if !cpf.Str? then Refused(ServerError)
    else
      var key := Digits(cpf.s);
      if key !in accounts || key !in names then Refused(Unauthorized)
      else if password != Str(accounts[key].senha) then Refused(Unauthorized)
      else LoggedIn(UserOf(key, accounts[key], names[key]))
  }

  /** An unknown cpf (missing from either side of the join) and a wrong
      password get the very same reply. */
  lemma UnknownAndWrongPasswordAlike(accounts: map<string, Account>, names: map<string, string>,
                                     cpf: string, password: JsValue)
    requires cpf != "" && Truthy(password)
    ensures Digits(cpf) !in accounts || Digits(cpf) !in names ==>
              Login(accounts, names, Str(cpf), password) == Refused(Unauthorized)
    ensures Digits(cpf) in accounts && Digits(cpf) in names && password != Str(accounts[Digits(cpf)].senha) ==>
              Login(accounts, names, Str(cpf), password) == Refused(Unauthorized)
  {
  }

  /** The cpf is looked up by its digits: a formatted cpf and its bare digits
      get the same reply. */
  lemma LoginIgnoresPunctuation(accounts: map<string, Account>, names: map<string, string>,
                                cpf: string, password: JsValue)
    requires Digits(cpf) != ""
    ensures Login(accounts, names, Str(cpf), password) == Login(accounts, names, Str(Digits(cpf)), password)
  {
    DigitsIdempotent(cpf);
    assert cpf != "";
  }

  /** After the level of an account changes, its next login carries the new
      level and the flag that goes with it. */
  lemma LoginReflectsLevel(accounts: map<string, Account>, names: map<string, string>,
                           cpf: string, password: JsValue, level: string)
    requires Login(accounts, names, Str(cpf), password).LoggedIn?
    requires level in Levels
    ensures var key := Digits(cpf);
            var o := Login(accounts[key := accounts[key].(nivel := level)], names, Str(cpf), password);
            && o.LoggedIn? && o.user.nivel == level
            && (o.user.isAdm <==> level == "adm")
            && (o.user.isUser <==> level == "usuario")
            && (o.user.isExterno <==> level == "externo")
            && (o.user.isAdm || o.user.isUser || o.user.isExterno)
  {
  }

  /** The `grupos_usuarios` table, as `PATCH /nivel-acesso/:cpf` updates it. */
  class UserGroups {
    var accounts: map<string, Account>
    /** The cpfs this handler has looked up in MySQL. */
    ghost var lookups: seq<string>

    constructor (accounts: map<string, Account>)
      ensures this.accounts == accounts && lookups == []
    {
      this.accounts := accounts;
      lookups := [];
    }

    /** A missing or unlisted level is 400 before any lookup; an unknown cpf
        (by its digits) is 404; otherwise only that account's level changes. */
    method UpdateLevel(cpf: string, level: JsValue) returns (r: Reply)
      modifies this
      ensures !Truthy(level) ==> r == BadRequest(MissingLevel)
      ensures Truthy(level) && !(level.Str? && level.s in Levels) ==> r == BadRequest(InvalidLevel)
      ensures r.BadRequest? ==> accounts == old(accounts) && lookups == old(lookups)
      ensures !r.BadRequest? ==> lookups == old(lookups) + [Digits(cpf)]
      ensures !r.BadRequest? && Digits(cpf) !in old(accounts) ==> r == NotFound && accounts == old(accounts)
      ensures !r.BadRequest? && Digits(cpf) in old(accounts) ==>
                && r == Ok(None)
                && accounts == old(accounts)[Digits(cpf) := old(accounts)[Digits(cpf)].(nivel := level.s)]
      ensures r == Ok(None) ==> level.Str? && level.s in Levels
    {
      if !Truthy(level) {
        return BadRequest(MissingLevel);
      }
      if !(level.Str? && level.s in Levels) {
        return BadRequest(InvalidLevel);
      }
      var key := Digits(cpf);
      lookups := lookups + [key];
      if key !in accounts {
        return NotFound;
      }
      accounts := accounts[key := accounts[key].(nivel := level.s)];
      return Ok(None);
    }
  }
}
