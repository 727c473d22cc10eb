/** The login page: the CPF field masked as typed, the fixed-credential
    check, the session user and the navigation it triggers. */
module LoginPage {
  import opened Api
  import opened Text
  import opened Cpf

  /** The `User` the page stores in the session. */
  datatype SessionUser = SessionUser(cpf: string, isAdm: bool, isUser: bool, isExterno: bool)

  /** The one account the page accepts. */
  const AdminCpf: string := "00000000000"
  const AdminPassword: string := "000"
  const Admin: SessionUser := SessionUser(AdminCpf, true, false, false)

  /** `onVerifcPassword`'s test: the cpf's digits and the password against
      the fixed account. */
  predicate Accepts(cpf: string, password: string)
  {
    Digits(cpf) == AdminCpf && password == AdminPassword
  }

  /** One navigation per true flag, in the order the page issues them. */
  function Navigations(u: SessionUser): (routes: seq<string>)
    ensures "/adm" in routes <==> u.isAdm
    ensures "/home" in routes <==> u.isUser
    ensures "/receber" in routes <==> u.isExterno
    ensures |routes| <= 3
  {
    assert "/adm"[1] != "/home"[1] && "/adm"[1] != "/receber"[1] && "/home"[1] != "/receber"[1];
    (if u.isAdm then ["/adm"] else []) + (if u.isUser then ["/home"] else [])
      + (if u.isExterno then ["/receber"] else [])
  }

  /** The fixed account lands on the administration page only. */
  lemma AdminNavigation()
    ensures Navigations(Admin) == ["/adm"]
  {
  }

  /** Typed through the mask, the fixed account is accepted exactly when the
      first eleven typed digits are zeros: extra digits are cut off before
      the check. */
  lemma AcceptsTyped(typed: string, password: string)
    ensures Accepts(FormatCpf(typed), password) <==> Take(Digits(typed), 11) == AdminCpf && password == AdminPassword
  {
    FormatCpfDigits(typed);
  }

  class LoginScreen {
    var cpf: string
    var password: string
    var erro: bool
    var user: Option<SessionUser>
    /** The routes navigated to so far. */
    var visited: seq<string>

    /** The CPF field only ever holds masked text. */
    predicate Valid()
      reads this
    {
      cpf == FormatCpf(cpf)
    }

    constructor ()
      ensures Valid()
      ensures cpf == "" && password == "" && !erro && user == None && visited == []
    {
      cpf, password := "", "";
      erro := false;
      user := None;
      visited := [];
    }

    /** The CPF field's `onChange`. */
    method ChangeCpf(value: string)
      modifies this`cpf
      ensures cpf == FormatCpf(value)
      ensures Valid()
    {
      cpf := FormatCpf(value);
      FormatCpfIdempotent(value);
    }

    method ChangePassword(value: string)
      modifies this`password
      ensures password == value
    {
      password := value;
    }

    /** `handleSubmit`: the fixed account sets the session user and
        navigates by its flags; anything else raises the error flag and keeps
        the user; both fields are cleared either way. */
    method HandleSubmit() returns (accepted: bool)
      modifies this
      ensures accepted <==> Accepts(old(cpf), old(password))
      ensures accepted ==> user == Some(Admin) && visited == old(visited) + Navigations(Admin) && erro == old(erro)
      ensures !accepted ==> erro && user == old(user) && visited == old(visited)
      ensures cpf == "" && password == ""
      ensures Valid()
    {
      accepted := Digits(cpf) == AdminCpf && password == AdminPassword;
      if accepted {
        user := Some(Admin);
        visited := visited + Navigations(Admin);
      } else {
        erro := true;
      }
      cpf, password := "", "";
    }
  }
}
